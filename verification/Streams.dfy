/** Subsequences of a history. */
module Streams {

  /** `a` can be obtained from `b` by leaving entries out. */
  ghost predicate Subsequence<T(!new)>(a: seq<T>, b: seq<T>) {
    a == [] ||
    (b != [] && ((a[|a| - 1] == b[|b| - 1] && Subsequence(a[..|a| - 1], b[..|b| - 1])) || Subsequence(a, b[..|b| - 1])))
  }

  lemma {:induction false} SubsequenceReflexive<T(!new)>(a: seq<T>)
    ensures Subsequence(a, a)
  {
    if a != [] { SubsequenceReflexive(a[..|a| - 1]); }
  }

  lemma {:induction false} SubsequenceDropLast<T(!new)>(a: seq<T>, x: T, b: seq<T>)
    requires Subsequence(a + [x], b)
    ensures Subsequence(a, b)
  {
    assert (a + [x])[..|a|] == a;
    if a != [] && !Subsequence(a + [x], b[..|b| - 1]) {
      assert Subsequence(a, b[..|b| - 1]);
    } else if a != [] {
      SubsequenceDropLast(a, x, b[..|b| - 1]);
    }
  }

  lemma SubsequenceSkip<T(!new)>(a: seq<T>, b: seq<T>, y: T)
    requires Subsequence(a, b)
    ensures Subsequence(a, b + [y])
  {
    assert (b + [y])[..|b|] == b;
  }

  lemma SubsequenceTake<T(!new)>(a: seq<T>, b: seq<T>, y: T)
    requires Subsequence(a, b)
    ensures Subsequence(a + [y], b + [y])
  {
    assert (b + [y])[..|b|] == b && (a + [y])[..|a|] == a;
  }

  lemma {:induction false} SubsequenceTransitive<T(!new)>(a: seq<T>, b: seq<T>, c: seq<T>)
    requires Subsequence(a, b) && Subsequence(b, c)
    ensures Subsequence(a, c)
    decreases |b| + |c|
  {
    if a != [] {
      if Subsequence(b, c[..|c| - 1]) {
        SubsequenceTransitive(a, b, c[..|c| - 1]);
      } else if Subsequence(a, b[..|b| - 1]) {
        SubsequenceTransitive(a, b[..|b| - 1], c[..|c| - 1]);
      } else {
        SubsequenceTransitive(a[..|a| - 1], b[..|b| - 1], c[..|c| - 1]);
      }
    }
  }

  /** The entries of `a` are those of `b` at the increasing places `at`. */
  ghost predicate Picks<T(!new)>(a: seq<T>, b: seq<T>, at: seq<nat>) {
    && |at| == |a|
    && (forall i :: 0 <= i < |a| ==> at[i] < |b| && b[at[i]] == a[i])
    && forall i, j :: 0 <= i < j < |at| ==> at[i] < at[j]
  }

  /** Every entry of `a` can be matched with one of `b`, without changing their order. */
  ghost predicate InOrder<T(!new)>(a: seq<T>, b: seq<T>) {
    exists at :: Picks(a, b, at)
  }

  lemma {:induction false} SubsequenceIsInOrder<T(!new)>(a: seq<T>, b: seq<T>)
    requires Subsequence(a, b)
    ensures InOrder(a, b)
  {
    if a == [] {
      assert Picks(a, b, []);
    } else if Subsequence(a, b[..|b| - 1]) {
      SubsequenceIsInOrder(a, b[..|b| - 1]);
      var at :| Picks(a, b[..|b| - 1], at);
      assert Picks(a, b, at);
    } else {
      SubsequenceIsInOrder(a[..|a| - 1], b[..|b| - 1]);
      var at: seq<nat> :| Picks(a[..|a| - 1], b[..|b| - 1], at);
      var last: nat := |b| - 1;
      assert Picks(a, b, at + [last]);
    }
  }
}
