/** The order of Go strings, sorted lists of strings, and the lexicographic
    comparison of whole lists. */
module Ordering {

  /** True iff `a` comes no later than `b` in the order used by `sort.Strings`. */
  predicate Leq(a: string, b: string) {
    a == [] || (b != [] && (a[0] < b[0] || (a[0] == b[0] && Leq(a[1..], b[1..]))))
  }

  /** `a` comes first at the first place where they differ. */
  ghost predicate FirstDifference(a: string, b: string, i: int) {
    0 <= i < |a| && i < |b| && a[..i] == b[..i] && a[i] < b[i]
  }

  /** That is, the order of the characters decides at the first difference, and a prefix comes first. */
  lemma {:induction false} LeqByFirstDifference(a: string, b: string)
    ensures Leq(a, b) <==> a <= b || exists i :: FirstDifference(a, b, i)
  {
    if a != [] && b != [] {
      LeqByFirstDifference(a[1..], b[1..]);
      if a[0] == b[0] {
        SameFirst(a, b);
      } else if a[0] < b[0] {
        assert FirstDifference(a, b, 0);
      }
    }
  }

  lemma SameFirst(a: string, b: string)
    requires a != [] && b != [] && a[0] == b[0]
    ensures a <= b <==> a[1..] <= b[1..]
    ensures (exists i :: FirstDifference(a, b, i)) <==> exists i :: FirstDifference(a[1..], b[1..], i)
  {
    assert a == [a[0]] + a[1..] && b == [b[0]] + b[1..];
    if i :| FirstDifference(a[1..], b[1..], i) {
      assert a[..i + 1] == [a[0]] + a[1..][..i] && b[..i + 1] == [b[0]] + b[1..][..i];
      assert FirstDifference(a, b, i + 1);
    }
    if i :| FirstDifference(a, b, i) {
      assert a[1..][..i - 1] == a[..i][1..] && b[1..][..i - 1] == b[..i][1..];
      assert FirstDifference(a[1..], b[1..], i - 1);
    }
  }

  lemma {:induction false} LeqTotal(a: string, b: string)
    ensures Leq(a, b) || Leq(b, a)
  {
    if a != [] && b != [] && a[0] == b[0] {
      LeqTotal(a[1..], b[1..]);
    }
  }

  lemma {:induction false} LeqAntisymmetric(a: string, b: string)
    requires Leq(a, b) && Leq(b, a)
    ensures a == b
  {
    if a != [] {
      LeqAntisymmetric(a[1..], b[1..]);
      assert a == [a[0]] + a[1..] && b == [b[0]] + b[1..];
    }
  }

  lemma {:induction false} LeqTransitive(a: string, b: string, c: string)
    requires Leq(a, b) && Leq(b, c)
    ensures Leq(a, c)
  {
    if a != [] && a[0] == b[0] == c[0] {
      LeqTransitive(a[1..], b[1..], c[1..]);
    }
  }

  ghost predicate IsSorted(s: seq<string>) {
    forall i, j :: 0 <= i < j < |s| ==> Leq(s[i], s[j])
  }

  ghost predicate NoDuplicates(s: seq<string>) {
    forall i, j :: 0 <= i < j < |s| ==> s[i] != s[j]
  }

  ghost function Elements(s: seq<string>): set<string> {
    set x | x in s
  }

  lemma ElementsAppend(s: seq<string>, x: string)
    ensures Elements(s + [x]) == Elements(s) + {x}
  {
  }

  /** How often `x` occurs in `s`. */
  ghost function Occurrences(s: seq<string>, x: string): nat {
    multiset(s)[x]
  }

  /** Places `x` behind every element that is no larger. */
  function Insert(s: seq<string>, x: string): (r: seq<string>)
    requires IsSorted(s)
    ensures IsSorted(r) && multiset(r) == multiset(s) + multiset{x}
  {
    if s == [] then
      [x]
    else
      var last := s[|s| - 1];
      var front := s[..|s| - 1];
      assert s == front + [last];
      if Leq(last, x) then
        assert IsSorted(s + [x]) by {
          forall i | 0 <= i < |s| ensures Leq(s[i], x) {
            if i < |s| - 1 { LeqTransitive(s[i], last, x); }
          }
        }
        s + [x]
      else
        var r := Insert(front, x);
        assert IsSorted(r + [last]) by {
          LeqTotal(last, x);
          forall i | 0 <= i < |r| ensures Leq(r[i], last) {
            assert r[i] in multiset(r);
            assert r[i] == x || r[i] in multiset(front);
          }
        }
        r + [last]
  }

  /** `sort.Strings`. */
  function Sort(s: seq<string>): (r: seq<string>)
    ensures IsSorted(r) && multiset(r) == multiset(s)
  {
    if s == [] then []
    else
      assert s == s[..|s| - 1] + [s[|s| - 1]];
      Insert(Sort(s[..|s| - 1]), s[|s| - 1])
  }

  lemma HeadIsLeast(s: seq<string>, x: string)
    requires IsSorted(s) && x in s
    ensures Leq(s[0], x)
  {
    var i :| 0 <= i < |s| && s[i] == x;
    LeqTotal(x, x);
  }

  lemma SortedHeadsAgree(a: seq<string>, b: seq<string>)
    requires IsSorted(a) && IsSorted(b) && multiset(a) == multiset(b) && |a| > 0
    ensures |b| > 0 && a[0] == b[0]
  {
    assert a[0] in multiset(b);
    assert b[0] in multiset(a);
    HeadIsLeast(a, b[0]);
    HeadIsLeast(b, a[0]);
    LeqAntisymmetric(a[0], b[0]);
  }

  lemma DropHead(s: seq<string>)
    requires |s| > 0
    ensures multiset(s[1..]) == multiset(s) - multiset{s[0]}
    ensures IsSorted(s) ==> IsSorted(s[1..])
  {
    assert s == [s[0]] + s[1..];
  }

  /** Whatever sorting algorithm is used, the outcome is the same list. */
  lemma {:induction false} SortedListIsUnique(a: seq<string>, b: seq<string>)
    requires IsSorted(a) && IsSorted(b) && multiset(a) == multiset(b)
    ensures a == b
  {
    if a == [] {
      assert |b| == |multiset(b)| == 0;
    } else {
      SortedHeadsAgree(a, b);
      DropHead(a);
      DropHead(b);
      SortedListIsUnique(a[1..], b[1..]);
      assert a == [a[0]] + a[1..] && b == [b[0]] + b[1..];
    }
  }

  /** Sorting keeps the elements and keeps them distinct. */
  lemma SortKeepsElements(s: seq<string>)
    ensures Elements(Sort(s)) == Elements(s)
    ensures NoDuplicates(s) ==> NoDuplicates(Sort(s))
  {
    var r := Sort(s);
    forall x ensures x in r <==> x in s {
      assert x in r <==> x in multiset(r);
      assert x in s <==> x in multiset(s);
    }
    if NoDuplicates(s) {
      forall x ensures Occurrences(r, x) <= 1 { DistinctOccurOnce(s, x); }
      OccurOnceDistinct(r);
    }
  }

  lemma {:induction false} DistinctOccurOnce(s: seq<string>, x: string)
    requires NoDuplicates(s)
    ensures Occurrences(s, x) == if x in s then 1 else 0
  {
    if s != [] {
      var front := s[..|s| - 1];
      assert s == front + [s[|s| - 1]];
      DistinctOccurOnce(front, x);
    }
  }

  lemma RepeatedOccursTwice(s: seq<string>, i: nat, j: nat)
    requires i < j < |s| && s[i] == s[j]
    ensures Occurrences(s, s[i]) >= 2
  {
    assert s == s[..j] + s[j..];
    assert s[..j][i] == s[i] && s[j..][0] == s[i];
    assert s[i] in multiset(s[..j]) && s[i] in multiset(s[j..]);
  }

  lemma OccurOnceDistinct(s: seq<string>)
    requires forall x :: Occurrences(s, x) <= 1
    ensures NoDuplicates(s)
  {
    forall i, j | 0 <= i < j < |s| && s[i] == s[j] ensures Occurrences(s, s[i]) >= 2 {
      RepeatedOccursTwice(s, i, j);
    }
  }

  lemma {:induction false} DistinctCount(s: seq<string>)
    requires NoDuplicates(s)
    ensures |Elements(s)| == |s|
  {
    if s == [] {
      assert Elements(s) == {};
    } else {
      var front := s[..|s| - 1];
      var last := s[|s| - 1];
      assert s == front + [last];
      DistinctCount(front);
      assert Elements(s) == Elements(front) + {last};
      assert last !in Elements(front);
    }
  }

  /** Two sorted lists without duplicates that hold the same elements are equal. */
  lemma SortedSetIsUnique(a: seq<string>, b: seq<string>)
    requires IsSorted(a) && IsSorted(b) && NoDuplicates(a) && NoDuplicates(b)
    requires Elements(a) == Elements(b)
    ensures a == b
  {
    forall x ensures multiset(a)[x] == multiset(b)[x] {
      DistinctOccurOnce(a, x);
      DistinctOccurOnce(b, x);
      assert x in a <==> x in Elements(a);
      assert x in b <==> x in Elements(b);
    }
    assert multiset(a) == multiset(b);
    SortedListIsUnique(a, b);
  }

  /** A nonempty finite set of strings has a least element. */
  lemma {:induction false} LeastElement(s: set<string>) returns (m: string)
    requires s != {}
    ensures m in s && forall x :: x in s ==> Leq(m, x)
  {
    m :| m in s;
    LeqTotal(m, m);
    if s != {m} {
      var n := LeastElement(s - {m});
      LeqTotal(m, n);
      forall x | x in s ensures Leq(if Leq(m, n) then m else n, x) {
        if x != m && Leq(m, n) { LeqTransitive(m, n, x); }
      }
      m := if Leq(m, n) then m else n;
    }
  }

  /** `a` is `b`, or the first place where they differ holds the smaller entry in `a`. */
  ghost predicate LexLeq(a: seq<string>, b: seq<string>) {
    a == b ||
    exists k :: 0 <= k < |a| && k < |b| && a[..k] == b[..k] && a[k] != b[k] && Leq(a[k], b[k])
  }

  lemma LexLeqAntisymmetric(a: seq<string>, b: seq<string>)
    requires LexLeq(a, b) && LexLeq(b, a)
    ensures a == b
  {
    if a != b {
      var k :| 0 <= k < |a| && k < |b| && a[..k] == b[..k] && a[k] != b[k] && Leq(a[k], b[k]);
      var l :| 0 <= l < |a| && l < |b| && b[..l] == a[..l] && b[l] != a[l] && Leq(b[l], a[l]);
      forall i | 0 <= i < k ensures a[i] == b[i] { assert a[..k][i] == b[..k][i]; }
      forall i | 0 <= i < l ensures a[i] == b[i] { assert a[..l][i] == b[..l][i]; }
      LeqAntisymmetric(a[k], b[l]);
    }
  }
}
