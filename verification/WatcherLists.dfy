/** The lists of watchers that a server keeps per service, by watcher number. */
module WatcherLists {

  ghost predicate Distinct(s: seq<nat>) {
    forall i, j :: 0 <= i < j < |s| ==> s[i] != s[j]
  }

  /** Splices the first occurrence of `w` out. */
  function Without(s: seq<nat>, w: nat): seq<nat> {
    if s == [] then [] else if s[0] == w then s[1..] else [s[0]] + Without(s[1..], w)
  }

  lemma {:induction false} WithoutFacts(s: seq<nat>, w: nat, x: nat)
    requires Distinct(s)
    ensures x in Without(s, w) <==> x in s && x != w
    ensures Distinct(Without(s, w))
  {
    if s != [] {
      assert s == [s[0]] + s[1..];
      WithoutFacts(s[1..], w, x);
      WithoutFacts(s[1..], w, s[0]);
    }
  }

  lemma DistinctAppend(s: seq<nat>, w: nat)
    requires Distinct(s) && w !in s
    ensures Distinct(s + [w])
  {
  }
}
