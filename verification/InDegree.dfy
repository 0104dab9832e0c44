/** Counting the edges of the startup multigraph: a plugin has one incoming edge for each
    provider of each type it lists as needed at startup, repetitions included. */
module InDegree {
  import opened Ordering
  import opened Plugins
  import opened GraphIndex

  ghost function CountOutside(list: seq<string>, done: set<string>): nat {
    if list == [] then 0
    else CountOutside(list[..|list| - 1], done) + if list[|list| - 1] in done then 0 else 1
  }

  /** Edges that reach a plugin needing `types` from providers not yet `done`. */
  ghost function Pending(byType: Index, types: seq<string>, done: set<string>): nat {
    if types == [] then 0
    else Pending(byType, types[..|types| - 1], done) + CountOutside(Lookup(byType, types[|types| - 1]), done)
  }

  /** The providers at the far end of the edges that reach a plugin needing `types`. */
  ghost function Sources(byType: Index, types: seq<string>): multiset<string> {
    if types == [] then multiset{}
    else Sources(byType, types[..|types| - 1]) + multiset(Lookup(byType, types[|types| - 1]))
  }

  ghost function EdgeCount(s: State, p: string, q: string): nat {
    Sources(s.byType, Lookup(s.edges, q))[p]
  }

  ghost function PendingOf(s: State, q: string, done: set<string>): nat {
    Pending(s.byType, Lookup(s.edges, q), done)
  }

  lemma {:induction false} CountOutsideNone(list: seq<string>)
    ensures CountOutside(list, {}) == |list|
  {
    if list != [] { CountOutsideNone(list[..|list| - 1]); }
  }

  lemma {:induction false} CountOutsideStep(list: seq<string>, done: set<string>, p: string)
    requires p !in done
    ensures CountOutside(list, done) == CountOutside(list, done + {p}) + Occurrences(list, p)
  {
    if list != [] {
      var front := list[..|list| - 1];
      assert list == front + [list[|list| - 1]];
      CountOutsideStep(front, done, p);
    }
  }

  lemma {:induction false} CountOutsideZero(list: seq<string>, done: set<string>)
    ensures CountOutside(list, done) == 0 <==> forall x :: x in list ==> x in done
  {
    if list != [] {
      var front := list[..|list| - 1];
      assert list == front + [list[|list| - 1]];
      CountOutsideZero(front, done);
    }
  }

  /** Finishing `p` settles exactly the edges that leave `p`. */
  lemma {:induction false} PendingStep(byType: Index, types: seq<string>, done: set<string>, p: string)
    requires p !in done
    ensures Pending(byType, types, done) == Pending(byType, types, done + {p}) + Sources(byType, types)[p]
  {
    if types != [] {
      PendingStep(byType, types[..|types| - 1], done, p);
      CountOutsideStep(Lookup(byType, types[|types| - 1]), done, p);
    }
  }

  lemma {:induction false} PendingZero(byType: Index, types: seq<string>, done: set<string>)
    ensures Pending(byType, types, done) == 0 <==>
            forall t, x :: t in types && x in Lookup(byType, t) ==> x in done
  {
    if types != [] {
      var front := types[..|types| - 1];
      assert types == front + [types[|types| - 1]];
      PendingZero(byType, front, done);
      CountOutsideZero(Lookup(byType, types[|types| - 1]), done);
    }
  }

  /** No edge is pending exactly when everything that must precede `q` is done. */
  lemma SettledIffPredecessorsDone(s: State, q: string, done: set<string>)
    requires Exact(s)
    ensures PendingOf(s, q, done) == 0 <==> forall p :: Before(s.nodes, p, q) ==> p in done
  {
    var types := Lookup(s.edges, q);
    PendingZero(s.byType, types, done);
    forall t ensures t in types <==> Requirer(s.nodes, q, t) { EdgesAreRequirers(s, q, t); }
    forall t, p ensures p in Lookup(s.byType, t) <==> Provider(s.nodes, p, t) { LookupFindsProviders(s, t, p); }
    if PendingOf(s, q, done) == 0 {
      forall p | Before(s.nodes, p, q) ensures p in done {
        var t :| Requirer(s.nodes, q, t) && Provider(s.nodes, p, t);
        assert t in types && p in Lookup(s.byType, t);
      }
    } else {
      var t, x :| t in types && x in Lookup(s.byType, t) && x !in done;
      assert Requirer(s.nodes, q, t) && Provider(s.nodes, x, t);
      assert Before(s.nodes, x, q);
    }
  }
}
