/** The three linked maps of the dependency graph as a value, the effect of `Add`
    and `Remove` on them, and the sense in which the index is exact. */
module GraphIndex {
  import opened Ordering
  import opened Plugins

  type Index = map<string, seq<string>>

  /** Reading a missing key of a Go map of slices yields the empty slice. */
  function Lookup(m: Index, k: string): seq<string> {
    if k in m then m[k] else []
  }

  datatype State = State(nodes: Collection, edges: Index, byType: Index)

  const EMPTY := State(map[], map[], map[])

  // ---------------------------------------------------------------- the two updates

  /** The types needed at startup, in declaration order. */
  function StartupTypes(required: seq<ServiceDependency>): seq<string> {
    if required == [] then []
    else
      var last := required[|required| - 1];
      StartupTypes(required[..|required| - 1]) + if last.requiredForStartup then [last.serviceType] else []
  }

  function Indexed(m: Index, provided: seq<ServiceDeclaration>, id: string): Index {
    if provided == [] then m
    else
      var before := Indexed(m, provided[..|provided| - 1], id);
      var t := provided[|provided| - 1].serviceType;
      before[t := Lookup(before, t) + [id]]
  }

  function RemoveFirst(s: seq<string>, x: string): seq<string> {
    if s == [] then []
    else if s[0] == x then s[1..]
    else [s[0]] + RemoveFirst(s[1..], x)
  }

  /** Takes one entry of `id` out of the list of `t`, and an empty list out of the index. */
  function Dropped(m: Index, t: string, id: string): Index {
    var left := RemoveFirst(Lookup(m, t), id);
    if left == [] then m - {t} else m[t := left]
  }

  function Unindexed(m: Index, provided: seq<ServiceDeclaration>, id: string): Index {
    if provided == [] then m
    else
      var before := Unindexed(m, provided[..|provided| - 1], id);
      Dropped(before, provided[|provided| - 1].serviceType, id)
  }

  function Added(s: State, n: Node): State {
    State(s.nodes[n.runtimeID := n],
          s.edges[n.runtimeID := StartupTypes(n.required)],
          Indexed(s.byType, n.provided, n.runtimeID))
  }

  function Removed(s: State, id: string): State {
    if id !in s.nodes then s
    else State(s.nodes - {id}, s.edges - {id}, Unindexed(s.byType, s.nodes[id].provided, id))
  }

  // ---------------------------------------------------------------- exactness

  /** How many of the declarations name type `t`. */
  ghost function Declared(provided: seq<ServiceDeclaration>, t: string): nat {
    if provided == [] then 0
    else Declared(provided[..|provided| - 1], t) + if provided[|provided| - 1].serviceType == t then 1 else 0
  }

  ghost function DeclaredBy(N: Collection, id: string, t: string): nat {
    if id in N then Declared(N[id].provided, t) else 0
  }

  ghost predicate NoEmptyList(m: Index) {
    forall t :: t in m ==> m[t] != []
  }

  /** The edges repeat the nodes' startup needs, and each plugin occurs in the list of a
      type exactly as often as it declares that type. */
  ghost predicate Exact(s: State) {
    && s.edges.Keys == s.nodes.Keys
    && (forall id :: id in s.nodes ==> s.nodes[id].runtimeID == id)
    && (forall id :: id in s.nodes ==> s.edges[id] == StartupTypes(s.nodes[id].required))
    && NoEmptyList(s.byType)
    && forall t, id :: Occurrences(Lookup(s.byType, t), id) == DeclaredBy(s.nodes, id, t)
  }

  lemma {:induction false} DeclaredIffOffered(provided: seq<ServiceDeclaration>, t: string)
    ensures Declared(provided, t) > 0 <==> exists i :: 0 <= i < |provided| && provided[i].serviceType == t
  {
    if provided != [] {
      var front := provided[..|provided| - 1];
      DeclaredIffOffered(front, t);
      if Declared(front, t) > 0 {
        var i :| 0 <= i < |front| && front[i].serviceType == t;
        assert provided[i].serviceType == t;
      }
      if i :| 0 <= i < |provided| && provided[i].serviceType == t {
        if i < |front| { assert front[i].serviceType == t; }
      }
    }
  }

  /** In an exact index, looking a type up finds its providers and nothing else. */
  lemma LookupFindsProviders(s: State, t: string, p: string)
    requires Exact(s)
    ensures p in Lookup(s.byType, t) <==> Provider(s.nodes, p, t)
  {
    assert Occurrences(Lookup(s.byType, t), p) == DeclaredBy(s.nodes, p, t);
    assert p in Lookup(s.byType, t) <==> p in multiset(Lookup(s.byType, t));
    if p in s.nodes { DeclaredIffOffered(s.nodes[p].provided, t); }
  }

  lemma {:induction false} StartupTypesAreNeeds(required: seq<ServiceDependency>, t: string)
    ensures t in StartupTypes(required) <==>
            exists i :: 0 <= i < |required| && required[i].serviceType == t && required[i].requiredForStartup
  {
    if required != [] {
      var front := required[..|required| - 1];
      StartupTypesAreNeeds(front, t);
      if t in StartupTypes(front) {
        var i :| 0 <= i < |front| && front[i].serviceType == t && front[i].requiredForStartup;
        assert required[i].serviceType == t && required[i].requiredForStartup;
      }
      if i :| 0 <= i < |required| && required[i].serviceType == t && required[i].requiredForStartup {
        if i < |front| { assert front[i].serviceType == t && front[i].requiredForStartup; }
      }
    }
  }

  /** They keep the order of the declarations. */
  lemma {:induction false} StartupTypesInOrder(a: seq<ServiceDependency>, b: seq<ServiceDependency>)
    ensures StartupTypes(a + b) == StartupTypes(a) + StartupTypes(b)
  {
    if b == [] {
      assert a + b == a;
    } else {
      assert (a + b)[..|a + b| - 1] == a + b[..|b| - 1];
      StartupTypesInOrder(a, b[..|b| - 1]);
    }
  }

  lemma EdgesAreRequirers(s: State, q: string, t: string)
    requires Exact(s)
    ensures t in Lookup(s.edges, q) <==> Requirer(s.nodes, q, t)
  {
    if q in s.nodes { StartupTypesAreNeeds(s.nodes[q].required, t); }
  }

  // ---------------------------------------------------------------- Add

  lemma {:induction false} IndexedOccurrences(m: Index, provided: seq<ServiceDeclaration>, id: string, t: string, x: string)
    ensures Occurrences(Lookup(Indexed(m, provided, id), t), x)
         == Occurrences(Lookup(m, t), x) + if x == id then Declared(provided, t) else 0
    ensures NoEmptyList(m) ==> NoEmptyList(Indexed(m, provided, id))
  {
    if provided != [] {
      IndexedOccurrences(m, provided[..|provided| - 1], id, t, x);
    }
  }

  lemma {:induction false} IndexedLookup(m: Index, provided: seq<ServiceDeclaration>, id: string, t: string)
    ensures Lookup(Indexed(m, provided, id), t) == Lookup(m, t) + seq(Declared(provided, t), _ => id)
  {
    if provided != [] {
      IndexedLookup(m, provided[..|provided| - 1], id, t);
    }
  }

  /** A new plugin is appended to the list of each type it declares, as often as it declares it, and no list
      changes otherwise. */
  lemma AddedLookup(s: State, n: Node, t: string)
    ensures Lookup(Added(s, n).byType, t) == Lookup(s.byType, t) + seq(Declared(n.provided, t), _ => n.runtimeID)
  {
    IndexedLookup(s.byType, n.provided, n.runtimeID, t);
  }

  lemma AddedOccurrences(s: State, n: Node, t: string, x: string)
    requires Exact(s)
    ensures Occurrences(Lookup(Added(s, n).byType, t), x)
         == DeclaredBy(s.nodes, x, t) + if x == n.runtimeID then Declared(n.provided, t) else 0
  {
    IndexedOccurrences(s.byType, n.provided, n.runtimeID, t, x);
    assert Occurrences(Lookup(s.byType, t), x) == DeclaredBy(s.nodes, x, t);
  }

  lemma AddOverwritingNothing(s: State, n: Node)
    requires Exact(s)
    requires n.runtimeID !in s.nodes || s.nodes[n.runtimeID].provided == []
    ensures Exact(Added(s, n))
  {
    var s' := Added(s, n);
    IndexedOccurrences(s.byType, n.provided, n.runtimeID, "", "");
    forall t, x ensures Occurrences(Lookup(s'.byType, t), x) == DeclaredBy(s'.nodes, x, t) {
      AddedOccurrences(s, n, t, x);
    }
  }

  /** `Add` keeps the index exact precisely when it displaces no provider: the runtime ID
      is new, or the node it overwrites offered nothing. */
  lemma AddKeepsExactIff(s: State, n: Node)
    requires Exact(s)
    ensures Exact(Added(s, n)) <==>
            n.runtimeID !in s.nodes || s.nodes[n.runtimeID].provided == []
  {
    var id, s' := n.runtimeID, Added(s, n);
    if id in s.nodes && s.nodes[id].provided != [] {
      var t := s.nodes[id].provided[0].serviceType;
      DeclaredIffOffered(s.nodes[id].provided, t);
      AddedOccurrences(s, n, t, id);
      assert Occurrences(Lookup(s'.byType, t), id) != DeclaredBy(s'.nodes, id, t);
    } else {
      AddOverwritingNothing(s, n);
    }
  }

  // ---------------------------------------------------------------- Remove

  ghost function Without(s: seq<string>, x: string): seq<string> {
    if s == [] then []
    else if s[0] == x then Without(s[1..], x)
    else [s[0]] + Without(s[1..], x)
  }

  ghost function RemoveFirstTimes(s: seq<string>, x: string, n: nat): seq<string> {
    if n == 0 then s else RemoveFirst(RemoveFirstTimes(s, x, n - 1), x)
  }

  lemma {:induction false} RemoveFirstFacts(s: seq<string>, x: string, y: string)
    ensures Without(RemoveFirst(s, x), x) == Without(s, x)
    ensures Occurrences(RemoveFirst(s, x), y)
         == Occurrences(s, y) - if y == x && x in s then 1 else 0
    ensures x !in s ==> RemoveFirst(s, x) == s
  {
    if s != [] {
      assert s == [s[0]] + s[1..];
      if s[0] != x { RemoveFirstFacts(s[1..], x, y); }
    }
  }

  lemma {:induction false} WithoutFacts(s: seq<string>, x: string, y: string)
    ensures Occurrences(Without(s, x), y) == if y == x then 0 else Occurrences(s, y)
    ensures x !in s ==> Without(s, x) == s
  {
    if s != [] {
      assert s == [s[0]] + s[1..];
      WithoutFacts(s[1..], x, y);
    }
  }

  lemma {:induction false} WithoutConcat(a: seq<string>, b: seq<string>, x: string)
    ensures Without(a + b, x) == Without(a, x) + Without(b, x)
  {
    if a == [] {
      assert a + b == b;
    } else {
      assert (a + b)[1..] == a[1..] + b;
      WithoutConcat(a[1..], b, x);
    }
  }

  lemma NothingLeftToRemove(s: seq<string>, x: string)
    requires Occurrences(s, x) == 0
    ensures Without(s, x) == s
  {
    assert x in s <==> x in multiset(s);
    WithoutFacts(s, x, x);
  }

  lemma {:induction false} RemoveFirstTimesFacts(s: seq<string>, x: string, n: nat)
    ensures Occurrences(RemoveFirstTimes(s, x, n), x) == (if n <= Occurrences(s, x) then Occurrences(s, x) - n else 0)
    ensures Without(RemoveFirstTimes(s, x, n), x) == Without(s, x)
  {
    if n > 0 {
      RemoveFirstTimesFacts(s, x, n - 1);
      var r := RemoveFirstTimes(s, x, n - 1);
      RemoveFirstFacts(r, x, x);
      assert x in r <==> x in multiset(r);
    }
  }

  /** Removing the first occurrence often enough removes them all and disturbs nothing else. */
  lemma RemoveFirstExhausts(s: seq<string>, x: string, n: nat)
    requires n >= Occurrences(s, x)
    ensures RemoveFirstTimes(s, x, n) == Without(s, x)
  {
    RemoveFirstTimesFacts(s, x, n);
    NothingLeftToRemove(RemoveFirstTimes(s, x, n), x);
  }

  lemma {:induction false} UnindexedLookup(m: Index, provided: seq<ServiceDeclaration>, id: string, t: string)
    ensures Lookup(Unindexed(m, provided, id), t) == RemoveFirstTimes(Lookup(m, t), id, Declared(provided, t))
    ensures NoEmptyList(m) ==> NoEmptyList(Unindexed(m, provided, id))
  {
    if provided != [] {
      UnindexedLookup(m, provided[..|provided| - 1], id, t);
    }
  }

  /** `Remove` filters the removed plugin out of every list and keeps the rest in order. */
  lemma RemovedLookup(s: State, id: string, t: string)
    requires Exact(s)
    ensures Lookup(Removed(s, id).byType, t) == Without(Lookup(s.byType, t), id)
  {
    var list := Lookup(s.byType, t);
    assert Occurrences(list, id) == DeclaredBy(s.nodes, id, t);
    if id in s.nodes {
      UnindexedLookup(s.byType, s.nodes[id].provided, id, t);
      RemoveFirstExhausts(list, id, Declared(s.nodes[id].provided, t));
    } else {
      NothingLeftToRemove(list, id);
    }
  }

  lemma RemovedHasNoEmptyList(s: State, id: string)
    requires Exact(s)
    ensures NoEmptyList(Removed(s, id).byType)
  {
    if id in s.nodes { UnindexedLookup(s.byType, s.nodes[id].provided, id, ""); }
  }

  lemma RemoveKeepsExact(s: State, id: string)
    requires Exact(s)
    ensures Exact(Removed(s, id)) && Removed(s, id).nodes == s.nodes - {id}
  {
    var s' := Removed(s, id);
    RemovedHasNoEmptyList(s, id);
    forall t, x ensures Occurrences(Lookup(s'.byType, t), x) == DeclaredBy(s'.nodes, x, t) {
      RemovedLookup(s, id, t);
      WithoutFacts(Lookup(s.byType, t), id, x);
      assert Occurrences(Lookup(s.byType, t), x) == DeclaredBy(s.nodes, x, t);
    }
  }

  lemma {:induction false} IndexedWithout(m: Index, provided: seq<ServiceDeclaration>, id: string, t: string)
    ensures Without(Lookup(Indexed(m, provided, id), t), id) == Without(Lookup(m, t), id)
  {
    if provided != [] {
      var front := provided[..|provided| - 1];
      IndexedWithout(m, front, id, t);
      WithoutConcat(Lookup(Indexed(m, front, id), t), [id], id);
    }
  }

  lemma SameLookups(a: Index, b: Index)
    requires NoEmptyList(a) && NoEmptyList(b)
    requires forall t :: Lookup(a, t) == Lookup(b, t)
    ensures a == b
  {
    forall t ensures t in a <==> t in b {
      assert Lookup(a, t) == Lookup(b, t);
    }
    assert forall t :: t in a ==> Lookup(a, t) == a[t] && Lookup(b, t) == b[t];
  }

  /** `Remove` undoes the `Add` of a new plugin exactly, list order included. */
  lemma RemoveUndoesAdd(s: State, n: Node)
    requires Exact(s) && n.runtimeID !in s.nodes
    ensures Removed(Added(s, n), n.runtimeID) == s
  {
    var id, s' := n.runtimeID, Added(s, n);
    AddKeepsExactIff(s, n);
    RemovedHasNoEmptyList(s', id);
    forall t ensures Lookup(Removed(s', id).byType, t) == Lookup(s.byType, t) {
      RemovedLookup(s', id, t);
      IndexedWithout(s.byType, n.provided, id, t);
      var list := Lookup(s.byType, t);
      assert Occurrences(list, id) == DeclaredBy(s.nodes, id, t);
      NothingLeftToRemove(list, id);
    }
    SameLookups(Removed(s', id).byType, s.byType);
  }

  // ---------------------------------------------------------------- runs

  datatype Change = Add(node: Node) | Remove(runtimeID: string)

  function Built(s: State, changes: seq<Change>): State
    decreases |changes|
  {
    if changes == [] then s
    else Built(match changes[0] case Add(n) => Added(s, n) case Remove(id) => Removed(s, id), changes[1..])
  }

  /** Runtime IDs are generated, so a run never adds one that is in the graph. */
  ghost predicate FreshIDs(s: State, changes: seq<Change>)
    decreases |changes|
  {
    changes != [] ==>
      match changes[0]
      case Add(n) => n.runtimeID !in s.nodes && FreshIDs(Added(s, n), changes[1..])
      case Remove(id) => FreshIDs(Removed(s, id), changes[1..])
  }

  lemma {:induction false} BuiltFromExact(s: State, changes: seq<Change>)
    requires Exact(s) && FreshIDs(s, changes)
    ensures Exact(Built(s, changes))
    decreases |changes|
  {
    if changes != [] {
      match changes[0]
      case Add(n) =>
        AddKeepsExactIff(s, n);
        BuiltFromExact(Added(s, n), changes[1..]);
      case Remove(id) =>
        RemoveKeepsExact(s, id);
        BuiltFromExact(Removed(s, id), changes[1..]);
    }
  }

  /** Every graph built from nothing with fresh IDs has an exact index. */
  lemma BuiltGraphsAreExact(changes: seq<Change>)
    requires FreshIDs(EMPTY, changes)
    ensures Exact(Built(EMPTY, changes))
  {
    BuiltFromExact(EMPTY, changes);
  }
}
