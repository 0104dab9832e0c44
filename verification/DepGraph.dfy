/** The dependency graph as the mutable object it is: `Add`, `Remove` and Kahn's algorithm. */
module DepGraph {
  import opened Wrappers
  import opened Ordering
  import opened Plugins
  import opened GraphIndex
  import opened InDegree
  import opened Impact

  /** What `StartupOrder` returns: an order, or one of its two errors. */
  datatype OrderResult =
    | Ordered(order: seq<string>)
    | NoProviderFor(plugin: string, serviceType: string)
    | CycleDetected(processed: nat, total: nat)

  /** The complete meaning of `StartupOrder`: the least sequence if there is one; otherwise
      an unprovided need, or a cycle together with how far the greedy run gets. */
  ghost predicate StartupOutcome(N: Collection, result: OrderResult) {
    match result
    case Ordered(order) => Satisfied(N) && !Cyclic(N) && LeastSequence(N, order)
    case NoProviderFor(q, t) => Requirer(N, q, t) && !HasProvider(N, t)
    case CycleDetected(processed, total) =>
      && Satisfied(N) && Cyclic(N)
      && processed < total == |N|
      && exists r :: GreedyRun(N, r) && Exhausted(N, r) && |r| == processed
  }

  /** How many edges the adjacency lists hold from `p` to `x`. */
  ghost function EdgesIn(adjList: Index, p: string, x: string): nat {
    Occurrences(Lookup(adjList, p), x)
  }

  /** The adjacency lists grew by edges into `q` alone, one from each of the `sources`. */
  ghost predicate Linked(before: Index, after: Index, q: string, sources: multiset<string>) {
    forall p, x :: EdgesIn(after, p, x) == EdgesIn(before, p, x) + if x == q then sources[p] else 0
  }

  /** In-degree and adjacency lists account for the same new edges into `q`. */
  ghost predicate Grown(inDegree0: map<string, int>, adjList0: Index, inDegree: map<string, int>, adjList: Index,
                        q: string, sources: multiset<string>) {
    && q in inDegree0
    && inDegree == inDegree0[q := inDegree0[q] + |sources|]
    && Linked(adjList0, adjList, q, sources)
  }

  lemma LinkNone(adjList: Index, q: string)
    ensures Linked(adjList, adjList, q, multiset{})
  {
  }

  lemma LinkMore(a: Index, b: Index, c: Index, q: string, m: multiset<string>, n: multiset<string>)
    requires Linked(a, b, q, m) && Linked(b, c, q, n)
    ensures Linked(a, c, q, m + n)
  {
    forall p, x ensures EdgesIn(c, p, x) == EdgesIn(a, p, x) + if x == q then (m + n)[p] else 0 {
      assert EdgesIn(b, p, x) == EdgesIn(a, p, x) + if x == q then m[p] else 0;
    }
  }

  lemma LinkOne(a: Index, q: string, p: string)
    ensures Linked(a, a[p := Lookup(a, p) + [q]], q, multiset{p})
  {
    var b := a[p := Lookup(a, p) + [q]];
    forall o, x ensures EdgesIn(b, o, x) == EdgesIn(a, o, x) + if x == q then multiset{p}[o] else 0 {
      if o == p {
        assert multiset(Lookup(b, p)) == multiset(Lookup(a, p)) + multiset{q};
      }
    }
  }

  lemma GrowMore(d0: map<string, int>, a0: Index, d1: map<string, int>, a1: Index, d2: map<string, int>, a2: Index,
                 q: string, m: multiset<string>, n: multiset<string>)
    requires Grown(d0, a0, d1, a1, q, m) && Grown(d1, a1, d2, a2, q, n)
    ensures Grown(d0, a0, d2, a2, q, m + n)
  {
    LinkMore(a0, a1, a2, q, m, n);
  }

  lemma GrowOne(d: map<string, int>, a: Index, q: string, p: string)
    requires q in d
    ensures Grown(d, a, d[q := d[q] + 1], a[p := Lookup(a, p) + [q]], q, multiset{p})
  {
    LinkOne(a, q, p);
  }

  /** The number of sources of a plugin is what it waits for at the outset. */
  lemma {:induction false} SourcesCountPending(byType: Index, types: seq<string>)
    ensures |Sources(byType, types)| == Pending(byType, types, {})
  {
    if types != [] {
      SourcesCountPending(byType, types[..|types| - 1]);
      CountOutsideNone(Lookup(byType, types[|types| - 1]));
    }
  }

  class Graph {
    var nodes: Collection
    var edges: Index
    var byType: Index

    ghost function View(): State
      reads this
    {
      State(nodes, edges, byType)
    }

    ghost predicate Valid()
      reads this
    {
      Exact(View())
    }

    constructor ()
      ensures View() == EMPTY && Valid()
    {
      nodes, edges, byType := map[], map[], map[];
    }

    /** The types a plugin needs before it can start. */
    static method ListStartupTypes(dependencies: seq<ServiceDependency>) returns (required: seq<string>)
      ensures required == StartupTypes(dependencies)
    {
      required := [];
      for i := 0 to |dependencies|
        invariant required == StartupTypes(dependencies[..i])
      {
        assert dependencies[..i + 1][..i] == dependencies[..i];
        if dependencies[i].requiredForStartup {
          required := required + [dependencies[i].serviceType];
        }
      }
      assert dependencies[..|dependencies|] == dependencies;
    }

    method Add(node: Node)
      modifies this
      ensures View() == Added(old(View()), node)
      ensures old(Valid()) && node.runtimeID !in old(nodes) ==> Valid()
    {
      nodes := nodes[node.runtimeID := node];
      var required := ListStartupTypes(node.required);
      edges := edges[node.runtimeID := required];
      for i := 0 to |node.provided|
        invariant nodes == old(nodes)[node.runtimeID := node] && edges == old(edges)[node.runtimeID := required]
        invariant byType == Indexed(old(byType), node.provided[..i], node.runtimeID)
      {
        assert node.provided[..i + 1][..i] == node.provided[..i];
        var t := node.provided[i].serviceType;
        byType := byType[t := Lookup(byType, t) + [node.runtimeID]];
      }
      assert node.provided[..|node.provided|] == node.provided;
      if old(Valid()) { AddKeepsExactIff(old(View()), node); }
    }

    method Remove(runtimeID: string)
      modifies this
      ensures View() == Removed(old(View()), runtimeID)
      ensures old(Valid()) ==> Valid()
    {
      if old(Valid()) { RemoveKeepsExact(old(View()), runtimeID); }
      if runtimeID !in nodes { return; }
      var node := nodes[runtimeID];
      nodes := nodes - {runtimeID};
      edges := edges - {runtimeID};
      for i := 0 to |node.provided|
        invariant nodes == old(nodes) - {runtimeID} && edges == old(edges) - {runtimeID}
        invariant byType == Unindexed(old(byType), node.provided[..i], runtimeID)
      {
        assert node.provided[..i + 1][..i] == node.provided[..i];
        DropProvider(node.provided[i].serviceType, runtimeID);
      }
      assert node.provided[..|node.provided|] == node.provided;
    }

    /** Splices the first entry of the plugin out of one provider list. */
    method DropProvider(t: string, runtimeID: string)
      modifies this`byType
      ensures byType == Dropped(old(byType), t, runtimeID)
    {
      var providers := Lookup(byType, t);
      var i := 0;
      while i < |providers| && providers[i] != runtimeID
        invariant 0 <= i <= |providers|
        invariant runtimeID !in providers[..i]
      {
        i := i + 1;
      }
      RemoveFirstAt(providers, runtimeID, i);
      if i < |providers| {
        byType := byType[t := providers[..i] + providers[i + 1..]];
      }
      if |Lookup(byType, t)| == 0 {
        byType := byType - {t};
      }
      assert byType == Dropped(old(byType), t, runtimeID);
    }

    method HasService(t: string) returns (available: bool)
      requires Valid()
      ensures available <==> HasProvider(nodes, t)
    {
      available := |Lookup(byType, t)| > 0;
      if available { LookupFindsProviders(View(), t, Lookup(byType, t)[0]); }
      forall p | Provider(nodes, p, t) ensures p in Lookup(byType, t) { LookupFindsProviders(View(), t, p); }
    }

    // -------------------------------------------------------------- StartupOrder

    /** Adds one edge from each listed provider to `q`. */
    static method LinkProviders(providers: seq<string>, q: string, inDegree0: map<string, int>, adjList0: Index)
      returns (inDegree: map<string, int>, adjList: Index)
      requires q in inDegree0
      ensures Grown(inDegree0, adjList0, inDegree, adjList, q, multiset(providers))
    {
      inDegree, adjList := inDegree0, adjList0;
      LinkNone(adjList, q);
      assert multiset(providers[..0]) == multiset{};
      for j := 0 to |providers|
        invariant Grown(inDegree0, adjList0, inDegree, adjList, q, multiset(providers[..j]))
      {
        var providerID := providers[j];
        GrowOne(inDegree, adjList, q, providerID);
        ghost var d, a := inDegree, adjList;
        adjList := adjList[providerID := Lookup(adjList, providerID) + [q]];
        inDegree := inDegree[q := inDegree[q] + 1];
        GrowMore(inDegree0, adjList0, d, a, inDegree, adjList, q, multiset(providers[..j]), multiset{providerID});
        assert providers[..j + 1] == providers[..j] + [providerID];
      }
      assert providers[..|providers|] == providers;
    }

    /** Adds the edges of one plugin, or reports the first of its needs that nothing provides. */
    method LinkRequirer(q: string, inDegree0: map<string, int>, adjList0: Index)
      returns (missing: Option<string>, inDegree: map<string, int>, adjList: Index)
      requires q in edges && q in inDegree0
      ensures missing.Some? ==> FirstUnlisted(byType, edges[q], missing.value)
      ensures missing.None? ==> Listed(byType, edges[q])
      ensures missing.None? ==> Grown(inDegree0, adjList0, inDegree, adjList, q, Sources(byType, edges[q]))
    {
      missing, inDegree, adjList := None, inDegree0, adjList0;
      LinkNone(adjList, q);
      var required := edges[q];
      for i := 0 to |required|
        invariant Listed(byType, required[..i])
        invariant Grown(inDegree0, adjList0, inDegree, adjList, q, Sources(byType, required[..i]))
      {
        assert required[..i + 1][..i] == required[..i];
        assert required[..i + 1] == required[..i] + [required[i]];
        var providers := Lookup(byType, required[i]);
        if |providers| == 0 {
          return Some(required[i]), inDegree, adjList;
        }
        ghost var d, a := inDegree, adjList;
        inDegree, adjList := LinkProviders(providers, q, inDegree, adjList);
        GrowMore(inDegree0, adjList0, d, a, inDegree, adjList, q, Sources(byType, required[..i]), multiset(providers));
      }
      assert required[..|required|] == required;
    }

    /** Visits the plugins in any order and collects the startup multigraph. */
    method BuildEdges()
      returns (missing: Option<(string, string)>, inDegree: map<string, int>, adjList: Index)
      requires Valid()
      ensures missing.Some? ==> Requirer(nodes, missing.value.0, missing.value.1) && !HasProvider(nodes, missing.value.1)
      ensures missing.None? ==> Satisfied(nodes) && CountsPending(View(), {}, inDegree) && ListsEdges(View(), adjList)
    {
      missing, adjList := None, map[];
      inDegree := map id | id in nodes :: 0;
      var todo := edges.Keys;
      while todo != {}
        invariant HalfBuilt(View(), todo, inDegree, adjList)
      {
        var q :| q in todo;
        ghost var d, a := inDegree, adjList;
        var unprovided: Option<string>;
        unprovided, inDegree, adjList := LinkRequirer(q, inDegree, adjList);
        if unprovided.Some? {
          UnprovidedNeed(View(), q, unprovided.value);
          return Some((q, unprovided.value)), inDegree, adjList;
        }
        BuildNext(View(), todo, q, d, a, inDegree, adjList);
        todo := todo - {q};
      }
      AllBuilt(View(), inDegree, adjList);
    }

    /** Takes one finished plugin's edges away and queues what becomes ready. */
    static method Release(dependents: seq<string>, inDegree0: map<string, int>, queue0: seq<string>)
      returns (inDegree: map<string, int>, queue: seq<string>)
      requires Counted(inDegree0, dependents) && QueuedAtZero(inDegree0, queue0)
      ensures Released(inDegree0, dependents, inDegree)
      ensures QueuedAfter(queue0, dependents, inDegree, queue)
    {
      inDegree, queue := inDegree0, queue0;
      assert dependents[..0] == [];
      for i := 0 to |dependents|
        invariant Released(inDegree0, dependents[..i], inDegree)
        invariant QueuedAfter(queue0, dependents[..i], inDegree, queue)
      {
        var dependent := dependents[i];
        ReleaseOne(inDegree0, dependents, i, inDegree);
        QueueOne(inDegree0, dependents, i, inDegree, queue0, queue);
        inDegree := inDegree[dependent := inDegree[dependent] - 1];
        if inDegree[dependent] == 0 {
          queue := Enqueue(queue, dependent);
        }
      }
      assert dependents[..|dependents|] == dependents;
    }

    /** Pops the head of the sorted queue, appends it to the order and releases its edges. */
    method StartNext(order0: seq<string>, queue0: seq<string>, inDegree0: map<string, int>, adjList: Index)
      returns (order: seq<string>, queue: seq<string>, inDegree: map<string, int>)
      requires Valid() && ListsEdges(View(), adjList) && Progress(View(), order0, queue0, inDegree0) && |queue0| > 0
      ensures order == order0 + [queue0[0]] && Progress(View(), order, queue, inDegree)
      ensures nodes.Keys - Elements(order) < nodes.Keys - Elements(order0)
    {
      var current := queue0[0];
      assert current in queue0;
      ReleaseIsSafe(View(), Elements(order0), current, adjList, inDegree0);
      TailIsAtZero(View(), order0, queue0, inDegree0);
      queue := queue0[1..];
      order := order0 + [current];
      inDegree, queue := Release(Lookup(adjList, current), inDegree0, queue);
      ReleaseKeepsProgress(View(), order0, queue0, inDegree0, adjList, inDegree, queue);
    }

    method DrainQueue(queue0: seq<string>, inDegree0: map<string, int>, adjList: Index) returns (order: seq<string>)
      requires Valid() && ListsEdges(View(), adjList) && Progress(View(), [], queue0, inDegree0)
      ensures GreedyRun(nodes, order) && Exhausted(nodes, order)
    {
      var queue, inDegree := queue0, inDegree0;
      order := [];
      while |queue| > 0
        invariant Progress(View(), order, queue, inDegree)
        decreases nodes.Keys - Elements(order)
      {
        order, queue, inDegree := StartNext(order, queue, inDegree, adjList);
      }
      RunIsExhausted(View(), order, inDegree);
    }

    /** Kahn's algorithm with a sorted ready queue. */
    method StartupOrder() returns (result: OrderResult)
      requires Valid()
      ensures StartupOutcome(nodes, result)
    {
      var missing, inDegree, adjList := BuildEdges();
      if missing.Some? {
        return NoProviderFor(missing.value.0, missing.value.1);
      }
      var queue := InitialQueue(inDegree);
      assert Elements([]) == {};
      var order := DrainQueue(queue, inDegree, adjList);
      OutcomeOfRun(nodes, order);
      result := if |order| != |nodes| then CycleDetected(|order|, |nodes|) else Ordered(order);
    }

    /** The plugins without incoming edges, sorted. */
    method InitialQueue(inDegree: map<string, int>) returns (queue: seq<string>)
      ensures IsSorted(queue) && NoDuplicates(queue)
      ensures forall x :: x in queue <==> x in inDegree && inDegree[x] == 0
    {
      queue := [];
      var todo := inDegree.Keys;
      while todo != {}
        invariant todo <= inDegree.Keys && NoDuplicates(queue)
        invariant forall x :: x in queue <==> x in inDegree && x !in todo && inDegree[x] == 0
      {
        var id :| id in todo;
        if inDegree[id] == 0 { queue := queue + [id]; }
        todo := todo - {id};
      }
      SortKeepsElements(queue);
      assert forall x :: x in queue <==> x in Elements(queue);
      queue := Sort(queue);
      assert forall x :: x in queue <==> x in Elements(queue);
    }

    // -------------------------------------------------------------- GetImpact

    method GetOtherProviders(t: string, excludeRuntimeID: string) returns (others: seq<string>)
      ensures others == Without(Lookup(byType, t), excludeRuntimeID)
    {
      others := [];
      var providers := Lookup(byType, t);
      for i := 0 to |providers|
        invariant others == Without(providers[..i], excludeRuntimeID)
      {
        assert providers[..i + 1] == providers[..i] + [providers[i]];
        WithoutConcat(providers[..i], [providers[i]], excludeRuntimeID);
        if providers[i] != excludeRuntimeID {
          others := others + [providers[i]];
        }
      }
      assert providers[..|providers|] == providers;
    }

    /** Treats one dependency of another plugin on one service of `id`. */
    method VisitDependency(id: string, j: nat, other: string, i: nat, impact: ImpactAnalysis, visited: Visited,
                           ghost root: string, ghost open: set<string>)
      requires Valid() && id in nodes && j < |nodes[id].provided| && other in nodes && i < |nodes[other].required|
      requires other != id && id in visited.ids && FromRoot(nodes, root, id)
      requires SearchInvariant(nodes, root, open, MarksOf(impact, visited))
      modifies impact`affectedPlugins, impact`optionalImpact, visited
      ensures SearchInvariant(nodes, root, open, MarksOf(impact, visited))
      ensures Grew(old(MarksOf(impact, visited)), MarksOf(impact, visited))
      ensures Handled(nodes, id, j, other, i, MarksOf(impact, visited))
      decreases nodes.Keys - visited.ids, 1
    {
      var t := nodes[id].provided[j].serviceType;
      var dep := nodes[other].required[i];
      if dep.serviceType == t {
        var otherProviders := GetOtherProviders(t, id);
        OtherProvidersMeanNotSole(View(), t, id);
        assert Offers(nodes[id], t) && DependsOnType(nodes, other, i, t);
        if |otherProviders| > 0 {
          RecordOptional(nodes, root, open, MarksOf(impact, visited), id, other);
          impact.optionalImpact := AppendUnique(impact.optionalImpact, other);
        } else if dep.requiredForStartup {
          assert Requirer(nodes, other, t);
          RecordAffected(nodes, root, open, MarksOf(impact, visited), id, other);
          impact.affectedPlugins := AppendUnique(impact.affectedPlugins, other);
          if id == root { StepCascades(nodes, id, other); } else { CascadeExtends(nodes, root, id, other); }
          FindDependents(other, impact, visited, root, open);
        } else {
          RecordOptional(nodes, root, open, MarksOf(impact, visited), id, other);
          impact.optionalImpact := AppendUnique(impact.optionalImpact, other);
        }
      }
    }

    /** Goes through the dependencies of one other plugin. */
    method VisitPlugin(id: string, j: nat, other: string, impact: ImpactAnalysis, visited: Visited,
                       ghost root: string, ghost open: set<string>)
      requires Valid() && id in nodes && j < |nodes[id].provided| && other in nodes
      requires id in visited.ids && FromRoot(nodes, root, id)
      requires SearchInvariant(nodes, root, open, MarksOf(impact, visited))
      modifies impact`affectedPlugins, impact`optionalImpact, visited
      ensures SearchInvariant(nodes, root, open, MarksOf(impact, visited))
      ensures Grew(old(MarksOf(impact, visited)), MarksOf(impact, visited))
      ensures HandledPlugin(nodes, id, j, other, MarksOf(impact, visited))
      decreases nodes.Keys - visited.ids, 2
    {
      if other == id { return; }
      var i := 0;
      while i < |nodes[other].required|
        invariant 0 <= i <= |nodes[other].required| && id in visited.ids
        invariant SearchInvariant(nodes, root, open, MarksOf(impact, visited))
        invariant Grew(old(MarksOf(impact, visited)), MarksOf(impact, visited))
        invariant HandledBelow(nodes, id, j, other, i, MarksOf(impact, visited))
      {
        ghost var before := MarksOf(impact, visited);
        VisitDependency(id, j, other, i, impact, visited, root, open);
        NextDependencyHandled(nodes, id, j, other, i, old(MarksOf(impact, visited)), before, MarksOf(impact, visited));
        i := i + 1;
      }
    }

    /** Looks through all plugins, in any order, for those that use one service of `id`. */
    method VisitService(id: string, j: nat, impact: ImpactAnalysis, visited: Visited,
                        ghost root: string, ghost open: set<string>)
      requires Valid() && id in nodes && j < |nodes[id].provided|
      requires id in visited.ids && FromRoot(nodes, root, id)
      requires SearchInvariant(nodes, root, open, MarksOf(impact, visited))
      modifies impact`affectedPlugins, impact`optionalImpact, visited
      ensures SearchInvariant(nodes, root, open, MarksOf(impact, visited))
      ensures Grew(old(MarksOf(impact, visited)), MarksOf(impact, visited))
      ensures HandledService(nodes, id, j, MarksOf(impact, visited))
      decreases nodes.Keys - visited.ids, 3
    {
      var todo := nodes.Keys;
      while todo != {}
        invariant todo <= nodes.Keys && id in visited.ids
        invariant SearchInvariant(nodes, root, open, MarksOf(impact, visited))
        invariant Grew(old(MarksOf(impact, visited)), MarksOf(impact, visited))
        invariant HandledOutside(nodes, id, j, todo, MarksOf(impact, visited))
        decreases todo
      {
        var other :| other in todo;
        ghost var before := MarksOf(impact, visited);
        VisitPlugin(id, j, other, impact, visited, root, open);
        NextPluginHandled(nodes, id, j, todo, other, old(MarksOf(impact, visited)), before, MarksOf(impact, visited));
        todo := todo - {other};
      }
    }

    /** Scans the services of a plugin that has just been marked as visited. */
    method ScanServices(id: string, impact: ImpactAnalysis, visited: Visited,
                        ghost root: string, ghost open: set<string>)
      requires Valid() && id in nodes && id in visited.ids && FromRoot(nodes, root, id)
      requires SearchInvariant(nodes, root, open + {id}, MarksOf(impact, visited))
      modifies impact`affectedPlugins, impact`optionalImpact, visited
      ensures SearchInvariant(nodes, root, open, MarksOf(impact, visited))
      ensures Grew(old(MarksOf(impact, visited)), MarksOf(impact, visited))
      decreases nodes.Keys - visited.ids, 4
    {
      var j := 0;
      while j < |nodes[id].provided|
        invariant 0 <= j <= |nodes[id].provided| && id in visited.ids
        invariant SearchInvariant(nodes, root, open + {id}, MarksOf(impact, visited))
        invariant Grew(old(MarksOf(impact, visited)), MarksOf(impact, visited))
        invariant HandledServices(nodes, id, j, MarksOf(impact, visited))
      {
        ghost var before := MarksOf(impact, visited);
        VisitService(id, j, impact, visited, root, open + {id});
        NextServiceHandled(nodes, id, j, old(MarksOf(impact, visited)), before, MarksOf(impact, visited));
        j := j + 1;
      }
      ScanKeepsInvariant(nodes, root, open, MarksOf(impact, visited), id);
    }

    /** The depth-first search below one plugin; `root` is where it began and `open` the
        plugins whose scan is under way further up. */
    method FindDependents(id: string, impact: ImpactAnalysis, visited: Visited,
                          ghost root: string, ghost open: set<string>)
      requires Valid() && id in nodes && FromRoot(nodes, root, id)
      requires SearchInvariant(nodes, root, open, MarksOf(impact, visited))
      modifies impact`affectedPlugins, impact`optionalImpact, visited
      ensures SearchInvariant(nodes, root, open, MarksOf(impact, visited))
      ensures Grew(old(MarksOf(impact, visited)), MarksOf(impact, visited)) && id in visited.ids
      decreases nodes.Keys - visited.ids, 0
    {
      if id in visited.ids { return; }
      VisitKeepsInvariant(nodes, root, open, MarksOf(impact, visited), id);
      visited.ids := visited.ids + {id};
      ScanServices(id, impact, visited, root, open);
    }

    /** The types that the plugin to be removed provides, repeated as declared. */
    static method ListServices(provided: seq<ServiceDeclaration>) returns (services: seq<string>)
      ensures services == ProvidedTypes(provided)
    {
      services := [];
      for j := 0 to |provided|
        invariant services == ProvidedTypes(provided[..j])
      {
        assert provided[..j + 1][..j] == provided[..j];
        services := services + [provided[j].serviceType];
      }
      assert provided[..|provided|] == provided;
    }

    /** Runs the search from `runtimeID`, leaving the lists in the order of discovery. */
    method SearchFrom(runtimeID: string, impact: ImpactAnalysis)
      requires Valid() && runtimeID in nodes && impact.affectedPlugins == impact.optionalImpact == []
      modifies impact`affectedPlugins, impact`optionalImpact
      ensures NoDuplicates(impact.affectedPlugins) && NoDuplicates(impact.optionalImpact)
      ensures Elements(impact.affectedPlugins) == AffectedBy(nodes, runtimeID)
      ensures Elements(impact.optionalImpact) == OptionallyAffectedBy(nodes, runtimeID)
    {
      var visited := new Visited();
      FindDependents(runtimeID, impact, visited, runtimeID, {});
      FinishedSearch(nodes, runtimeID, MarksOf(impact, visited));
    }

    /** What removing `runtimeID` affects. */
    method GetImpact(runtimeID: string) returns (impact: ImpactAnalysis)
      requires Valid()
      ensures fresh(impact) && impact.targetPlugin == runtimeID
      ensures ImpactOutcome(nodes, runtimeID, impact.affectedServices, impact.affectedPlugins, impact.optionalImpact)
    {
      impact := new ImpactAnalysis(runtimeID);
      if runtimeID !in nodes {
        AbsentPluginAffectsNothing(nodes, runtimeID);
        return;
      }
      var services := ListServices(nodes[runtimeID].provided);
      SearchFrom(runtimeID, impact);
      impact.SortLists(services);
    }
  }

  class Visited {
    var ids: set<string>

    constructor ()
      ensures ids == {}
    {
      ids := {};
    }
  }

  class ImpactAnalysis {
    const targetPlugin: string
    var affectedServices: seq<string>
    var affectedPlugins: seq<string>
    var optionalImpact: seq<string>

    constructor (runtimeID: string)
      ensures targetPlugin == runtimeID
      ensures affectedServices == affectedPlugins == optionalImpact == []
    {
      targetPlugin := runtimeID;
      affectedServices, affectedPlugins, optionalImpact := [], [], [];
    }

    method SortLists(services: seq<string>)
      modifies this`affectedServices, this`affectedPlugins, this`optionalImpact
      ensures IsSorted(affectedServices) && multiset(affectedServices) == multiset(services)
      ensures IsSorted(affectedPlugins) && Elements(affectedPlugins) == old(Elements(affectedPlugins))
      ensures old(NoDuplicates(affectedPlugins)) ==> NoDuplicates(affectedPlugins)
      ensures IsSorted(optionalImpact) && Elements(optionalImpact) == old(Elements(optionalImpact))
      ensures old(NoDuplicates(optionalImpact)) ==> NoDuplicates(optionalImpact)
    {
      SortKeepsElements(affectedPlugins);
      SortKeepsElements(optionalImpact);
      affectedPlugins := Sort(affectedPlugins);
      optionalImpact := Sort(optionalImpact);
      affectedServices := Sort(services);
    }
  }

  ghost function MarksOf(impact: ImpactAnalysis, visited: Visited): Marks
    reads impact, visited
  {
    Marks(visited.ids, impact.affectedPlugins, impact.optionalImpact)
  }

  function ProvidedTypes(provided: seq<ServiceDeclaration>): seq<string> {
    if provided == [] then []
    else ProvidedTypes(provided[..|provided| - 1]) + [provided[|provided| - 1].serviceType]
  }

  method AppendUnique(slice: seq<string>, item: string) returns (r: seq<string>)
    ensures r == Appended(slice, item)
  {
    for i := 0 to |slice|
      invariant item !in slice[..i]
    {
      if slice[i] == item { return slice; }
    }
    r := slice + [item];
  }

  /** What `GetImpact` lists: the declared types, everything the removal strands, and what it only
      inconveniences, all sorted, the plugins without duplicates. */
  ghost predicate ImpactOutcome(N: Collection, x: string, services: seq<string>, affected: seq<string>, optional: seq<string>) {
    && IsSorted(services)
    && multiset(services) == (if x in N then multiset(ProvidedTypes(N[x].provided)) else multiset{})
    && IsSorted(affected) && NoDuplicates(affected) && Elements(affected) == AffectedBy(N, x)
    && IsSorted(optional) && NoDuplicates(optional) && Elements(optional) == OptionallyAffectedBy(N, x)
  }

  /** Whatever the walk order, two analyses of the same nodes return the same lists. */
  lemma ImpactIsDetermined(N: Collection, x: string, services: seq<string>, affected: seq<string>, optional: seq<string>,
                           services': seq<string>, affected': seq<string>, optional': seq<string>)
    requires ImpactOutcome(N, x, services, affected, optional)
    requires ImpactOutcome(N, x, services', affected', optional')
    ensures services == services' && affected == affected' && optional == optional'
  {
    SortedListIsUnique(services, services');
    SortedSetIsUnique(affected, affected');
    SortedSetIsUnique(optional, optional');
  }

  lemma {:induction false} ProvidedTypesAreOffered(provided: seq<ServiceDeclaration>, t: string)
    ensures t in ProvidedTypes(provided) <==> exists i :: 0 <= i < |provided| && provided[i].serviceType == t
  {
    if provided != [] {
      var front := provided[..|provided| - 1];
      ProvidedTypesAreOffered(front, t);
      if t in ProvidedTypes(front) {
        var i :| 0 <= i < |front| && front[i].serviceType == t;
        assert provided[i].serviceType == t;
      }
      if i :| 0 <= i < |provided| && provided[i].serviceType == t {
        if i < |front| { assert front[i].serviceType == t; }
      }
    }
  }

  /** A listed service really becomes unavailable exactly when the plugin is its only provider. */
  lemma ServiceIsLostIff(N: Collection, x: string, services: seq<string>, affected: seq<string>, optional: seq<string>, t: string)
    requires x in N && ImpactOutcome(N, x, services, affected, optional)
    ensures t in services <==> Provider(N, x, t)
    ensures t in services ==> (!HasProvider(N - {x}, t) <==> SoleProvider(N, x, t))
  {
    ProvidedTypesAreOffered(N[x].provided, t);
    assert t in services <==> t in multiset(services);
    assert t in ProvidedTypes(N[x].provided) <==> t in multiset(ProvidedTypes(N[x].provided));
    forall p ensures Provider(N - {x}, p, t) <==> Provider(N, p, t) && p != x {}
  }

  /** So the list is what its description promises, the services that become unavailable, exactly when
      the plugin is the only provider of every type it declares. */
  lemma AffectedServicesAreLostIff(N: Collection, x: string, services: seq<string>, affected: seq<string>, optional: seq<string>)
    requires x in N && ImpactOutcome(N, x, services, affected, optional)
    ensures (forall t :: t in services ==> !HasProvider(N - {x}, t)) <==> forall t :: Offers(N[x], t) ==> SoleProvider(N, x, t)
  {
    forall t ensures (t in services <==> Offers(N[x], t)) && (t in services ==> (!HasProvider(N - {x}, t) <==> SoleProvider(N, x, t))) {
      ServiceIsLostIff(N, x, services, affected, optional, t);
    }
  }

  /** The list of other providers is empty exactly when the plugin is the only provider. */
  lemma OtherProvidersMeanNotSole(s: State, t: string, id: string)
    requires Exact(s) && Provider(s.nodes, id, t)
    ensures Without(Lookup(s.byType, t), id) == [] <==> SoleProvider(s.nodes, id, t)
  {
    var list := Lookup(s.byType, t);
    var others := Without(list, id);
    forall p ensures p in others <==> Provider(s.nodes, p, t) && p != id {
      WithoutFacts(list, id, p);
      LookupFindsProviders(s, t, p);
      assert p in others <==> p in multiset(others);
      assert p in list <==> p in multiset(list);
    }
    if others != [] { assert others[0] in others; }
  }

  lemma AbsentPluginAffectsNothing(N: Collection, x: string)
    requires x !in N
    ensures AffectedBy(N, x) == {} && OptionallyAffectedBy(N, x) == {}
  {
    forall y ensures !Cascades(N, x, y) {
      forall w | |w| >= 2 && w[0] == x ensures !StrandWalk(N, w) {
        assert !Strands(N, w[0], w[0 + 1]);
      }
    }
  }

  lemma {:induction false} RemoveFirstAt(s: seq<string>, x: string, i: nat)
    requires i <= |s| && x !in s[..i] && (i < |s| ==> s[i] == x)
    ensures RemoveFirst(s, x) == if i < |s| then s[..i] + s[i + 1..] else s
  {
    if i > 0 {
      assert s[0] == s[..i][0];
      assert s[1..][..i - 1] == s[..i][1..];
      RemoveFirstAt(s[1..], x, i - 1);
    }
  }

  lemma UnprovidedNeed(s: State, q: string, t: string)
    requires Exact(s) && t in Lookup(s.edges, q) && Lookup(s.byType, t) == []
    ensures Requirer(s.nodes, q, t) && !HasProvider(s.nodes, t)
  {
    EdgesAreRequirers(s, q, t);
    forall p ensures !Provider(s.nodes, p, t) { LookupFindsProviders(s, t, p); }
  }

  /** `t` is the first of the types without a provider list. */
  ghost predicate FirstUnlisted(byType: Index, types: seq<string>, t: string) {
    exists i :: 0 <= i < |types| && types[i] == t && Lookup(byType, t) == [] && Listed(byType, types[..i])
  }

  /** Every one of the types has a nonempty provider list. */
  ghost predicate Listed(byType: Index, types: seq<string>) {
    forall t :: t in types ==> Lookup(byType, t) != []
  }

  ghost predicate DegreesWithout(s: State, todo: set<string>, inDegree: map<string, int>) {
    && inDegree.Keys == s.nodes.Keys
    && forall q :: q in s.nodes ==> inDegree[q] == if q in todo then 0 else PendingOf(s, q, {})
  }

  ghost predicate EdgesWithout(s: State, todo: set<string>, adjList: Index) {
    forall p, q :: EdgesIn(adjList, p, q) == if q in todo then 0 else EdgeCount(s, p, q)
  }

  /** The startup multigraph without the edges into the plugins still to do. */
  ghost predicate HalfBuilt(s: State, todo: set<string>, inDegree: map<string, int>, adjList: Index) {
    && todo <= s.edges.Keys
    && (forall q :: q in s.edges && q !in todo ==> Listed(s.byType, s.edges[q]))
    && DegreesWithout(s, todo, inDegree)
    && EdgesWithout(s, todo, adjList)
  }

  lemma EdgesNext(s: State, todo: set<string>, q: string, before: Index, after: Index)
    requires EdgesWithout(s, todo, before) && q in todo
    requires Linked(before, after, q, Sources(s.byType, Lookup(s.edges, q)))
    ensures EdgesWithout(s, todo - {q}, after)
  {
    forall p, x ensures EdgesIn(after, p, x) == if x in todo - {q} then 0 else EdgeCount(s, p, x) {
      assert EdgesIn(before, p, x) == if x in todo then 0 else EdgeCount(s, p, x);
      assert EdgesIn(after, p, x) == EdgesIn(before, p, x) + if x == q then EdgeCount(s, p, q) else 0;
    }
  }

  lemma DegreesNext(s: State, todo: set<string>, q: string, before: map<string, int>, after: map<string, int>)
    requires q in s.edges && DegreesWithout(s, todo, before) && q in todo && q in before
    requires after == before[q := before[q] + |Sources(s.byType, s.edges[q])|]
    ensures DegreesWithout(s, todo - {q}, after)
  {
    SourcesCountPending(s.byType, s.edges[q]);
  }

  lemma BuildNext(s: State, todo: set<string>, q: string, inDegree0: map<string, int>, adjList0: Index,
                  inDegree: map<string, int>, adjList: Index)
    requires HalfBuilt(s, todo, inDegree0, adjList0) && q in todo && Listed(s.byType, s.edges[q])
    requires Grown(inDegree0, adjList0, inDegree, adjList, q, Sources(s.byType, s.edges[q]))
    ensures HalfBuilt(s, todo - {q}, inDegree, adjList)
  {
    DegreesNext(s, todo, q, inDegree0, inDegree);
    EdgesNext(s, todo, q, adjList0, adjList);
  }

  lemma AllBuilt(s: State, inDegree: map<string, int>, adjList: Index)
    requires Exact(s) && HalfBuilt(s, {}, inDegree, adjList)
    ensures Satisfied(s.nodes) && CountsPending(s, {}, inDegree) && ListsEdges(s, adjList)
  {
    forall q, t | Requirer(s.nodes, q, t) ensures HasProvider(s.nodes, t) {
      EdgesAreRequirers(s, q, t);
      LookupFindsProviders(s, t, Lookup(s.byType, t)[0]);
    }
    assert ListsEdges(s, adjList) by {
      forall p, q ensures Occurrences(Lookup(adjList, p), q) == EdgeCount(s, p, q) {
        assert EdgesIn(adjList, p, q) == EdgeCount(s, p, q);
      }
    }
  }

  /** What Kahn's loop keeps: a greedy run so far, in-degrees that count the unsettled edges,
      and a sorted queue of exactly the plugins whose in-degree has dropped to zero. */
  ghost predicate Progress(s: State, order: seq<string>, queue: seq<string>, inDegree: map<string, int>) {
    && GreedyRun(s.nodes, order)
    && CountsPending(s, Elements(order), inDegree)
    && QueueIsReady(s, order, queue, inDegree)
  }

  ghost predicate QueueIsReady(s: State, order: seq<string>, queue: seq<string>, inDegree: map<string, int>)
    requires inDegree.Keys == s.nodes.Keys
  {
    && IsSorted(queue) && NoDuplicates(queue)
    && forall x :: x in queue <==> x in s.nodes && x !in order && inDegree[x] == 0
  }

  /** The queue after a release holds the old entries and the dependents that reached zero. */
  ghost predicate QueuedAfter(queue: seq<string>, dependents: seq<string>, inDegree: map<string, int>, newQueue: seq<string>) {
    && IsSorted(newQueue) && NoDuplicates(newQueue)
    && forall x :: x in newQueue <==> x in queue || (x in dependents && x in inDegree && inDegree[x] == 0)
  }

  /** The in-degrees still count every edge to these dependents. */
  ghost predicate Counted(inDegree: map<string, int>, dependents: seq<string>) {
    && (forall q :: q in dependents ==> q in inDegree)
    && forall q :: q in inDegree ==> inDegree[q] >= Occurrences(dependents, q)
  }

  /** The in-degrees dropped by one for each edge to these dependents. */
  ghost predicate Released(before: map<string, int>, dependents: seq<string>, after: map<string, int>) {
    && after.Keys == before.Keys
    && forall q :: q in after ==> after[q] == before[q] - Occurrences(dependents, q)
  }

  ghost predicate QueuedAtZero(inDegree: map<string, int>, queue: seq<string>) {
    && IsSorted(queue) && NoDuplicates(queue)
    && forall x :: x in queue ==> x in inDegree && inDegree[x] == 0
  }

  lemma TailIsAtZero(s: State, order: seq<string>, queue: seq<string>, inDegree: map<string, int>)
    requires Progress(s, order, queue, inDegree) && |queue| > 0
    ensures QueuedAtZero(inDegree, queue[1..])
  {
    assert forall x :: x in queue[1..] ==> x in queue;
  }

  /** Append, then sort. */
  function Enqueue(queue: seq<string>, x: string): (r: seq<string>)
    requires NoDuplicates(queue) && x !in queue
    ensures IsSorted(r) && NoDuplicates(r)
    ensures forall y :: y in r <==> y in queue || y == x
  {
    SortKeepsElements(queue + [x]);
    var r := Sort(queue + [x]);
    assert forall y :: y in r <==> y in Elements(r);
    assert forall y :: y in queue + [x] <==> y in Elements(queue + [x]);
    r
  }

  lemma ReleaseOne(before: map<string, int>, dependents: seq<string>, i: nat, now: map<string, int>)
    requires i < |dependents| && Counted(before, dependents) && Released(before, dependents[..i], now)
    ensures var x := dependents[i];
            x in now && now[x] > 0 && Released(before, dependents[..i + 1], now[x := now[x] - 1])
  {
    var x := dependents[i];
    PrefixOccurrences(dependents, i, x);
    var next := now[x := now[x] - 1];
    forall q | q in next ensures next[q] == before[q] - Occurrences(dependents[..i + 1], q) {
      PrefixOccurrences(dependents, i, q);
    }
  }

  lemma PrefixOccurrences(s: seq<string>, i: nat, x: string)
    requires i < |s|
    ensures Occurrences(s[..i + 1], x) == Occurrences(s[..i], x) + if x == s[i] then 1 else 0
    ensures Occurrences(s[..i + 1], x) <= Occurrences(s, x)
    ensures x == s[i] ==> x in s
  {
    assert s[..i + 1] == s[..i] + [s[i]];
    assert s == s[..i + 1] + s[i + 1..];
  }

  /** The dependent whose turn it is still counts an edge, so it is not queued yet. */
  lemma DependentIsNotQueued(before: map<string, int>, dependents: seq<string>, i: nat, now: map<string, int>,
                             queue0: seq<string>, queue: seq<string>)
    requires i < |dependents| && Counted(before, dependents) && Released(before, dependents[..i], now)
    requires QueuedAtZero(before, queue0) && QueuedAfter(queue0, dependents[..i], now, queue)
    ensures dependents[i] in now && now[dependents[i]] > 0 && dependents[i] !in queue
  {
    ReleaseOne(before, dependents, i, now);
    PrefixOccurrences(dependents, i, dependents[i]);
    assert dependents[i] !in queue0 by { assert before[dependents[i]] >= Occurrences(dependents, dependents[i]) > 0; }
  }

  lemma QueueNext(queue0: seq<string>, dependents: seq<string>, i: nat, now: map<string, int>, queue: seq<string>)
    requires i < |dependents| && QueuedAfter(queue0, dependents[..i], now, queue)
    requires dependents[i] in now && now[dependents[i]] > 0 && dependents[i] !in queue
    ensures var x := dependents[i];
            QueuedAfter(queue0, dependents[..i + 1], now[x := now[x] - 1], if now[x] == 1 then Enqueue(queue, x) else queue)
  {
    assert dependents[..i + 1] == dependents[..i] + [dependents[i]];
  }

  lemma QueueOne(before: map<string, int>, dependents: seq<string>, i: nat, now: map<string, int>,
                 queue0: seq<string>, queue: seq<string>)
    requires i < |dependents| && Counted(before, dependents) && Released(before, dependents[..i], now)
    requires QueuedAtZero(before, queue0) && QueuedAfter(queue0, dependents[..i], now, queue)
    ensures var x := dependents[i];
            && x in now && x !in queue
            && QueuedAfter(queue0, dependents[..i + 1], now[x := now[x] - 1], if now[x] == 1 then Enqueue(queue, x) else queue)
  {
    DependentIsNotQueued(before, dependents, i, now, queue0, queue);
    QueueNext(queue0, dependents, i, now, queue);
  }

  ghost predicate CountsPending(s: State, done: set<string>, inDegree: map<string, int>) {
    && inDegree.Keys == s.nodes.Keys
    && forall q :: q in s.nodes ==> inDegree[q] == PendingOf(s, q, done)
  }

  ghost predicate ListsEdges(s: State, adjList: Index) {
    forall p, q :: Occurrences(Lookup(adjList, p), q) == EdgeCount(s, p, q)
  }

  /** In-degree zero means ready, so the head of the sorted queue is the least ready plugin. */
  lemma HeadIsLeastReady(s: State, order: seq<string>, queue: seq<string>, inDegree: map<string, int>)
    requires Exact(s) && Progress(s, order, queue, inDegree) && |queue| > 0
    ensures LeastReady(s.nodes, Elements(order), queue[0])
  {
    forall y | y in s.nodes ensures inDegree[y] == 0 && y !in order <==> Ready(s.nodes, Elements(order), y) {
      SettledIffPredecessorsDone(s, y, Elements(order));
    }
    assert queue[0] in queue;
    LeqTotal(queue[0], queue[0]);
    forall y | Ready(s.nodes, Elements(order), y) ensures Leq(queue[0], y) {
      assert y in queue;
    }
  }

  /** Every edge of the plugin being released is still counted in its target's in-degree. */
  lemma ReleaseIsSafe(s: State, done: set<string>, p: string, adjList: Index, inDegree: map<string, int>)
    requires Exact(s) && ListsEdges(s, adjList) && CountsPending(s, done, inDegree) && p !in done
    ensures Counted(inDegree, Lookup(adjList, p))
  {
    forall q | q in Lookup(adjList, p) ensures q in inDegree {
      assert Occurrences(Lookup(adjList, p), q) > 0;
      assert EdgeCount(s, p, q) > 0;
    }
    forall q | q in inDegree ensures inDegree[q] >= Occurrences(Lookup(adjList, p), q) {
      assert Occurrences(Lookup(adjList, p), q) == EdgeCount(s, p, q);
      PendingStep(s.byType, Lookup(s.edges, q), done, p);
    }
  }

  /** Subtracting the released edges leaves the in-degrees right for one more finished plugin. */
  lemma ReleaseSettles(s: State, done: set<string>, p: string, adjList: Index,
                       before: map<string, int>, after: map<string, int>)
    requires ListsEdges(s, adjList) && CountsPending(s, done, before) && p !in done
    requires Released(before, Lookup(adjList, p), after)
    ensures CountsPending(s, done + {p}, after)
  {
    forall q | q in s.nodes ensures after[q] == PendingOf(s, q, done + {p}) {
      assert Occurrences(Lookup(adjList, p), q) == EdgeCount(s, p, q);
      PendingStep(s.byType, Lookup(s.edges, q), done, p);
    }
  }

  /** A plugin that is already in the order has no unsettled edge left. */
  lemma DoneIsSettled(s: State, order: seq<string>, x: string)
    requires Exact(s) && GreedyRun(s.nodes, order) && x in order
    ensures x in s.nodes && PendingOf(s, x, Elements(order)) == 0
  {
    var k :| 0 <= k < |order| && order[k] == x;
    assert LeastReady(s.nodes, Elements(order[..k]), order[k]);
    assert Elements(order[..k]) <= Elements(order);
    SettledIffPredecessorsDone(s, x, Elements(order));
  }

  lemma TailMembership(queue: seq<string>, x: string)
    requires |queue| > 0 && NoDuplicates(queue)
    ensures x in queue[1..] <==> x in queue && x != queue[0]
  {
    assert queue == [queue[0]] + queue[1..];
  }

  /** What is queued after a release: the rest of the queue, and whatever just reached zero. */
  lemma ReleaseQueues(s: State, order: seq<string>, queue: seq<string>, before: map<string, int>,
                      adjList: Index, left: int, x: string)
    requires Exact(s) && ListsEdges(s, adjList) && Progress(s, order, queue, before) && |queue| > 0
    requires x in s.nodes && left == before[x] - Occurrences(Lookup(adjList, queue[0]), x)
    ensures x in queue[1..] || (x in Lookup(adjList, queue[0]) && left == 0)
       <==> x !in order + [queue[0]] && left == 0
  {
    var p := queue[0];
    TailMembership(queue, x);
    assert p in queue;
    ReleaseIsSafe(s, Elements(order), p, adjList, before);
    assert x in Lookup(adjList, p) <==> x in multiset(Lookup(adjList, p));
    if x in order { DoneIsSettled(s, order, x); }
  }

  /** One round of the loop: pop the head, release its edges, queue what became ready. */
  lemma ReleaseKeepsProgress(s: State, order: seq<string>, queue: seq<string>, before: map<string, int>,
                             adjList: Index, after: map<string, int>, newQueue: seq<string>)
    requires Exact(s) && ListsEdges(s, adjList) && Progress(s, order, queue, before) && |queue| > 0
    requires Released(before, Lookup(adjList, queue[0]), after)
    requires QueuedAfter(queue[1..], Lookup(adjList, queue[0]), after, newQueue)
    ensures Progress(s, order + [queue[0]], newQueue, after)
    ensures s.nodes.Keys - Elements(order + [queue[0]]) < s.nodes.Keys - Elements(order)
  {
    var p := queue[0];
    assert p in queue;
    ElementsAppend(order, p);
    assert p in s.nodes.Keys - Elements(order);
    ReleaseSettles(s, Elements(order), p, adjList, before, after);
    assert GreedyRun(s.nodes, order + [p]) by {
      HeadIsLeastReady(s, order, queue, before);
      ExtendGreedyRun(s.nodes, order, p);
    }
    assert QueueIsReady(s, order + [p], newQueue, after) by {
      forall x ensures x in newQueue <==> x in s.nodes && x !in order + [p] && after[x] == 0 {
        if x in s.nodes {
          ReleaseQueues(s, order, queue, before, adjList, after[x], x);
        } else {
          TailMembership(queue, x);
          ReleaseIsSafe(s, Elements(order), p, adjList, before);
        }
      }
    }
  }

  lemma RunIsExhausted(s: State, order: seq<string>, inDegree: map<string, int>)
    requires Exact(s) && Progress(s, order, [], inDegree)
    ensures Exhausted(s.nodes, order)
  {
    forall x ensures !Ready(s.nodes, Elements(order), x) {
      SettledIffPredecessorsDone(s, x, Elements(order));
    }
  }

  /** Reading the outcome off the length of an exhausted run, as the final check does. */
  lemma OutcomeOfRun(N: Collection, r: seq<string>)
    requires Satisfied(N) && GreedyRun(N, r) && Exhausted(N, r)
    ensures StartupOutcome(N, if |r| != |N| then CycleDetected(|r|, |N|) else Ordered(r))
  {
    GreedyRunIsDistinct(N, r);
    DistinctCount(r);
    assert |N.Keys| == |N|;
    assert |N.Keys - Elements(r)| == |N.Keys| - |Elements(r)|;
    if |r| == |N| {
      assert Elements(r) == N.Keys;
      FullRunIsLeastSequence(N, r);
      SequenceExcludesCycles(N, r);
    } else {
      PartialRunHasCycle(N, r);
    }
  }
}
