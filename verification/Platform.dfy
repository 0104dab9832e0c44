/** The platform operations over the dependency graph, the registry, the plugin table and the
    router's endpoints. Remote calls, generated identities and the health wait appear as
    parameters; sleeping, draining and shutting a plugin down change none of this state. */
module Platform {
  import opened Wrappers
  import opened Ordering
  import opened Plugins
  import opened GraphIndex
  import opened Impact
  import opened Changes
  import DepGraph
  import Registry
  import RegistryServer

  datatype Metadata = Metadata(
    name: string, version: string, provided: seq<ServiceDeclaration>, required: seq<ServiceDependency>)

  datatype PluginInfo = PluginInfo(selfID: string, metadata: Metadata)

  datatype PluginConfig = PluginConfig(selfID: string, endpoint: string, metadata: Metadata)

  datatype PluginInstance = Instance(
    runtimeID: string, selfID: string, metadata: Metadata, endpoint: string, token: string)

  /** Everything the operations change. */
  datatype PlatformView = PlatformView(
    graph: State, registry: Registry.Registry,
    plugins: map<string, PluginInstance>, endpoints: map<string, string>)

  /** What `AddPlugin` learns from outside: the plugin's description, a generated identity, and
      whether the plugin accepted it and became healthy in time. */
  datatype Handshake = Handshake(
    info: Option<PluginInfo>, identity: Option<(string, string)>, identityAccepted: bool, becomesHealthy: bool)

  datatype AddResult =
    | PluginAdded(runtimeID: string)
    | NoPluginInfo
    | MissingService(serviceType: string)
    | NoIdentity
    | IdentityRefused
    | NotHealthy

  datatype ReplaceResult = Replaced(runtimeID: string) | PluginNotFound | NoNewIdentity | NewVersionNotHealthy

  function NodeFor(runtimeID: string, selfID: string, m: Metadata): Node {
    Node(runtimeID, selfID, m.provided, m.required)
  }

  /** The self-declared ID, or the configured one as a fallback. */
  function SelfID(info: PluginInfo, config: PluginConfig): string {
    if info.selfID == "" then config.selfID else info.selfID
  }

  /** A plugin joins graph, table and router. */
  function Joined(p: PlatformView, node: Node, instance: PluginInstance): PlatformView {
    p.(graph := Added(p.graph, node),
       plugins := p.plugins[instance.runtimeID := instance],
       endpoints := p.endpoints[instance.runtimeID := instance.endpoint])
  }

  /** A plugin leaves graph, registry and table; its endpoint stays behind in the router. */
  function Retired(p: PlatformView, runtimeID: string): PlatformView {
    p.(graph := Removed(p.graph, runtimeID),
       registry := Registry.PluginUnregistered(p.registry, runtimeID),
       plugins := p.plugins - {runtimeID})
  }

  /** Dependency `i` is needed at startup and nothing in the collection provides it. */
  ghost predicate Unmet(N: Collection, m: Metadata, i: int) {
    0 <= i < |m.required| && m.required[i].requiredForStartup && !HasProvider(N, m.required[i].serviceType)
  }

  ghost predicate AllMet(N: Collection, m: Metadata) {
    forall i :: !Unmet(N, m, i)
  }

  /** `t` is the type of the first dependency that is unmet. */
  ghost predicate FirstUnmet(N: Collection, m: Metadata, t: string) {
    exists i :: Unmet(N, m, i) && m.required[i].serviceType == t && forall j :: 0 <= j < i ==> !Unmet(N, m, j)
  }

  /** Every plugin of the table is in the graph and reachable by the router under its ID. */
  ghost predicate TableAgrees(p: PlatformView) {
    forall id :: id in p.plugins ==> EntryAgrees(p, id)
  }

  ghost predicate EntryAgrees(p: PlatformView, id: string)
    requires id in p.plugins
  {
    && p.plugins[id].runtimeID == id && id in p.graph.nodes
    && id in p.endpoints && p.endpoints[id] == p.plugins[id].endpoint
  }

  /** The plugin is described, its startup needs are met, and it has accepted its identity. */
  ghost predicate Admitted(N: Collection, h: Handshake) {
    h.info.Some? && AllMet(N, h.info.value.metadata) && h.identity.Some? && h.identityAccepted
  }

  /** When `AddPlugin` gives which result: exactly one fits any handshake. */
  ghost predicate AddOutcome(N: Collection, h: Handshake, result: AddResult) {
    match result
    case NoPluginInfo => h.info.None?
    case MissingService(t) => h.info.Some? && FirstUnmet(N, h.info.value.metadata, t)
    case NoIdentity => h.info.Some? && AllMet(N, h.info.value.metadata) && h.identity.None?
    case IdentityRefused =>
      h.info.Some? && AllMet(N, h.info.value.metadata) && h.identity.Some? && !h.identityAccepted
    case NotHealthy => Admitted(N, h) && !h.becomesHealthy
    case PluginAdded(runtimeID) => Admitted(N, h) && h.becomesHealthy && runtimeID == h.identity.value.0
  }

  /** No handshake fits two results, so the outcome decides between them in both directions. */
  lemma AddOutcomeIsUnique(N: Collection, h: Handshake, a: AddResult, b: AddResult)
    requires AddOutcome(N, h, a) && AddOutcome(N, h, b)
    ensures a == b
  {
    if a.MissingService? && b.MissingService? {
      var m := h.info.value.metadata;
      var i :| Unmet(N, m, i) && m.required[i].serviceType == a.serviceType && forall k :: 0 <= k < i ==> !Unmet(N, m, k);
      var j :| Unmet(N, m, j) && m.required[j].serviceType == b.serviceType && forall k :: 0 <= k < j ==> !Unmet(N, m, k);
      assert i == j;
    }
  }

  function NewNode(config: PluginConfig, h: Handshake): Node
    requires h.info.Some? && h.identity.Some?
  {
    NodeFor(h.identity.value.0, SelfID(h.info.value, config), h.info.value.metadata)
  }

  function NewInstance(config: PluginConfig, h: Handshake): PluginInstance
    requires h.info.Some? && h.identity.Some?
  {
    Instance(h.identity.value.0, SelfID(h.info.value, config), h.info.value.metadata, config.endpoint, h.identity.value.1)
  }

  lemma JoiningKeepsTable(p: PlatformView, node: Node, instance: PluginInstance)
    requires TableAgrees(p) && node.runtimeID == instance.runtimeID
    ensures TableAgrees(Joined(p, node, instance))
  {
    forall id | id in Joined(p, node, instance).plugins ensures EntryAgrees(Joined(p, node, instance), id) {
      if id != node.runtimeID { assert EntryAgrees(p, id); }
    }
  }

  function Routed(p: PlatformView, node: Node, endpoint: string): PlatformView {
    p.(graph := Added(p.graph, node), endpoints := p.endpoints[node.runtimeID := endpoint])
  }

  /** The table may lag behind graph and router, as it does in the middle of a replacement. */
  lemma RoutingKeepsTable(p: PlatformView, node: Node, endpoint: string)
    requires TableAgrees(p) && node.runtimeID !in p.plugins
    ensures TableAgrees(Routed(p, node, endpoint))
  {
    var p' := Routed(p, node, endpoint);
    forall id | id in p'.plugins ensures EntryAgrees(p', id) { assert EntryAgrees(p, id); }
  }

  function Tabled(p: PlatformView, instance: PluginInstance): PlatformView {
    p.(plugins := p.plugins[instance.runtimeID := instance])
  }

  lemma TablingAfterRetiring(p: PlatformView, runtimeID: string, instance: PluginInstance)
    requires instance.runtimeID != runtimeID
    ensures Tabled(Retired(p, runtimeID), instance) == Retired(Tabled(p, instance), runtimeID)
  {
    assert (p.plugins - {runtimeID})[instance.runtimeID := instance] == p.plugins[instance.runtimeID := instance] - {runtimeID};
  }

  lemma TablingKeepsTable(p: PlatformView, instance: PluginInstance)
    requires TableAgrees(p) && instance.runtimeID in p.graph.nodes
    requires instance.runtimeID in p.endpoints && p.endpoints[instance.runtimeID] == instance.endpoint
    ensures TableAgrees(Tabled(p, instance))
  {
    var p' := Tabled(p, instance);
    forall id | id in p'.plugins ensures EntryAgrees(p', id) {
      if id != instance.runtimeID { assert EntryAgrees(p, id); }
    }
  }

  function InstanceFor(config: PluginConfig, identity: (string, string)): PluginInstance {
    Instance(identity.0, config.selfID, config.metadata, config.endpoint, identity.1)
  }

  lemma GraphGrowthKeepsTable(p: PlatformView, node: Node)
    requires TableAgrees(p)
    ensures TableAgrees(p.(graph := Added(p.graph, node)))
  {
    var p' := p.(graph := Added(p.graph, node));
    forall id | id in p'.plugins ensures EntryAgrees(p', id) { assert EntryAgrees(p, id); }
  }

  lemma RetiringKeepsTable(p: PlatformView, runtimeID: string)
    requires Exact(p.graph) && TableAgrees(p)
    ensures Exact(Retired(p, runtimeID).graph) && TableAgrees(Retired(p, runtimeID))
    ensures Retired(p, runtimeID).graph.nodes == p.graph.nodes - {runtimeID}
  {
    RemoveKeepsExact(p.graph, runtimeID);
    forall id | id in Retired(p, runtimeID).plugins ensures EntryAgrees(Retired(p, runtimeID), id) {
      assert EntryAgrees(p, id);
    }
  }

  /** Startable, and no type that had a provider in `before` is without one. */
  ghost predicate NothingLost(before: Collection, N: Collection) {
    Startable(N) && forall t :: HasProvider(before, t) ==> HasProvider(N, t)
  }

  /** The collections that the graph goes through while `node` replaces `previous`. */
  function ReplacementGraphs(N: Collection, previous: string, node: Node, becomesHealthy: bool): seq<Collection> {
    var both := N[node.runtimeID := node];
    [N, both, if becomesHealthy then both - {previous} else N]
  }

  /** The plugin declares a service of the type. */
  ghost predicate Declares(m: Metadata, t: string) {
    exists i :: 0 <= i < |m.provided| && m.provided[i].serviceType == t
  }

  /** The plugin declares that it needs the type at startup. */
  ghost predicate Demands(m: Metadata, t: string) {
    exists i :: 0 <= i < |m.required| && m.required[i].serviceType == t && m.required[i].requiredForStartup
  }

  /** `N'` is `N` with one more plugin, which provides and needs what its metadata declare and nothing else. */
  ghost predicate JoinsAs(N: Collection, runtimeID: string, m: Metadata, N': Collection) {
    && runtimeID !in N && runtimeID in N' && N' - {runtimeID} == N
    && N'[runtimeID].provided == m.provided && N'[runtimeID].required == m.required
    && (forall t :: Provider(N', runtimeID, t) <==> Declares(m, t))
    && (forall t :: Requirer(N', runtimeID, t) <==> Demands(m, t))
    && (forall t :: HasProvider(N', t) <==> HasProvider(N, t) || Declares(m, t))
  }

  lemma JoinsAsDeclared(N: Collection, runtimeID: string, selfID: string, m: Metadata)
    requires runtimeID !in N
    ensures JoinsAs(N, runtimeID, m, N[runtimeID := NodeFor(runtimeID, selfID, m)])
  {
    var node := NodeFor(runtimeID, selfID, m);
    var N' := N[runtimeID := node];
    forall t ensures HasProvider(N', t) <==> HasProvider(N, t) || Declares(m, t) {
      if p :| Provider(N, p, t) { assert Provider(N', p, t); }
      if Declares(m, t) { assert Offers(node, t) && Provider(N', runtimeID, t); }
      if p :| Provider(N', p, t) { assert p != runtimeID ==> Provider(N, p, t); }
    }
  }

  /** Table and router know the plugin as it was described, under the identity it was given. */
  ghost predicate Enrolled(p: PlatformView, identity: (string, string), selfID: string, m: Metadata, endpoint: string) {
    var runtimeID := identity.0;
    && runtimeID in p.plugins && p.plugins[runtimeID] == Instance(runtimeID, selfID, m, endpoint, identity.1)
    && runtimeID in p.endpoints && p.endpoints[runtimeID] == endpoint
  }

  /** Graph, registry and table have lost the plugin and nothing else; the router keeps its endpoint. */
  ghost predicate Gone(p: PlatformView, runtimeID: string, p': PlatformView) {
    && p'.graph.nodes == p.graph.nodes - {runtimeID}
    && p'.plugins == p.plugins - {runtimeID} && p'.endpoints == p.endpoints
    && (forall t, x :: x in Registry.ProvidersOf(p'.registry, t) <==> x in Registry.ProvidersOf(p.registry, t) && x.runtimeID != runtimeID)
    && (forall id :: id in p'.registry.registrations <==>
          id in p.registry.registrations && p.registry.registrations[id].runtimeID != runtimeID)
  }

  lemma RetiredIsGone(p: PlatformView, runtimeID: string)
    requires Exact(p.graph)
    ensures Gone(p, runtimeID, Retired(p, runtimeID))
  {
    RemoveKeepsExact(p.graph, runtimeID);
    forall t, x
      ensures x in Registry.ProvidersOf(Retired(p, runtimeID).registry, t) <==>
              x in Registry.ProvidersOf(p.registry, t) && x.runtimeID != runtimeID
    {
      Registry.KeepMembers(Registry.ProvidersOf(p.registry, t), Registry.NotOfPlugin(runtimeID), x);
    }
  }

  /** The new version offers what the old one does and needs nothing at startup that it does not. */
  ghost predicate Supersedes(m: Metadata, previous: Node) {
    && (forall t :: Declares(m, t) <==> Offers(previous, t))
    && (forall t :: Demands(m, t) ==> NeedsAtStartup(previous, t))
  }

  lemma SupersedingCanReplace(runtimeID: string, selfID: string, m: Metadata, previous: Node)
    requires Supersedes(m, previous)
    ensures CanReplace(NodeFor(runtimeID, selfID, m), previous)
  {
    var node := NodeFor(runtimeID, selfID, m);
    forall t ensures Offers(node, t) <==> Offers(previous, t) { assert Offers(node, t) <==> Declares(m, t); }
    forall t | NeedsAtStartup(node, t) ensures NeedsAtStartup(previous, t) { assert Demands(m, t); }
  }

  /** What adding a plugin does: nothing unless it succeeds; then the plugin joins with what it declares, and a
      startable graph stays startable exactly when that closes no cycle. */
  ghost predicate AddEffect(p: PlatformView, config: PluginConfig, h: Handshake, result: AddResult, p': PlatformView) {
    if !result.PluginAdded? then p' == p
    else
      && h.info.Some? && h.identity.Some?
      && p' == Joined(p, NewNode(config, h), NewInstance(config, h))
      && JoinsAs(p.graph.nodes, h.identity.value.0, h.info.value.metadata, p'.graph.nodes)
      && Enrolled(p', h.identity.value, if h.info.value.selfID != "" then h.info.value.selfID else config.selfID,
                  h.info.value.metadata, config.endpoint)
      && (Startable(p.graph.nodes) ==> (Startable(p'.graph.nodes) <==> !ClosesCycle(p.graph.nodes, NewNode(config, h))))
  }

  lemma AddTakesEffect(p: PlatformView, config: PluginConfig, h: Handshake)
    requires Admitted(p.graph.nodes, h) && h.identity.value.0 !in p.graph.nodes
    ensures AddEffect(p, config, h, PluginAdded(h.identity.value.0), Joined(p, NewNode(config, h), NewInstance(config, h)))
  {
    if Startable(p.graph.nodes) { NeedsAreMet(p.graph.nodes, NewNode(config, h), h.info.value.metadata); }
    JoinsAsDeclared(p.graph.nodes, h.identity.value.0, SelfID(h.info.value, config), h.info.value.metadata);
  }

  /** So the next plugin is refused for a missing service if and only if it needs something at startup that
      neither the one just added nor anybody before it provides. */
  lemma JustAddedServes(p: PlatformView, config: PluginConfig, h: Handshake, p': PlatformView, next: Handshake, result: AddResult)
    requires h.identity.Some? && AddEffect(p, config, h, PluginAdded(h.identity.value.0), p')
    requires AddOutcome(p'.graph.nodes, next, result) && next.info.Some?
    ensures result.MissingService? <==>
            exists t :: Demands(next.info.value.metadata, t) && !Declares(h.info.value.metadata, t) && !HasProvider(p.graph.nodes, t)
  {
    var m := next.info.value.metadata;
    if result.MissingService? {
      var i :| Unmet(p'.graph.nodes, m, i) && m.required[i].serviceType == result.serviceType;
      assert Demands(m, result.serviceType) && !HasProvider(p'.graph.nodes, result.serviceType);
    }
    if t :| Demands(m, t) && !Declares(h.info.value.metadata, t) && !HasProvider(p.graph.nodes, t) {
      var i :| 0 <= i < |m.required| && m.required[i].serviceType == t && m.required[i].requiredForStartup;
      assert !HasProvider(p'.graph.nodes, t);
      assert Unmet(p'.graph.nodes, m, i);
    }
  }

  /** What a replacement does that is not refused: nothing unless the new version becomes healthy; then that
      joins and the old one is retired. `trail` are the collections at the outset and after each write to
      the graph; under a replacement that offers the same and needs nothing new, nothing is lost in any. */
  ghost predicate ReplaceEffect(p: PlatformView, runtimeID: string, config: PluginConfig, identity: (string, string),
                                becomesHealthy: bool, p': PlatformView, trail: seq<Collection>) {
    var node := NodeFor(identity.0, config.selfID, config.metadata);
    && p' == AfterReplacing(p, runtimeID, config, identity, becomesHealthy)
    && trail == ReplacementGraphs(p.graph.nodes, runtimeID, node, becomesHealthy)
    && |trail| == 3 && JoinsAs(p.graph.nodes, identity.0, config.metadata, trail[1])
    && (becomesHealthy ==>
          && Enrolled(p', identity, config.selfID, config.metadata, config.endpoint)
          && Gone(Joined(p, node, InstanceFor(config, identity)), runtimeID, p'))
    && (runtimeID in p.graph.nodes && Startable(p.graph.nodes) && Supersedes(config.metadata, p.graph.nodes[runtimeID]) ==>
          forall i :: 0 <= i < |trail| ==> NothingLost(p.graph.nodes, trail[i]))
  }

  function AfterReplacing(p: PlatformView, runtimeID: string, config: PluginConfig, identity: (string, string), becomesHealthy: bool): PlatformView {
    var node := NodeFor(identity.0, config.selfID, config.metadata);
    if becomesHealthy then Retired(Joined(p, node, InstanceFor(config, identity)), runtimeID) else p
  }

  lemma ReplaceTakesEffect(p: PlatformView, runtimeID: string, config: PluginConfig, identity: (string, string), becomesHealthy: bool)
    requires Exact(p.graph) && runtimeID in p.graph.nodes && identity.0 !in p.graph.nodes
    ensures var node := NodeFor(identity.0, config.selfID, config.metadata);
            ReplaceEffect(p, runtimeID, config, identity, becomesHealthy,
                          AfterReplacing(p, runtimeID, config, identity, becomesHealthy),
                          ReplacementGraphs(p.graph.nodes, runtimeID, node, becomesHealthy))
  {
    var node := NodeFor(identity.0, config.selfID, config.metadata);
    if Supersedes(config.metadata, p.graph.nodes[runtimeID]) {
      SupersedingCanReplace(identity.0, config.selfID, config.metadata, p.graph.nodes[runtimeID]);
    }
    ReplacementLosesNothing(p.graph.nodes, runtimeID, node, becomesHealthy);
    JoinsAsDeclared(p.graph.nodes, identity.0, config.selfID, config.metadata);
    AddKeepsExactIff(p.graph, node);
    RetiredIsGone(Joined(p, node, InstanceFor(config, identity)), runtimeID);
  }

  class Platform {
    const depGraph: DepGraph.Graph
    const registry: RegistryServer.ServiceRegistry
    var plugins: map<string, PluginInstance>
    var endpoints: map<string, string>

    ghost function View(): PlatformView
      reads this, depGraph, registry
    {
      PlatformView(depGraph.View(), registry.View(), plugins, endpoints)
    }

    ghost predicate Valid()
      reads this, depGraph, registry
    {
      depGraph.Valid() && registry.Valid() && TableAgrees(View())
    }

    constructor (registry: RegistryServer.ServiceRegistry)
      requires registry.Valid()
      ensures this.registry == registry && fresh(depGraph)
      ensures Valid() && plugins == map[] && endpoints == map[] && depGraph.View() == EMPTY
    {
      this.registry := registry;
      depGraph := new DepGraph.Graph();
      plugins, endpoints := map[], map[];
    }

    /** The first startup need that no provider in the graph meets. */
    method FindMissing(m: Metadata) returns (missing: Option<string>)
      requires depGraph.Valid()
      ensures missing.Some? ==> FirstUnmet(depGraph.nodes, m, missing.value)
      ensures missing.None? ==> AllMet(depGraph.nodes, m)
    {
      for i := 0 to |m.required|
        invariant forall j :: 0 <= j < i ==> !Unmet(depGraph.nodes, m, j)
      {
        if m.required[i].requiredForStartup {
          var available := depGraph.HasService(m.required[i].serviceType);
          if !available {
            assert Unmet(depGraph.nodes, m, i);
            return Some(m.required[i].serviceType);
          }
        }
      }
      missing := None;
    }

    /** Adds a plugin, or leaves graph, table and endpoints exactly as they were. */
    method AddPlugin(config: PluginConfig, h: Handshake) returns (result: AddResult)
      requires Valid() && (h.identity.Some? ==> h.identity.value.0 !in depGraph.nodes)
      modifies this`plugins, this`endpoints, depGraph
      ensures Valid() && AddOutcome(old(depGraph.nodes), h, result)
      ensures AddEffect(old(View()), config, h, result, View())
    {
      var refusal := Admit(h);
      if refusal.Some? { return refusal.value; }
      AddTakesEffect(View(), config, h);
      Connect(NewNode(config, h), NewInstance(config, h), h.becomesHealthy);
      result := if h.becomesHealthy then PluginAdded(h.identity.value.0) else NotHealthy;
    }

    /** The plugin joins the graph and, once healthy, router and table. */
    method Connect(node: Node, instance: PluginInstance, becomesHealthy: bool)
      requires Valid() && node.runtimeID !in depGraph.nodes && instance.runtimeID == node.runtimeID
      modifies this`plugins, this`endpoints, depGraph
      ensures Valid() && View() == if becomesHealthy then Joined(old(View()), node, instance) else old(View())
    {
      JoiningKeepsTable(View(), node, instance);
      ghost var trail := JoinGraph(node, becomesHealthy);
      if !becomesHealthy { return; }
      endpoints := endpoints[instance.runtimeID := instance.endpoint];
      plugins := plugins[instance.runtimeID := instance];
    }

    /** The steps of `AddPlugin` before anything changes: the reason to refuse the plugin, if any. */
    method Admit(h: Handshake) returns (refusal: Option<AddResult>)
      requires depGraph.Valid()
      ensures refusal.Some? ==> AddOutcome(depGraph.nodes, h, refusal.value) && !refusal.value.PluginAdded?
      ensures refusal.None? ==> Admitted(depGraph.nodes, h)
    {
      if h.info.None? { return Some(NoPluginInfo); }
      var missing := FindMissing(h.info.value.metadata);
      if missing.Some? { return Some(MissingService(missing.value)); }
      if h.identity.None? { return Some(NoIdentity); }
      if !h.identityAccepted { return Some(IdentityRefused); }
      refusal := None;
    }

    /** Takes a plugin out of registry, graph and table; the router keeps its endpoint. */
    method Retire(runtimeID: string)
      requires Valid()
      modifies this`plugins, depGraph, registry`providers, registry`registrations
      ensures Valid() && View() == Retired(old(View()), runtimeID)
    {
      RetiringKeepsTable(View(), runtimeID);
      registry.UnregisterPluginServices(runtimeID);
      depGraph.Remove(runtimeID);
      plugins := plugins - {runtimeID};
    }

    /** Computes the impact, then retires the plugin. */
    method RemovePlugin(runtimeID: string) returns (found: bool)
      requires Valid()
      modifies this`plugins, depGraph, registry`providers, registry`registrations
      ensures Valid()
      ensures found <==> runtimeID in old(plugins)
      ensures View() == if found then Retired(old(View()), runtimeID) else old(View())
      ensures found ==> Gone(old(View()), runtimeID, View())
      ensures found && Startable(old(depGraph.nodes)) ==>
                (Startable(depGraph.nodes) <==> AffectedBy(old(depGraph.nodes), runtimeID) == {})
    {
      if runtimeID !in plugins { return false; }
      ghost var before := View();
      var impact := depGraph.GetImpact(runtimeID);
      assert View() == before;
      RetiringKeepsTable(before, runtimeID);
      RetiredIsGone(before, runtimeID);
      if Startable(depGraph.nodes) { RemovalKeepsStartable(depGraph.nodes, runtimeID); }
      Retire(runtimeID);
      found := true;
    }

    /** Puts a plugin into the graph and takes it out again if it does not become healthy. `trail` holds
        the collection after each write to the graph. */
    method JoinGraph(node: Node, becomesHealthy: bool) returns (ghost trail: seq<Collection>)
      requires depGraph.Valid() && node.runtimeID !in depGraph.nodes
      modifies depGraph
      ensures depGraph.Valid()
      ensures trail == [old(depGraph.nodes)[node.runtimeID := node]] + if becomesHealthy then [] else [old(depGraph.nodes)]
      ensures depGraph.View() == if becomesHealthy then Added(old(depGraph.View()), node) else old(depGraph.View())
    {
      RemoveUndoesAdd(depGraph.View(), node);
      depGraph.Add(node);
      trail := [depGraph.nodes];
      if !becomesHealthy {
        depGraph.Remove(node.runtimeID);
        trail := trail + [depGraph.nodes];
      }
    }

    /** Replaces a plugin: the new version joins the graph, becomes healthy, and only then does the
        old one leave. `trail` holds the collection at the outset and after each write to the graph. */
    method ReplacePlugin(runtimeID: string, config: PluginConfig, identity: Option<(string, string)>, becomesHealthy: bool)
      returns (result: ReplaceResult, ghost trail: seq<Collection>)
      requires Valid() && (identity.Some? ==> identity.value.0 !in depGraph.nodes)
      modifies this`plugins, this`endpoints, depGraph, registry`providers, registry`registrations
      ensures Valid()
      ensures result == if runtimeID !in old(plugins) then PluginNotFound
                        else if identity.None? then NoNewIdentity
                        else if !becomesHealthy then NewVersionNotHealthy
                        else Replaced(identity.value.0)
      ensures if result.PluginNotFound? || result.NoNewIdentity?
              then View() == old(View()) && trail == [old(depGraph.nodes)]
              else ReplaceEffect(old(View()), runtimeID, config, identity.value, becomesHealthy, View(), trail)
    {
      trail := [depGraph.nodes];
      if runtimeID !in plugins { return PluginNotFound, trail; }
      if identity.None? { return NoNewIdentity, trail; }
      assert EntryAgrees(View(), runtimeID);
      ReplaceTakesEffect(View(), runtimeID, config, identity.value, becomesHealthy);
      trail := SwitchOver(runtimeID, config, identity.value, becomesHealthy);
      result := if becomesHealthy then Replaced(identity.value.0) else NewVersionNotHealthy;
    }

    /** A replacement that is not refused. */
    method SwitchOver(runtimeID: string, config: PluginConfig, identity: (string, string), becomesHealthy: bool)
      returns (ghost trail: seq<Collection>)
      requires Valid() && runtimeID in plugins && identity.0 !in depGraph.nodes
      modifies this`plugins, this`endpoints, depGraph, registry`providers, registry`registrations
      ensures Valid() && View() == AfterReplacing(old(View()), runtimeID, config, identity, becomesHealthy)
      ensures trail == ReplacementGraphs(old(depGraph.nodes), runtimeID, NodeFor(identity.0, config.selfID, config.metadata), becomesHealthy)
    {
      assert EntryAgrees(View(), runtimeID);
      var node := NodeFor(identity.0, config.selfID, config.metadata);
      trail := [depGraph.nodes];
      ghost var joined := BringUp(node, config.endpoint, becomesHealthy);
      trail := trail + joined;
      if !becomesHealthy { return; }
      HandOver(runtimeID, InstanceFor(config, identity));
      trail := trail + [depGraph.nodes];
    }

    /** The first steps of a replacement: the new version joins the graph and, once healthy, the router. */
    method BringUp(node: Node, endpoint: string, becomesHealthy: bool) returns (ghost trail: seq<Collection>)
      requires Valid() && node.runtimeID !in depGraph.nodes
      modifies this`endpoints, depGraph
      ensures Valid()
      ensures View() == if becomesHealthy then Routed(old(View()), node, endpoint) else old(View())
      ensures trail == [old(depGraph.nodes)[node.runtimeID := node]] + if becomesHealthy then [] else [old(depGraph.nodes)]
    {
      RoutingKeepsTable(View(), node, endpoint);
      trail := JoinGraph(node, becomesHealthy);
      if becomesHealthy { endpoints := endpoints[node.runtimeID := endpoint]; }
    }

    /** The last steps of a replacement: the old version leaves, and the table takes the new one. */
    method HandOver(runtimeID: string, instance: PluginInstance)
      requires Valid() && instance.runtimeID != runtimeID
      requires instance.runtimeID in depGraph.nodes
      requires instance.runtimeID in endpoints && endpoints[instance.runtimeID] == instance.endpoint
      modifies this`plugins, depGraph, registry`providers, registry`registrations
      ensures Valid() && depGraph.nodes == old(depGraph.nodes) - {runtimeID}
      ensures View() == Retired(Tabled(old(View()), instance), runtimeID)
    {
      RetiringKeepsTable(View(), runtimeID);
      TablingAfterRetiring(View(), runtimeID, instance);
      Retire(runtimeID);
      TablingKeepsTable(View(), instance);
      plugins := plugins[instance.runtimeID := instance];
    }

    /** Puts a self-registering plugin into the graph alone. */
    method AddToDependencyGraph(runtimeID: string, selfID: string,
                                provided: seq<ServiceDeclaration>, required: seq<ServiceDependency>)
      requires Valid()
      modifies depGraph
      ensures depGraph.View() == Added(old(depGraph.View()), Node(runtimeID, selfID, provided, required))
      ensures Valid() <==> runtimeID !in old(depGraph.nodes) || old(depGraph.nodes)[runtimeID].provided == []
    {
      var node := Node(runtimeID, selfID, provided, required);
      AddKeepsExactIff(depGraph.View(), node);
      GraphGrowthKeepsTable(View(), node);
      depGraph.Add(node);
    }
  }

  /** A replacement that offers the same types and needs nothing new keeps every graph on the way
      startable, and no service type is without a provider at any point. */
  lemma ReplacementLosesNothing(N: Collection, previous: string, node: Node, becomesHealthy: bool)
    requires previous in N && node.runtimeID !in N
    ensures Startable(N) && CanReplace(node, N[previous]) ==>
              forall i :: 0 <= i < 3 ==> NothingLost(N, ReplacementGraphs(N, previous, node, becomesHealthy)[i])
  {
    if Startable(N) && CanReplace(node, N[previous]) { ReplacementKeepsStartable(N, previous, node); }
  }

  /** The graphs on the way are those of the calls: `Add` of the new version, then `Remove`. */
  lemma ReplacementGraphsAreCalls(s: State, previous: string, node: Node)
    requires Exact(s) && previous in s.nodes && node.runtimeID !in s.nodes
    ensures Added(s, node).nodes == ReplacementGraphs(s.nodes, previous, node, true)[1]
    ensures Removed(Added(s, node), previous).nodes == ReplacementGraphs(s.nodes, previous, node, true)[2]
    ensures Removed(Added(s, node), node.runtimeID).nodes == ReplacementGraphs(s.nodes, previous, node, false)[2]
  {
    AddKeepsExactIff(s, node);
    RemoveKeepsExact(Added(s, node), previous);
    RemoveUndoesAdd(s, node);
  }

  lemma NeedsAreMet(N: Collection, n: Node, m: Metadata)
    requires Startable(N) && n.runtimeID !in N && n.required == m.required && AllMet(N, m)
    ensures Startable(N[n.runtimeID := n]) <==> !ClosesCycle(N, n)
  {
    forall t | NeedsAtStartup(n, t) ensures HasProvider(N, t) {
      var i :| 0 <= i < |n.required| && n.required[i].serviceType == t && n.required[i].requiredForStartup;
      assert !Unmet(N, m, i);
    }
    AdditionKeepsStartableIff(N, n);
  }
}
