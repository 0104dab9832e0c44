/** The service registry as a value: the two provider indexes, selection, and the meaning of
    every operation, with what holds over whole runs. */
module Registry {
  import opened Wrappers
  import opened Ordering
  import opened Rotation

  datatype ServiceProvider = ServiceProvider(
    registrationID: string, runtimeID: string, serviceType: string,
    version: string, endpointPath: string, metadata: map<string, string>)

  datatype Strategy = SelectionFirst | SelectionRoundRobin | SelectionRandom | SelectionWeighted

  datatype Health = Unspecified | Healthy | Degraded | Unhealthy

  type Lifecycle = map<string, Health>

  /** `lifecycle` is `None` when the registry runs without health tracking. */
  datatype Registry = Registry(
    providers: map<string, seq<ServiceProvider>>,
    registrations: map<string, ServiceProvider>,
    selection: map<string, Strategy>,
    roundRobinIndex: map<string, nat>,
    lifecycle: Option<Lifecycle>)

  function ProvidersOf(r: Registry, t: string): seq<ServiceProvider> {
    if t in r.providers then r.providers[t] else []
  }

  function StrategyOf(r: Registry, t: string): Strategy {
    if t in r.selection then r.selection[t] else SelectionFirst
  }

  function CursorOf(r: Registry, t: string): nat {
    if t in r.roundRobinIndex then r.roundRobinIndex[t] else 0
  }

  /** Only a reported unhealthy state keeps traffic away. */
  predicate ShouldRouteTraffic(states: Lifecycle, runtimeID: string) {
    runtimeID in states ==> states[runtimeID] != Unhealthy
  }

  // ---------------------------------------------------------------- filtering lists

  /** The conditions by which provider lists are filtered. */
  datatype Criterion =
    | AtLeast(version: string)
    | RoutableIn(states: Lifecycle)
    | NotOfPlugin(runtimeID: string)
    | NotRegisteredAs(ids: set<string>)

  predicate Meets(p: ServiceProvider, c: Criterion) {
    match c
    case AtLeast(version) => Leq(version, p.version)
    case RoutableIn(states) => ShouldRouteTraffic(states, p.runtimeID)
    case NotOfPlugin(runtimeID) => p.runtimeID != runtimeID
    case NotRegisteredAs(ids) => p.registrationID !in ids
  }

  /** The elements that meet the criterion, in their old order. */
  function Keep(s: seq<ServiceProvider>, c: Criterion): seq<ServiceProvider> {
    if s == [] then []
    else
      var last := s[|s| - 1];
      Keep(s[..|s| - 1], c) + if Meets(last, c) then [last] else []
  }

  lemma {:induction false} KeepMembers(s: seq<ServiceProvider>, c: Criterion, p: ServiceProvider)
    ensures p in Keep(s, c) <==> p in s && Meets(p, c)
  {
    if s != [] {
      assert s == s[..|s| - 1] + [s[|s| - 1]];
      KeepMembers(s[..|s| - 1], c, p);
    }
  }

  lemma {:induction false} KeepSame(s: seq<ServiceProvider>, c: Criterion, d: Criterion)
    requires forall p :: p in s ==> (Meets(p, c) <==> Meets(p, d))
    ensures Keep(s, c) == Keep(s, d)
  {
    if s != [] { KeepSame(s[..|s| - 1], c, d); }
  }

  lemma {:induction false} KeepAll(s: seq<ServiceProvider>, c: Criterion)
    requires forall p :: p in s ==> Meets(p, c)
    ensures Keep(s, c) == s
  {
    if s != [] {
      assert s == s[..|s| - 1] + [s[|s| - 1]];
      KeepAll(s[..|s| - 1], c);
    }
  }

  lemma {:induction false} KeepConcat(a: seq<ServiceProvider>, b: seq<ServiceProvider>, c: Criterion)
    ensures Keep(a + b, c) == Keep(a, c) + Keep(b, c)
  {
    if b == [] {
      assert a + b == a;
    } else {
      assert (a + b)[..|a + b| - 1] == a + b[..|b| - 1];
      KeepConcat(a, b[..|b| - 1], c);
    }
  }

  lemma {:induction false} KeepTwice(s: seq<ServiceProvider>, a: set<string>, b: set<string>)
    ensures Keep(Keep(s, NotRegisteredAs(a)), NotRegisteredAs(b)) == Keep(s, NotRegisteredAs(a + b))
  {
    if s != [] {
      var front, last := s[..|s| - 1], s[|s| - 1];
      KeepTwice(front, a, b);
      KeepConcat(Keep(front, NotRegisteredAs(a)), if Meets(last, NotRegisteredAs(a)) then [last] else [], NotRegisteredAs(b));
      assert [last][..0] == [];
    }
  }

  ghost predicate DistinctIDs(s: seq<ServiceProvider>) {
    forall i, j :: 0 <= i < j < |s| ==> s[i].registrationID != s[j].registrationID
  }

  lemma {:induction false} KeepStaysDistinct(s: seq<ServiceProvider>, c: Criterion)
    requires DistinctIDs(s)
    ensures DistinctIDs(Keep(s, c))
  {
    if s != [] {
      var front := s[..|s| - 1];
      KeepStaysDistinct(front, c);
      forall i | 0 <= i < |Keep(front, c)| ensures Keep(front, c)[i].registrationID != s[|s| - 1].registrationID {
        KeepMembers(front, c, Keep(front, c)[i]);
      }
    }
  }

  lemma KeepOthers(s: seq<ServiceProvider>, id: string)
    requires forall j :: 0 <= j < |s| ==> s[j].registrationID != id
    ensures Keep(s, NotRegisteredAs({id})) == s
  {
    KeepAll(s, NotRegisteredAs({id}));
  }

  /** Splicing out the entry at `i` is filtering by its registration ID. */
  lemma {:induction false} SpliceIsKeep(s: seq<ServiceProvider>, i: nat)
    requires i < |s| && DistinctIDs(s)
    ensures s[..i] + s[i + 1..] == Keep(s, NotRegisteredAs({s[i].registrationID}))
  {
    var front, last := s[..|s| - 1], s[|s| - 1];
    if i == |front| {
      KeepOthers(front, last.registrationID);
    } else {
      SpliceIsKeep(front, i);
      assert s[i + 1..] == front[i + 1..] + [last];
    }
  }

  // ---------------------------------------------------------------- agreement of the indexes

  /** What is listed under `t` is of type `t`, registered under its own ID, and listed once. */
  ghost predicate ListAgrees(r: Registry, t: string) {
    && DistinctIDs(ProvidersOf(r, t))
    && forall p :: p in ProvidersOf(r, t) ==>
         p.serviceType == t && p.registrationID in r.registrations && r.registrations[p.registrationID] == p
  }

  /** What is registered under `id` has that ID and is listed under its own type. */
  ghost predicate EntryAgrees(r: Registry, id: string) {
    id in r.registrations ==>
      var p := r.registrations[id];
      p.registrationID == id && p in ProvidersOf(r, p.serviceType)
  }

  /** The two indexes describe the same providers. */
  ghost predicate Agrees(r: Registry) {
    && (forall t {:trigger ListAgrees(r, t)} :: ListAgrees(r, t))
    && (forall id {:trigger EntryAgrees(r, id)} :: EntryAgrees(r, id))
  }

  function Registered(r: Registry, p: ServiceProvider): Registry {
    r.(providers := r.providers[p.serviceType := ProvidersOf(r, p.serviceType) + [p]],
       registrations := r.registrations[p.registrationID := p])
  }

  /** Every list filtered, the entries dropped from the other index too. */
  function Filtered(r: Registry, c: Criterion): Registry {
    r.(providers := map t | t in r.providers :: Keep(r.providers[t], c),
       registrations := map id | id in r.registrations && Meets(r.registrations[id], c) :: r.registrations[id])
  }

  function Unregistered(r: Registry, id: string): Registry {
    if id in r.registrations then Filtered(r, NotRegisteredAs({id})) else r
  }

  function PluginUnregistered(r: Registry, runtimeID: string): Registry {
    Filtered(r, NotOfPlugin(runtimeID))
  }

  lemma RegisterKeepsAgreement(r: Registry, p: ServiceProvider)
    requires Agrees(r) && p.registrationID !in r.registrations
    ensures Agrees(Registered(r, p))
  {
    var r' := Registered(r, p);
    forall t {:trigger ListAgrees(r', t)} ensures ListAgrees(r', t) {
      assert ListAgrees(r, t);
    }
    forall id {:trigger EntryAgrees(r', id)} ensures EntryAgrees(r', id) {
      assert EntryAgrees(r, id);
    }
  }

  lemma FilterKeepsList(r: Registry, c: Criterion, t: string)
    requires ListAgrees(r, t)
    ensures ListAgrees(Filtered(r, c), t)
  {
    var list := ProvidersOf(r, t);
    KeepStaysDistinct(list, c);
    forall p | p in ProvidersOf(Filtered(r, c), t) ensures p in list && Meets(p, c) {
      KeepMembers(list, c, p);
    }
  }

  lemma FilterKeepsEntry(r: Registry, c: Criterion, id: string)
    requires EntryAgrees(r, id)
    ensures EntryAgrees(Filtered(r, c), id)
  {
    if id in r.registrations {
      KeepMembers(ProvidersOf(r, r.registrations[id].serviceType), c, r.registrations[id]);
    }
  }

  lemma FilterKeepsAgreement(r: Registry, c: Criterion)
    requires Agrees(r)
    ensures Agrees(Filtered(r, c))
  {
    var r' := Filtered(r, c);
    forall t {:trigger ListAgrees(r', t)} ensures ListAgrees(r', t) {
      assert ListAgrees(r, t);
      FilterKeepsList(r, c, t);
    }
    forall id {:trigger EntryAgrees(r', id)} ensures EntryAgrees(r', id) {
      assert EntryAgrees(r, id);
      FilterKeepsEntry(r, c, id);
    }
  }

  // ---------------------------------------------------------------- reading health states

  /** What can happen while a list is filtered by health: the state of the next provider is read, or
      a plugin reports, for which it does not need the registry's lock. */
  datatype Move = Read | Report(runtimeID: string, health: Health)

  function Reported(lifecycle: Option<Lifecycle>, runtimeID: string, health: Health): Option<Lifecycle> {
    if lifecycle.None? then None else Some(lifecycle.value[runtimeID := health])
  }

  predicate Routable(lifecycle: Option<Lifecycle>, p: ServiceProvider) {
    lifecycle.Some? ==> ShouldRouteTraffic(lifecycle.value, p.runtimeID)
  }

  /** A filtering under way: the health states, the providers still to read, and those kept so far. */
  datatype Scan = Scan(lifecycle: Option<Lifecycle>, todo: seq<ServiceProvider>, kept: seq<ServiceProvider>)

  /** Without health tracking nothing is read and the whole list is kept. */
  function Opening(lifecycle: Option<Lifecycle>, list: seq<ServiceProvider>): Scan {
    if lifecycle.None? then Scan(None, [], list) else Scan(lifecycle, list, [])
  }

  function Moved(x: Scan, move: Move): Scan {
    match move
    case Report(runtimeID, health) => x.(lifecycle := Reported(x.lifecycle, runtimeID, health))
    case Read =>
      if x.todo == [] then x
      else Scan(x.lifecycle, x.todo[1..], x.kept + if Routable(x.lifecycle, x.todo[0]) then [x.todo[0]] else [])
  }

  function Scanned(x: Scan, moves: seq<Move>): Scan {
    if moves == [] then x else Moved(Scanned(x, moves[..|moves| - 1]), moves[|moves| - 1])
  }

  /** The moves read the whole list. */
  predicate Completes(lifecycle: Option<Lifecycle>, list: seq<ServiceProvider>, moves: seq<Move>) {
    Scanned(Opening(lifecycle, list), moves).todo == []
  }

  /** The providers that the moves found routable, each at its own read. */
  function Found(lifecycle: Option<Lifecycle>, list: seq<ServiceProvider>, moves: seq<Move>): seq<ServiceProvider> {
    Scanned(Opening(lifecycle, list), moves).kept
  }

  /** The health states after the moves. */
  function HealthAfter(lifecycle: Option<Lifecycle>, moves: seq<Move>): Option<Lifecycle> {
    if moves == [] then lifecycle
    else
      var before, last := HealthAfter(lifecycle, moves[..|moves| - 1]), moves[|moves| - 1];
      if last.Report? then Reported(before, last.runtimeID, last.health) else before
  }

  lemma {:induction false} ScanFollowsHealth(x: Scan, moves: seq<Move>)
    ensures Scanned(x, moves).lifecycle == HealthAfter(x.lifecycle, moves)
  {
    if moves != [] { ScanFollowsHealth(x, moves[..|moves| - 1]); }
  }

  lemma HealthOneMore(lifecycle: Option<Lifecycle>, moves: seq<Move>, move: Move)
    ensures HealthAfter(lifecycle, moves + [move]) ==
            if move.Report? then Reported(HealthAfter(lifecycle, moves), move.runtimeID, move.health) else HealthAfter(lifecycle, moves)
  {
    assert (moves + [move])[..|moves|] == moves;
  }

  lemma {:induction false} HealthConcat(lifecycle: Option<Lifecycle>, a: seq<Move>, b: seq<Move>)
    ensures HealthAfter(lifecycle, a + b) == HealthAfter(HealthAfter(lifecycle, a), b)
  {
    if b == [] {
      assert a + b == a;
    } else {
      assert (a + b)[..|a + b| - 1] == a + b[..|b| - 1];
      HealthConcat(lifecycle, a, b[..|b| - 1]);
    }
  }

  lemma ScanOneMore(x: Scan, moves: seq<Move>, move: Move)
    ensures Scanned(x, moves + [move]) == Moved(Scanned(x, moves), move)
  {
    assert (moves + [move])[..|moves|] == moves;
  }

  lemma {:induction false} ScanConcat(x: Scan, a: seq<Move>, b: seq<Move>)
    ensures Scanned(x, a + b) == Scanned(Scanned(x, a), b)
  {
    if b == [] {
      assert a + b == a;
    } else {
      assert (a + b)[..|a + b| - 1] == a + b[..|b| - 1];
      ScanConcat(x, a, b[..|b| - 1]);
    }
  }

  lemma {:induction false} HealthStaysTracked(lifecycle: Option<Lifecycle>, moves: seq<Move>)
    ensures HealthAfter(lifecycle, moves).Some? == lifecycle.Some?
  {
    if moves != [] { HealthStaysTracked(lifecycle, moves[..|moves| - 1]); }
  }

  /** The state of the plugin that is known after the moves: that of its last report among them, or the one from
      before, if any. */
  function LastKnown(states: Lifecycle, moves: seq<Move>, runtimeID: string): Option<Health> {
    if moves == [] then if runtimeID in states then Some(states[runtimeID]) else None
    else
      var last := moves[|moves| - 1];
      if last.Report? && last.runtimeID == runtimeID then Some(last.health)
      else LastKnown(states, moves[..|moves| - 1], runtimeID)
  }

  lemma {:induction false} HealthIsLastKnown(lifecycle: Option<Lifecycle>, moves: seq<Move>, runtimeID: string)
    requires lifecycle.Some?
    ensures var now := HealthAfter(lifecycle, moves);
            && now.Some?
            && LastKnown(lifecycle.value, moves, runtimeID) == if runtimeID in now.value then Some(now.value[runtimeID]) else None
  {
    if moves != [] { HealthIsLastKnown(lifecycle, moves[..|moves| - 1], runtimeID); }
  }

  /** Traffic is kept from a plugin if and only if health is tracked and its last report was unhealthy: one that
      has reported nothing, or healthy, degraded or an unspecified state, gets it. */
  lemma RoutableIff(lifecycle: Option<Lifecycle>, moves: seq<Move>, p: ServiceProvider)
    ensures Routable(HealthAfter(lifecycle, moves), p) <==>
            lifecycle.None? || LastKnown(lifecycle.value, moves, p.runtimeID) != Some(Unhealthy)
  {
    HealthStaysTracked(lifecycle, moves);
    if lifecycle.Some? { HealthIsLastKnown(lifecycle, moves, p.runtimeID); }
  }

  /** No report of a plugin that has to do with the list. */
  predicate Undisturbed(list: seq<ServiceProvider>, moves: seq<Move>) {
    forall i, j :: 0 <= i < |moves| && moves[i].Report? && 0 <= j < |list| ==> moves[i].runtimeID != list[j].runtimeID
  }

  lemma {:induction false} SameRoutability(list: seq<ServiceProvider>, a: Option<Lifecycle>, b: Option<Lifecycle>)
    requires forall j :: 0 <= j < |list| ==> (Routable(a, list[j]) <==> Routable(b, list[j]))
    ensures Available(list, a) == Available(list, b)
  {
    if list != [] {
      var front := list[..|list| - 1];
      assert forall j :: 0 <= j < |front| ==> front[j] == list[j];
      SameRoutability(front, a, b);
      AvailableStep(list, a);
      AvailableStep(list, b);
    }
  }

  lemma AvailableStep(list: seq<ServiceProvider>, a: Option<Lifecycle>)
    requires list != []
    ensures var front, last := list[..|list| - 1], list[|list| - 1];
            Available(list, a) == Available(front, a) + if Routable(a, last) then [last] else []
  {
  }

  // ---------------------------------------------------------------- selection

  datatype Selection =
    | Selected(provider: ServiceProvider)
    | NoProviders
    | NoCompatibleProviders
    | NoAvailableProviders

  function Compatible(s: seq<ServiceProvider>, minVersion: string): seq<ServiceProvider> {
    if minVersion == "" then s else Keep(s, AtLeast(minVersion))
  }

  /** The routable providers, all read at one moment. */
  function Available(s: seq<ServiceProvider>, lifecycle: Option<Lifecycle>): seq<ServiceProvider> {
    if lifecycle.None? then s else Keep(s, RoutableIn(lifecycle.value))
  }

  /** What a selection looks through for routable providers. */
  function Demanded(r: Registry, t: string, minVersion: string): seq<ServiceProvider> {
    Compatible(ProvidersOf(r, t), minVersion)
  }

  /** What the strategies choose from when nobody reports meanwhile. */
  function Candidates(r: Registry, t: string, minVersion: string): seq<ServiceProvider> {
    Available(Demanded(r, t, minVersion), r.lifecycle)
  }

  /** The place a strategy takes in a nonempty list; `random` stands for the random source. */
  function Place(strategy: Strategy, cursor: nat, n: nat, random: nat): nat
    requires n > 0
  {
    match strategy
    case SelectionRoundRobin => cursor % n
    case SelectionRandom => random % n
    case _ => 0
  }

  /** The selection among the candidates that the filters have left. */
  function Pick(r: Registry, t: string, minVersion: string, candidates: seq<ServiceProvider>, random: nat): Selection {
    if ProvidersOf(r, t) == [] then NoProviders
    else if Demanded(r, t, minVersion) == [] then NoCompatibleProviders
    else if candidates == [] then NoAvailableProviders
    else Selected(candidates[Place(StrategyOf(r, t), CursorOf(r, t), |candidates|, random)])
  }

  /** Round robin moves the cursor of its type; every other selection leaves the registry alone. */
  function AfterPick(r: Registry, t: string, candidates: seq<ServiceProvider>): Registry {
    var n := |candidates|;
    if n > 0 && StrategyOf(r, t) == SelectionRoundRobin
    then r.(roundRobinIndex := r.roundRobinIndex[t := (CursorOf(r, t) + 1) % n])
    else r
  }

  /** What a selection returns when nobody reports meanwhile. */
  function Choose(r: Registry, t: string, minVersion: string, random: nat): Selection {
    Pick(r, t, minVersion, Candidates(r, t, minVersion), random)
  }

  /** What it returns when it reads the health states in the course of `moves`. */
  function ChooseDuring(r: Registry, t: string, minVersion: string, moves: seq<Move>, random: nat): Selection {
    Pick(r, t, minVersion, Found(r.lifecycle, Demanded(r, t, minVersion), moves), random)
  }

  function AfterChoice(r: Registry, t: string, minVersion: string, moves: seq<Move>): Registry {
    AfterPick(r, t, Found(r.lifecycle, Demanded(r, t, minVersion), moves)).(lifecycle := HealthAfter(r.lifecycle, moves))
  }

  lemma {:induction false} NothingToFind(lifecycle: Option<Lifecycle>, moves: seq<Move>)
    ensures Scanned(Opening(lifecycle, []), moves).todo == [] && Found(lifecycle, [], moves) == []
  {
    if moves != [] { NothingToFind(lifecycle, moves[..|moves| - 1]); }
  }

  /** A selection succeeds exactly when some provider that is new enough was routable at its own read. */
  lemma ChooseFinds(r: Registry, t: string, minVersion: string, moves: seq<Move>, random: nat)
    ensures ChooseDuring(r, t, minVersion, moves, random).Selected? <==> Found(r.lifecycle, Demanded(r, t, minVersion), moves) != []
  {
    NothingToFind(r.lifecycle, moves);
  }

  /** `p` may serve requests for `t` at `minVersion` or later. */
  ghost predicate Eligible(r: Registry, t: string, minVersion: string, p: ServiceProvider) {
    && p in ProvidersOf(r, t)
    && (minVersion == "" || Leq(minVersion, p.version))
    && (r.lifecycle.Some? ==> ShouldRouteTraffic(r.lifecycle.value, p.runtimeID))
  }

  lemma CandidatesAreEligible(r: Registry, t: string, minVersion: string, p: ServiceProvider)
    ensures p in Candidates(r, t, minVersion) <==> Eligible(r, t, minVersion, p)
  {
    var compatible := Demanded(r, t, minVersion);
    KeepMembers(ProvidersOf(r, t), AtLeast(minVersion), p);
    if r.lifecycle.Some? { KeepMembers(compatible, RoutableIn(r.lifecycle.value), p); }
  }

  /** When nobody reports meanwhile, selection fails exactly when no registered provider is eligible, and
      otherwise returns one. */
  lemma ChooseIsEligible(r: Registry, t: string, minVersion: string, random: nat)
    ensures Choose(r, t, minVersion, random).Selected? <==> exists p :: Eligible(r, t, minVersion, p)
    ensures Choose(r, t, minVersion, random).Selected? ==> Eligible(r, t, minVersion, Choose(r, t, minVersion, random).provider)
  {
    var candidates := Candidates(r, t, minVersion);
    forall p ensures p in candidates <==> Eligible(r, t, minVersion, p) { CandidatesAreEligible(r, t, minVersion, p); }
    if candidates != [] { assert candidates[0] in candidates; }
  }

  /** Without a strategy of its own a type gets the first candidate, and so it does under weighted selection and
      at the beginning of a round robin; random selection can return any of them. */
  lemma StrategiesChoose(r: Registry, t: string, minVersion: string, random: nat)
    requires Candidates(r, t, minVersion) != []
    ensures t !in r.selection || r.selection[t] == SelectionFirst || r.selection[t] == SelectionWeighted ==>
              Choose(r, t, minVersion, random) == Selected(Candidates(r, t, minVersion)[0])
    ensures t in r.selection && r.selection[t] == SelectionRoundRobin && t !in r.roundRobinIndex ==>
              Choose(r, t, minVersion, random) == Selected(Candidates(r, t, minVersion)[0])
    ensures t in r.selection && r.selection[t] == SelectionRandom ==>
              forall p :: p in Candidates(r, t, minVersion) ==> exists k :: Choose(r, t, minVersion, k) == Selected(p)
  {
    var list := Candidates(r, t, minVersion);
    CandidatesAreEligible(r, t, minVersion, list[0]);
    assert list[0] in list;
    if t in r.selection && r.selection[t] == SelectionRandom {
      forall p | p in list ensures exists k :: Choose(r, t, minVersion, k) == Selected(p) {
        var k: nat :| k < |list| && list[k] == p;
        RandomPlace(k, |list|);
        assert Choose(r, t, minVersion, k) == Selected(p);
      }
    }
  }

  lemma RandomPlace(k: nat, n: nat)
    requires k < n
    ensures forall cursor :: Place(SelectionRandom, cursor, n, k) == k
  {
  }

  // ---------------------------------------------------------------- service events

  datatype ServiceState = ServiceAvailable | ServiceDegraded | ServiceUnavailable

  datatype Event = Event(serviceType: string, state: ServiceState, endpoint: Option<Endpoint>)

  datatype Endpoint = Endpoint(providerID: string, version: string, url: string, metadata: map<string, string>)

  function EndpointOf(p: ServiceProvider): Endpoint {
    Endpoint(p.runtimeID, p.version, "/services/" + p.serviceType + "/" + p.runtimeID, p.metadata)
  }

  /** Where clients find the provider, and which one it is. */
  ghost predicate Locates(e: Endpoint, p: ServiceProvider) {
    && e.providerID == p.runtimeID && e.version == p.version && e.metadata == p.metadata
    && e.url == "/services/" + p.serviceType + "/" + p.runtimeID
  }

  /** The event for the providers that the filter has left, with a last look at the first one's state. */
  function EventOf(t: string, available: seq<ServiceProvider>, lifecycle: Option<Lifecycle>): Event {
    if available == [] then Event(t, ServiceUnavailable, None)
    else
      var p := available[0];
      var degraded := lifecycle.Some? && p.runtimeID in lifecycle.value && lifecycle.value[p.runtimeID] == Degraded;
      Event(t, if degraded then ServiceDegraded else ServiceAvailable, Some(EndpointOf(p)))
  }

  /** The event when nobody reports meanwhile. */
  function ServiceEvent(r: Registry, t: string): Event {
    EventOf(t, Available(ProvidersOf(r, t), r.lifecycle), r.lifecycle)
  }

  /** The event when the health states are read in the course of `moves`, the last one after them. */
  function BuiltEvent(r: Registry, t: string, moves: seq<Move>): Event {
    EventOf(t, Found(r.lifecycle, ProvidersOf(r, t), moves), HealthAfter(r.lifecycle, moves))
  }

  /** The event says unavailable exactly when a selection without version demand would fail, and
      otherwise names the provider that first-selection would return. */
  ghost predicate TellsSelection(r: Registry, t: string, e: Event) {
    && e.serviceType == t
    && (e.endpoint.None? <==> e.state == ServiceUnavailable)
    && (forall random :: e.state == ServiceUnavailable <==> !Choose(r, t, "", random).Selected?)
    && (e.endpoint.Some? ==> FirstSelected(r, t).Selected? && e.endpoint.value == EndpointOf(FirstSelected(r, t).provider))
  }

  /** What a selection without version demand returns under the first-selection strategy. */
  function FirstSelected(r: Registry, t: string): Selection {
    Choose(r.(selection := r.selection[t := SelectionFirst]), t, "", 0)
  }

  /** An event built while nobody reports tells the selection in that state. */
  lemma EventMatchesSelection(r: Registry, t: string)
    ensures TellsSelection(r, t, ServiceEvent(r, t))
  {
    var list := ProvidersOf(r, t);
    assert ProvidersOf(r.(selection := r.selection[t := SelectionFirst]), t) == list;
    assert Candidates(r, t, "") == Available(list, r.lifecycle);
    if list == [] { assert Available(list, r.lifecycle) == []; }
  }

  // ---------------------------------------------------------------- runs

  datatype Op =
    | Register(provider: ServiceProvider)
    | Unregister(registrationID: string)
    | UnregisterPlugin(runtimeID: string)
    | Select(serviceType: string, minVersion: string, moves: seq<Move>, random: nat)
    | SetStrategy(serviceType: string, strategy: Strategy)
    | ReportHealth(runtimeID: string, health: Health)

  function Apply(r: Registry, op: Op): Registry {
    match op
    case Register(p) => Registered(r, p)
    case Unregister(id) => Unregistered(r, id)
    case UnregisterPlugin(runtimeID) => PluginUnregistered(r, runtimeID)
    case Select(t, minVersion, moves, _) => AfterChoice(r, t, minVersion, moves)
    case SetStrategy(t, strategy) => r.(selection := r.selection[t := strategy])
    case ReportHealth(runtimeID, health) => r.(lifecycle := Reported(r.lifecycle, runtimeID, health))
  }

  function Run(r: Registry, ops: seq<Op>): Registry
    decreases |ops|
  {
    if ops == [] then r else Run(Apply(r, ops[0]), ops[1..])
  }

  /** Registration IDs are generated, so none is registered that is in use. */
  ghost predicate FreshFor(r: Registry, op: Op) {
    op.Register? ==> op.provider.registrationID !in r.registrations
  }

  ghost predicate FreshIDs(r: Registry, ops: seq<Op>)
    decreases |ops|
  {
    ops != [] ==> FreshFor(r, ops[0]) && FreshIDs(Apply(r, ops[0]), ops[1..])
  }

  lemma SameIndexesAgree(r: Registry, r': Registry)
    requires Agrees(r) && r'.providers == r.providers && r'.registrations == r.registrations
    ensures Agrees(r')
  {
    forall t {:trigger ListAgrees(r', t)} ensures ListAgrees(r', t) { assert ListAgrees(r, t); }
    forall id {:trigger EntryAgrees(r', id)} ensures EntryAgrees(r', id) { assert EntryAgrees(r, id); }
  }

  lemma OpKeepsAgreement(r: Registry, op: Op)
    requires Agrees(r) && FreshFor(r, op)
    ensures Agrees(Apply(r, op))
  {
    match op
    case Register(p) => RegisterKeepsAgreement(r, p);
    case Unregister(id) => if id in r.registrations { FilterKeepsAgreement(r, NotRegisteredAs({id})); }
    case UnregisterPlugin(runtimeID) => FilterKeepsAgreement(r, NotOfPlugin(runtimeID));
    case _ => SameIndexesAgree(r, Apply(r, op));
  }

  lemma {:induction false} RunKeepsAgreement(r: Registry, ops: seq<Op>)
    requires Agrees(r) && FreshIDs(r, ops)
    ensures Agrees(Run(r, ops))
    decreases |ops|
  {
    if ops != [] {
      OpKeepsAgreement(r, ops[0]);
      RunKeepsAgreement(Apply(r, ops[0]), ops[1..]);
    }
  }

  /** The providers that the selections of type `t` in a run returned. */
  function Picks(r: Registry, ops: seq<Op>, t: string): seq<ServiceProvider>
    decreases |ops|
  {
    if ops == [] then []
    else
      var rest := Picks(Apply(r, ops[0]), ops[1..], t);
      if ops[0].Select? && ops[0].serviceType == t
         && ChooseDuring(r, t, ops[0].minVersion, ops[0].moves, ops[0].random).Selected?
      then [ChooseDuring(r, t, ops[0].minVersion, ops[0].moves, ops[0].random).provider] + rest
      else rest
  }

  /** Each round-robin selection of `t` in the run finds the same candidates; anything else may
      happen in between, and in between its reads. */
  ghost predicate SeesSame(r: Registry, ops: seq<Op>, t: string, candidates: seq<ServiceProvider>)
    decreases |ops|
  {
    ops != [] ==>
      && (ops[0].Select? && ops[0].serviceType == t ==>
            && StrategyOf(r, t) == SelectionRoundRobin
            && Found(r.lifecycle, Demanded(r, t, ops[0].minVersion), ops[0].moves) == candidates)
      && SeesSame(Apply(r, ops[0]), ops[1..], t, candidates)
  }

  /** From cursor `c` on, the picks go round the candidates. */
  ghost predicate Rotates(picks: seq<ServiceProvider>, candidates: seq<ServiceProvider>, c: nat)
    requires candidates != []
  {
    forall j :: 0 <= j < |picks| ==> picks[j] == candidates[(c + j) % |candidates|]
  }

  lemma SelectionTakesCursor(r: Registry, op: Op, t: string, candidates: seq<ServiceProvider>)
    requires op.Select? && op.serviceType == t && candidates != [] && StrategyOf(r, t) == SelectionRoundRobin
    requires Found(r.lifecycle, Demanded(r, t, op.minVersion), op.moves) == candidates
    ensures ChooseDuring(r, t, op.minVersion, op.moves, op.random) == Selected(candidates[CursorOf(r, t) % |candidates|])
    ensures CursorOf(Apply(r, op), t) == (CursorOf(r, t) + 1) % |candidates|
  {
    NothingToFind(r.lifecycle, op.moves);
  }

  lemma OthersKeepCursor(r: Registry, op: Op, t: string)
    requires !(op.Select? && op.serviceType == t)
    ensures CursorOf(Apply(r, op), t) == CursorOf(r, t)
  {
  }

  lemma RotationGoesOn(first: ServiceProvider, rest: seq<ServiceProvider>, candidates: seq<ServiceProvider>, c: nat)
    requires candidates != [] && first == candidates[c % |candidates|]
    requires Rotates(rest, candidates, (c + 1) % |candidates|)
    ensures Rotates([first] + rest, candidates, c)
  {
    forall j | 0 <= j < |[first] + rest| ensures ([first] + rest)[j] == candidates[(c + j) % |candidates|] {
      if j > 0 { ReducedCursor(c + 1, j - 1, |candidates|); }
    }
  }

  /** Whatever happens in between, the selections of `t` go round the candidates they see. */
  lemma {:induction false} PicksRotate(r: Registry, ops: seq<Op>, t: string, candidates: seq<ServiceProvider>)
    requires candidates != [] && SeesSame(r, ops, t, candidates)
    ensures Rotates(Picks(r, ops, t), candidates, CursorOf(r, t))
    decreases |ops|
  {
    if ops != [] {
      PicksRotate(Apply(r, ops[0]), ops[1..], t, candidates);
      var rest := Picks(Apply(r, ops[0]), ops[1..], t);
      if ops[0].Select? && ops[0].serviceType == t {
        SelectionTakesCursor(r, ops[0], t, candidates);
        RotationGoesOn(candidates[CursorOf(r, t) % |candidates|], rest, candidates, CursorOf(r, t));
      } else {
        OthersKeepCursor(r, ops[0], t);
      }
    }
  }

  lemma {:induction false} RotationVisits(picks: seq<ServiceProvider>, candidates: seq<ServiceProvider>, c: nat, i: nat)
    requires i < |candidates| && DistinctIDs(candidates) && Rotates(picks, candidates, c)
    ensures multiset(picks)[candidates[i]] == Visits(c, |picks|, |candidates|, i)
  {
    if picks != [] {
      var k := |picks| - 1;
      assert picks == picks[..k] + [picks[k]];
      RotationVisits(picks[..k], candidates, c, i);
      var at := (c + k) % |candidates|;
      assert picks[k] == candidates[at];
      assert picks[k] == candidates[i] <==> at == i;
    }
  }

  lemma RotationIsFair(picks: seq<ServiceProvider>, candidates: seq<ServiceProvider>, c: nat, p: ServiceProvider)
    requires DistinctIDs(candidates) && p in candidates && Rotates(picks, candidates, c)
    ensures var k, n := |picks|, |candidates|; k / n <= multiset(picks)[p] <= (k + n - 1) / n
  {
    var i :| 0 <= i < |candidates| && candidates[i] == p;
    RotationVisits(picks, candidates, c, i);
    VisitsAreEven(c, |picks|, |candidates|, i);
  }

  /** Round robin is fair: over any number of selections that see the same candidates, each of
      them is chosen the floor or the ceiling of its share, wherever the cursor was left. */
  lemma RoundRobinIsFair(r: Registry, ops: seq<Op>, t: string, candidates: seq<ServiceProvider>, p: ServiceProvider)
    requires SeesSame(r, ops, t, candidates) && DistinctIDs(candidates) && p in candidates
    ensures var k, n := |Picks(r, ops, t)|, |candidates|;
            k / n <= multiset(Picks(r, ops, t))[p] <= (k + n - 1) / n
  {
    PicksRotate(r, ops, t, candidates);
    RotationIsFair(Picks(r, ops, t), candidates, CursorOf(r, t), p);
  }

  /** Whatever is read, what is kept and what is still to read are distinct if the list is. */
  lemma {:induction false} ScanStaysDistinct(lifecycle: Option<Lifecycle>, list: seq<ServiceProvider>, moves: seq<Move>)
    requires DistinctIDs(list)
    ensures var x := Scanned(Opening(lifecycle, list), moves); DistinctIDs(x.kept + x.todo)
  {
    if moves == [] {
      assert list + [] == list && [] + list == list;
    } else {
      ScanStaysDistinct(lifecycle, list, moves[..|moves| - 1]);
      MoveStaysDistinct(Scanned(Opening(lifecycle, list), moves[..|moves| - 1]), moves[|moves| - 1]);
    }
  }

  lemma MoveStaysDistinct(x: Scan, move: Move)
    requires DistinctIDs(x.kept + x.todo)
    ensures DistinctIDs(Moved(x, move).kept + Moved(x, move).todo)
  {
    if move.Read? && x.todo != [] {
      var y := Moved(x, move);
      var n := |x.kept|;
      assert (x.kept + x.todo)[n] == x.todo[0];
      if Routable(x.lifecycle, x.todo[0]) {
        assert y.kept + y.todo == x.kept + x.todo;
      } else {
        assert forall k :: 0 <= k < |y.kept + y.todo| ==> (y.kept + y.todo)[k] == (x.kept + x.todo)[if k < n then k else k + 1];
      }
    }
  }

  /** In agreeing indexes the candidates of any selection are distinct, as fairness asks. */
  lemma CandidatesAreDistinct(r: Registry, t: string, minVersion: string, moves: seq<Move>)
    requires Agrees(r)
    ensures DistinctIDs(Found(r.lifecycle, Demanded(r, t, minVersion), moves))
  {
    assert ListAgrees(r, t);
    KeepStaysDistinct(ProvidersOf(r, t), AtLeast(minVersion));
    var list := Demanded(r, t, minVersion);
    ScanStaysDistinct(r.lifecycle, list, moves);
    var x := Scanned(Opening(r.lifecycle, list), moves);
    assert forall i :: 0 <= i < |x.kept| ==> (x.kept + x.todo)[i] == x.kept[i];
  }
}
