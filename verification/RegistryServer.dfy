/** The service registry as the mutable object it is. */
module RegistryServer {
  import opened Wrappers
  import opened Ordering
  import R = Registry
  import B = EventBuilds
  import W = ServiceWatch
  import Runs
  import WatcherLists

  datatype RegisterRequest = RegisterRequest(
    serviceType: string, version: string, endpointPath: string, metadata: map<string, string>)

  datatype RegisterResponse = Accepted(registrationID: string) | InvalidArgument | PermissionDenied | InternalError

  /** The running part of one `WatchService` call. */
  datatype Stream = Stream(serviceType: string, queue: seq<R.Event>, inHand: Option<R.Event>, stage: W.Stage)

  function StreamOf(v: W.Watcher): Stream {
    Stream(v.serviceType, v.queue, v.inHand, v.stage)
  }

  /** The histories belong to the running calls. */
  ghost predicate Tied(streams: map<nat, Stream>, watchers: map<nat, W.Watcher>) {
    streams.Keys == watchers.Keys && forall w :: w in streams ==> streams[w] == StreamOf(watchers[w])
  }

  /** The registration says what was requested, and by whom. */
  ghost predicate Describes(p: R.ServiceProvider, req: RegisterRequest, runtimeID: string, registrationID: string) {
    && p.registrationID == registrationID && p.runtimeID == runtimeID && p.serviceType == req.serviceType
    && p.version == req.version && p.endpointPath == req.endpointPath && p.metadata == req.metadata
  }

  /** What happens while somebody else may hold the lock: a `WatchService` call takes a turn, and `fails`
      says whether its client is gone; or a plugin reports its health. */
  datatype Turn = Watching(watcher: nat, fails: bool) | Reporting(runtimeID: string, health: R.Health)

  /** The health reports among the turns, in their order. */
  function ReportsIn(turns: seq<Turn>): (reports: seq<R.Move>)
    ensures OnlyReports(reports)
  {
    if turns == [] then []
    else
      var last := turns[|turns| - 1];
      ReportsIn(turns[..|turns| - 1]) + if last.Reporting? then [R.Report(last.runtimeID, last.health)] else []
  }

  /** The reports among the first `n` turns. */
  function ReportsDuring(turns: nat -> seq<Turn>, n: nat): seq<R.Move> {
    if n == 0 then [] else ReportsDuring(turns, n - 1) + ReportsIn(turns(n - 1))
  }

  /** `n` reads, each after the reports of its turn. */
  function ReadsDuring(turns: nat -> seq<Turn>, n: nat): seq<R.Move> {
    if n == 0 then [] else ReadsDuring(turns, n - 1) + ReportsIn(turns(n - 1)) + [R.Read]
  }

  /** What happens while a list is filtered by health: without tracking, nothing is read and nobody gets a turn. */
  function FilterMoves(lifecycle: Option<R.Lifecycle>, list: seq<R.ServiceProvider>, turns: nat -> seq<Turn>): seq<R.Move> {
    if lifecycle.None? then [] else ReadsDuring(turns, |list|)
  }

  /** What happens while a selection is made. */
  function ChoiceMoves(r: R.Registry, t: string, minVersion: string, turns: nat -> seq<Turn>): seq<R.Move> {
    FilterMoves(r.lifecycle, R.Demanded(r, t, minVersion), turns)
  }

  /** What happens while an event is built: one more turn comes before the last look at the first provider. */
  function EventMoves(r: R.Registry, t: string, turns: nat -> seq<Turn>): seq<R.Move> {
    var list := R.ProvidersOf(r, t);
    if list == [] then [] else FilterMoves(r.lifecycle, list, turns) + ReportsIn(turns(|list|))
  }

  /** The turns from the `n`th on. */
  function Later(turns: nat -> seq<Turn>, n: nat): nat -> seq<Turn> {
    (i: nat) => turns(n + i)
  }

  /** Another method that gets the lock between two that hold it. */
  datatype Interlude =
    | Arrival(provider: R.ServiceProvider, turns: nat -> seq<Turn>)
    | Departure(registrationID: string, turns: nat -> seq<Turn>)
    | PluginDeparture(runtimeID: string)
    | Launch(provider: R.ServiceProvider)

  class ServiceRegistry {
    var providers: map<string, seq<R.ServiceProvider>>
    var registrations: map<string, R.ServiceProvider>
    var selection: map<string, R.Strategy>
    var roundRobinIndex: map<string, nat>
    var allowedServices: map<string, seq<string>>
    var lifecycle: Option<R.Lifecycle>
    var watchersByType: map<string, seq<nat>>
    var streams: map<nat, Stream>
    // the calls with their histories, who holds the lock, and every event announced so far
    ghost var watchers: map<nat, W.Watcher>
    ghost var phase: W.Phase
    ghost var log: map<string, seq<R.Event>>
    // the health states at the outset
    ghost const origin: Option<R.Lifecycle>

    ghost function View(): R.Registry
      reads this
    {
      R.Registry(providers, registrations, selection, roundRobinIndex, lifecycle)
    }

    ghost function WatchView(): W.System
      reads this
    {
      W.System(View(), watchersByType, watchers, phase, log)
    }

    /** Even while the lock is held, the state is one that the protocol can get into. */
    ghost predicate Consistent()
      reads this
    {
      W.Reachable(origin, WatchView()) && Tied(streams, watchers)
    }

    ghost predicate Valid()
      reads this
    {
      Consistent() && phase == W.Idle
    }

    constructor (lifecycle: Option<R.Lifecycle>)
      ensures WatchView() == W.Start(lifecycle) && allowedServices == map[] && streams == map[]
      ensures Valid()
    {
      providers, registrations, selection, roundRobinIndex := map[], map[], map[], map[];
      allowedServices, this.lifecycle := map[], lifecycle;
      watchersByType, streams := map[], map[];
      watchers, phase, log := map[], W.Idle, map[];
      origin := lifecycle;
      new;
      Runs.ReachesSelf(W.Next, W.Start(lifecycle));
    }

    method SetAllowedServices(runtimeID: string, serviceTypes: seq<string>)
      modifies this`allowedServices
      ensures allowedServices == old(allowedServices)[runtimeID := serviceTypes]
    {
      allowedServices := allowedServices[runtimeID := serviceTypes];
    }

    method SetSelectionStrategy(t: string, strategy: R.Strategy)
      requires Valid()
      modifies this`selection
      ensures Valid() && View() == R.Apply(old(View()), R.SetStrategy(t, strategy))
    {
      StepTaken(origin, WatchView(), W.Change(R.SetStrategy(t, strategy)));
      selection := selection[t := strategy];
    }

    /** A plugin reports its health, which takes no more than the health server's own lock. */
    method ReportHealth(runtimeID: string, health: R.Health)
      requires Consistent()
      modifies this`lifecycle
      ensures Consistent() && Stepped(old(WatchView()), W.Change(R.ReportHealth(runtimeID, health)), WatchView())
      ensures lifecycle == R.Reported(old(lifecycle), runtimeID, health)
    {
      StepTaken(origin, WatchView(), W.Change(R.ReportHealth(runtimeID, health)));
      if lifecycle.Some? {
        lifecycle := Some(lifecycle.value[runtimeID := health]);
      }
    }

    // -------------------------------------------------------------- registration

    /** Registers a service; `valid` is the verdict on the request's fields, `freshID` the generated
        registration ID, if generation succeeded, and `turns` what others do meanwhile. */
    method RegisterService(req: RegisterRequest, runtimeID: string, valid: bool, freshID: Option<string>, turns: nat -> seq<Turn>)
      returns (response: RegisterResponse)
      requires Valid() && (freshID.Some? ==> freshID.value !in registrations)
      modifies this`providers, this`registrations, this`lifecycle, this`streams, this`watchers, this`phase, this`log
      ensures Valid()
      ensures response.InvalidArgument? <==> !valid || runtimeID == ""
      ensures response.PermissionDenied? <==>
                valid && runtimeID != "" && runtimeID in allowedServices && req.serviceType !in allowedServices[runtimeID]
      ensures response.InternalError? ==> freshID.None?
      ensures !response.Accepted? ==> WatchView() == old(WatchView()) && streams == old(streams)
      ensures response.Accepted? ==>
                && response.registrationID in registrations
                && Describes(registrations[response.registrationID], req, runtimeID, response.registrationID)
      ensures response.Accepted? ==>
                && freshID == Some(response.registrationID)
                && Heard(old(WatchView()), req.serviceType,
                         R.Registered(old(View()), Provider(req, runtimeID, response.registrationID)), turns, WatchView())
    {
      if !valid { return InvalidArgument; }
      if runtimeID == "" { return InvalidArgument; }
      var permitted := MayOffer(runtimeID, req.serviceType);
      if !permitted { return PermissionDenied; }
      if freshID.None? { return InternalError; }
      Publish(Provider(req, runtimeID, freshID.value), turns);
      response := Accepted(freshID.value);
    }

    /** A plugin without an entry may offer anything. */
    method MayOffer(runtimeID: string, serviceType: string) returns (permitted: bool)
      ensures permitted <==> runtimeID !in allowedServices || serviceType in allowedServices[runtimeID]
    {
      if runtimeID !in allowedServices { return true; }
      var allowed := allowedServices[runtimeID];
      for i := 0 to |allowed|
        invariant serviceType !in allowed[..i]
      {
        if allowed[i] == serviceType { return true; }
      }
      assert allowed[..|allowed|] == allowed;
      permitted := false;
    }

    /** Adds a provider and tells the watchers of its type. */
    method Publish(provider: R.ServiceProvider, turns: nat -> seq<Turn>)
      requires Valid() && provider.registrationID !in registrations
      modifies this`providers, this`registrations, this`lifecycle, this`streams, this`watchers, this`phase, this`log
      ensures Valid()
      ensures Heard(old(WatchView()), provider.serviceType, R.Registered(old(View()), provider), turns, WatchView())
    {
      ChangeBegins(origin, WatchView(), R.Register(provider));
      AddProvider(provider);
      phase := W.Begin(View(), W.ForAnnouncement, provider.serviceType, R.ProvidersOf(View(), provider.serviceType));
      NotifyWatchers(provider.serviceType, turns, old(WatchView()));
    }

    /** The in-memory launcher's registration: both indexes, and no notification. */
    method WriteProvider(provider: R.ServiceProvider)
      requires Valid() && provider.registrationID !in registrations
      modifies this`providers, this`registrations
      ensures Valid() && Stepped(old(WatchView()), W.Write(provider), WatchView())
    {
      StepTaken(origin, WatchView(), W.Write(provider));
      AddProvider(provider);
    }

    static function Provider(req: RegisterRequest, runtimeID: string, registrationID: string): R.ServiceProvider {
      R.ServiceProvider(registrationID, runtimeID, req.serviceType, req.version, req.endpointPath, req.metadata)
    }

    /** Writes both indexes. */
    method AddProvider(provider: R.ServiceProvider)
      modifies this`providers, this`registrations
      ensures View() == R.Registered(old(View()), provider)
      ensures registrations == old(registrations)[provider.registrationID := provider]
      ensures R.ProvidersOf(View(), provider.serviceType) == R.ProvidersOf(old(View()), provider.serviceType) + [provider]
      ensures forall t :: t != provider.serviceType ==> R.ProvidersOf(View(), t) == R.ProvidersOf(old(View()), t)
    {
      providers := providers[provider.serviceType := GetOr(providers, provider.serviceType, []) + [provider]];
      registrations := registrations[provider.registrationID := provider];
    }

    /** Splices a registered provider out of its list and forgets its registration. */
    method DropRegistration(registrationID: string)
      requires R.Agrees(View()) && registrationID in registrations
      modifies this`providers, this`registrations
      ensures View() == R.Unregistered(old(View()), registrationID) && R.Agrees(View())
    {
      var serviceType := registrations[registrationID].serviceType;
      assert R.EntryAgrees(View(), registrationID) && R.ListAgrees(View(), serviceType);
      var list := providers[serviceType];
      var i := 0;
      while i < |list| && list[i].registrationID != registrationID
        invariant 0 <= i <= |list|
        invariant forall j :: 0 <= j < i ==> list[j].registrationID != registrationID
      {
        i := i + 1;
      }
      SplicedOut(View(), registrationID, serviceType, list, i);
      providers := providers[serviceType := list[..i] + list[i + 1..]];
      registrations := registrations - {registrationID};
    }

    method UnregisterService(registrationID: string, turns: nat -> seq<Turn>) returns (found: bool)
      requires Valid()
      modifies this`providers, this`registrations, this`lifecycle, this`streams, this`watchers, this`phase, this`log
      ensures Valid()
      ensures found <==> registrationID in old(registrations)
      ensures !found ==> WatchView() == old(WatchView()) && streams == old(streams)
      ensures found ==> Heard(old(WatchView()), old(registrations)[registrationID].serviceType,
                              R.Unregistered(old(View()), registrationID), turns, WatchView())
    {
      if registrationID !in registrations { return false; }
      var serviceType := registrations[registrationID].serviceType;
      ChangeBegins(origin, WatchView(), R.Unregister(registrationID));
      W.ReachableAgrees(origin, WatchView());
      DropRegistration(registrationID);
      phase := W.Begin(View(), W.ForAnnouncement, serviceType, R.ProvidersOf(View(), serviceType));
      NotifyWatchers(serviceType, turns, old(WatchView()));
      found := true;
    }

    /** Removes everything one plugin registered, in whatever order the map is walked. */
    method UnregisterPluginServices(runtimeID: string)
      requires Valid()
      modifies this`providers, this`registrations
      ensures Valid() && Stepped(old(WatchView()), W.Change(R.UnregisterPlugin(runtimeID)), WatchView())
      ensures View() == R.PluginUnregistered(old(View()), runtimeID)
    {
      W.ReachableAgrees(origin, WatchView());
      StepTaken(origin, WatchView(), W.Change(R.UnregisterPlugin(runtimeID)));
      DropPluginRegistrations(runtimeID);
    }

    method DropPluginRegistrations(runtimeID: string)
      requires R.Agrees(View())
      modifies this`providers, this`registrations
      ensures View() == R.PluginUnregistered(old(View()), runtimeID)
    {
      var toRemove := set id | id in registrations && registrations[id].runtimeID == runtimeID;
      var todo := toRemove;
      FilterNothing(View());
      assert toRemove - todo == {};
      while todo != {}
        invariant todo <= toRemove && R.Agrees(View())
        invariant View() == R.Filtered(old(View()), R.NotRegisteredAs(toRemove - todo))
        invariant forall id :: id in todo ==> id in registrations
      {
        var id :| id in todo;
        forall x | x in todo ensures registrations[x].registrationID == x { assert R.EntryAgrees(View(), x); }
        DropRegistration(id);
        FilterTwice(old(View()), toRemove - todo, {id});
        assert (toRemove - todo) + {id} == toRemove - (todo - {id});
        todo := todo - {id};
      }
      assert toRemove - todo == toRemove;
      FilterByPlugin(old(View()), runtimeID, toRemove);
    }

    // -------------------------------------------------------------- selection

    method FilterCompatibleVersions(list: seq<R.ServiceProvider>, minVersion: string)
      returns (compatible: seq<R.ServiceProvider>)
      ensures compatible == R.Compatible(list, minVersion)
    {
      if minVersion == "" { return list; }
      compatible := [];
      for i := 0 to |list|
        invariant compatible == R.Keep(list[..i], R.AtLeast(minVersion))
      {
        assert list[..i + 1][..i] == list[..i];
        if Leq(minVersion, list[i].version) { compatible := compatible + [list[i]]; }
      }
      assert list[..|list|] == list;
    }

    /** Filters a list by health. Each state is read on its own, after whatever happens in its turn. */
    method FilterAvailable(list: seq<R.ServiceProvider>, turns: nat -> seq<Turn>, ghost before: W.System)
      returns (available: seq<R.ServiceProvider>)
      requires ReadingFor(before, list)
      modifies this`lifecycle, this`streams, this`watchers, this`phase
      ensures Consistent() && Quiet(before, WatchView())
      ensures phase == old(phase).(todo := [], kept := available)
      ensures ReadIn(old(lifecycle), list, FilterMoves(old(lifecycle), list, turns), lifecycle, available)
    {
      if lifecycle.None? { return list; }
      ghost var start := R.Opening(lifecycle, list);
      available := [];
      assert list[0..] == list;
      NothingRead(start, turns);
      for i := 0 to |list|
        invariant Consistent() && Quiet(before, WatchView()) && lifecycle.Some?
        invariant phase == old(phase).(todo := list[i..], kept := available)
        invariant ReadSoFar(start, turns, i, R.Scan(lifecycle, phase.todo, phase.kept))
      {
        assert list[i..][1..] == list[i + 1..];
        var routable := ReadNext(list[i], turns, i, before, start);
        if routable { available := available + [list[i]]; }
      }
      assert list[|list|..] == [];
      AllRead(start.lifecycle, list, turns, lifecycle, available);
    }

    /** Reads the next provider's state after whatever happens in its turn. */
    method ReadNext(p: R.ServiceProvider, turns: nat -> seq<Turn>, i: nat, ghost before: W.System, ghost start: R.Scan)
      returns (routable: bool)
      requires Consistent() && Quiet(before, WatchView()) && lifecycle.Some?
      requires phase.Reading? && phase.todo != [] && phase.todo[0] == p
      requires ReadSoFar(start, turns, i, R.Scan(lifecycle, phase.todo, phase.kept))
      modifies this`lifecycle, this`streams, this`watchers, this`phase
      ensures Consistent() && Quiet(before, WatchView()) && lifecycle.Some?
      ensures phase == old(phase).(todo := old(phase).todo[1..], kept := old(phase).kept + if routable then [p] else [])
      ensures ReadSoFar(start, turns, i + 1, R.Scan(lifecycle, phase.todo, phase.kept))
    {
      LetRun(turns(i), before, [], NOTHING);
      ReadAfterReports(start, ReadsDuring(turns, i), ReportsIn(turns(i)));
      R.HealthStaysTracked(old(lifecycle), ReportsIn(turns(i)));
      routable := ReadHealth(p, before);
    }

    /** Reads one provider's state. */
    method ReadHealth(p: R.ServiceProvider, ghost before: W.System) returns (routable: bool)
      requires Consistent() && Quiet(before, WatchView()) && lifecycle.Some?
      requires phase.Reading? && phase.todo != [] && phase.todo[0] == p
      modifies this`phase
      ensures Consistent() && Quiet(before, WatchView())
      ensures routable == R.Routable(lifecycle, p)
      ensures !routable <==> p.runtimeID in lifecycle.value && lifecycle.value[p.runtimeID] == R.Unhealthy
      ensures phase == old(phase).(todo := old(phase).todo[1..], kept := old(phase).kept + if routable then [p] else [])
    {
      ReadAdvances(origin, before, WatchView());
      routable := R.ShouldRouteTraffic(lifecycle.value, p.runtimeID);
      phase := phase.(todo := phase.todo[1..], kept := phase.kept + if routable then [p] else []);
    }

    /** A reader has just set out on the list. */
    ghost predicate ReadingFor(before: W.System, list: seq<R.ServiceProvider>)
      reads this
    {
      && Consistent() && Quiet(before, WatchView())
      && phase.Reading? && phase == W.Begin(View(), phase.purpose, phase.serviceType, list)
    }

    /** Chooses a provider; `random` stands for the random source, and `turns` for what others do before each
        read. */
    method SelectProvider(t: string, minVersion: string, random: nat, turns: nat -> seq<Turn>) returns (result: R.Selection)
      requires Valid()
      modifies this`roundRobinIndex, this`lifecycle, this`streams, this`watchers, this`phase
      ensures Valid() && Quiet(old(WatchView()), WatchView())
      ensures ChosenIn(old(View()), t, minVersion, random, turns, result, View())
    {
      QuietSelf(WatchView());
      R.NothingToFind(lifecycle, []);
      var all := GetOr(providers, t, []);
      if |all| == 0 { return R.NoProviders; }
      var compatible := FilterCompatibleVersions(all, minVersion);
      if |compatible| == 0 { return R.NoCompatibleProviders; }
      result := SelectAmong(t, minVersion, compatible, random, turns);
    }

    /** The rest of a selection, once there are providers that are new enough. */
    method SelectAmong(t: string, minVersion: string, compatible: seq<R.ServiceProvider>, random: nat, turns: nat -> seq<Turn>)
      returns (result: R.Selection)
      requires Valid() && compatible == R.Demanded(View(), t, minVersion) && compatible != [] && R.ProvidersOf(View(), t) != []
      modifies this`roundRobinIndex, this`lifecycle, this`streams, this`watchers, this`phase
      ensures Valid() && Quiet(old(WatchView()), WatchView())
      ensures ChosenIn(old(View()), t, minVersion, random, turns, result, View())
    {
      Ask(t, minVersion);
      var available := FilterAvailable(compatible, turns, old(WatchView()));
      ChoiceMade(old(View()), t, minVersion, turns, lifecycle, available, random);
      result := Answer(t, available, random, old(WatchView()));
    }

    ghost method Ask(t: string, minVersion: string)
      requires Valid()
      modifies this`phase
      ensures ReadingFor(old(WatchView()), R.Demanded(View(), t, minVersion))
      ensures phase.purpose == W.ForSelection(minVersion) && phase.serviceType == t
    {
      AskBegins(origin, WatchView(), t, minVersion);
      phase := W.Begin(View(), W.ForSelection(minVersion), t, R.Demanded(View(), t, minVersion));
    }

    /** The strategy's choice, and the end of the selection. */
    method Answer(t: string, available: seq<R.ServiceProvider>, random: nat, ghost before: W.System) returns (result: R.Selection)
      requires Consistent() && Quiet(before, WatchView())
      requires W.DoneReading(WatchView()) && phase.purpose.ForSelection? && phase.kept == available && phase.serviceType == t
      modifies this`roundRobinIndex, this`phase
      ensures Valid() && Quiet(before, WatchView())
      ensures View() == R.AfterPick(old(View()), t, available)
      ensures result == if available == [] then R.NoAvailableProviders
                        else R.Selected(available[R.Place(R.StrategyOf(old(View()), t), R.CursorOf(old(View()), t), |available|, random)])
    {
      AnswerEnds(origin, before, WatchView());
      if |available| == 0 {
        phase := W.Idle;
        return R.NoAvailableProviders;
      }
      var provider := ApplyStrategy(t, available, GetOr(selection, t, R.SelectionFirst), random);
      phase := W.Idle;
      result := R.Selected(provider);
    }

    method ApplyStrategy(t: string, available: seq<R.ServiceProvider>, strategy: R.Strategy, random: nat)
      returns (provider: R.ServiceProvider)
      requires |available| > 0
      modifies this`roundRobinIndex
      ensures provider == available[R.Place(strategy, old(R.CursorOf(View(), t)), |available|, random)]
      ensures roundRobinIndex == if strategy == R.SelectionRoundRobin
                                 then old(roundRobinIndex)[t := (old(R.CursorOf(View(), t)) + 1) % |available|]
                                 else old(roundRobinIndex)
    {
      match strategy {
        case SelectionRoundRobin =>
          var idx := GetOr(roundRobinIndex, t, 0);
          provider := available[idx % |available|];
          roundRobinIndex := roundRobinIndex[t := (idx + 1) % |available|];
        case SelectionRandom =>
          provider := available[random % |available|];
        case _ =>
          provider := available[0];
      }
    }

    /** Asking whether a service exists is a selection too: it moves the round-robin cursor. */
    method HasService(t: string, minVersion: string, random: nat, turns: nat -> seq<Turn>) returns (available: bool)
      requires Valid()
      modifies this`roundRobinIndex, this`lifecycle, this`streams, this`watchers, this`phase
      ensures Valid() && Quiet(old(WatchView()), WatchView())
      ensures available <==> FoundIn(old(View()), t, minVersion, turns) != []
      ensures View() == R.AfterChoice(old(View()), t, minVersion, ChoiceMoves(old(View()), t, minVersion, turns))
    {
      var result := SelectProvider(t, minVersion, random, turns);
      R.ChooseFinds(old(View()), t, minVersion, ChoiceMoves(old(View()), t, minVersion, turns), random);
      available := result.Selected?;
    }

    /** Selects an endpoint and then, under the lock once more, looks whether there is just one provider;
        `others` is what comes in between. */
    method DiscoverService(t: string, minVersion: string, random: nat, turns: nat -> seq<Turn>, others: seq<Interlude>)
      returns (endpoint: Option<R.Endpoint>, singleProvider: bool)
      requires Valid()
      modifies this`providers, this`registrations, this`roundRobinIndex, this`lifecycle
      modifies this`streams, this`watchers, this`phase, this`log
      ensures Valid() && Runs.Reaches(W.Next, old(WatchView()), WatchView())
      ensures endpoint.Some? <==> FoundIn(old(View()), t, minVersion, turns) != []
      ensures endpoint.Some? ==>
                var choice := R.ChooseDuring(old(View()), t, minVersion, ChoiceMoves(old(View()), t, minVersion, turns), random);
                choice.Selected? && endpoint.value == R.EndpointOf(choice.provider) && R.Locates(endpoint.value, choice.provider)
      ensures endpoint.Some? ==> (singleProvider <==> |R.ProvidersOf(View(), t)| == 1)
      ensures endpoint.None? ==> View() == R.AfterChoice(old(View()), t, minVersion, ChoiceMoves(old(View()), t, minVersion, turns))
    {
      var result := SelectProvider(t, minVersion, random, turns);
      R.ChooseFinds(old(View()), t, minVersion, ChoiceMoves(old(View()), t, minVersion, turns), random);
      if !result.Selected? { return None, false; }
      endpoint := Some(R.EndpointOf(result.provider));
      LetOthers(others, old(WatchView()));
      singleProvider := |GetOr(providers, t, [])| == 1;
    }

    /** Other methods that get the lock in between. */
    method LetOthers(others: seq<Interlude>, ghost before: W.System)
      requires Valid() && Runs.Reaches(W.Next, before, WatchView())
      modifies this`providers, this`registrations, this`lifecycle, this`streams, this`watchers, this`phase, this`log
      ensures Valid() && Runs.Reaches(W.Next, before, WatchView())
    {
      for i := 0 to |others|
        invariant Valid() && Runs.Reaches(W.Next, before, WatchView())
      {
        ghost var s := WatchView();
        LetOne(others[i]);
        Runs.ReachesTransitive(W.Next, before, s, WatchView());
      }
    }

    method LetOne(other: Interlude)
      requires Valid()
      modifies this`providers, this`registrations, this`lifecycle, this`streams, this`watchers, this`phase, this`log
      ensures Valid() && Runs.Reaches(W.Next, old(WatchView()), WatchView())
    {
      Runs.ReachesSelf(W.Next, WatchView());
      match other {
        case Arrival(provider, turns) =>
          if provider.registrationID !in registrations { Publish(provider, turns); }
        case Departure(registrationID, turns) =>
          var found := UnregisterService(registrationID, turns);
        case PluginDeparture(runtimeID) =>
          UnregisterPluginServices(runtimeID);
        case Launch(provider) =>
          if provider.registrationID !in registrations { WriteProvider(provider); }
      }
    }

    // -------------------------------------------------------------- watching

    /** The event of the type that is being read for. */
    method BuildServiceEvent(t: string, turns: nat -> seq<Turn>, ghost before: W.System) returns (event: R.Event)
      requires ReadingFor(before, R.ProvidersOf(View(), t)) && phase.serviceType == t && !phase.purpose.ForSelection?
      modifies this`lifecycle, this`streams, this`watchers, this`phase
      ensures Consistent() && Quiet(before, WatchView())
      ensures phase.Reading? && phase == old(phase).(todo := [], kept := phase.kept) && event == W.EventMade(WatchView())
      ensures MadeIn(old(View()), t, turns, event, View())
    {
      var list := GetOr(providers, t, []);
      R.NothingToFind(lifecycle, []);
      if |list| == 0 {
        return R.Event(t, R.ServiceUnavailable, None);
      }
      var available := FilterAvailable(list, turns, before);
      label Filtered:
      LetRun(turns(|list|), before, [], NOTHING);
      ReadInGoesOn(old(lifecycle), list, FilterMoves(old(lifecycle), list, turns), old@Filtered(lifecycle), available, ReportsIn(turns(|list|)));
      if |available| == 0 {
        return R.Event(t, R.ServiceUnavailable, None);
      }
      var provider := available[0];
      var state := R.ServiceAvailable;
      if lifecycle.Some? && provider.runtimeID in lifecycle.value && lifecycle.value[provider.runtimeID] == R.Degraded {
        state := R.ServiceDegraded;
      }
      event := R.Event(t, state, Some(R.EndpointOf(provider)));
    }

    /** In the middle of a notification that began in the state `before`: the `told` watchers have
        been offered the event and the `pending` ones have not. */
    ghost predicate Telling(before: W.System, t: string, event: R.Event, told: seq<nat>, pending: seq<nat>)
      reads this
    {
      Consistent() && phase == W.Notifying(t, event, pending) && Progress(before, WatchView(), told, event)
    }

    /** Builds the event and offers it to every listed watcher, while others take their `turns` before each
        read and offer and after the last. `before` is where the method that holds the lock began. */
    method NotifyWatchers(t: string, turns: nat -> seq<Turn>, ghost before: W.System)
      requires ReadingFor(before, R.ProvidersOf(View(), t)) && phase.purpose == W.ForAnnouncement && phase.serviceType == t
      modifies this`lifecycle, this`streams, this`watchers, this`phase, this`log
      ensures Consistent() && phase == W.Idle
      ensures Heard(before, t, old(View()), turns, WatchView())
    {
      var n := |GetOr(providers, t, [])|;
      ghost var start := View();
      var event := BuildServiceEvent(t, turns, before);
      ghost var made := View();
      Announce(t, event, before);
      Notify(t, event, Later(turns, n + 1), before);
      IsHeard(before, t, event, start, turns, made, WatchView(), n);
    }

    /** The offers and the end of a notification. */
    method Notify(t: string, event: R.Event, turns: nat -> seq<Turn>, ghost before: W.System)
      requires Telling(before, t, event, [], W.Listed(before, t)) && watchersByType == before.listed
      modifies this`lifecycle, this`streams, this`watchers, this`phase
      ensures Consistent() && phase == W.Idle && Progress(before, WatchView(), W.Listed(before, t), event)
      ensures ReportedSoFar(old(lifecycle), turns, |W.Listed(before, t)| + 1, lifecycle)
    {
      OfferToAll(t, event, turns, before);
      Release(t, event, before);
    }

    /** The lock is released. */
    ghost method Release(t: string, event: R.Event, before: W.System)
      requires Telling(before, t, event, W.Listed(before, t), [])
      modifies this`phase
      ensures Consistent() && phase == W.Idle && Progress(before, WatchView(), W.Listed(before, t), event)
    {
      NotifyEnds(origin, before, WatchView(), t, event);
      phase := W.Idle;
    }

    /** The event just built becomes the one to offer. */
    ghost method Announce(t: string, event: R.Event, before: W.System)
      requires Consistent() && Quiet(before, WatchView())
      requires W.DoneReading(WatchView()) && phase.purpose == W.ForAnnouncement && phase.serviceType == t && event == W.EventMade(WatchView())
      modifies this`phase, this`log
      ensures Telling(before, t, event, [], W.Listed(WatchView(), t))
      ensures log == before.log[t := W.LogOf(before, t) + [event]]
    {
      NotifyBegins(origin, before, WatchView());
      log := log[t := W.LogOf(WatchView(), t) + [event]];
      phase := W.Notifying(t, event, W.Listed(WatchView(), t));
    }

    method OfferToAll(t: string, event: R.Event, turns: nat -> seq<Turn>, ghost before: W.System)
      requires Telling(before, t, event, [], W.Listed(before, t)) && watchersByType == before.listed
      modifies this`lifecycle, this`streams, this`watchers, this`phase
      ensures Telling(before, t, event, W.Listed(before, t), [])
      ensures ReportedSoFar(old(lifecycle), turns, |W.Listed(before, t)| + 1, lifecycle)
    {
      var toNotify := GetOr(watchersByType, t, []);
      ListedOnce(origin, WatchView(), t);
      WholeList(toNotify);
      NothingReported(lifecycle, turns);
      for i := 0 to |toNotify|
        invariant Telling(before, t, event, toNotify[..i], toNotify[i..])
        invariant ReportedSoFar(old(lifecycle), turns, i, lifecycle)
      {
        NextListed(toNotify, i);
        OneMoreReported(old(lifecycle), turns, i, lifecycle);
        OfferNext(toNotify[i], t, event, turns(i), before, toNotify[..i], toNotify[i..]);
      }
      OneMoreReported(old(lifecycle), turns, |toNotify|, lifecycle);
      LetRun(turns(|toNotify|), before, toNotify, event);
    }

    /** Offers the event to the next watcher after whatever happens before. */
    method OfferNext(w: nat, t: string, event: R.Event, turns: seq<Turn>, ghost before: W.System, ghost told: seq<nat>, ghost pending: seq<nat>)
      requires Telling(before, t, event, told, pending) && pending != [] && pending[0] == w && w !in told
      modifies this`lifecycle, this`streams, this`watchers, this`phase
      ensures Telling(before, t, event, told + [w], pending[1..])
      ensures lifecycle == R.HealthAfter(old(lifecycle), ReportsIn(turns))
    {
      LetRun(turns, before, told, event);
      OfferAdvances(origin, before, WatchView(), told);
      OfferTo(w, event);
    }

    /** Offers the event to the first of the watchers still pending. */
    method OfferTo(w: nat, event: R.Event)
      requires W.Next(WatchView(), W.Offer).Some? && Tied(streams, watchers)
      requires phase.event == event && phase.pending[0] == w
      modifies this`streams, this`watchers, this`phase
      ensures W.Next(old(WatchView()), W.Offer) == Some(WatchView()) && Tied(streams, watchers)
    {
      TiedUpdate(streams, watchers, w, W.Offered(watchers[w], event));
      streams := streams[w := OfferedTo(streams[w], event)];
      watchers := watchers[w := W.Offered(watchers[w], event)];
      phase := phase.(pending := phase.pending[1..]);
    }

    /** What the scheduler lets others do while somebody may hold the lock. */
    method LetRun(turns: seq<Turn>, ghost before: W.System, ghost told: seq<nat>, ghost event: R.Event)
      requires Consistent() && Progress(before, WatchView(), told, event)
      modifies this`lifecycle, this`streams, this`watchers
      ensures Consistent() && Progress(before, WatchView(), told, event)
      ensures lifecycle == R.HealthAfter(old(lifecycle), ReportsIn(turns))
    {
      for i := 0 to |turns|
        invariant Consistent() && Progress(before, WatchView(), told, event)
        invariant lifecycle == R.HealthAfter(old(lifecycle), ReportsIn(turns[..i]))
      {
        ghost var s := WatchView();
        OneMoreTurn(old(lifecycle), turns, i);
        match turns[i] {
          case Watching(w, fails) =>
            TakeTurn(w, fails);
          case Reporting(runtimeID, health) =>
            ReportHealth(runtimeID, health);
        }
        TurnKeepsProgress(before, s, WatchView(), told, event);
      }
      assert turns[..|turns|] == turns;
    }

    /** Whatever the call does next without the lock, if it can. */
    method TakeTurn(w: nat, fails: bool)
      requires Consistent()
      modifies this`streams, this`watchers
      ensures Consistent() && Runs.Reaches(W.Next, old(WatchView()), WatchView())
      ensures NothingTold(old(watchers), watchers)
    {
      Runs.ReachesSelf(W.Next, WatchView());
      if w in streams {
        if streams[w].stage == W.Unlisted {
          CloseChannel(w);
        } else if streams[w].stage == W.Streaming {
          if streams[w].inHand.Some? {
            SendEvent(w, !fails);
          } else if fails {
            Cancel(w);
          } else if streams[w].queue != [] {
            TakeEvent(w);
          }
        }
      }
    }

    /** The streaming loop takes an event from the channel. */
    method TakeEvent(w: nat)
      requires Consistent() && w in streams && streams[w].stage == W.Streaming && streams[w].inHand.None? && streams[w].queue != []
      modifies this`streams, this`watchers
      ensures Consistent() && Stepped(old(WatchView()), W.Take(w), WatchView())
    {
      StepTaken(origin, WatchView(), W.Take(w));
      var x := streams[w];
      streams := streams[w := x.(queue := x.queue[1..], inHand := Some(x.queue[0]))];
      watchers := watchers[w := W.Taken(watchers[w])];
    }

    /** The streaming loop sends the event it has taken; when that fails, the call returns. */
    method SendEvent(w: nat, ok: bool)
      requires Consistent() && w in streams && streams[w].stage == W.Streaming && streams[w].inHand.Some?
      modifies this`streams, this`watchers
      ensures Consistent() && Stepped(old(WatchView()), if ok then W.Send(w) else W.FailSend(w), WatchView())
    {
      StepTaken(origin, WatchView(), if ok then W.Send(w) else W.FailSend(w));
      if ok {
        streams := streams[w := streams[w].(inHand := None)];
        watchers := watchers[w := W.Sent(watchers[w])];
      } else {
        streams := streams[w := streams[w].(stage := W.Leaving)];
        watchers := watchers[w := watchers[w].(stage := W.Leaving)];
      }
    }

    /** The client cancels, and the call returns. */
    method Cancel(w: nat)
      requires Consistent() && w in streams && streams[w].stage == W.Streaming && streams[w].inHand.None?
      modifies this`streams, this`watchers
      ensures Consistent() && Stepped(old(WatchView()), W.Cancel(w), WatchView())
    {
      StepTaken(origin, WatchView(), W.Cancel(w));
      streams := streams[w := streams[w].(stage := W.Leaving)];
      watchers := watchers[w := watchers[w].(stage := W.Leaving)];
    }

    /** The registration part of `WatchService`, with the initial event built meanwhile. */
    method StartWatch(t: string, w: nat, turns: nat -> seq<Turn>)
      requires Valid() && w !in streams
      modifies this`watchersByType, this`lifecycle, this`streams, this`watchers, this`phase
      ensures Valid() && JoinedIn(old(WatchView()), w, t, turns, WatchView())
    {
      JoinBegins(origin, WatchView(), w, t);
      phase := W.Begin(View(), W.ForNewcomer(w), t, R.ProvidersOf(View(), t));
      var event := BuildServiceEvent(t, turns, old(WatchView()));
      WatchEnds(origin, old(WatchView()), WatchView(), w, t, turns);
      Enlist(t, w, event);
    }

    /** Lists the new watcher and puts the initial event into its channel. */
    method Enlist(t: string, w: nat, event: R.Event)
      requires W.Next(WatchView(), W.Watch).Some? && Tied(streams, watchers)
      requires phase.purpose == W.ForNewcomer(w) && phase.serviceType == t && event == W.EventMade(WatchView())
      modifies this`watchersByType, this`streams, this`watchers, this`phase
      ensures W.Next(old(WatchView()), W.Watch) == Some(WatchView()) && Tied(streams, watchers)
    {
      TiedUpdate(streams, watchers, w, W.Newcomer(t, event, |GetOr(log, t, [])|));
      watchersByType := watchersByType[t := GetOr(watchersByType, t, []) + [w]];
      streams := streams[w := Stream(t, [event], None, W.Streaming)];
      watchers := watchers[w := W.Newcomer(t, event, |GetOr(log, t, [])|)];
      phase := W.Idle;
    }

    /** The first half of the cleanup of `WatchService`: leave the list, under the lock. */
    method LeaveList(w: nat)
      requires Valid() && w in streams && streams[w].stage == W.Leaving
      modifies this`watchersByType, this`streams, this`watchers
      ensures Valid() && Stepped(old(WatchView()), W.Unlist(w), WatchView())
    {
      StepTaken(origin, WatchView(), W.Unlist(w));
      var t := streams[w].serviceType;
      watchersByType := watchersByType[t := WatcherLists.Without(GetOr(watchersByType, t, []), w)];
      streams := streams[w := streams[w].(stage := W.Unlisted)];
      watchers := watchers[w := watchers[w].(stage := W.Unlisted)];
    }

    /** The second half: close the channel, without it. */
    method CloseChannel(w: nat)
      requires Consistent() && w in streams && streams[w].stage == W.Unlisted
      modifies this`streams, this`watchers
      ensures Consistent() && Stepped(old(WatchView()), W.Close(w), WatchView())
    {
      StepTaken(origin, WatchView(), W.Close(w));
      streams := streams[w := streams[w].(stage := W.Closed)];
      watchers := watchers[w := watchers[w].(stage := W.Closed)];
    }
  }

  /** One step of the protocol, which can be a run of its own. */
  ghost predicate Stepped(before: W.System, step: W.Step, after: W.System) {
    && W.Next(before, step) == Some(after) && Runs.Reaches(W.Next, before, after)
    && (step.Take? || step.Send? || step.FailSend? || step.Cancel? || step.Close? ==>
          NothingTold(before.watchers, after.watchers))
  }

  lemma StepTaken(origin: Option<R.Lifecycle>, s: W.System, step: W.Step)
    requires W.Reachable(origin, s) && W.Next(s, step).Some?
    ensures Stepped(s, step, W.Next(s, step).value) && W.Reachable(origin, W.Next(s, step).value)
  {
    Runs.ReachesStep(W.Next, W.Start(origin), s, step);
    Runs.ReachesSelf(W.Next, s);
    Runs.ReachesStep(W.Next, s, s, step);
  }

  /** Nobody was offered anything. */
  ghost predicate NothingTold(ws: map<nat, W.Watcher>, ws': map<nat, W.Watcher>) {
    ws'.Keys == ws.Keys && forall w :: w in ws ==> ws'[w].emitted == ws[w].emitted
  }

  /** The `told` watchers were offered `e`, and nobody was offered anything else. */
  ghost predicate ToldOnce(ws: map<nat, W.Watcher>, ws': map<nat, W.Watcher>, told: seq<nat>, e: R.Event) {
    ws'.Keys == ws.Keys && forall w :: w in ws ==> ws'[w].emitted == ws[w].emitted + if w in told then [e] else []
  }

  const NOTHING: R.Event := R.Event("", R.ServiceUnavailable, None)

  /** A run from `before` in which the `told` watchers have been offered `e`. */
  ghost predicate Progress(before: W.System, now: W.System, told: seq<nat>, e: R.Event) {
    Runs.Reaches(W.Next, before, now) && ToldOnce(before.watchers, now.watchers, told, e)
  }

  /** A run from `before` in which nobody has been listed or told anything. */
  ghost predicate Quiet(before: W.System, now: W.System) {
    Progress(before, now, [], NOTHING) && now.listed == before.listed && now.log == before.log
  }

  ghost predicate OnlyReports(moves: seq<R.Move>) {
    forall i :: 0 <= i < |moves| ==> moves[i].Report?
  }

  /** The reports of the first `n` turns have led from one to the other. */
  ghost predicate ReportedSoFar(lifecycle0: Option<R.Lifecycle>, turns: nat -> seq<Turn>, n: nat, lifecycle: Option<R.Lifecycle>) {
    lifecycle == R.HealthAfter(lifecycle0, ReportsDuring(turns, n))
  }

  lemma NothingReported(lifecycle: Option<R.Lifecycle>, turns: nat -> seq<Turn>)
    ensures ReportedSoFar(lifecycle, turns, 0, lifecycle)
  {
  }

  lemma OneMoreReported(lifecycle0: Option<R.Lifecycle>, turns: nat -> seq<Turn>, n: nat, lifecycle: Option<R.Lifecycle>)
    requires ReportedSoFar(lifecycle0, turns, n, lifecycle)
    ensures ReportedSoFar(lifecycle0, turns, n + 1, R.HealthAfter(lifecycle, ReportsIn(turns(n))))
  {
    R.HealthConcat(lifecycle0, ReportsDuring(turns, n), ReportsIn(turns(n)));
  }

  /** The first `n` reads, each after the reports of its turn, have led to `x`. */
  ghost predicate ReadSoFar(start: R.Scan, turns: nat -> seq<Turn>, n: nat, x: R.Scan) {
    R.Scanned(start, ReadsDuring(turns, n)) == x
  }

  lemma NothingRead(start: R.Scan, turns: nat -> seq<Turn>)
    ensures ReadSoFar(start, turns, 0, start)
  {
  }

  lemma AllRead(lifecycle0: Option<R.Lifecycle>, list: seq<R.ServiceProvider>, turns: nat -> seq<Turn>,
                lifecycle: Option<R.Lifecycle>, available: seq<R.ServiceProvider>)
    requires lifecycle0.Some? && ReadSoFar(R.Opening(lifecycle0, list), turns, |list|, R.Scan(lifecycle, [], available))
    ensures ReadIn(lifecycle0, list, FilterMoves(lifecycle0, list, turns), lifecycle, available)
  {
    R.ScanFollowsHealth(R.Opening(lifecycle0, list), ReadsDuring(turns, |list|));
  }

  /** The moves read the whole list and leave `available`. */
  ghost predicate ReadIn(lifecycle0: Option<R.Lifecycle>, list: seq<R.ServiceProvider>, moves: seq<R.Move>,
                         lifecycle: Option<R.Lifecycle>, available: seq<R.ServiceProvider>) {
    && R.Scanned(R.Opening(lifecycle0, list), moves) == R.Scan(lifecycle, [], available)
    && lifecycle == R.HealthAfter(lifecycle0, moves)
  }

  /** What the filter of a selection leaves when others take these turns. */
  function FoundIn(r: R.Registry, t: string, minVersion: string, turns: nat -> seq<Turn>): seq<R.ServiceProvider> {
    R.Found(r.lifecycle, R.Demanded(r, t, minVersion), ChoiceMoves(r, t, minVersion, turns))
  }

  /** A selection that read the health of the whole list while others took these turns. */
  ghost predicate ChosenIn(r: R.Registry, t: string, minVersion: string, random: nat, turns: nat -> seq<Turn>,
                           result: R.Selection, now: R.Registry) {
    var moves := ChoiceMoves(r, t, minVersion, turns);
    && R.Completes(r.lifecycle, R.Demanded(r, t, minVersion), moves)
    && result == R.ChooseDuring(r, t, minVersion, moves, random)
    && now == R.AfterChoice(r, t, minVersion, moves)
  }

  /** While others took these turns the whole list of `t` was read and the event made of it; nothing but the
      health states has changed. */
  ghost predicate MadeIn(start: R.Registry, t: string, turns: nat -> seq<Turn>, e: R.Event, now: R.Registry) {
    var moves := EventMoves(start, t, turns);
    && R.Completes(start.lifecycle, R.ProvidersOf(start, t), moves)
    && e == R.BuiltEvent(start, t, moves)
    && now == start.(lifecycle := R.HealthAfter(start.lifecycle, moves))
  }

  /** The reports while the event is offered: a turn comes before each offer and one after the last. */
  function OfferMoves(before: W.System, start: R.Registry, t: string, turns: nat -> seq<Turn>): seq<R.Move> {
    ReportsDuring(Later(turns, |R.ProvidersOf(start, t)| + 1), |W.Listed(before, t)| + 1)
  }

  /** From `start` on, an event of `t` was built while others took their turns; the watchers listed for `t`, and
      only they, were offered it, once each and as the only announcement, in a run of the protocol; and
      nothing more has happened to the registry than the health reports of those turns. */
  ghost predicate Heard(before: W.System, t: string, start: R.Registry, turns: nat -> seq<Turn>, after: W.System) {
    var moves := EventMoves(start, t, turns);
    var e := R.BuiltEvent(start, t, moves);
    && R.Completes(start.lifecycle, R.ProvidersOf(start, t), moves)
    && after.registry == start.(lifecycle := R.HealthAfter(R.HealthAfter(start.lifecycle, moves), OfferMoves(before, start, t, turns)))
    && Runs.Reaches(W.Next, before, after)
    && after.listed == before.listed
    && after.log == before.log[t := W.LogOf(before, t) + [e]]
    && ToldOnce(before.watchers, after.watchers, W.Listed(before, t), e)
  }

  lemma OneMoreTurn(lifecycle: Option<R.Lifecycle>, turns: seq<Turn>, i: nat)
    requires i < |turns|
    ensures var before := R.HealthAfter(lifecycle, ReportsIn(turns[..i]));
            R.HealthAfter(lifecycle, ReportsIn(turns[..i + 1])) ==
            if turns[i].Reporting? then R.Reported(before, turns[i].runtimeID, turns[i].health) else before
  {
    assert turns[..i + 1][..i] == turns[..i];
    if turns[i].Reporting? {
      R.HealthOneMore(lifecycle, ReportsIn(turns[..i]), R.Report(turns[i].runtimeID, turns[i].health));
    } else {
      assert ReportsIn(turns[..i]) + [] == ReportsIn(turns[..i]);
    }
  }

  // ---------------------------------------------------------------- what the turns decide

  /** The entries whose plugin has not reported unhealthy last, before their own turn is over, in their order. */
  function RoutableInTurn(states: R.Lifecycle, list: seq<R.ServiceProvider>, turns: nat -> seq<Turn>, n: nat): seq<R.ServiceProvider>
    requires n <= |list|
  {
    if n == 0 then []
    else
      RoutableInTurn(states, list, turns, n - 1)
      + if R.LastKnown(states, ReportsDuring(turns, n), list[n - 1].runtimeID) != Some(R.Unhealthy) then [list[n - 1]] else []
  }

  /** One more read, after the reports that have led to the states `now`. */
  lemma NextReadFollows(lifecycle: Option<R.Lifecycle>, moves: seq<R.Move>, list: seq<R.ServiceProvider>, n: nat,
                        kept: seq<R.ServiceProvider>, now: Option<R.Lifecycle>)
    requires lifecycle.Some? && n < |list| && now == R.HealthAfter(lifecycle, moves)
    ensures R.Moved(R.Scan(now, list[n..], kept), R.Read)
         == R.Scan(now, list[n + 1..],
                   kept + if R.LastKnown(lifecycle.value, moves, list[n].runtimeID) != Some(R.Unhealthy) then [list[n]] else [])
  {
    R.RoutableIff(lifecycle, moves, list[n]);
    assert list[n..][1..] == list[n + 1..];
  }

  /** Where the reads of the first `n` turns lead, by their reports. */
  function AfterTurns(states: R.Lifecycle, list: seq<R.ServiceProvider>, turns: nat -> seq<Turn>, n: nat): R.Scan
    requires n <= |list|
  {
    R.Scan(R.HealthAfter(Some(states), ReportsDuring(turns, n)), list[n..], RoutableInTurn(states, list, turns, n))
  }

  lemma NextTurnFollows(states: R.Lifecycle, list: seq<R.ServiceProvider>, turns: nat -> seq<Turn>, n: nat, x: R.Scan)
    requires 0 < n <= |list| && x == AfterTurns(states, list, turns, n - 1)
    ensures AfterTurns(states, list, turns, n)
         == R.Moved(x.(lifecycle := R.HealthAfter(x.lifecycle, ReportsIn(turns(n - 1)))), R.Read)
  {
    R.HealthConcat(Some(states), ReportsDuring(turns, n - 1), ReportsIn(turns(n - 1)));
    NextReadFollows(Some(states), ReportsDuring(turns, n), list, n - 1, x.kept, R.HealthAfter(x.lifecycle, ReportsIn(turns(n - 1))));
  }

  lemma TurnAndRead(x: R.Scan, turns: nat -> seq<Turn>, n: nat, y: R.Scan)
    requires n > 0 && y == R.Scanned(x, ReadsDuring(turns, n - 1))
    ensures R.Scanned(x, ReadsDuring(turns, n)) == R.Moved(y.(lifecycle := R.HealthAfter(y.lifecycle, ReportsIn(turns(n - 1)))), R.Read)
  {
    ReadAfterReports(x, ReadsDuring(turns, n - 1), ReportsIn(turns(n - 1)));
  }

  lemma {:induction false} ReadsFollowTurns(states: R.Lifecycle, list: seq<R.ServiceProvider>, turns: nat -> seq<Turn>, n: nat)
    returns (y: R.Scan)
    requires n <= |list|
    ensures y == R.Scanned(R.Opening(Some(states), list), ReadsDuring(turns, n)) && y == AfterTurns(states, list, turns, n)
  {
    if n == 0 {
      y := R.Opening(Some(states), list);
    } else {
      var x := ReadsFollowTurns(states, list, turns, n - 1);
      TurnAndRead(R.Opening(Some(states), list), turns, n, x);
      NextTurnFollows(states, list, turns, n, x);
      y := AfterTurns(states, list, turns, n);
    }
  }

  /** Whatever is reported, the filter reads the whole list and leaves just the entries whose plugin has not
      reported unhealthy last, before their own turn is over; without health tracking it leaves them all. */
  lemma FilterFollowsTurns(lifecycle: Option<R.Lifecycle>, list: seq<R.ServiceProvider>, turns: nat -> seq<Turn>)
    ensures R.Completes(lifecycle, list, FilterMoves(lifecycle, list, turns))
    ensures R.Found(lifecycle, list, FilterMoves(lifecycle, list, turns)) ==
            if lifecycle.None? then list else RoutableInTurn(lifecycle.value, list, turns, |list|)
  {
    if lifecycle.Some? { var x := ReadsFollowTurns(lifecycle.value, list, turns, |list|); }
  }

  /** None of the first `n` turns holds a report of a plugin on the list. */
  ghost predicate QuietTurns(list: seq<R.ServiceProvider>, turns: nat -> seq<Turn>, n: nat) {
    forall i, j :: 0 <= i < n && 0 <= j < |list| ==> NoReportOf(turns(i), list[j].runtimeID)
  }

  ghost predicate NoReportOf(turns: seq<Turn>, runtimeID: string) {
    forall k :: 0 <= k < |turns| && turns[k].Reporting? ==> turns[k].runtimeID != runtimeID
  }

  lemma {:induction false} QuietReports(turns: seq<Turn>, runtimeID: string)
    requires NoReportOf(turns, runtimeID)
    ensures forall i :: 0 <= i < |ReportsIn(turns)| ==> ReportsIn(turns)[i].runtimeID != runtimeID
  {
    if turns != [] { QuietReports(turns[..|turns| - 1], runtimeID); }
  }

  lemma QuietTurn(list: seq<R.ServiceProvider>, turns: nat -> seq<Turn>, n: nat, i: nat)
    requires QuietTurns(list, turns, n) && i < n
    ensures R.Undisturbed(list, ReportsIn(turns(i)))
  {
    forall j | 0 <= j < |list|
      ensures forall k :: 0 <= k < |ReportsIn(turns(i))| ==> ReportsIn(turns(i))[k].runtimeID != list[j].runtimeID
    {
      assert NoReportOf(turns(i), list[j].runtimeID);
      QuietReports(turns(i), list[j].runtimeID);
    }
  }

  lemma {:induction false} QuietReads(list: seq<R.ServiceProvider>, turns: nat -> seq<Turn>, n: nat)
    requires QuietTurns(list, turns, n)
    ensures R.Undisturbed(list, ReadsDuring(turns, n))
  {
    if n > 0 {
      QuietReads(list, turns, n - 1);
      QuietTurn(list, turns, n, n - 1);
    }
  }

  /** When no plugin of the list reports before its read, a selection is that of the state it began in. */
  lemma QuietSelection(r: R.Registry, t: string, minVersion: string, random: nat, turns: nat -> seq<Turn>,
                       result: R.Selection, now: R.Registry)
    requires ChosenIn(r, t, minVersion, random, turns, result, now)
    requires QuietTurns(R.Demanded(r, t, minVersion), turns, |R.Demanded(r, t, minVersion)|)
    ensures result == R.Choose(r, t, minVersion, random)
    ensures now == R.AfterPick(r, t, R.Candidates(r, t, minVersion)).(lifecycle := now.lifecycle)
  {
    QuietReads(R.Demanded(r, t, minVersion), turns, |R.Demanded(r, t, minVersion)|);
    B.UndisturbedChoice(r, t, minVersion, ChoiceMoves(r, t, minVersion, turns), random);
  }

  /** When no plugin of the list reports while an event is built, it is that of the state it was begun in and
      of the one it was made in, and tells their selections. */
  lemma QuietEvent(r: R.Registry, t: string, turns: nat -> seq<Turn>)
    requires QuietTurns(R.ProvidersOf(r, t), turns, |R.ProvidersOf(r, t)| + 1)
    ensures var e, now := R.BuiltEvent(r, t, EventMoves(r, t, turns)), r.(lifecycle := R.HealthAfter(r.lifecycle, EventMoves(r, t, turns)));
            && e == R.ServiceEvent(r, t) && R.TellsSelection(r, t, e)
            && e == R.ServiceEvent(now, t) && R.TellsSelection(now, t, e)
  {
    var list, moves := R.ProvidersOf(r, t), EventMoves(r, t, turns);
    QuietReads(list, turns, |list|);
    QuietTurn(list, turns, |list| + 1, |list|);
    EventMovesComplete(r, t, turns);
    B.UndisturbedBuild(r, t, moves);
    assert moves[..|moves|] == moves && moves[..0] == [];
    assert B.StateAt(r, moves, 0) == r && B.StateAt(r, moves, |moves|) == r.(lifecycle := R.HealthAfter(r.lifecycle, moves));
  }

  lemma EventMovesComplete(r: R.Registry, t: string, turns: nat -> seq<Turn>)
    ensures R.Completes(r.lifecycle, R.ProvidersOf(r, t), EventMoves(r, t, turns))
  {
    var list := R.ProvidersOf(r, t);
    R.NothingToFind(r.lifecycle, []);
    if list != [] {
      FilterFollowsTurns(r.lifecycle, list, turns);
      ReportsChangeNothing(R.Opening(r.lifecycle, list), FilterMoves(r.lifecycle, list, turns), ReportsIn(turns(|list|)));
    }
  }

  // ---------------------------------------------------------------- reading

  lemma QuietSelf(s: W.System)
    ensures Quiet(s, s)
  {
    Runs.ReachesSelf(W.Next, s);
  }

  /** A step that tells nobody anything. */
  lemma QuietStep(origin: Option<R.Lifecycle>, before: W.System, s: W.System, step: W.Step)
    requires W.Reachable(origin, s) && Quiet(before, s) && W.Next(s, step).Some?
    requires var s' := W.Next(s, step).value; s'.watchers == s.watchers && s'.listed == s.listed && s'.log == s.log
    ensures var s' := W.Next(s, step).value; W.Reachable(origin, s') && Quiet(before, s')
  {
    Runs.ReachesStep(W.Next, W.Start(origin), s, step);
    Runs.ReachesStep(W.Next, before, s, step);
  }

  lemma ReadAdvances(origin: Option<R.Lifecycle>, before: W.System, s: W.System)
    requires W.Reachable(origin, s) && Quiet(before, s) && s.phase.Reading? && s.phase.todo != []
    ensures var s' := W.Next(s, W.ReadNext).value; W.Reachable(origin, s') && Quiet(before, s')
  {
    QuietStep(origin, before, s, W.ReadNext);
  }

  lemma AskBegins(origin: Option<R.Lifecycle>, s: W.System, t: string, minVersion: string)
    requires W.Reachable(origin, s) && s.phase == W.Idle
    ensures var s' := s.(phase := W.Begin(s.registry, W.ForSelection(minVersion), t, R.Demanded(s.registry, t, minVersion)));
            W.Reachable(origin, s') && Quiet(s, s')
  {
    QuietSelf(s);
    QuietStep(origin, s, s, W.Ask(t, minVersion));
  }

  lemma JoinBegins(origin: Option<R.Lifecycle>, s: W.System, w: nat, t: string)
    requires W.Reachable(origin, s) && s.phase == W.Idle && w !in s.watchers
    ensures var s' := s.(phase := W.Begin(s.registry, W.ForNewcomer(w), t, R.ProvidersOf(s.registry, t)));
            W.Reachable(origin, s') && Quiet(s, s')
  {
    QuietSelf(s);
    QuietStep(origin, s, s, W.Join(w, t));
  }

  /** A change of the providers begins the building of its event. */
  lemma ChangeBegins(origin: Option<R.Lifecycle>, s: W.System, op: R.Op)
    requires W.Reachable(origin, s) && s.phase == W.Idle && W.Concerned(s.registry, op).Some?
    requires op.Register? ==> op.provider.registrationID !in s.registry.registrations
    ensures var r, t := R.Apply(s.registry, op), W.Concerned(s.registry, op).value;
            var s' := s.(registry := r, phase := W.Begin(r, W.ForAnnouncement, t, R.ProvidersOf(r, t)));
            W.Reachable(origin, s') && Quiet(s, s')
  {
    QuietSelf(s);
    QuietStep(origin, s, s, W.Change(op));
  }

  lemma AnswerEnds(origin: Option<R.Lifecycle>, before: W.System, s: W.System)
    requires W.Reachable(origin, s) && Quiet(before, s) && W.DoneReading(s) && s.phase.purpose.ForSelection?
    ensures var s' := s.(phase := W.Idle, registry := R.AfterPick(s.registry, s.phase.serviceType, s.phase.kept));
            W.Reachable(origin, s') && Quiet(before, s')
  {
    QuietStep(origin, before, s, W.Answer);
  }

  /** The result and the registry after a selection, from what its reads have left. */
  lemma ChoiceMade(r: R.Registry, t: string, minVersion: string, turns: nat -> seq<Turn>, lifecycle: Option<R.Lifecycle>,
                   available: seq<R.ServiceProvider>, random: nat)
    requires ReadIn(r.lifecycle, R.Demanded(r, t, minVersion), ChoiceMoves(r, t, minVersion, turns), lifecycle, available)
    ensures ChosenIn(r, t, minVersion, random, turns, R.Pick(r, t, minVersion, available, random),
                     R.AfterPick(r.(lifecycle := lifecycle), t, available))
  {
  }

  /** From `before` on, the initial event of `t` was built while others took their turns and put into the channel
      of the new watcher, in a run of the protocol in which nobody else was listed or told anything. */
  ghost predicate JoinedIn(before: W.System, w: nat, t: string, turns: nat -> seq<Turn>, after: W.System) {
    && Runs.Reaches(W.Next, before, after)
    && w in after.watchers
    && MadeIn(before.registry, t, turns, after.watchers[w].initial, after.registry)
    && after.watchers[w] == W.Newcomer(t, after.watchers[w].initial, |W.LogOf(before, t)|)
    && after.log == before.log
    && after.listed == before.listed[t := W.Listed(before, t) + [w]]
    && NothingTold(before.watchers, after.watchers - {w})
  }

  lemma WatchEnds(origin: Option<R.Lifecycle>, before: W.System, s: W.System, w: nat, t: string, turns: nat -> seq<Turn>)
    requires W.Reachable(origin, s) && Quiet(before, s) && w !in before.watchers
    requires W.DoneReading(s) && s.phase.purpose == W.ForNewcomer(w) && s.phase.serviceType == t
    requires MadeIn(before.registry, t, turns, W.EventMade(s), s.registry)
    ensures W.Next(s, W.Watch).Some?
    ensures W.Reachable(origin, W.Next(s, W.Watch).value) && JoinedIn(before, w, t, turns, W.Next(s, W.Watch).value)
  {
    Runs.ReachesStep(W.Next, W.Start(origin), s, W.Watch);
    Runs.ReachesStep(W.Next, before, s, W.Watch);
    assert (s.watchers[w := W.Newcomer(t, W.EventMade(s), |W.LogOf(s, t)|)] - {w}).Keys == before.watchers.Keys;
  }

  /** Reports change nothing of a filtering but the health states that it will read. */
  lemma {:induction false} ReportsChangeNothing(x: R.Scan, moves: seq<R.Move>, reports: seq<R.Move>)
    requires OnlyReports(reports)
    ensures var y := R.Scanned(x, moves);
            R.Scanned(x, moves + reports) == y.(lifecycle := R.HealthAfter(y.lifecycle, reports))
  {
    if reports == [] {
      assert moves + reports == moves;
    } else {
      var front, last := reports[..|reports| - 1], reports[|reports| - 1];
      ReportsChangeNothing(x, moves, front);
      assert moves + reports == (moves + front) + [last];
      R.ScanOneMore(x, moves + front, last);
    }
  }

  lemma ReadAfterReports(x: R.Scan, moves: seq<R.Move>, reports: seq<R.Move>)
    requires OnlyReports(reports)
    ensures var y := R.Scanned(x, moves);
            R.Scanned(x, moves + reports + [R.Read]) == R.Moved(y.(lifecycle := R.HealthAfter(y.lifecycle, reports)), R.Read)
  {
    ReportsChangeNothing(x, moves, reports);
    R.ScanOneMore(x, moves + reports, R.Read);
  }

  /** Reports after the last read only matter for the last look at the first provider's state. */
  lemma ReadInGoesOn(lifecycle0: Option<R.Lifecycle>, list: seq<R.ServiceProvider>, moves: seq<R.Move>,
                     lifecycle: Option<R.Lifecycle>, available: seq<R.ServiceProvider>, reports: seq<R.Move>)
    requires ReadIn(lifecycle0, list, moves, lifecycle, available) && OnlyReports(reports)
    ensures ReadIn(lifecycle0, list, moves + reports, R.HealthAfter(lifecycle, reports), available)
  {
    ReportsChangeNothing(R.Opening(lifecycle0, list), moves, reports);
    R.ScanFollowsHealth(R.Opening(lifecycle0, list), moves + reports);
  }

  // ---------------------------------------------------------------- notifying

  lemma NotifyBegins(origin: Option<R.Lifecycle>, before: W.System, s: W.System)
    requires W.Reachable(origin, s) && Quiet(before, s) && W.DoneReading(s) && s.phase.purpose == W.ForAnnouncement
    ensures var s' := W.Next(s, W.Announce).value;
            W.Reachable(origin, s') && Progress(before, s', [], W.EventMade(s))
  {
    Runs.ReachesStep(W.Next, W.Start(origin), s, W.Announce);
    Runs.ReachesStep(W.Next, before, s, W.Announce);
  }

  lemma OfferAdvances(origin: Option<R.Lifecycle>, before: W.System, s: W.System, told: seq<nat>)
    requires W.Reachable(origin, s) && s.phase.Notifying? && s.phase.pending != []
    requires Progress(before, s, told, s.phase.event) && s.phase.pending[0] !in told
    ensures W.Next(s, W.Offer).Some?
    ensures W.Reachable(origin, W.Next(s, W.Offer).value)
    ensures Progress(before, W.Next(s, W.Offer).value, told + [s.phase.pending[0]], s.phase.event)
  {
    W.ReachableSatisfiesInvariant(origin, s);
    W.OfferIsSafe(s);
    OfferTellsOne(before.watchers, s, told);
    Runs.ReachesStep(W.Next, W.Start(origin), s, W.Offer);
    Runs.ReachesStep(W.Next, before, s, W.Offer);
  }

  lemma OfferTellsOne(ws: map<nat, W.Watcher>, s: W.System, told: seq<nat>)
    requires W.Next(s, W.Offer).Some? && ToldOnce(ws, s.watchers, told, s.phase.event) && s.phase.pending[0] !in told
    ensures ToldOnce(ws, W.Next(s, W.Offer).value.watchers, told + [s.phase.pending[0]], s.phase.event)
  {
  }

  /** A full channel is skipped. */
  function OfferedTo(x: Stream, e: R.Event): Stream {
    if |x.queue| < W.CAPACITY then x.(queue := x.queue + [e]) else x
  }

  lemma TurnKeepsProgress(before: W.System, s: W.System, s': W.System, told: seq<nat>, e: R.Event)
    requires Progress(before, s, told, e)
    requires Runs.Reaches(W.Next, s, s') && NothingTold(s.watchers, s'.watchers)
    ensures Progress(before, s', told, e)
  {
    Runs.ReachesTransitive(W.Next, before, s, s');
  }

  lemma NotifyEnds(origin: Option<R.Lifecycle>, before: W.System, s: W.System, t: string, e: R.Event)
    requires W.Reachable(origin, s) && s.phase == W.Notifying(t, e, []) && Progress(before, s, W.Listed(before, t), e)
    ensures W.Reachable(origin, s.(phase := W.Idle)) && Progress(before, s.(phase := W.Idle), W.Listed(before, t), e)
  {
    Runs.ReachesStep(W.Next, W.Start(origin), s, W.Release);
    Runs.ReachesStep(W.Next, before, s, W.Release);
  }

  /** A notification from the building of its event to the release of the lock. */
  lemma IsHeard(before: W.System, t: string, e: R.Event, start: R.Registry, turns: nat -> seq<Turn>, made: R.Registry,
                after: W.System, n: nat)
    requires MadeIn(start, t, turns, e, made) && n == |R.ProvidersOf(start, t)|
    requires after.registry == made.(lifecycle := after.registry.lifecycle)
    requires ReportedSoFar(made.lifecycle, Later(turns, n + 1), |W.Listed(before, t)| + 1, after.registry.lifecycle)
    requires Progress(before, after, W.Listed(before, t), e)
    requires after.listed == before.listed && after.log == before.log[t := W.LogOf(before, t) + [e]]
    ensures Heard(before, t, start, turns, after)
  {
  }

  lemma TiedUpdate(streams: map<nat, Stream>, watchers: map<nat, W.Watcher>, w: nat, v: W.Watcher)
    requires Tied(streams, watchers)
    ensures Tied(streams[w := StreamOf(v)], watchers[w := v])
  {
  }

  lemma NextListed(toNotify: seq<nat>, i: nat)
    requires i < |toNotify| && WatcherLists.Distinct(toNotify)
    ensures toNotify[i..] != [] && toNotify[i..][0] == toNotify[i] && toNotify[i] !in toNotify[..i]
    ensures toNotify[i..][1..] == toNotify[i + 1..] && toNotify[..i + 1] == toNotify[..i] + [toNotify[i]]
  {
  }

  lemma WholeList(toNotify: seq<nat>)
    ensures toNotify[0..] == toNotify && toNotify[..0] == [] && toNotify[..|toNotify|] == toNotify && toNotify[|toNotify|..] == []
  {
  }

  lemma ListedOnce(origin: Option<R.Lifecycle>, s: W.System, t: string)
    requires W.Reachable(origin, s)
    ensures WatcherLists.Distinct(W.Listed(s, t))
  {
    W.ReachableSatisfiesInvariant(origin, s);
    assert W.ListOk(s, t);
  }

  /** Only the list of its own type holds a registration. */
  lemma OtherListsUnaffected(r: R.Registry, id: string)
    requires R.Agrees(r) && id in r.registrations
    ensures forall t :: t in r.providers && t != r.registrations[id].serviceType ==>
              R.Keep(r.providers[t], R.NotRegisteredAs({id})) == r.providers[t]
  {
    forall t | t in r.providers && t != r.registrations[id].serviceType
      ensures R.Keep(r.providers[t], R.NotRegisteredAs({id})) == r.providers[t]
    {
      assert R.ListAgrees(r, t);
      R.KeepAll(r.providers[t], R.NotRegisteredAs({id}));
    }
  }

  lemma OtherEntriesUnaffected(r: R.Registry, id: string)
    requires R.Agrees(r) && id in r.registrations
    ensures R.Filtered(r, R.NotRegisteredAs({id})).registrations == r.registrations - {id}
  {
    forall x | x in r.registrations ensures r.registrations[x].registrationID == x { assert R.EntryAgrees(r, x); }
  }

  /** Splicing a registration out of both indexes is unregistering it, and keeps them agreed. */
  lemma SplicedOut(r: R.Registry, id: string, t: string, list: seq<R.ServiceProvider>, i: nat)
    requires R.Agrees(r) && id in r.registrations
    requires t == r.registrations[id].serviceType && list == R.ProvidersOf(r, t)
    requires i < |list| && list[i].registrationID == id
    ensures r.(providers := r.providers[t := list[..i] + list[i + 1..]], registrations := r.registrations - {id})
         == R.Unregistered(r, id)
    ensures R.Agrees(R.Unregistered(r, id))
  {
    assert R.ListAgrees(r, t);
    R.SpliceIsKeep(list, i);
    OtherListsUnaffected(r, id);
    OtherEntriesUnaffected(r, id);
    R.FilterKeepsAgreement(r, R.NotRegisteredAs({id}));
  }

  lemma FilterNothing(r: R.Registry)
    ensures R.Filtered(r, R.NotRegisteredAs({})) == r
  {
    forall t | t in r.providers ensures R.Keep(r.providers[t], R.NotRegisteredAs({})) == r.providers[t] {
      R.KeepAll(r.providers[t], R.NotRegisteredAs({}));
    }
  }

  lemma FilterTwice(r: R.Registry, a: set<string>, b: set<string>)
    ensures R.Filtered(R.Filtered(r, R.NotRegisteredAs(a)), R.NotRegisteredAs(b)) == R.Filtered(r, R.NotRegisteredAs(a + b))
  {
    forall t | t in r.providers
      ensures R.Keep(R.Keep(r.providers[t], R.NotRegisteredAs(a)), R.NotRegisteredAs(b)) == R.Keep(r.providers[t], R.NotRegisteredAs(a + b))
    {
      R.KeepTwice(r.providers[t], a, b);
    }
  }

  /** The registrations of one plugin. */
  ghost predicate IDsOf(r: R.Registry, runtimeID: string, ids: set<string>) {
    forall id :: id in ids <==> id in r.registrations && r.registrations[id].runtimeID == runtimeID
  }

  lemma FilterListByPlugin(r: R.Registry, runtimeID: string, ids: set<string>, t: string)
    requires R.ListAgrees(r, t) && IDsOf(r, runtimeID, ids)
    ensures R.Keep(R.ProvidersOf(r, t), R.NotRegisteredAs(ids)) == R.Keep(R.ProvidersOf(r, t), R.NotOfPlugin(runtimeID))
  {
    R.KeepSame(R.ProvidersOf(r, t), R.NotRegisteredAs(ids), R.NotOfPlugin(runtimeID));
  }

  lemma FilterEntryByPlugin(r: R.Registry, runtimeID: string, ids: set<string>, id: string)
    requires R.EntryAgrees(r, id) && IDsOf(r, runtimeID, ids) && id in r.registrations
    ensures R.Meets(r.registrations[id], R.NotRegisteredAs(ids)) <==> R.Meets(r.registrations[id], R.NotOfPlugin(runtimeID))
  {
  }

  /** Dropping all the registrations of a plugin is filtering every list by the plugin. */
  lemma FilterByPlugin(r: R.Registry, runtimeID: string, ids: set<string>)
    requires R.Agrees(r) && IDsOf(r, runtimeID, ids)
    ensures R.Filtered(r, R.NotRegisteredAs(ids)) == R.PluginUnregistered(r, runtimeID)
  {
    forall t | t in r.providers
      ensures R.Keep(r.providers[t], R.NotRegisteredAs(ids)) == R.Keep(r.providers[t], R.NotOfPlugin(runtimeID))
    {
      assert R.ListAgrees(r, t);
      FilterListByPlugin(r, runtimeID, ids, t);
    }
    forall id | id in r.registrations
      ensures R.Meets(r.registrations[id], R.NotRegisteredAs(ids)) <==> R.Meets(r.registrations[id], R.NotOfPlugin(runtimeID))
    {
      assert R.EntryAgrees(r, id);
      FilterEntryByPlugin(r, runtimeID, ids, id);
    }
  }
}
