/** Watching a service: the registry, and bounded channels that are written under its lock and read
    without it, as a state machine whose steps may interleave in any order. */
module ServiceWatch {
  import opened Wrappers
  import opened Ordering
  import opened Registry
  import opened Streams
  import opened WatcherLists
  import Runs

  const CAPACITY: nat := 10

  /** Where a `WatchService` call is: in its loop, on its way out, past the first half of its
      cleanup, or past the second. */
  datatype Stage = Streaming | Leaving | Unlisted | Closed

  /** One `WatchService` call: its channel, the event it has taken from there and not sent yet, and
      its history: the initial event, how much of the type's log precedes its registration, every
      event put or offered to it, what it has sent, and how many offers found the channel full. */
  datatype Watcher = Watcher(
    serviceType: string, queue: seq<Event>, inHand: Option<Event>, stage: Stage,
    initial: Event, since: nat, emitted: seq<Event>, delivered: seq<Event>, missed: nat)

  /** What a list of providers is read for: an event to announce after a change, the initial event of
      a new watcher, or a selection. */
  datatype Purpose = ForAnnouncement | ForNewcomer(watcher: nat) | ForSelection(minVersion: string)

  /** Who holds the lock: nobody; a reader with providers left `todo`, which has `kept` those found
      routable; or a notifier that has `pending` watchers left to offer to. */
  datatype Phase =
    | Idle
    | Reading(purpose: Purpose, serviceType: string, todo: seq<ServiceProvider>, kept: seq<ServiceProvider>)
    | Notifying(serviceType: string, event: Event, pending: seq<nat>)

  /** `log` holds the events announced for each type. */
  datatype System = System(
    registry: Registry, listed: map<string, seq<nat>>, watchers: map<nat, Watcher>,
    phase: Phase, log: map<string, seq<Event>>)

  function Start(lifecycle: Option<Lifecycle>): System {
    System(Registry(map[], map[], map[], map[], lifecycle), map[], map[], Idle, map[])
  }

  datatype Step =
    | Change(op: Op)
    | Write(provider: ServiceProvider)
    | Join(watcher: nat, serviceType: string)
    | Ask(serviceType: string, minVersion: string)
    | ReadNext
    | Announce
    | Watch
    | Answer
    | Offer
    | Release
    | Take(watcher: nat)
    | Send(watcher: nat)
    | FailSend(watcher: nat)
    | Cancel(watcher: nat)
    | Unlist(watcher: nat)
    | Close(watcher: nat)

  function Listed(s: System, t: string): seq<nat> {
    GetOr(s.listed, t, [])
  }

  function LogOf(s: System, t: string): seq<Event> {
    GetOr(s.log, t, [])
  }

  /** The type whose watchers hear of the operation, if any do. */
  function Concerned(r: Registry, op: Op): Option<string> {
    match op
    case Register(p) => Some(p.serviceType)
    case Unregister(id) => if id in r.registrations then Some(r.registrations[id].serviceType) else None
    case _ => None
  }

  function Newcomer(t: string, e: Event, since: nat): Watcher {
    Watcher(t, [e], None, Streaming, e, since, [e], [], 0)
  }

  /** A send with a default branch: a full channel is skipped. */
  function Offered(v: Watcher, e: Event): Watcher {
    var v' := v.(emitted := v.emitted + [e]);
    if |v.queue| < CAPACITY then v'.(queue := v.queue + [e]) else v'.(missed := v.missed + 1)
  }

  function Taken(v: Watcher): Watcher
    requires v.queue != []
  {
    v.(queue := v.queue[1..], inHand := Some(v.queue[0]))
  }

  function Sent(v: Watcher): Watcher
    requires v.inHand.Some?
  {
    v.(inHand := None, delivered := v.delivered + [v.inHand.value])
  }

  /** A reader sets out on a list. */
  function Begin(r: Registry, purpose: Purpose, t: string, list: seq<ServiceProvider>): Phase {
    var x := Opening(r.lifecycle, list);
    Reading(purpose, t, x.todo, x.kept)
  }

  /** The event that the reader makes of what it has kept. */
  function EventMade(s: System): Event
    requires s.phase.Reading?
  {
    EventOf(s.phase.serviceType, s.phase.kept, s.registry.lifecycle)
  }

  predicate DoneReading(s: System) {
    s.phase.Reading? && s.phase.todo == []
  }

  /** `None` when the step cannot happen in this state. Health reports do not take the lock; a selection
      is not one change, but is asked for, read for and made; registration IDs are fresh. */
  function Next(s: System, step: Step): Option<System> {
    match step
    case Change(op) =>
      if op.ReportHealth? then Some(s.(registry := Apply(s.registry, op)))
      else if s.phase != Idle || op.Select? || (op.Register? && op.provider.registrationID in s.registry.registrations) then None
      else
        var t, r := Concerned(s.registry, op), Apply(s.registry, op);
        Some(s.(registry := r, phase := if t.Some? then Begin(r, ForAnnouncement, t.value, ProvidersOf(r, t.value)) else Idle))
    case Write(p) =>
      if s.phase != Idle || p.registrationID in s.registry.registrations then None
      else Some(s.(registry := Registered(s.registry, p)))
    case Join(w, t) =>
      if s.phase != Idle || w in s.watchers then None
      else Some(s.(phase := Begin(s.registry, ForNewcomer(w), t, ProvidersOf(s.registry, t))))
    case Ask(t, minVersion) =>
      if s.phase != Idle then None
      else Some(s.(phase := Begin(s.registry, ForSelection(minVersion), t, Demanded(s.registry, t, minVersion))))
    case ReadNext =>
      if !s.phase.Reading? || s.phase.todo == [] then None
      else
        var x := Moved(Scan(s.registry.lifecycle, s.phase.todo, s.phase.kept), Read);
        Some(s.(phase := s.phase.(todo := x.todo, kept := x.kept)))
    case Announce =>
      if !DoneReading(s) || !s.phase.purpose.ForAnnouncement? then None
      else
        var t, e := s.phase.serviceType, EventMade(s);
        Some(s.(phase := Notifying(t, e, Listed(s, t)), log := s.log[t := LogOf(s, t) + [e]]))
    case Watch =>
      if !DoneReading(s) || !s.phase.purpose.ForNewcomer? || s.phase.purpose.watcher in s.watchers then None
      else
        var t, w := s.phase.serviceType, s.phase.purpose.watcher;
        Some(s.(phase := Idle,
                listed := s.listed[t := Listed(s, t) + [w]],
                watchers := s.watchers[w := Newcomer(t, EventMade(s), |LogOf(s, t)|)]))
    case Answer =>
      if !DoneReading(s) || !s.phase.purpose.ForSelection? then None
      else Some(s.(phase := Idle, registry := AfterPick(s.registry, s.phase.serviceType, s.phase.kept)))
    case Offer =>
      if !s.phase.Notifying? || s.phase.pending == [] || s.phase.pending[0] !in s.watchers then None
      else
        var w := s.phase.pending[0];
        Some(s.(watchers := s.watchers[w := Offered(s.watchers[w], s.phase.event)],
                phase := s.phase.(pending := s.phase.pending[1..])))
    case Release =>
      if !s.phase.Notifying? || s.phase.pending != [] then None else Some(s.(phase := Idle))
    case Take(w) =>
      if w !in s.watchers || s.watchers[w].stage != Streaming || s.watchers[w].inHand.Some? || s.watchers[w].queue == [] then None
      else Some(s.(watchers := s.watchers[w := Taken(s.watchers[w])]))
    case Send(w) =>
      if w !in s.watchers || s.watchers[w].stage != Streaming || s.watchers[w].inHand.None? then None
      else Some(s.(watchers := s.watchers[w := Sent(s.watchers[w])]))
    case FailSend(w) =>
      if w !in s.watchers || s.watchers[w].stage != Streaming || s.watchers[w].inHand.None? then None
      else Some(s.(watchers := s.watchers[w := s.watchers[w].(stage := Leaving)]))
    case Cancel(w) =>
      if w !in s.watchers || s.watchers[w].stage != Streaming || s.watchers[w].inHand.Some? then None
      else Some(s.(watchers := s.watchers[w := s.watchers[w].(stage := Leaving)]))
    case Unlist(w) =>
      if s.phase != Idle || w !in s.watchers || s.watchers[w].stage != Leaving then None
      else
        var t := s.watchers[w].serviceType;
        Some(s.(listed := s.listed[t := Without(Listed(s, t), w)],
                watchers := s.watchers[w := s.watchers[w].(stage := Unlisted)]))
    case Close(w) =>
      if w !in s.watchers || s.watchers[w].stage != Unlisted then None
      else Some(s.(watchers := s.watchers[w := s.watchers[w].(stage := Closed)]))
  }

  function Exec(s: System, steps: seq<Step>): Option<System> {
    Runs.Exec(Next, s, steps)
  }

  // ---------------------------------------------------------------- the invariant

  function Hand(v: Watcher): seq<Event> {
    if v.inHand.Some? then [v.inHand.value] else []
  }

  /** What has come through the channel or is still in it. */
  function Had(v: Watcher): seq<Event> {
    v.delivered + Hand(v) + v.queue
  }

  /** A watcher has received and holds an in-order selection of what was emitted to it, from the
      initial event on, which lacks nothing but the offers that found its channel full. */
  ghost predicate Faithful(v: Watcher) {
    && |v.queue| <= CAPACITY
    && Subsequence(Had(v), v.emitted)
    && Had(v) != [] && v.emitted != [] && Had(v)[0] == v.emitted[0] == v.initial
    && |Had(v)| + v.missed == |v.emitted|
    && (v.missed == 0 ==> Had(v) == v.emitted)
  }

  /** Everything there was to tell the watcher: the initial event, and every announcement since. */
  ghost function Due(v: Watcher, log: seq<Event>): seq<Event> {
    [v.initial] + if v.since <= |log| then log[v.since..] else []
  }

  ghost predicate Awaiting(s: System, w: nat) {
    s.phase.Notifying? && w in s.phase.pending
  }

  /** The announcements that have been offered to everybody concerned but those still awaiting. */
  ghost function ToldOf(s: System, w: nat): seq<Event>
    requires w in s.watchers
  {
    var log := LogOf(s, s.watchers[w].serviceType);
    if Awaiting(s, w) && log != [] then log[..|log| - 1] else log
  }

  ghost predicate Open(v: Watcher) {
    v.stage == Streaming || v.stage == Leaving
  }

  /** The watcher is listed until it leaves, has been told everything until then, and has been told
      nothing but what was announced. */
  ghost predicate WatcherOk(s: System, w: nat) {
    w in s.watchers ==>
      var v := s.watchers[w];
      && v.since <= |LogOf(s, v.serviceType)|
      && (Awaiting(s, w) ==> v.since < |LogOf(s, v.serviceType)|)
      && (Open(v) <==> w in Listed(s, v.serviceType))
      && v.emitted <= Due(v, LogOf(s, v.serviceType))
      && (Open(v) ==> v.emitted == Due(v, ToldOf(s, w)))
  }

  ghost predicate ListOk(s: System, t: string) {
    && Distinct(Listed(s, t))
    && forall w :: w in Listed(s, t) ==> w in s.watchers && s.watchers[w].serviceType == t
  }

  ghost predicate PhaseOk(s: System) {
    s.phase.Notifying? ==>
      var t, e, pending := s.phase.serviceType, s.phase.event, s.phase.pending;
      && Distinct(pending) && (forall w :: w in pending ==> w in Listed(s, t))
      && LogOf(s, t) != [] && LogOf(s, t)[|LogOf(s, t)| - 1] == e
  }

  ghost predicate Invariant(s: System) {
    && (forall w {:trigger Faithful(s.watchers[w])} :: w in s.watchers ==> Faithful(s.watchers[w]))
    && (forall w {:trigger WatcherOk(s, w)} :: WatcherOk(s, w))
    && (forall t {:trigger ListOk(s, t)} :: ListOk(s, t))
    && PhaseOk(s)
  }

  lemma StartSatisfiesInvariant(lifecycle: Option<Lifecycle>)
    ensures Invariant(Start(lifecycle))
  {
    var s := Start(lifecycle);
    forall t {:trigger ListOk(s, t)} ensures ListOk(s, t) {}
  }

  // ---------------------------------------------------------------- one watcher

  lemma OfferedIsFaithful(v: Watcher, e: Event)
    requires Faithful(v)
    ensures Faithful(Offered(v, e))
  {
    if |v.queue| < CAPACITY {
      SubsequenceTake(Had(v), v.emitted, e);
      assert Had(Offered(v, e)) == Had(v) + [e];
    } else {
      SubsequenceSkip(Had(v), v.emitted, e);
    }
  }

  lemma TakenIsFaithful(v: Watcher)
    requires Faithful(v) && v.queue != [] && v.inHand.None?
    ensures Faithful(Taken(v))
  {
    assert v.queue == [v.queue[0]] + v.queue[1..];
    assert Had(Taken(v)) == Had(v);
  }

  lemma SentIsFaithful(v: Watcher)
    requires Faithful(v) && v.inHand.Some?
    ensures Faithful(Sent(v))
  {
    assert Had(Sent(v)) == Had(v);
  }

  lemma NewcomerIsFaithful(t: string, e: Event, since: nat)
    ensures Faithful(Newcomer(t, e, since))
  {
    SubsequenceReflexive([e]);
    assert Had(Newcomer(t, e, since)) == [e];
  }

  /** Nothing that concerns watcher `w` differs between the two states, its channel apart. */
  ghost predicate SameFor(s: System, s': System, w: nat) {
    && w in s.watchers && w in s'.watchers
    && var v, v' := s.watchers[w], s'.watchers[w];
    && v'.serviceType == v.serviceType && v'.initial == v.initial && v'.since == v.since && v'.emitted == v.emitted
    && (Open(v') <==> Open(v))
    && LogOf(s', v.serviceType) == LogOf(s, v.serviceType)
    && (w in Listed(s', v.serviceType) <==> w in Listed(s, v.serviceType))
    && (Awaiting(s', w) <==> Awaiting(s, w))
  }

  lemma StaysOk(s: System, s': System, w: nat)
    requires WatcherOk(s, w) && SameFor(s, s', w)
    ensures WatcherOk(s', w)
  {
  }

  // ---------------------------------------------------------------- each step keeps it

  /** Steps of one watcher's loop. */
  lemma ChannelStepKeeps(s: System, w: nat, v: Watcher)
    requires Invariant(s) && w in s.watchers && Faithful(v)
    requires SameFor(s, s.(watchers := s.watchers[w := v]), w)
    ensures Invariant(s.(watchers := s.watchers[w := v]))
  {
    var s' := s.(watchers := s.watchers[w := v]);
    forall x {:trigger WatcherOk(s', x)} ensures WatcherOk(s', x) {
      assert WatcherOk(s, x);
      if x in s.watchers { StaysOk(s, s', x); }
    }
    forall t {:trigger ListOk(s', t)} ensures ListOk(s', t) { assert ListOk(s, t); }
  }

  /** Steps that change the registry, or who holds the lock when nobody is awaiting anything. */
  lemma LockStepKeeps(s: System, r: Registry, phase: Phase)
    requires Invariant(s)
    requires phase == s.phase || (!phase.Notifying? && (s.phase.Notifying? ==> s.phase.pending == []))
    ensures Invariant(s.(registry := r, phase := phase))
  {
    var s' := s.(registry := r, phase := phase);
    forall x {:trigger WatcherOk(s', x)} ensures WatcherOk(s', x) {
      assert WatcherOk(s, x);
      if x in s.watchers { StaysOk(s, s', x); }
    }
    forall t {:trigger ListOk(s', t)} ensures ListOk(s', t) { assert ListOk(s, t); }
  }

  lemma DueGrows(v: Watcher, log: seq<Event>, e: Event)
    requires v.since <= |log|
    ensures Due(v, log + [e]) == Due(v, log) + [e]
  {
    assert (log + [e])[v.since..] == log[v.since..] + [e];
  }

  lemma AnnounceTellsOthers(s: System, x: nat)
    requires Next(s, Announce).Some? && WatcherOk(s, x) && x in s.watchers
    requires s.watchers[x].serviceType != s.phase.serviceType && ListOk(s, s.phase.serviceType)
    ensures WatcherOk(Next(s, Announce).value, x)
  {
    StaysOk(s, Next(s, Announce).value, x);
  }

  lemma AnnounceTellsConcerned(s: System, x: nat)
    requires Next(s, Announce).Some? && WatcherOk(s, x) && x in s.watchers
    requires s.watchers[x].serviceType == s.phase.serviceType
    ensures WatcherOk(Next(s, Announce).value, x)
  {
    var s', v := Next(s, Announce).value, s.watchers[x];
    var log, e := LogOf(s, v.serviceType), EventMade(s);
    assert LogOf(s', v.serviceType) == log + [e];
    assert (log + [e])[..|log|] == log;
    DueGrows(v, log, e);
    assert Awaiting(s', x) <==> Open(v);
  }

  lemma AnnounceKeeps(s: System)
    requires Invariant(s) && Next(s, Announce).Some?
    ensures Invariant(Next(s, Announce).value)
  {
    var s' := Next(s, Announce).value;
    assert ListOk(s, s.phase.serviceType);
    forall x {:trigger WatcherOk(s', x)} ensures WatcherOk(s', x) {
      assert WatcherOk(s, x);
      if x in s.watchers {
        if s.watchers[x].serviceType == s.phase.serviceType { AnnounceTellsConcerned(s, x); } else { AnnounceTellsOthers(s, x); }
      }
    }
    forall u {:trigger ListOk(s', u)} ensures ListOk(s', u) { assert ListOk(s, u); }
  }

  /** Offers go to listed watchers, whose channels are open: no send ever hits a closed one,
      and the notifier is never stuck. */
  lemma OfferIsSafe(s: System)
    requires Invariant(s) && s.phase.Notifying? && s.phase.pending != []
    ensures var w := s.phase.pending[0];
            && Next(s, Offer).Some? && Open(s.watchers[w]) && s.watchers[w].serviceType == s.phase.serviceType
  {
    assert s.phase.pending[0] in s.phase.pending;
    assert ListOk(s, s.phase.serviceType);
    assert WatcherOk(s, s.phase.pending[0]);
  }

  lemma TailMembers(pending: seq<nat>)
    requires pending != [] && Distinct(pending)
    ensures forall x :: x in pending[1..] <==> x in pending && x != pending[0]
    ensures Distinct(pending[1..])
  {
    assert pending == [pending[0]] + pending[1..];
  }

  /** The watcher that is next has been told everything but the event it is offered now. */
  lemma OfferTells(s: System)
    requires Invariant(s) && Next(s, Offer).Some?
    ensures WatcherOk(Next(s, Offer).value, s.phase.pending[0])
  {
    var s', w := Next(s, Offer).value, s.phase.pending[0];
    var v := s.watchers[w];
    var log := LogOf(s, v.serviceType);
    OfferIsSafe(s);
    TailMembers(s.phase.pending);
    assert w in s.phase.pending;
    assert WatcherOk(s, w);
    assert log[v.since..] == log[..|log| - 1][v.since..] + [s.phase.event];
  }

  lemma OfferKeeps(s: System)
    requires Invariant(s) && Next(s, Offer).Some?
    ensures Invariant(Next(s, Offer).value)
  {
    var s', w := Next(s, Offer).value, s.phase.pending[0];
    TailMembers(s.phase.pending);
    assert Faithful(s.watchers[w]);
    OfferedIsFaithful(s.watchers[w], s.phase.event);
    forall x {:trigger WatcherOk(s', x)} ensures WatcherOk(s', x) {
      assert WatcherOk(s, x);
      if x == w {
        OfferTells(s);
      } else if x in s.watchers {
        StaysOk(s, s', x);
      }
    }
    forall u {:trigger ListOk(s', u)} ensures ListOk(s', u) { assert ListOk(s, u); }
  }

  lemma NewcomerIsTold(s: System)
    requires Next(s, Watch).Some?
    ensures WatcherOk(Next(s, Watch).value, s.phase.purpose.watcher)
  {
  }

  lemma NewcomerIsListed(s: System, u: string)
    requires Next(s, Watch).Some? && ListOk(s, u)
    ensures ListOk(Next(s, Watch).value, u)
  {
    DistinctAppend(Listed(s, u), s.phase.purpose.watcher);
  }

  lemma NewcomerIsNoOther(s: System, x: nat)
    requires Next(s, Watch).Some? && WatcherOk(s, x) && x in s.watchers
    ensures WatcherOk(Next(s, Watch).value, x)
  {
    StaysOk(s, Next(s, Watch).value, x);
  }

  lemma WatchKeeps(s: System)
    requires Invariant(s) && Next(s, Watch).Some?
    ensures Invariant(Next(s, Watch).value)
  {
    var s' := Next(s, Watch).value;
    NewcomerIsFaithful(s.phase.serviceType, EventMade(s), |LogOf(s, s.phase.serviceType)|);
    NewcomerIsTold(s);
    forall x {:trigger WatcherOk(s', x)} ensures WatcherOk(s', x) {
      assert WatcherOk(s, x);
      if x in s.watchers { NewcomerIsNoOther(s, x); }
    }
    forall u {:trigger ListOk(s', u)} ensures ListOk(s', u) {
      assert ListOk(s, u);
      NewcomerIsListed(s, u);
    }
  }

  lemma UnlistedList(s: System, w: nat, u: string, x: nat)
    requires Next(s, Unlist(w)).Some? && ListOk(s, u) && ListOk(s, s.watchers[w].serviceType)
    ensures Distinct(Listed(Next(s, Unlist(w)).value, u))
    ensures x in Listed(Next(s, Unlist(w)).value, u) <==> x in Listed(s, u) && x != w
  {
    WithoutFacts(Listed(s, s.watchers[w].serviceType), w, x);
  }

  lemma UnlistKeeps(s: System, w: nat)
    requires Invariant(s) && Next(s, Unlist(w)).Some?
    ensures Invariant(Next(s, Unlist(w)).value)
  {
    var s' := Next(s, Unlist(w)).value;
    assert Faithful(s.watchers[w]) && Had(s'.watchers[w]) == Had(s.watchers[w]);
    assert ListOk(s, s.watchers[w].serviceType);
    forall x {:trigger WatcherOk(s', x)} ensures WatcherOk(s', x) {
      assert WatcherOk(s, x);
      if x in s.watchers {
        assert ListOk(s, s.watchers[x].serviceType);
        UnlistedList(s, w, s.watchers[x].serviceType, x);
        if x != w { StaysOk(s, s', x); }
      }
    }
    forall u {:trigger ListOk(s', u)} ensures ListOk(s', u) {
      assert ListOk(s, u);
      UnlistedList(s, w, u, w);
      forall x | x in Listed(s', u) ensures x in Listed(s, u) { UnlistedList(s, w, u, x); }
    }
  }

  lemma StepKeepsInvariant(s: System, step: Step)
    requires Invariant(s) && Next(s, step).Some?
    ensures Invariant(Next(s, step).value)
  {
    match step
    case Announce => AnnounceKeeps(s);
    case Offer => OfferKeeps(s);
    case Watch => WatchKeeps(s);
    case Unlist(w) => UnlistKeeps(s, w);
    case Take(_) => LoopStepKeeps(s, step);
    case Send(_) => LoopStepKeeps(s, step);
    case FailSend(_) => LoopStepKeeps(s, step);
    case Cancel(_) => LoopStepKeeps(s, step);
    case Close(_) => LoopStepKeeps(s, step);
    case _ => LockStepKeeps(s, Next(s, step).value.registry, Next(s, step).value.phase);
  }

  lemma LoopStepIsFaithful(s: System, step: Step)
    requires Next(s, step).Some?
    requires step.Take? || step.Send? || step.FailSend? || step.Cancel? || step.Close?
    requires Faithful(s.watchers[step.watcher])
    ensures Faithful(Next(s, step).value.watchers[step.watcher])
  {
    var v := s.watchers[step.watcher];
    if step.Take? {
      TakenIsFaithful(v);
    } else if step.Send? {
      SentIsFaithful(v);
    } else {
      assert Had(Next(s, step).value.watchers[step.watcher]) == Had(v);
    }
  }

  lemma LoopStepKeeps(s: System, step: Step)
    requires Invariant(s) && Next(s, step).Some?
    requires step.Take? || step.Send? || step.FailSend? || step.Cancel? || step.Close?
    ensures Invariant(Next(s, step).value)
  {
    assert Faithful(s.watchers[step.watcher]);
    LoopStepIsFaithful(s, step);
    ChannelStepKeeps(s, step.watcher, Next(s, step).value.watchers[step.watcher]);
  }

  lemma RunKeepsInvariant(s: System, steps: seq<Step>)
    requires Invariant(s) && Exec(s, steps).Some?
    ensures Invariant(Exec(s, steps).value)
  {
    forall x, step | Invariant(x) && Next(x, step).Some? ensures Invariant(Next(x, step).value) {
      StepKeepsInvariant(x, step);
    }
    Runs.RunKeeps(Next, Invariant, s, steps);
  }

  /** The system can get into this state. */
  ghost predicate Reachable(lifecycle: Option<Lifecycle>, s: System) {
    Runs.Reaches(Next, Start(lifecycle), s)
  }

  lemma ReachableSatisfiesInvariant(lifecycle: Option<Lifecycle>, s: System)
    requires Reachable(lifecycle, s)
    ensures Invariant(s)
  {
    var steps :| Runs.Exec(Next, Start(lifecycle), steps) == Some(s);
    StartSatisfiesInvariant(lifecycle);
    RunKeepsInvariant(Start(lifecycle), steps);
  }

  /** The two indexes of the registry agree throughout. */
  lemma StepKeepsAgreement(s: System, step: Step)
    requires Agrees(s.registry) && Next(s, step).Some?
    ensures Agrees(Next(s, step).value.registry)
  {
    match step
    case Change(op) => OpKeepsAgreement(s.registry, op);
    case Write(p) => RegisterKeepsAgreement(s.registry, p);
    case Answer => SameIndexesAgree(s.registry, Next(s, step).value.registry);
    case _ =>
  }

  lemma StartAgrees(lifecycle: Option<Lifecycle>)
    ensures Agrees(Start(lifecycle).registry)
  {
    var r := Start(lifecycle).registry;
    forall t {:trigger ListAgrees(r, t)} ensures ListAgrees(r, t) {}
  }

  lemma RunKeepsAgreed(s: System, steps: seq<Step>)
    requires Agrees(s.registry) && Exec(s, steps).Some?
    ensures Agrees(Exec(s, steps).value.registry)
  {
    var agreed := (x: System) => Agrees(x.registry);
    forall x, step | agreed(x) && Next(x, step).Some? ensures agreed(Next(x, step).value) {
      StepKeepsAgreement(x, step);
    }
    Runs.RunKeeps(Next, agreed, s, steps);
  }

  lemma ReachableAgrees(lifecycle: Option<Lifecycle>, s: System)
    requires Reachable(lifecycle, s)
    ensures Agrees(s.registry)
  {
    var steps :| Runs.Exec(Next, Start(lifecycle), steps) == Some(s);
    StartAgrees(lifecycle);
    RunKeepsAgreed(Start(lifecycle), steps);
  }

  // ---------------------------------------------------------------- what every run guarantees

  /** In every interleaving, what a watcher has sent is an in-order selection of the events emitted
      to it, beginning with the initial one; it lacks the event in hand, those in the channel, and
      one for each offer that found the channel full. What is emitted to it is the initial event and
      then every single announcement since its registration, as long as it is listed and the current
      notifier has come to it; and a beginning of that once it has left. */
  lemma DeliveriesAreFaithful(lifecycle: Option<Lifecycle>, steps: seq<Step>, w: nat)
    requires Exec(Start(lifecycle), steps).Some? && w in Exec(Start(lifecycle), steps).value.watchers
    ensures var s := Exec(Start(lifecycle), steps).value; var v := s.watchers[w]; var log := LogOf(s, v.serviceType);
            && InOrder(v.delivered, v.emitted)
            && (v.delivered != [] ==> v.delivered[0] == v.initial)
            && |v.delivered| + |Hand(v)| + |v.queue| + v.missed == |v.emitted|
            && (v.missed == 0 ==> v.delivered + Hand(v) + v.queue == v.emitted)
            && v.since <= |log|
            && v.emitted <= [v.initial] + log[v.since..]
            && (w in Listed(s, v.serviceType) && !Awaiting(s, w) ==> v.emitted == [v.initial] + log[v.since..])
            && (Awaiting(s, w) ==> v.since < |log| && v.emitted == [v.initial] + log[v.since..|log| - 1])
  {
    StartSatisfiesInvariant(lifecycle);
    RunKeepsInvariant(Start(lifecycle), steps);
    var s := Exec(Start(lifecycle), steps).value;
    var v := s.watchers[w];
    assert WatcherOk(s, w) && Faithful(v);
    assert Had(v) == v.delivered + (Hand(v) + v.queue);
    DropQueue(v.delivered, Hand(v) + v.queue, v.emitted);
    SubsequenceIsInOrder(v.delivered, v.emitted);
    if Awaiting(s, w) {
      var log := LogOf(s, v.serviceType);
      assert ListOk(s, s.phase.serviceType);
      assert log[..|log| - 1][v.since..] == log[v.since..|log| - 1];
    }
  }

  lemma {:induction false} DropQueue(a: seq<Event>, q: seq<Event>, b: seq<Event>)
    requires Subsequence(a + q, b)
    ensures Subsequence(a, b)
  {
    if q == [] {
      assert a + q == a;
    } else {
      assert a + q == (a + q[..|q| - 1]) + [q[|q| - 1]];
      SubsequenceDropLast(a + q[..|q| - 1], q[|q| - 1], b);
      DropQueue(a, q[..|q| - 1], b);
    }
  }

  /** In every interleaving the next offer goes to an open channel. */
  lemma SendsHitOpenChannels(lifecycle: Option<Lifecycle>, steps: seq<Step>)
    requires Exec(Start(lifecycle), steps).Some?
    ensures var s := Exec(Start(lifecycle), steps).value;
            s.phase.Notifying? && s.phase.pending != [] ==>
              s.phase.pending[0] in s.watchers && s.watchers[s.phase.pending[0]].stage != Closed
  {
    StartSatisfiesInvariant(lifecycle);
    RunKeepsInvariant(Start(lifecycle), steps);
    var s := Exec(Start(lifecycle), steps).value;
    if s.phase.Notifying? && s.phase.pending != [] { OfferIsSafe(s); }
  }

  /** In every interleaving, no more than ten events are pending for a watcher, and an offer is missed if and
      only if it finds just as many. */
  lemma MissedIffTenPending(lifecycle: Option<Lifecycle>, steps: seq<Step>)
    requires Exec(Start(lifecycle), steps).Some? && Next(Exec(Start(lifecycle), steps).value, Offer).Some?
    ensures var s := Exec(Start(lifecycle), steps).value; var w := s.phase.pending[0];
            var v, v' := s.watchers[w], Next(s, Offer).value.watchers[w];
            && |v.queue| <= 10
            && (v'.missed == v.missed + 1 <==> |v.queue| == 10)
            && v'.queue == if |v.queue| == 10 then v.queue else v.queue + [s.phase.event]
  {
    StartSatisfiesInvariant(lifecycle);
    RunKeepsInvariant(Start(lifecycle), steps);
    var s := Exec(Start(lifecycle), steps).value;
    assert Faithful(s.watchers[s.phase.pending[0]]);
  }

  /** The watcher has left its list, having been told just `emitted`. */
  ghost predicate Left(s: System, w: nat, emitted: seq<Event>) {
    w in s.watchers && !Open(s.watchers[w]) && s.watchers[w].emitted == emitted
  }

  lemma StepKeepsLeft(s: System, step: Step, w: nat, emitted: seq<Event>)
    requires Invariant(s) && Left(s, w, emitted) && Next(s, step).Some?
    ensures Left(Next(s, step).value, w, emitted)
  {
    if step.Offer? { OfferIsSafe(s); }
  }

  /** In every interleaving, a watcher that has left its list never gets back into one, and is never
      offered anything again. */
  lemma LeavingIsForGood(lifecycle: Option<Lifecycle>, steps: seq<Step>, later: seq<Step>, w: nat)
    requires Exec(Start(lifecycle), steps).Some?
    requires var s := Exec(Start(lifecycle), steps).value;
             w in s.watchers && w !in Listed(s, s.watchers[w].serviceType) && Exec(s, later).Some?
    ensures var s := Exec(Start(lifecycle), steps).value; var s' := Exec(s, later).value;
            && w in s'.watchers && s'.watchers[w].emitted == s.watchers[w].emitted
            && forall t :: w !in Listed(s', t)
  {
    StartSatisfiesInvariant(lifecycle);
    RunKeepsInvariant(Start(lifecycle), steps);
    var s := Exec(Start(lifecycle), steps).value;
    var emitted := s.watchers[w].emitted;
    assert WatcherOk(s, w);
    RunKeepsLeft(s, later, w, emitted);
    var s' := Exec(s, later).value;
    assert WatcherOk(s', w);
    forall t ensures w !in Listed(s', t) { assert ListOk(s', t); }
  }

  lemma RunKeepsLeft(s: System, steps: seq<Step>, w: nat, emitted: seq<Event>)
    requires Invariant(s) && Left(s, w, emitted) && Exec(s, steps).Some?
    ensures Invariant(Exec(s, steps).value) && Left(Exec(s, steps).value, w, emitted)
  {
    var keeps := (x: System) => Invariant(x) && Left(x, w, emitted);
    forall x, step | keeps(x) && Next(x, step).Some? ensures keeps(Next(x, step).value) {
      StepKeepsInvariant(x, step);
      StepKeepsLeft(x, step, w, emitted);
    }
    Runs.RunKeeps(Next, keeps, s, steps);
  }
}
