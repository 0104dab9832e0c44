/** What the events of a run of the watch protocol tell about the states that the registry went through
    while they were built. */
module AnnouncedEvents {
  import opened Wrappers
  import opened Ordering
  import opened Registry
  import opened EventBuilds
  import opened ServiceWatch
  import Runs

  // ---------------------------------------------------------------- builds within runs

  /** The list that the reader has set out on. */
  function ListRead(s: System): seq<ServiceProvider>
    requires s.phase.Reading?
  {
    if s.phase.purpose.ForSelection? then Demanded(s.registry, s.phase.serviceType, s.phase.purpose.minVersion)
    else ProvidersOf(s.registry, s.phase.serviceType)
  }

  /** A reading has just begun. */
  ghost predicate Begun(s: System) {
    s.phase.Reading? && s.phase == Begin(s.registry, s.phase.purpose, s.phase.serviceType, ListRead(s))
  }

  function MoveOf(step: Step): seq<Move> {
    if step.ReadNext? then [Read]
    else if step.Change? && step.op.ReportHealth? then [Report(step.op.runtimeID, step.op.health)]
    else []
  }

  /** The reads and the health reports among the steps from `b` to `m`. */
  function MovesBetween(steps: seq<Step>, b: int, m: int): seq<Move>
    requires 0 <= b <= m <= |steps|
    decreases m
  {
    if m == b then [] else MovesBetween(steps, b, m - 1) + MoveOf(steps[m - 1])
  }

  lemma {:induction false} MovesOfPrefix(steps: seq<Step>, n: nat, b: int, m: int)
    requires 0 <= b <= m <= n <= |steps|
    ensures MovesBetween(steps[..n], b, m) == MovesBetween(steps, b, m)
    decreases m
  {
    if m > b { MovesOfPrefix(steps, n, b, m - 1); }
  }

  /** What the moves make of the reading begun in `s0`. */
  function PhaseAfter(s0: System, moves: seq<Move>): Phase
    requires s0.phase.Reading?
  {
    var x := Scanned(Opening(s0.registry.lifecycle, ListRead(s0)), moves);
    Reading(s0.phase.purpose, s0.phase.serviceType, x.todo, x.kept)
  }

  function RegistryAfter(s0: System, moves: seq<Move>): Registry {
    s0.registry.(lifecycle := HealthAfter(s0.registry.lifecycle, moves))
  }

  /** The moves lead from the reading begun in `s0` to the one in `s`. */
  ghost predicate Underway(s0: System, s: System, moves: seq<Move>) {
    s0.phase.Reading? && s.phase == PhaseAfter(s0, moves) && s.registry == RegistryAfter(s0, moves)
  }

  lemma BegunIsUnderway(s: System)
    requires Begun(s)
    ensures Underway(s, s, [])
  {
  }

  /** What one more move does to a filtering and to the health states it reads. */
  lemma OneMoreMove(lifecycle: Option<Lifecycle>, list: seq<ServiceProvider>, moves: seq<Move>, move: Move)
    ensures var x := Scanned(Opening(lifecycle, list), moves);
            && x.lifecycle == HealthAfter(lifecycle, moves)
            && Scanned(Opening(lifecycle, list), moves + [move]) == Moved(x, move)
            && HealthAfter(lifecycle, moves + [move]) == Moved(x, move).lifecycle
  {
    ScanFollowsHealth(Opening(lifecycle, list), moves);
    ScanFollowsHealth(Opening(lifecycle, list), moves + [move]);
    ScanOneMore(Opening(lifecycle, list), moves, move);
  }

  /** While the reading goes on, the steps that are no moves are the watchers' own. */
  lemma OthersLeaveReading(s: System, step: Step)
    requires s.phase.Reading? && Next(s, step).Some? && Next(s, step).value.phase.Reading? && MoveOf(step) == []
    ensures Next(s, step).value.phase == s.phase && Next(s, step).value.registry == s.registry
  {
  }

  lemma MoveInReading(s: System, step: Step)
    requires s.phase.Reading? && Next(s, step).Some? && MoveOf(step) != []
    ensures var x := Moved(Scan(s.registry.lifecycle, s.phase.todo, s.phase.kept), MoveOf(step)[0]);
            && Next(s, step).value.phase == s.phase.(todo := x.todo, kept := x.kept)
            && Next(s, step).value.registry == s.registry.(lifecycle := x.lifecycle)
  {
  }

  /** While the reading goes on, nothing happens to it but moves. */
  lemma UnderwayStep(s0: System, s: System, s': System, moves: seq<Move>, step: Step)
    requires Underway(s0, s, moves) && Next(s, step) == Some(s') && s'.phase.Reading?
    ensures Underway(s0, s', moves + MoveOf(step))
  {
    if MoveOf(step) == [] {
      OthersLeaveReading(s, step);
      assert moves + [] == moves;
    } else {
      MoveInReading(s, step);
      OneMoreMove(s0.registry.lifecycle, ListRead(s0), moves, MoveOf(step)[0]);
    }
  }

  /** The steps between `b` and `m` belong to one reading, begun at `b`. */
  ghost predicate UnderwayBetween(s: System, steps: seq<Step>, b: int, m: int) {
    && 0 <= b <= m <= |steps| && Exec(s, steps[..b]).Some? && Exec(s, steps[..m]).Some?
    && Begun(Exec(s, steps[..b]).value)
    && Underway(Exec(s, steps[..b]).value, Exec(s, steps[..m]).value, MovesBetween(steps, b, m))
  }

  lemma UnderwayOneMore(s: System, steps: seq<Step>, b: int)
    requires steps != [] && Exec(s, steps).Some? && Exec(s, steps).value.phase.Reading?
    requires UnderwayBetween(s, steps, b, |steps| - 1)
    ensures UnderwayBetween(s, steps, b, |steps|)
  {
    var n := |steps| - 1;
    var s0, s1, s2 := Exec(s, steps[..b]).value, Exec(s, steps[..n]).value, Exec(s, steps).value;
    LastStepOf(s, steps, s1, s2);
    UnderwayStep(s0, s1, s2, MovesBetween(steps, b, n), steps[n]);
    BetweenStates(s, steps, b, |steps|, s0, s2);
  }

  lemma LastStepOf(s: System, steps: seq<Step>, s1: System, s2: System)
    requires steps != [] && Exec(s, steps[..|steps| - 1]) == Some(s1) && Exec(s, steps) == Some(s2)
    ensures Next(s1, steps[|steps| - 1]) == Some(s2) && Exec(s, steps[..|steps|]) == Some(s2)
  {
    Runs.LastStep(Next, s, steps);
    assert steps[..|steps|] == steps;
  }

  lemma BetweenStates(s: System, steps: seq<Step>, b: int, m: int, s0: System, s1: System)
    requires 0 <= b <= m <= |steps| && Exec(s, steps[..b]) == Some(s0) && Exec(s, steps[..m]) == Some(s1)
    requires Begun(s0) && Underway(s0, s1, MovesBetween(steps, b, m))
    ensures UnderwayBetween(s, steps, b, m)
  {
  }

  lemma UnderwayStays(s: System, steps: seq<Step>, n: nat, b: int, m: int)
    requires n <= |steps| && UnderwayBetween(s, steps[..n], b, m)
    ensures UnderwayBetween(s, steps, b, m)
  {
    assert steps[..n][..b] == steps[..b] && steps[..n][..m] == steps[..m];
    MovesOfPrefix(steps, n, b, m);
  }

  /** One reading has been going on since `b`. */
  ghost predicate UnderwaySince(s: System, steps: seq<Step>, b: int, k: int) {
    0 <= b <= k <= |steps| && forall m :: b <= m <= k ==> UnderwayBetween(s, steps, b, m)
  }

  lemma SinceOneMore(s: System, steps: seq<Step>, b: int)
    requires steps != [] && Exec(s, steps).Some? && Exec(s, steps).value.phase.Reading?
    requires UnderwaySince(s, steps[..|steps| - 1], b, |steps| - 1)
    ensures UnderwaySince(s, steps, b, |steps|)
  {
    var front := steps[..|steps| - 1];
    forall m | b <= m < |steps| ensures UnderwayBetween(s, steps, b, m) {
      assert UnderwayBetween(s, front, b, m);
      UnderwayStays(s, steps, |steps| - 1, b, m);
    }
    UnderwayOneMore(s, steps, b);
  }

  lemma StartsReading(s: System, step: Step)
    requires !s.phase.Reading? && Next(s, step).Some? && Next(s, step).value.phase.Reading?
    ensures Begun(Next(s, step).value)
  {
  }

  /** The reading that is under way after the first `k` steps is the one that step `b - 1` began: before that
      step nobody was reading, and since then this reading has been going on. */
  ghost predicate ReadingSince(s: System, steps: seq<Step>, b: int, k: int) {
    && 0 < b && UnderwaySince(s, steps, b, k)
    && Exec(s, steps[..b - 1]).Some? && !Exec(s, steps[..b - 1]).value.phase.Reading?
  }

  lemma ReadingBeganOnce(s: System, steps: seq<Step>, b: int, c: int, k: int)
    requires ReadingSince(s, steps, b, k) && ReadingSince(s, steps, c, k)
    ensures b == c
  {
    if b < c { ReadsThroughout(s, steps, b, k, c - 1); }
    if c < b { ReadsThroughout(s, steps, c, k, b - 1); }
  }

  lemma ReadsThroughout(s: System, steps: seq<Step>, b: int, k: int, m: int)
    requires UnderwaySince(s, steps, b, k) && b <= m <= k
    ensures Exec(s, steps[..m]).Some? && Exec(s, steps[..m]).value.phase.Reading?
  {
    assert UnderwayBetween(s, steps, b, m);
  }

  lemma SinceOfPrefix(s: System, steps: seq<Step>, n: nat, b: int, k: int)
    requires n <= |steps| && ReadingSince(s, steps[..n], b, k)
    ensures ReadingSince(s, steps, b, k)
  {
    forall m | b <= m <= k ensures UnderwayBetween(s, steps, b, m) {
      assert UnderwayBetween(s, steps[..n], b, m);
      UnderwayStays(s, steps, n, b, m);
    }
    assert steps[..n][..b - 1] == steps[..b - 1];
  }

  lemma JustBegun(s: System, steps: seq<Step>)
    requires steps != [] && Exec(s, steps[..|steps| - 1]).Some? && !Exec(s, steps[..|steps| - 1]).value.phase.Reading?
    requires Exec(s, steps).Some? && Exec(s, steps).value.phase.Reading?
    ensures ReadingSince(s, steps, |steps|, |steps|)
  {
    Runs.LastStep(Next, s, steps);
    StartsReading(Exec(s, steps[..|steps| - 1]).value, steps[|steps| - 1]);
    assert steps[..|steps|] == steps;
    BegunIsUnderway(Exec(s, steps).value);
  }

  /** Whoever is reading began at some step, and has been at it ever since. */
  lemma {:induction false} ReadingHasBegun(s: System, steps: seq<Step>) returns (b: nat)
    requires !s.phase.Reading? && Exec(s, steps).Some? && Exec(s, steps).value.phase.Reading?
    ensures ReadingSince(s, steps, b, |steps|)
    decreases |steps|
  {
    var front := steps[..|steps| - 1];
    Runs.LastStep(Next, s, steps);
    if Exec(s, front).value.phase.Reading? {
      b := ReadingHasBegun(s, front);
      SinceOfPrefix(s, steps, |front|, b, |front|);
      SinceOneMore(s, steps, b);
    } else {
      b := |steps|;
      JustBegun(s, steps);
    }
  }

  // ---------------------------------------------------------------- what a built event tells

  /** The event on `t` was made after the first `k` steps, by a reading that began after the first `b`. */
  ghost predicate Built(s: System, steps: seq<Step>, t: string, e: Event, b: int, k: int) {
    && UnderwaySince(s, steps, b, k) && Exec(s, steps[..k]).Some?
    && var s1 := Exec(s, steps[..k]).value;
    && DoneReading(s1) && !s1.phase.purpose.ForSelection? && s1.phase.serviceType == t && e == EventMade(s1)
  }

  /** The registry after the first `m` steps. */
  function RegistryAt(s: System, steps: seq<Step>, m: int): Registry
    requires 0 <= m <= |steps| && Exec(s, steps[..m]).Some?
  {
    Exec(s, steps[..m]).value.registry
  }

  /** What the event tells: what its reads found; the selection in the state it was made in, if no listed
      plugin reported during its building; and the selection in some state of its building, if health is
      not tracked or the list makes a single endpoint. */
  ghost predicate Tells(s: System, steps: seq<Step>, t: string, e: Event, b: int, k: int) {
    && 0 <= b <= k <= |steps| && (forall m :: b <= m <= k ==> Exec(s, steps[..m]).Some?)
    && var r, moves := RegistryAt(s, steps, b), MovesBetween(steps, b, k);
    && Builds(r, t, moves) && e == BuiltEvent(r, t, moves)
    && (r.lifecycle.Some? ==> TellsReads(r, t, moves, e))
    && (Undisturbed(ProvidersOf(r, t), moves) ==>
          e == ServiceEvent(RegistryAt(s, steps, k), t) && TellsSelection(RegistryAt(s, steps, k), t, e))
    && (r.lifecycle.None? || OneEndpoint(ProvidersOf(r, t)) ==>
          exists m :: b <= m <= k && TellsSelection(RegistryAt(s, steps, m), t, e))
  }

  /** Each of the moves is made at some step. */
  lemma {:induction false} StepOfMove(steps: seq<Step>, b: int, k: int, i: nat) returns (m: int)
    requires 0 <= b <= k <= |steps| && i <= |MovesBetween(steps, b, k)|
    ensures b <= m <= k && MovesBetween(steps, b, m) == MovesBetween(steps, b, k)[..i]
    decreases k - b
  {
    if i == |MovesBetween(steps, b, k)| {
      m := k;
    } else {
      m := StepOfMove(steps, b, k - 1, i);
      assert MovesBetween(steps, b, k - 1)[..i] == MovesBetween(steps, b, k)[..i];
    }
  }

  /** A built event as a matter of the moves alone. */
  lemma BuiltByMoves(s: System, steps: seq<Step>, t: string, e: Event, b: int, k: int)
    requires Built(s, steps, t, e, b, k)
    ensures UnderwayBetween(s, steps, b, b) && UnderwayBetween(s, steps, b, k)
    ensures var r, moves := RegistryAt(s, steps, b), MovesBetween(steps, b, k);
            && Builds(r, t, moves) && e == BuiltEvent(r, t, moves)
            && RegistryAt(s, steps, k) == r.(lifecycle := HealthAfter(r.lifecycle, moves))
  {
    assert UnderwayBetween(s, steps, b, k) && UnderwayBetween(s, steps, b, b);
  }

  /** The registry after each of the moves is that after some step. */
  lemma StateOfMove(s: System, steps: seq<Step>, b: int, k: int, i: nat) returns (m: int)
    requires UnderwaySince(s, steps, b, k) && Exec(s, steps[..b]).Some? && i <= |MovesBetween(steps, b, k)|
    ensures b <= m <= k && Exec(s, steps[..m]).Some?
    ensures RegistryAt(s, steps, m) == StateAt(RegistryAt(s, steps, b), MovesBetween(steps, b, k), i)
  {
    m := StepOfMove(steps, b, k, i);
    assert UnderwayBetween(s, steps, b, m);
  }

  /** With a single endpoint, or without health tracking, the selection of some moment is told. */
  lemma TellsSomeMoment(s: System, steps: seq<Step>, t: string, e: Event, b: int, k: int) returns (m: int)
    requires Built(s, steps, t, e, b, k) && Exec(s, steps[..b]).Some?
    requires var r := RegistryAt(s, steps, b); r.lifecycle.None? || OneEndpoint(ProvidersOf(r, t))
    ensures b <= m <= k && Exec(s, steps[..m]).Some? && TellsSelection(RegistryAt(s, steps, m), t, e)
  {
    var r, moves := RegistryAt(s, steps, b), MovesBetween(steps, b, k);
    BuiltByMoves(s, steps, t, e, b, k);
    EventTellsIff(r, t);
    assert TellsSomeState(r, t, moves, e);
    var i :| 0 <= i <= |moves| && TellsSelection(StateAt(r, moves, i), t, e);
    m := StateOfMove(s, steps, b, k, i);
  }

  lemma BuiltTells(s: System, steps: seq<Step>, t: string, e: Event, b: int, k: int)
    requires Built(s, steps, t, e, b, k)
    ensures Tells(s, steps, t, e, b, k)
  {
    BuiltByMoves(s, steps, t, e, b, k);
    forall m | b <= m <= k ensures Exec(s, steps[..m]).Some? { assert UnderwayBetween(s, steps, b, m); }
    var r, moves := RegistryAt(s, steps, b), MovesBetween(steps, b, k);
    if r.lifecycle.Some? { EventTellsReads(r, t, moves); }
    if Undisturbed(ProvidersOf(r, t), moves) {
      UndisturbedBuild(r, t, moves);
      assert moves[..|moves|] == moves;
      assert RegistryAt(s, steps, k) == StateAt(r, moves, |moves|);
    }
    if r.lifecycle.None? || OneEndpoint(ProvidersOf(r, t)) {
      var m := TellsSomeMoment(s, steps, t, e, b, k);
    }
  }

  // ---------------------------------------------------------------- what reports mean

  /** The state of the plugin that is known after the first `k` steps of a run that began with these states. */
  function ReportedBy(states: Lifecycle, steps: seq<Step>, k: int, runtimeID: string): Option<Health>
    requires 0 <= k <= |steps|
  {
    LastKnown(states, MovesBetween(steps, 0, k), runtimeID)
  }

  lemma {:induction false} RunFollowsReports(lifecycle: Option<Lifecycle>, steps: seq<Step>, k: nat)
    requires k <= |steps| && Exec(Start(lifecycle), steps[..k]).Some?
    ensures RegistryAt(Start(lifecycle), steps, k).lifecycle == HealthAfter(lifecycle, MovesBetween(steps, 0, k))
  {
    if k == 0 {
      assert steps[..0] == [];
    } else {
      assert steps[..k][..k - 1] == steps[..k - 1];
      Runs.LastStep(Next, Start(lifecycle), steps[..k]);
      RunFollowsReports(lifecycle, steps, k - 1);
      StepFollowsReports(Exec(Start(lifecycle), steps[..k - 1]).value, steps[k - 1], lifecycle, MovesBetween(steps, 0, k - 1));
    }
  }

  lemma OthersLeaveHealth(s: System, step: Step)
    requires Next(s, step).Some? && MoveOf(step) == []
    ensures Next(s, step).value.registry.lifecycle == s.registry.lifecycle
  {
  }

  lemma MovesChangeHealth(s: System, step: Step)
    requires Next(s, step).Some? && MoveOf(step) != []
    ensures Next(s, step).value.registry.lifecycle ==
            if step.Change? then Reported(s.registry.lifecycle, step.op.runtimeID, step.op.health) else s.registry.lifecycle
  {
  }

  lemma StepFollowsReports(s: System, step: Step, lifecycle: Option<Lifecycle>, moves: seq<Move>)
    requires Next(s, step).Some? && s.registry.lifecycle == HealthAfter(lifecycle, moves)
    ensures Next(s, step).value.registry.lifecycle == HealthAfter(lifecycle, moves + MoveOf(step))
  {
    if MoveOf(step) == [] {
      assert moves + [] == moves;
      OthersLeaveHealth(s, step);
    } else {
      HealthOneMore(lifecycle, moves, MoveOf(step)[0]);
      MovesChangeHealth(s, step);
    }
  }

  /** In every run, a listed provider that is new enough is a candidate if and only if health is not tracked, or no
      report of its plugin has been made, or the last one was not unhealthy. */
  lemma CandidatesFollowReports(lifecycle: Option<Lifecycle>, steps: seq<Step>, t: string, minVersion: string, p: ServiceProvider)
    requires Exec(Start(lifecycle), steps).Some?
    ensures var r := Exec(Start(lifecycle), steps).value.registry;
            p in Candidates(r, t, minVersion) <==>
              && p in ProvidersOf(r, t)
              && (minVersion == "" || Leq(minVersion, p.version))
              && (lifecycle.None? || ReportedBy(lifecycle.value, steps, |steps|, p.runtimeID) != Some(Unhealthy))
  {
    var r := Exec(Start(lifecycle), steps).value.registry;
    assert steps[..|steps|] == steps;
    RunFollowsReports(lifecycle, steps, |steps|);
    RoutableIff(lifecycle, MovesBetween(steps, 0, |steps|), p);
    CandidatesAreEligible(r, t, minVersion, p);
  }

  /** In every interleaving, a read keeps its provider under the same condition at that moment. */
  lemma ReadsFollowReports(lifecycle: Option<Lifecycle>, steps: seq<Step>, k: nat)
    requires k < |steps| && steps[k] == ReadNext && Exec(Start(lifecycle), steps[..k]).Some?
    requires Next(Exec(Start(lifecycle), steps[..k]).value, ReadNext).Some?
    ensures var s := Exec(Start(lifecycle), steps[..k]).value;
            && s.phase.Reading? && s.phase.todo != []
            && Next(s, ReadNext).value.phase == s.phase.(todo := s.phase.todo[1..], kept := s.phase.kept +
                 if lifecycle.None? || ReportedBy(lifecycle.value, steps, k, s.phase.todo[0].runtimeID) != Some(Unhealthy)
                 then [s.phase.todo[0]] else [])
  {
    RunFollowsReports(lifecycle, steps, k);
    RoutableIff(lifecycle, MovesBetween(steps, 0, k), Exec(Start(lifecycle), steps[..k]).value.phase.todo[0]);
  }

  /** An event made after the first `k` steps says degraded if and only if the last report of the plugin it names
      was that. */
  ghost predicate StateFollowsReports(lifecycle: Option<Lifecycle>, steps: seq<Step>, k: int, e: Event) {
    && 0 <= k <= |steps| && (e.endpoint.None? <==> e.state == ServiceUnavailable)
    && (e.state == ServiceDegraded <==>
          && e.endpoint.Some? && lifecycle.Some?
          && ReportedBy(lifecycle.value, steps, k, e.endpoint.value.providerID) == Some(Degraded))
  }

  lemma MadeFollowsReports(lifecycle: Option<Lifecycle>, steps: seq<Step>, k: nat)
    requires k <= |steps| && Exec(Start(lifecycle), steps[..k]).Some? && DoneReading(Exec(Start(lifecycle), steps[..k]).value)
    ensures StateFollowsReports(lifecycle, steps, k, EventMade(Exec(Start(lifecycle), steps[..k]).value))
  {
    var e := EventMade(Exec(Start(lifecycle), steps[..k]).value);
    RunFollowsReports(lifecycle, steps, k);
    HealthStaysTracked(lifecycle, MovesBetween(steps, 0, k));
    if lifecycle.Some? && e.endpoint.Some? {
      HealthIsLastKnown(lifecycle, MovesBetween(steps, 0, k), e.endpoint.value.providerID);
    }
  }

  // ---------------------------------------------------------------- the events of a run

  /** The `k`th step of the run is the announcement that became entry `i` of the log of `t`. */
  ghost predicate AnnouncedAt(s: System, steps: seq<Step>, t: string, i: int, k: int) {
    && 0 <= k < |steps| && steps[k] == Announce && Exec(s, steps[..k]).Some? && Exec(s, steps).Some?
    && var before := Exec(s, steps[..k]).value;
    && DoneReading(before) && before.phase.purpose == ForAnnouncement && before.phase.serviceType == t
    && |LogOf(before, t)| == i < |LogOf(Exec(s, steps).value, t)|
    && LogOf(Exec(s, steps).value, t)[i] == EventMade(before)
  }

  lemma StepLogs(s: System, step: Step, t: string)
    requires Next(s, step).Some?
    ensures LogOf(Next(s, step).value, t) ==
            LogOf(s, t) + if step == Announce && s.phase.serviceType == t then [EventMade(s)] else []
  {
    assert LogOf(s, t) + [] == LogOf(s, t);
  }

  lemma {:induction false} LogOnlyGrows(s: System, steps: seq<Step>, t: string)
    requires Exec(s, steps).Some?
    ensures LogOf(s, t) <= LogOf(Exec(s, steps).value, t)
    decreases |steps|
  {
    if steps != [] {
      StepLogs(s, steps[0], t);
      LogOnlyGrows(Next(s, steps[0]).value, steps[1..], t);
    }
  }

  lemma {:induction false} NewEntriesAreAnnounced(s: System, steps: seq<Step>, t: string, i: int) returns (k: int)
    requires Exec(s, steps).Some? && |LogOf(s, t)| <= i < |LogOf(Exec(s, steps).value, t)|
    ensures AnnouncedAt(s, steps, t, i, k)
    decreases |steps|
  {
    var s' := Next(s, steps[0]).value;
    StepLogs(s, steps[0], t);
    if i < |LogOf(s', t)| {
      k := 0;
      LogOnlyGrows(s', steps[1..], t);
      assert Exec(s, steps[..0]) == Some(s);
    } else {
      k := NewEntriesAreAnnounced(s', steps[1..], t, i);
      Runs.PrefixOfRun(Next, s, steps, k);
      k := k + 1;
    }
  }

  /** A reader that has just finished in a run made its event as told above, from the step it began at. */
  lemma FinishedReaderTells(lifecycle: Option<Lifecycle>, steps: seq<Step>, k: nat) returns (b: int)
    requires k <= |steps| && Exec(Start(lifecycle), steps[..k]).Some? && DoneReading(Exec(Start(lifecycle), steps[..k]).value)
    requires !Exec(Start(lifecycle), steps[..k]).value.phase.purpose.ForSelection?
    ensures var s1 := Exec(Start(lifecycle), steps[..k]).value;
            && ReadingSince(Start(lifecycle), steps, b, k) && Tells(Start(lifecycle), steps, s1.phase.serviceType, EventMade(s1), b, k)
            && StateFollowsReports(lifecycle, steps, k, EventMade(s1))
  {
    var s := Start(lifecycle);
    var s1 := Exec(s, steps[..k]).value;
    b := ReadingHasBegun(s, steps[..k]);
    SinceOfPrefix(s, steps, k, b, k);
    MadeFollowsReports(lifecycle, steps, k);
    BuiltTells(s, steps, s1.phase.serviceType, EventMade(s1), b, k);
  }

  /** In every interleaving of registry operations, health reports and watchers, each announced event tells
      what the reads of its building found, and what a selection would have returned where that follows. Its
      building is the reading that ended with the announcement. */
  lemma EventsTellTheState(lifecycle: Option<Lifecycle>, steps: seq<Step>, t: string, i: nat)
    requires Exec(Start(lifecycle), steps).Some? && i < |LogOf(Exec(Start(lifecycle), steps).value, t)|
    ensures exists b, k :: AnnouncedAt(Start(lifecycle), steps, t, i, k)
                        && ReadingSince(Start(lifecycle), steps, b, k)
                        && Tells(Start(lifecycle), steps, t, LogOf(Exec(Start(lifecycle), steps).value, t)[i], b, k)
                        && StateFollowsReports(lifecycle, steps, k, LogOf(Exec(Start(lifecycle), steps).value, t)[i])
  {
    var k := NewEntriesAreAnnounced(Start(lifecycle), steps, t, i);
    var b := FinishedReaderTells(lifecycle, steps, k);
  }

  /** Each entry of the log was announced by a single step. */
  lemma AnnouncedOnce(s: System, steps: seq<Step>, t: string, i: int, k: int, m: int)
    requires AnnouncedAt(s, steps, t, i, k) && AnnouncedAt(s, steps, t, i, m)
    ensures k == m
  {
    if k < m { LaterLogIsLonger(s, steps, t, i, k, m); }
    if m < k { LaterLogIsLonger(s, steps, t, i, m, k); }
  }

  lemma LaterLogIsLonger(s: System, steps: seq<Step>, t: string, i: int, k: int, m: int)
    requires AnnouncedAt(s, steps, t, i, k) && k < m <= |steps| && Exec(s, steps[..m]).Some?
    ensures i < |LogOf(Exec(s, steps[..m]).value, t)|
  {
    assert steps[..m][..k] == steps[..k] && steps[..m][..k + 1] == steps[..k + 1];
    LogAfter(s, steps[..m], k, t);
  }

  /** The `k`th step of the run registered the watcher, with the event just built. */
  ghost predicate RegisteredAt(s: System, steps: seq<Step>, w: nat, v: Watcher, k: int) {
    && 0 <= k < |steps| && steps[k] == Watch && Exec(s, steps[..k]).Some?
    && var before := Exec(s, steps[..k]).value;
    && DoneReading(before) && before.phase.purpose == ForNewcomer(w) && before.phase.serviceType == v.serviceType
    && v.since == |LogOf(before, v.serviceType)| && v.initial == EventMade(before)
  }

  /** Where a call started, once it is registered. */
  function StartOf(s: System, w: nat): Option<(string, nat, Event)> {
    if w in s.watchers then Some((s.watchers[w].serviceType, s.watchers[w].since, s.watchers[w].initial)) else None
  }

  lemma StepKeepsStart(s: System, step: Step, w: nat)
    requires Next(s, step).Some? && w in s.watchers
    ensures StartOf(Next(s, step).value, w) == StartOf(s, w)
  {
  }

  lemma OnlyWatchEnters(s: System, step: Step, w: nat)
    requires Next(s, step).Some? && StartOf(s, w).None? && StartOf(Next(s, step).value, w).Some?
    ensures step == Watch && DoneReading(s) && s.phase.purpose == ForNewcomer(w)
    ensures StartOf(Next(s, step).value, w) == Some((s.phase.serviceType, |LogOf(s, s.phase.serviceType)|, EventMade(s)))
  {
  }

  lemma WatchersAreRegistered(s: System, steps: seq<Step>, w: nat) returns (k: nat)
    requires Exec(s, steps).Some? && w !in s.watchers && w in Exec(s, steps).value.watchers
    ensures RegisteredAt(s, steps, w, Exec(s, steps).value.watchers[w], k)
  {
    forall x, step | Next(x, step).Some? && StartOf(x, w).Some? ensures StartOf(Next(x, step).value, w) == StartOf(x, w) {
      StepKeepsStart(x, step, w);
    }
    k := Runs.StepThatEnters(Next, (x: System) => StartOf(x, w), s, steps);
    OnlyWatchEnters(Exec(s, steps[..k]).value, steps[k], w);
  }

  /** The same of the initial event of every watcher, which is built at its registration. */
  lemma InitialEventsTellTheState(lifecycle: Option<Lifecycle>, steps: seq<Step>, w: nat)
    requires Exec(Start(lifecycle), steps).Some? && w in Exec(Start(lifecycle), steps).value.watchers
    ensures var v := Exec(Start(lifecycle), steps).value.watchers[w];
            exists b, k :: RegisteredAt(Start(lifecycle), steps, w, v, k)
                        && ReadingSince(Start(lifecycle), steps, b, k)
                        && Tells(Start(lifecycle), steps, v.serviceType, v.initial, b, k)
                        && StateFollowsReports(lifecycle, steps, k, v.initial)
  {
    var k := WatchersAreRegistered(Start(lifecycle), steps, w);
    var b := FinishedReaderTells(lifecycle, steps, k);
  }

  // ---------------------------------------------------------------- when they all tell the selection

  /** The steps take the reading begun in `s` to its end, and no further. */
  ghost predicate FinishesReading(s: System, steps: seq<Step>) {
    && (forall m :: 0 <= m <= |steps| ==> Exec(s, steps[..m]).Some? && Exec(s, steps[..m]).value.phase.Reading?)
    && Exec(s, steps).Some? && DoneReading(Exec(s, steps).value)
  }

  /** The event that the reading ends with tells the selection of some state on the way. */
  ghost predicate TellsOnTheWay(s: System, steps: seq<Step>)
    requires FinishesReading(s, steps) && s.phase.Reading?
  {
    exists m :: 0 <= m <= |steps| && TellsSelection(RegistryAt(s, steps, m), s.phase.serviceType, EventMade(Exec(s, steps).value))
  }

  lemma {:induction false} FinishingIsUnderway(s: System, steps: seq<Step>)
    requires Begun(s) && Exec(s, steps).Some?
    requires forall m :: 0 <= m <= |steps| ==> Exec(s, steps[..m]).Some? && Exec(s, steps[..m]).value.phase.Reading?
    ensures UnderwaySince(s, steps, 0, |steps|)
    decreases |steps|
  {
    if steps == [] {
      BegunIsUnderway(s);
      assert steps[..0] == [];
      assert UnderwayBetween(s, steps, 0, 0);
    } else {
      var front := steps[..|steps| - 1];
      Runs.LastStep(Next, s, steps);
      assert forall m :: 0 <= m <= |front| ==> front[..m] == steps[..m];
      assert steps[..|steps|] == steps;
      FinishingIsUnderway(s, front);
      SinceOneMore(s, steps, 0);
    }
  }

  /** The step that makes a move, if there is anything to do for it. */
  function StepFor(x: Scan, move: Move): seq<Step> {
    match move
    case Report(runtimeID, health) => [Change(ReportHealth(runtimeID, health))]
    case Read => if x.todo == [] then [] else [ReadNext]
  }

  /** The steps for the first `n` moves. */
  function StepsOf(x: Scan, moves: seq<Move>, n: nat): seq<Step>
    requires n <= |moves|
  {
    if n == 0 then [] else StepsOf(x, moves, n - 1) + StepFor(Scanned(x, moves[..n - 1]), moves[n - 1])
  }

  /** The state of the reading begun in `s` after the moves. */
  function MovedState(s: System, moves: seq<Move>): System
    requires s.phase.Reading?
  {
    s.(phase := PhaseAfter(s, moves), registry := RegistryAfter(s, moves))
  }

  lemma OneMoveHappens(s: System, moves: seq<Move>, move: Move)
    requires s.phase.Reading?
    ensures var x := Scanned(Opening(s.registry.lifecycle, ListRead(s)), moves);
            Exec(MovedState(s, moves), StepFor(x, move)) == Some(MovedState(s, moves + [move]))
  {
    var x := Scanned(Opening(s.registry.lifecycle, ListRead(s)), moves);
    MovedOneMore(s, moves, move);
    if StepFor(x, move) != [] {
      Runs.OneStep(Next, MovedState(s, moves), StepFor(x, move)[0]);
      assert StepFor(x, move) == [StepFor(x, move)[0]];
    }
  }

  lemma ReadHappens(s: System)
    requires s.phase.Reading? && s.phase.todo != []
    ensures var x := Moved(Scan(s.registry.lifecycle, s.phase.todo, s.phase.kept), Read);
            Next(s, ReadNext) == Some(s.(phase := s.phase.(todo := x.todo, kept := x.kept)))
  {
  }

  lemma ReportHappens(s: System, runtimeID: string, health: Health)
    ensures Next(s, Change(ReportHealth(runtimeID, health)))
         == Some(s.(registry := s.registry.(lifecycle := Reported(s.registry.lifecycle, runtimeID, health))))
  {
  }

  lemma MovedOneMore(s: System, moves: seq<Move>, move: Move)
    requires s.phase.Reading?
    ensures var x := Scanned(Opening(s.registry.lifecycle, ListRead(s)), moves);
            if StepFor(x, move) == [] then MovedState(s, moves + [move]) == MovedState(s, moves)
            else Next(MovedState(s, moves), StepFor(x, move)[0]) == Some(MovedState(s, moves + [move]))
  {
    OneMoreMove(s.registry.lifecycle, ListRead(s), moves, move);
    var y := MovedState(s, moves);
    if move.Report? {
      ReportHappens(y, move.runtimeID, move.health);
    } else if y.phase.todo != [] {
      ReadHappens(y);
    }
  }

  lemma NextMoveHappens(s: System, steps: seq<Step>, moves: seq<Move>, move: Move)
    requires s.phase.Reading? && Exec(s, steps) == Some(MovedState(s, moves))
    ensures Exec(s, steps + StepFor(Scanned(Opening(s.registry.lifecycle, ListRead(s)), moves), move))
         == Some(MovedState(s, moves + [move]))
  {
    OneMoveHappens(s, moves, move);
    Runs.ExecConcat(Next, s, steps, StepFor(Scanned(Opening(s.registry.lifecycle, ListRead(s)), moves), move));
  }

  lemma OneMoreOf(moves: seq<Move>, n: nat)
    requires n < |moves|
    ensures moves[..n + 1] == moves[..n] + [moves[n]]
  {
  }

  lemma NthMoveHappens(s: System, moves: seq<Move>, n: nat, front: seq<Move>, more: seq<Move>)
    requires s.phase.Reading? && n < |moves| && front == moves[..n] && more == front + [moves[n]]
    requires Exec(s, StepsOf(Opening(s.registry.lifecycle, ListRead(s)), moves, n)) == Some(MovedState(s, front))
    ensures Exec(s, StepsOf(Opening(s.registry.lifecycle, ListRead(s)), moves, n + 1)) == Some(MovedState(s, more))
  {
    NextMoveHappens(s, StepsOf(Opening(s.registry.lifecycle, ListRead(s)), moves, n), front, moves[n]);
  }

  /** Any moves can happen to a reading that has begun. */
  lemma {:induction false} MovesHappen(s: System, moves: seq<Move>, n: nat)
    requires Begun(s) && n <= |moves|
    ensures Exec(s, StepsOf(Opening(s.registry.lifecycle, ListRead(s)), moves, n)) == Some(MovedState(s, moves[..n]))
  {
    if n == 0 {
      assert moves[..0] == [] && MovedState(s, []) == s;
    } else {
      MovesHappen(s, moves, n - 1);
      OneMoreOf(moves, n - 1);
      NthMoveHappens(s, moves, n - 1, moves[..n - 1], moves[..n]);
    }
  }

  /** Cutting the steps short is cutting the moves short. */
  lemma {:induction false} PrefixOfSteps(x: Scan, moves: seq<Move>, n: nat, m: nat) returns (i: nat)
    requires n <= |moves| && m <= |StepsOf(x, moves, n)|
    ensures i <= n && StepsOf(x, moves, n)[..m] == StepsOf(x, moves, i)
  {
    if m == |StepsOf(x, moves, n)| {
      i := n;
    } else {
      i := PrefixOfSteps(x, moves, n - 1, m);
      assert StepsOf(x, moves, n)[..m] == StepsOf(x, moves, n - 1)[..m];
    }
  }

  /** Where the list makes several endpoints, some run of the reading misleads its event. */
  lemma SomeRunMisleads(s: System) returns (steps: seq<Step>)
    requires Begun(s) && !s.phase.purpose.ForSelection? && s.registry.lifecycle.Some?
    requires !OneEndpoint(ProvidersOf(s.registry, s.phase.serviceType))
    ensures FinishesReading(s, steps) && !TellsOnTheWay(s, steps)
  {
    var t, x := s.phase.serviceType, Opening(s.registry.lifecycle, ListRead(s));
    var moves := SomeBuildMisleads(s.registry, t);
    steps := StepsOf(x, moves, |moves|);
    MovesHappen(s, moves, |moves|);
    assert moves[..|moves|] == moves;
    ScanFollowsHealth(x, moves);
    forall m | 0 <= m <= |steps|
      ensures Exec(s, steps[..m]).Some? && Exec(s, steps[..m]).value.phase.Reading?
      ensures !TellsSelection(Exec(s, steps[..m]).value.registry, t, EventMade(Exec(s, steps).value))
    {
      var i := StepsFollowMoves(s, moves, m);
      assert Exec(s, steps[..m]).value.registry == StateAt(s.registry, moves, i);
    }
  }

  /** The exact condition, for all runs: however a reading for an event goes on, the event tells what a
      selection would have returned in some state on the way, if and only if health is not tracked or
      the list makes a single endpoint. */
  lemma EventTellsInEveryRunIff(s: System)
    requires Begun(s) && !s.phase.purpose.ForSelection?
    ensures s.registry.lifecycle.None? || OneEndpoint(ProvidersOf(s.registry, s.phase.serviceType)) <==>
            forall steps :: FinishesReading(s, steps) ==> TellsOnTheWay(s, steps)
  {
    if s.registry.lifecycle.None? || OneEndpoint(ProvidersOf(s.registry, s.phase.serviceType)) {
      forall steps | FinishesReading(s, steps) ensures TellsOnTheWay(s, steps) {
        FinishingIsUnderway(s, steps);
        assert steps[..|steps|] == steps && steps[..0] == [];
        assert UnderwayBetween(s, steps, 0, |steps|);
        var m := TellsSomeMoment(s, steps, s.phase.serviceType, EventMade(Exec(s, steps).value), 0, |steps|);
      }
    } else {
      var steps := SomeRunMisleads(s);
    }
  }

  // ---------------------------------------------------------------- a misled event

  /** The steps for the moves take the reading through the states of the moves, and no others. */
  lemma StepsFollowMoves(s: System, moves: seq<Move>, m: nat) returns (i: nat)
    requires Begun(s) && m <= |StepsOf(Opening(s.registry.lifecycle, ListRead(s)), moves, |moves|)|
    ensures var steps := StepsOf(Opening(s.registry.lifecycle, ListRead(s)), moves, |moves|);
            i <= |moves| && Exec(s, steps[..m]) == Some(MovedState(s, moves[..i]))
  {
    i := PrefixOfSteps(Opening(s.registry.lifecycle, ListRead(s)), moves, |moves|, m);
    MovesHappen(s, moves, i);
  }

  /** When some provider is routable at the outset and several plugins are listed, some run announces that the
      service is unavailable, although a selection would have found a provider in every state on the way. */
  lemma SomeRunMissesAll(s: System) returns (steps: seq<Step>)
    requires Begun(s) && !s.phase.purpose.ForSelection? && s.registry.lifecycle.Some?
    requires var list := ProvidersOf(s.registry, s.phase.serviceType);
             !OnePlugin(list) && SomeRoutable(list, s.registry.lifecycle)
    ensures FinishesReading(s, steps) && EventMade(Exec(s, steps).value) == Event(s.phase.serviceType, ServiceUnavailable, None)
    ensures forall m :: 0 <= m <= |steps| ==> Choose(RegistryAt(s, steps, m), s.phase.serviceType, "", 0).Selected?
  {
    var t, x := s.phase.serviceType, Opening(s.registry.lifecycle, ListRead(s));
    var moves := AllCanBeMissed(s.registry, t);
    steps := StepsOf(x, moves, |moves|);
    MovesHappen(s, moves, |moves|);
    assert moves[..|moves|] == moves;
    ScanFollowsHealth(x, moves);
    forall m | 0 <= m <= |steps|
      ensures Exec(s, steps[..m]).Some? && Exec(s, steps[..m]).value.phase.Reading?
      ensures Choose(Exec(s, steps[..m]).value.registry, t, "", 0).Selected?
    {
      var i := StepsFollowMoves(s, moves, m);
      assert Exec(s, steps[..m]).value.registry == StateAt(s.registry, moves, i);
    }
  }

  const FIRST := ServiceProvider("r1", "a", "t", "1.0.0", "/", map[])
  const SECOND := ServiceProvider("r2", "b", "t", "1.0.0", "/", map[])

  /** The first of two plugins is registered and unhealthy. */
  const ALONE := System(Registry(map["t" := [FIRST]], map["r1" := FIRST], map[], map[], Some(map["a" := Unhealthy])), map[], map[], Idle, map[])

  /** The second one has just registered, and the event is about to be built. */
  const FLAPPING := System(
    Registry(map["t" := [FIRST, SECOND]], map["r1" := FIRST, "r2" := SECOND], map[], map[], Some(map["a" := Unhealthy])),
    map[], map[], Reading(ForAnnouncement, "t", [FIRST, SECOND], []), map[])

  lemma SecondRegisters()
    ensures Next(ALONE, Change(Register(SECOND))) == Some(FLAPPING)
  {
    var r := Registered(ALONE.registry, SECOND);
    assert ProvidersOf(ALONE.registry, "t") + [SECOND] == [FIRST, SECOND];
    assert r.providers == FLAPPING.registry.providers;
    assert r.registrations == FLAPPING.registry.registrations;
  }

  lemma FlappingIsReachable()
    ensures Reachable(Some(map[]), FLAPPING)
  {
    var s0 := Start(Some(map[]));
    var s1 := Next(s0, Change(ReportHealth("a", Unhealthy))).value;
    assert ProvidersOf(s1.registry, "t") + [FIRST] == [FIRST];
    assert Next(s1, Write(FIRST)) == Some(ALONE);
    SecondRegisters();
    Runs.ReachesSelf(Next, s0);
    Runs.ReachesStep(Next, s0, s0, Change(ReportHealth("a", Unhealthy)));
    Runs.ReachesStep(Next, s0, s1, Write(FIRST));
    Runs.ReachesStep(Next, s0, ALONE, Change(Register(SECOND)));
  }

  /** For example, of two plugins one is unhealthy: the reader drops it, then they change places, and it drops
      the other. */
  lemma FlappingMisleads() returns (steps: seq<Step>)
    ensures Reachable(Some(map[]), FLAPPING) && FinishesReading(FLAPPING, steps)
    ensures EventMade(Exec(FLAPPING, steps).value) == Event("t", ServiceUnavailable, None)
    ensures forall m :: 0 <= m <= |steps| ==> Choose(RegistryAt(FLAPPING, steps, m), "t", "", 0).Selected?
  {
    FlappingIsReachable();
    var list := ProvidersOf(FLAPPING.registry, "t");
    assert list[0].runtimeID != list[1].runtimeID && Routable(FLAPPING.registry.lifecycle, list[1]);
    steps := SomeRunMissesAll(FLAPPING);
  }

  // ---------------------------------------------------------------- the last event

  /** The plugin has an entry in the list of `t`. */
  predicate HasEntry(r: Registry, t: string, runtimeID: string) {
    exists p :: p in ProvidersOf(r, t) && p.runtimeID == runtimeID
  }

  /** Steps that can alter the event of `t` without announcing it: a direct write of that type, and the removal
      or a tracked health report of a plugin listed for it. */
  predicate Silent(s: System, step: Step, t: string) {
    || (step.Write? && step.provider.serviceType == t)
    || (step.Change? && step.op.UnregisterPlugin? && HasEntry(s.registry, t, step.op.runtimeID))
    || (step.Change? && step.op.ReportHealth? && s.registry.lifecycle.Some? && HasEntry(s.registry, t, step.op.runtimeID))
  }

  /** Nothing changes silently from step `b` on. */
  ghost predicate NothingSilent(s: System, steps: seq<Step>, b: int, t: string) {
    forall i :: 0 <= i && b <= i < |steps| && Exec(s, steps[..i]).Some? ==> !Silent(Exec(s, steps[..i]).value, steps[i], t)
  }

  lemma QuietSuffix(s: System, steps: seq<Step>, b: int, k: nat, t: string, s1: System)
    requires b <= k <= |steps| && Exec(s, steps[..k]) == Some(s1) && NothingSilent(s, steps, b, t)
    ensures NothingSilent(s1, steps[k..], 0, t)
  {
    forall i | 0 <= i < |steps[k..]| && Exec(s1, steps[k..][..i]).Some?
      ensures !Silent(Exec(s1, steps[k..][..i]).value, steps[k..][i], t)
    {
      assert steps[..k + i] == steps[..k] + steps[k..][..i];
      Runs.ExecConcat(Next, s, steps[..k], steps[k..][..i]);
    }
  }

  /** An announcement on `t` is due. */
  ghost predicate AnnouncementDue(s: System, t: string) {
    s.phase.Reading? && s.phase.purpose.ForAnnouncement? && s.phase.serviceType == t
  }

  lemma OthersKeepEvent(r: Registry, op: Op, t: string)
    requires Agrees(r) && Concerned(r, op) != Some(t) && !op.UnregisterPlugin? && !op.ReportHealth? && !op.Select?
    ensures ServiceEvent(Apply(r, op), t) == ServiceEvent(r, t)
  {
    if op.Unregister? && op.registrationID in r.registrations {
      assert ListAgrees(r, t);
      KeepAll(ProvidersOf(r, t), NotRegisteredAs({op.registrationID}));
    }
    assert ProvidersOf(Apply(r, op), t) == ProvidersOf(r, t);
  }

  lemma UnlistedRemovalKeepsEvent(r: Registry, t: string, runtimeID: string)
    requires !HasEntry(r, t, runtimeID)
    ensures ServiceEvent(PluginUnregistered(r, runtimeID), t) == ServiceEvent(r, t)
  {
    KeepAll(ProvidersOf(r, t), NotOfPlugin(runtimeID));
    assert ProvidersOf(PluginUnregistered(r, runtimeID), t) == ProvidersOf(r, t);
  }

  lemma UnlistedReportKeepsEvent(r: Registry, t: string, runtimeID: string, health: Health)
    requires r.lifecycle.None? || !HasEntry(r, t, runtimeID)
    ensures ServiceEvent(Apply(r, ReportHealth(runtimeID, health)), t) == ServiceEvent(r, t)
  {
    if r.lifecycle.Some? {
      var moves := [Report(runtimeID, health)];
      UndisturbedState(r, t, moves, 1);
      assert moves == [] + moves && moves[..1] == moves;
      HealthOneMore(r.lifecycle, [], moves[0]);
    }
  }

  /** Without silent changes, the event of `t` stays or an announcement becomes due. */
  lemma StepKeepsEvent(s: System, step: Step, t: string)
    requires Agrees(s.registry) && Next(s, step).Some? && !Silent(s, step, t) && !AnnouncementDue(Next(s, step).value, t)
    ensures ServiceEvent(Next(s, step).value.registry, t) == ServiceEvent(s.registry, t)
  {
    match step
    case Change(UnregisterPlugin(runtimeID)) => UnlistedRemovalKeepsEvent(s.registry, t, runtimeID);
    case Change(ReportHealth(runtimeID, health)) => UnlistedReportKeepsEvent(s.registry, t, runtimeID, health);
    case Change(op) => OthersKeepEvent(s.registry, op, t);
    case _ =>
  }

  lemma StepAnnounces(s: System, step: Step, t: string)
    requires AnnouncementDue(s, t) && Next(s, step).Some? && !AnnouncementDue(Next(s, step).value, t)
    ensures |LogOf(Next(s, step).value, t)| > |LogOf(s, t)|
  {
    StepLogs(s, step, t);
  }

  /** What is due is announced before the lock is free again. */
  lemma {:induction false} DueIsAnnounced(s: System, steps: seq<Step>, t: string)
    requires AnnouncementDue(s, t) && Exec(s, steps).Some? && Exec(s, steps).value.phase == Idle
    ensures |LogOf(Exec(s, steps).value, t)| > |LogOf(s, t)|
    decreases |steps|
  {
    var s' := Next(s, steps[0]).value;
    StepLogs(s, steps[0], t);
    if AnnouncementDue(s', t) {
      DueIsAnnounced(s', steps[1..], t);
    } else {
      StepAnnounces(s, steps[0], t);
      LogOnlyGrows(s', steps[1..], t);
    }
  }

  /** As long as nothing changes silently and nothing new is announced, the event stays what it was. */
  lemma {:induction false} EventStays(s: System, steps: seq<Step>, t: string)
    requires Agrees(s.registry) && !AnnouncementDue(s, t) && NothingSilent(s, steps, 0, t)
    requires Exec(s, steps).Some? && Exec(s, steps).value.phase == Idle
    requires |LogOf(Exec(s, steps).value, t)| == |LogOf(s, t)|
    ensures ServiceEvent(Exec(s, steps).value.registry, t) == ServiceEvent(s.registry, t)
    decreases |steps|
  {
    if steps != [] {
      var s' := Next(s, steps[0]).value;
      StepLogs(s, steps[0], t);
      LogOnlyGrows(s', steps[1..], t);
      if AnnouncementDue(s', t) {
        DueIsAnnounced(s', steps[1..], t);
      } else {
        FirstIsNotSilent(s, steps, t);
        StepKeepsEvent(s, steps[0], t);
        StepKeepsAgreement(s, steps[0]);
        EventStays(s', steps[1..], t);
      }
    }
  }

  lemma FirstIsNotSilent(s: System, steps: seq<Step>, t: string)
    requires steps != [] && Next(s, steps[0]).Some? && NothingSilent(s, steps, 0, t)
    ensures !Silent(s, steps[0], t) && NothingSilent(Next(s, steps[0]).value, steps[1..], 0, t)
  {
    assert steps[..0] == [] && steps[..1] == [steps[0]];
    assert Exec(s, steps[..0]) == Some(s);
    Runs.OneStep(Next, s, steps[0]);
    QuietSuffix(s, steps, 0, 1, t, Next(s, steps[0]).value);
  }

  lemma QuietMove(s0: System, s: System, moves: seq<Move>, step: Step, t: string)
    requires Underway(s0, s, moves) && s0.registry.lifecycle.Some? && !Silent(s, step, t)
    requires Undisturbed(ProvidersOf(s0.registry, t), moves)
    ensures Undisturbed(ProvidersOf(s0.registry, t), moves + MoveOf(step))
  {
    HealthStaysTracked(s0.registry.lifecycle, moves);
  }

  /** Where health is tracked, no plugin of the list reports while nothing changes silently. */
  lemma {:induction false} QuietMovesAreUndisturbed(s: System, steps: seq<Step>, t: string, b: int, k: int)
    requires UnderwaySince(s, steps, b, k) && NothingSilent(s, steps, b, t)
    requires Exec(s, steps[..b]).Some? && RegistryAt(s, steps, b).lifecycle.Some?
    ensures Undisturbed(ProvidersOf(RegistryAt(s, steps, b), t), MovesBetween(steps, b, k))
    decreases k - b
  {
    if k > b {
      QuietMovesAreUndisturbed(s, steps, t, b, k - 1);
      assert UnderwayBetween(s, steps, b, k - 1);
      QuietMove(Exec(s, steps[..b]).value, Exec(s, steps[..k - 1]).value, MovesBetween(steps, b, k - 1), steps[k - 1], t);
    }
  }

  /** If nothing has changed silently while it was built, an event is that of the state it was made in. */
  lemma MadeEventIsCurrent(s: System, steps: seq<Step>, t: string, e: Event, b: int, k: int)
    requires UnderwaySince(s, steps, b, k) && Tells(s, steps, t, e, b, k) && NothingSilent(s, steps, b, t)
    ensures e == ServiceEvent(RegistryAt(s, steps, k), t)
  {
    var r, moves := RegistryAt(s, steps, b), MovesBetween(steps, b, k);
    if r.lifecycle.Some? {
      QuietMovesAreUndisturbed(s, steps, t, b, k);
    } else {
      assert UnderwayBetween(s, steps, b, k);
      UntrackedScan(ProvidersOf(r, t), moves);
      HealthStaysTracked(r.lifecycle, moves);
    }
  }

  lemma MadeEventStays(lifecycle: Option<Lifecycle>, steps: seq<Step>, t: string, b: int, k: int, s1: System)
    requires 0 <= b <= k <= |steps| && Exec(Start(lifecycle), steps[..k]) == Some(s1)
    requires Exec(Start(lifecycle), steps).Some? && Exec(Start(lifecycle), steps).value.phase == Idle
    requires !AnnouncementDue(s1, t) && NothingSilent(Start(lifecycle), steps, b, t)
    requires |LogOf(Exec(Start(lifecycle), steps).value, t)| == |LogOf(s1, t)|
    ensures ServiceEvent(s1.registry, t) == ServiceEvent(Exec(Start(lifecycle), steps).value.registry, t)
  {
    StartAgrees(lifecycle);
    RunKeepsAgreed(Start(lifecycle), steps[..k]);
    assert steps == steps[..k] + steps[k..];
    Runs.ExecConcat(Next, Start(lifecycle), steps[..k], steps[k..]);
    QuietSuffix(Start(lifecycle), steps, b, k, t, s1);
    EventStays(s1, steps[k..], t);
  }

  lemma MakingKeepsRegistry(s: System, step: Step, t: string)
    requires Next(s, step).Some? && (step == Announce || step == Watch)
    ensures Next(s, step).value.registry == s.registry && !AnnouncementDue(Next(s, step).value, t)
  {
  }

  /** The event was built in the reading that began at step `b - 1` and ended with step `k`; it tells what that
      says, and is still the event of the registry if nothing has changed silently from step `b` on. */
  ghost predicate StillTells(s: System, steps: seq<Step>, t: string, e: Event, b: int, k: int) {
    && ReadingSince(s, steps, b, k) && Tells(s, steps, t, e, b, k)
    && (NothingSilent(s, steps, b, t) && Exec(s, steps).Some? ==> e == ServiceEvent(Exec(s, steps).value.registry, t))
  }

  /** The step made the event on `t` that was last in its log then, or was made for a newcomer. */
  ghost predicate Made(before: System, step: Step, t: string, log: seq<Event>) {
    && (step == Announce || step == Watch)
    && DoneReading(before) && !before.phase.purpose.ForSelection? && before.phase.serviceType == t
    && |log| == |LogOf(before, t)| + if step == Announce then 1 else 0
  }

  lemma QuietEventIsCurrent(lifecycle: Option<Lifecycle>, steps: seq<Step>, t: string, e: Event, b: int, k: nat, before: System)
    requires Exec(Start(lifecycle), steps).Some? && Exec(Start(lifecycle), steps).value.phase == Idle
    requires k < |steps| && Exec(Start(lifecycle), steps[..k]) == Some(before)
    requires Made(before, steps[k], t, LogOf(Exec(Start(lifecycle), steps).value, t))
    requires UnderwaySince(Start(lifecycle), steps, b, k) && Tells(Start(lifecycle), steps, t, e, b, k)
    requires NothingSilent(Start(lifecycle), steps, b, t)
    ensures e == ServiceEvent(Exec(Start(lifecycle), steps).value.registry, t)
  {
    LogAfter(Start(lifecycle), steps, k, t);
    MadeEventIsCurrent(Start(lifecycle), steps, t, e, b, k);
    MakingKeepsRegistry(before, steps[k], t);
    MadeEventStays(lifecycle, steps, t, b, k + 1, Exec(Start(lifecycle), steps[..k + 1]).value);
  }

  /** An event made at step `k`, after which nothing was announced for its type. */
  lemma LastMadeStillTells(lifecycle: Option<Lifecycle>, steps: seq<Step>, t: string, k: nat) returns (b: int)
    requires Exec(Start(lifecycle), steps).Some? && Exec(Start(lifecycle), steps).value.phase == Idle
    requires k < |steps| && Exec(Start(lifecycle), steps[..k]).Some?
    requires Made(Exec(Start(lifecycle), steps[..k]).value, steps[k], t, LogOf(Exec(Start(lifecycle), steps).value, t))
    ensures StillTells(Start(lifecycle), steps, t, EventMade(Exec(Start(lifecycle), steps[..k]).value), b, k)
  {
    var before := Exec(Start(lifecycle), steps[..k]).value;
    b := FinishedReaderTells(lifecycle, steps, k);
    if NothingSilent(Start(lifecycle), steps, b, t) {
      QuietEventIsCurrent(lifecycle, steps, t, EventMade(before), b, k, before);
    }
  }

  function Last(events: seq<Event>): Event
    requires events != []
  {
    events[|events| - 1]
  }

  /** What was emitted last: the last announcement, or the initial event if there was none since. */
  lemma LastEmitted(s: System, t: string, w: nat)
    requires Invariant(s) && s.phase == Idle && w in Listed(s, t)
    ensures w in s.watchers && s.watchers[w].serviceType == t && s.watchers[w].emitted != []
    ensures var v, log := s.watchers[w], LogOf(s, t);
            && v.since <= |log|
            && Last(v.emitted) == if v.since < |log| then Last(log) else v.initial
  {
    assert ListOk(s, t) && WatcherOk(s, w);
  }

  /** The `k`th step of the run made the last event that was emitted to the watcher: the step that announced
      the last event of its type, or, if that was before its registration, the one that registered it. */
  ghost predicate MadeLast(s: System, steps: seq<Step>, w: nat, k: int) {
    && Exec(s, steps).Some? && w in Exec(s, steps).value.watchers
    && var v := Exec(s, steps).value.watchers[w];
    && var n := |LogOf(Exec(s, steps).value, v.serviceType)|;
    && if v.since < n then AnnouncedAt(s, steps, v.serviceType, n - 1, k) else RegisteredAt(s, steps, w, v, k)
  }

  /** In every interleaving, whenever nobody holds the lock, the last event emitted to a listed watcher is
      that of the registry, unless something has changed without an announcement since its building began. */
  lemma LastEventIsCurrent(lifecycle: Option<Lifecycle>, steps: seq<Step>, t: string, w: nat)
    requires Exec(Start(lifecycle), steps).Some? && Exec(Start(lifecycle), steps).value.phase == Idle
    requires w in Listed(Exec(Start(lifecycle), steps).value, t)
    ensures var s := Exec(Start(lifecycle), steps).value;
            && w in s.watchers && s.watchers[w].serviceType == t && s.watchers[w].emitted != []
            && exists b, k :: MadeLast(Start(lifecycle), steps, w, k)
                           && StillTells(Start(lifecycle), steps, t, Last(s.watchers[w].emitted), b, k)
  {
    var s := Exec(Start(lifecycle), steps).value;
    StartSatisfiesInvariant(lifecycle);
    RunKeepsInvariant(Start(lifecycle), steps);
    LastEmitted(s, t, w);
    var k;
    if s.watchers[w].since < |LogOf(s, t)| {
      k := NewEntriesAreAnnounced(Start(lifecycle), steps, t, |LogOf(s, t)| - 1);
    } else {
      k := WatchersAreRegistered(Start(lifecycle), steps, w);
    }
    assert MadeLast(Start(lifecycle), steps, w, k);
    var b := LastMadeStillTells(lifecycle, steps, t, k);
  }

  lemma LogAfter(s: System, steps: seq<Step>, k: nat, t: string)
    requires k < |steps| && Exec(s, steps).Some? && Exec(s, steps[..k]).Some?
    ensures Exec(s, steps[..k + 1]).Some? && Next(Exec(s, steps[..k]).value, steps[k]) == Some(Exec(s, steps[..k + 1]).value)
    ensures LogOf(Exec(s, steps[..k + 1]).value, t) ==
            LogOf(Exec(s, steps[..k]).value, t)
            + if steps[k] == Announce && Exec(s, steps[..k]).value.phase.serviceType == t then [EventMade(Exec(s, steps[..k]).value)] else []
    ensures LogOf(Exec(s, steps[..k + 1]).value, t) <= LogOf(Exec(s, steps).value, t)
  {
    Runs.PrefixRuns(Next, s, steps, k + 1);
    assert steps[..k + 1][..k] == steps[..k];
    Runs.LastStep(Next, s, steps[..k + 1]);
    StepLogs(Exec(s, steps[..k]).value, steps[k], t);
    assert steps == steps[..k + 1] + steps[k + 1..];
    Runs.ExecConcat(Next, s, steps[..k + 1], steps[k + 1..]);
    LogOnlyGrows(Exec(s, steps[..k + 1]).value, steps[k + 1..], t);
  }
}
