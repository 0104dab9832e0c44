/** Building an event while plugins go on reporting: what the reads decide, and when the event tells
    what a selection would have returned at some moment of its building. */
module EventBuilds {
  import opened Wrappers
  import opened Registry

  /** The registry after the first `i` moves. */
  function StateAt(r: Registry, moves: seq<Move>, i: int): Registry
    requires 0 <= i <= |moves|
  {
    r.(lifecycle := HealthAfter(r.lifecycle, moves[..i]))
  }

  /** The moves read all the providers of `t`. */
  predicate Builds(r: Registry, t: string, moves: seq<Move>) {
    Completes(r.lifecycle, ProvidersOf(r, t), moves)
  }

  ghost predicate TellsSomeState(r: Registry, t: string, moves: seq<Move>, e: Event) {
    exists i :: 0 <= i <= |moves| && TellsSelection(StateAt(r, moves, i), t, e)
  }

  // ---------------------------------------------------------------- what the reads decide

  /** The health states at each read. */
  ghost function ReadsOf(x: Scan, moves: seq<Move>): seq<Option<Lifecycle>> {
    if moves == [] then []
    else
      var front := moves[..|moves| - 1];
      ReadsOf(x, front) + if moves[|moves| - 1] == Read && Scanned(x, front).todo != [] then [Scanned(x, front).lifecycle] else []
  }

  /** Entry `j` is the first of the list that was routable when it was read. */
  ghost predicate FirstRoutable(list: seq<ServiceProvider>, seen: seq<Option<Lifecycle>>, j: int)
    requires |seen| <= |list|
  {
    0 <= j < |seen| && Routable(seen[j], list[j]) && forall k :: 0 <= k < j ==> !Routable(seen[k], list[k])
  }

  ghost predicate NoneRoutable(list: seq<ServiceProvider>, seen: seq<Option<Lifecycle>>)
    requires |seen| <= |list|
  {
    forall k :: 0 <= k < |seen| ==> !Routable(seen[k], list[k])
  }

  ghost predicate KeptByReads(list: seq<ServiceProvider>, seen: seq<Option<Lifecycle>>, kept: seq<ServiceProvider>)
    requires |seen| <= |list|
  {
    if kept == [] then NoneRoutable(list, seen)
    else exists j :: FirstRoutable(list, seen, j) && kept[0] == list[j]
  }

  lemma {:induction false} ReadsDecide(lifecycle: Option<Lifecycle>, list: seq<ServiceProvider>, moves: seq<Move>)
    requires lifecycle.Some?
    ensures var x, seen := Scanned(Opening(lifecycle, list), moves), ReadsOf(Opening(lifecycle, list), moves);
            |seen| + |x.todo| == |list| && x.todo == list[|seen|..] && KeptByReads(list, seen, x.kept)
  {
    if moves != [] {
      var front := moves[..|moves| - 1];
      ReadsDecide(lifecycle, list, front);
      var x, seen := Scanned(Opening(lifecycle, list), front), ReadsOf(Opening(lifecycle, list), front);
      if moves[|moves| - 1] == Read && x.todo != [] {
        OneMoreRead(list, seen, x);
      }
    }
  }

  lemma OneMoreRead(list: seq<ServiceProvider>, seen: seq<Option<Lifecycle>>, x: Scan)
    requires |seen| + |x.todo| == |list| && x.todo == list[|seen|..] && x.todo != [] && KeptByReads(list, seen, x.kept)
    ensures KeptByReads(list, seen + [x.lifecycle], Moved(x, Read).kept)
  {
    var more := seen + [x.lifecycle];
    if x.kept != [] {
      var j :| FirstRoutable(list, seen, j) && x.kept[0] == list[j];
      assert FirstRoutable(list, more, j);
    } else if Routable(x.lifecycle, x.todo[0]) {
      assert FirstRoutable(list, more, |seen|);
    }
  }

  /** The `j`th read is one of the moves, and reads the states of that moment. */
  lemma {:induction false} ReadMoment(x: Scan, moves: seq<Move>, j: nat) returns (i: nat)
    requires j < |ReadsOf(x, moves)|
    ensures i < |moves| && moves[i] == Read && |ReadsOf(x, moves[..i])| == j
    ensures ReadsOf(x, moves)[j] == HealthAfter(x.lifecycle, moves[..i])
  {
    var front := moves[..|moves| - 1];
    if j < |ReadsOf(x, front)| {
      i := ReadMoment(x, front, j);
      assert moves[..i] == front[..i];
    } else {
      i := |front|;
      ScanFollowsHealth(x, front);
    }
  }

  /** What was read decides the event: it says unavailable exactly when each provider was unroutable at its
      own read, and otherwise names the first one that was routable at its own. */
  ghost predicate TellsReads(r: Registry, t: string, moves: seq<Move>, e: Event) {
    var list, seen := ProvidersOf(r, t), ReadsOf(Opening(r.lifecycle, ProvidersOf(r, t)), moves);
    && |seen| == |list|
    && (e.state == ServiceUnavailable <==> NoneRoutable(list, seen))
    && (e.endpoint.None? <==> e.state == ServiceUnavailable)
    && (e.endpoint.Some? ==> exists j :: FirstRoutable(list, seen, j) && e.endpoint.value == EndpointOf(list[j]))
  }

  lemma EventTellsReads(r: Registry, t: string, moves: seq<Move>)
    requires Builds(r, t, moves) && r.lifecycle.Some?
    ensures TellsReads(r, t, moves, BuiltEvent(r, t, moves))
  {
    ReadsDecide(r.lifecycle, ProvidersOf(r, t), moves);
  }

  /** The event says degraded if and only if it names a provider whose last report was that. */
  lemma DegradedIffReported(r: Registry, t: string, moves: seq<Move>)
    ensures var e := BuiltEvent(r, t, moves);
            && (e.endpoint.None? <==> e.state == ServiceUnavailable)
            && (e.state == ServiceDegraded <==>
                  && e.endpoint.Some? && r.lifecycle.Some?
                  && LastKnown(r.lifecycle.value, moves, e.endpoint.value.providerID) == Some(Degraded))
  {
    HealthStaysTracked(r.lifecycle, moves);
    if r.lifecycle.Some? && BuiltEvent(r, t, moves).endpoint.Some? {
      HealthIsLastKnown(r.lifecycle, moves, BuiltEvent(r, t, moves).endpoint.value.providerID);
    }
  }

  // ---------------------------------------------------------------- undisturbed builds

  lemma {:induction false} UndisturbedHealth(r: Registry, list: seq<ServiceProvider>, moves: seq<Move>, p: ServiceProvider)
    requires Undisturbed(list, moves) && p in list
    ensures var now := HealthAfter(r.lifecycle, moves);
            && now.Some? == r.lifecycle.Some?
            && (now.Some? ==> (p.runtimeID in now.value <==> p.runtimeID in r.lifecycle.value))
            && (now.Some? && p.runtimeID in now.value ==> now.value[p.runtimeID] == r.lifecycle.value[p.runtimeID])
  {
    if moves != [] {
      var front := moves[..|moves| - 1];
      assert forall i :: 0 <= i < |front| ==> front[i] == moves[i];
      UndisturbedHealth(r, list, front, p);
    }
  }

  /** One more read, of an entry whose routability is what it was at the outset. */
  lemma KeepNext(list: seq<ServiceProvider>, x: Scan, lifecycle: Option<Lifecycle>)
    requires 0 < |x.todo| <= |list|
    requires var n := |list| - |x.todo|;
             && x.todo == list[n..] && x.kept == Available(list[..n], lifecycle)
             && (Routable(x.lifecycle, list[n]) <==> Routable(lifecycle, list[n]))
    ensures Moved(x, Read).kept == Available(list[..|list| - |x.todo| + 1], lifecycle)
  {
    var n := |list| - |x.todo|;
    assert list[..n + 1][..n] == list[..n];
    AvailableStep(list[..n + 1], lifecycle);
  }

  lemma UndisturbedRead(r: Registry, list: seq<ServiceProvider>, moves: seq<Move>)
    requires Undisturbed(list, moves)
    requires var x := Scanned(Opening(r.lifecycle, list), moves);
             && 0 < |x.todo| <= |list| && x.todo == list[|list| - |x.todo|..]
             && x.kept == Available(list[..|list| - |x.todo|], r.lifecycle)
    ensures var x := Scanned(Opening(r.lifecycle, list), moves);
            Moved(x, Read).kept == Available(list[..|list| - |x.todo| + 1], r.lifecycle)
  {
    var x := Scanned(Opening(r.lifecycle, list), moves);
    ScanFollowsHealth(Opening(r.lifecycle, list), moves);
    UndisturbedHealth(r, list, moves, list[|list| - |x.todo|]);
    KeepNext(list, x, r.lifecycle);
  }

  lemma {:induction false} UndisturbedScan(r: Registry, list: seq<ServiceProvider>, moves: seq<Move>)
    requires Undisturbed(list, moves) && r.lifecycle.Some?
    ensures var x := Scanned(Opening(r.lifecycle, list), moves);
            |x.todo| <= |list| && x.todo == list[|list| - |x.todo|..]
            && x.kept == Available(list[..|list| - |x.todo|], r.lifecycle)
  {
    if moves != [] {
      var front := moves[..|moves| - 1];
      assert forall i :: 0 <= i < |front| ==> front[i] == moves[i];
      UndisturbedScan(r, list, front);
      var x := Scanned(Opening(r.lifecycle, list), front);
      if moves[|moves| - 1] == Read && x.todo != [] {
        UndisturbedRead(r, list, front);
      }
    }
  }

  lemma {:induction false} UntrackedScan(list: seq<ServiceProvider>, moves: seq<Move>)
    ensures Scanned(Opening(None, list), moves) == Scan(None, [], list)
  {
    if moves != [] { UntrackedScan(list, moves[..|moves| - 1]); }
  }

  lemma UndisturbedState(r: Registry, t: string, moves: seq<Move>, i: int)
    requires Undisturbed(ProvidersOf(r, t), moves) && 0 <= i <= |moves|
    ensures Available(ProvidersOf(r, t), StateAt(r, moves, i).lifecycle) == Available(ProvidersOf(r, t), r.lifecycle)
    ensures ServiceEvent(StateAt(r, moves, i), t) == ServiceEvent(r, t)
  {
    var list, now := ProvidersOf(r, t), StateAt(r, moves, i).lifecycle;
    forall p | p in list
      ensures Routable(now, p) <==> Routable(r.lifecycle, p)
      ensures now.Some? == r.lifecycle.Some?
      ensures now.Some? ==> (p.runtimeID in now.value <==> p.runtimeID in r.lifecycle.value)
      ensures now.Some? && p.runtimeID in now.value ==> now.value[p.runtimeID] == r.lifecycle.value[p.runtimeID]
    {
      UndisturbedHealth(r, list, moves[..i], p);
    }
    SameRoutability(list, now, r.lifecycle);
    AvailableMembers(list, r.lifecycle);
  }

  lemma AvailableMembers(list: seq<ServiceProvider>, lifecycle: Option<Lifecycle>)
    ensures forall p :: p in Available(list, lifecycle) ==> p in list
  {
    if lifecycle.Some? {
      forall p ensures p in Available(list, lifecycle) ==> p in list { KeepMembers(list, RoutableIn(lifecycle.value), p); }
    }
  }

  /** While no plugin of the list reports, the filter leaves what is routable at the outset. */
  lemma UndisturbedFind(r: Registry, list: seq<ServiceProvider>, moves: seq<Move>)
    requires Completes(r.lifecycle, list, moves) && Undisturbed(list, moves)
    ensures Found(r.lifecycle, list, moves) == Available(list, r.lifecycle)
  {
    if r.lifecycle.Some? {
      UndisturbedScan(r, list, moves);
      assert list[..|list|] == list;
    } else {
      UntrackedScan(list, moves);
    }
  }

  /** So a selection chooses among the candidates of the outset. */
  lemma UndisturbedChoice(r: Registry, t: string, minVersion: string, moves: seq<Move>, random: nat)
    requires Completes(r.lifecycle, Demanded(r, t, minVersion), moves) && Undisturbed(Demanded(r, t, minVersion), moves)
    ensures ChooseDuring(r, t, minVersion, moves, random) == Choose(r, t, minVersion, random)
    ensures AfterChoice(r, t, minVersion, moves) ==
            AfterPick(r, t, Candidates(r, t, minVersion)).(lifecycle := HealthAfter(r.lifecycle, moves))
  {
    UndisturbedFind(r, Demanded(r, t, minVersion), moves);
  }

  /** While no plugin of the list reports, the event is that of the state, which tells the selection. */
  lemma UndisturbedBuild(r: Registry, t: string, moves: seq<Move>)
    requires Builds(r, t, moves) && Undisturbed(ProvidersOf(r, t), moves)
    ensures forall i :: 0 <= i <= |moves| ==>
              && BuiltEvent(r, t, moves) == ServiceEvent(StateAt(r, moves, i), t)
              && TellsSelection(StateAt(r, moves, i), t, BuiltEvent(r, t, moves))
  {
    UndisturbedFind(r, ProvidersOf(r, t), moves);
    assert moves[..|moves|] == moves;
    UndisturbedState(r, t, moves, |moves|);
    assert BuiltEvent(r, t, moves) == ServiceEvent(StateAt(r, moves, |moves|), t);
    forall i | 0 <= i <= |moves|
      ensures BuiltEvent(r, t, moves) == ServiceEvent(StateAt(r, moves, i), t)
      ensures TellsSelection(StateAt(r, moves, i), t, BuiltEvent(r, t, moves))
    {
      UndisturbedState(r, t, moves, i);
      EventMatchesSelection(StateAt(r, moves, i), t);
    }
  }

  // ---------------------------------------------------------------- disturbed builds

  /** All the entries make the same endpoint: they are registrations of one plugin that differ in nothing
      a client can see. */
  ghost predicate OneEndpoint(list: seq<ServiceProvider>) {
    forall i, j :: 0 <= i < |list| && 0 <= j < |list| ==> EndpointOf(list[i]) == EndpointOf(list[j])
  }

  ghost predicate OnePlugin(list: seq<ServiceProvider>) {
    forall i, j :: 0 <= i < |list| && 0 <= j < |list| ==> list[i].runtimeID == list[j].runtimeID
  }

  ghost predicate SomeRoutable(list: seq<ServiceProvider>, lifecycle: Option<Lifecycle>) {
    exists j :: 0 <= j < |list| && Routable(lifecycle, list[j])
  }

  lemma {:induction false} FirstAvailable(list: seq<ServiceProvider>, lifecycle: Option<Lifecycle>)
    ensures Available(list, lifecycle) == [] <==> !SomeRoutable(list, lifecycle)
    ensures list != [] && Routable(lifecycle, list[0]) ==> Available(list, lifecycle) != [] && Available(list, lifecycle)[0] == list[0]
  {
    if list != [] {
      var front := list[..|list| - 1];
      FirstAvailable(front, lifecycle);
      AvailableStep(list, lifecycle);
      if SomeRoutable(front, lifecycle) {
        var j :| 0 <= j < |front| && Routable(lifecycle, front[j]);
        assert list[j] == front[j];
      }
      if SomeRoutable(list, lifecycle) {
        var j :| 0 <= j < |list| && Routable(lifecycle, list[j]);
        if j < |front| { assert front[j] == list[j]; }
      }
    }
  }

  /** What it takes to tell the selection: the filtered list decides it. */
  lemma TellsIff(r: Registry, t: string, e: Event)
    requires e.serviceType == t && (e.endpoint.None? <==> e.state == ServiceUnavailable)
    ensures var available := Available(ProvidersOf(r, t), r.lifecycle);
            TellsSelection(r, t, e) <==>
              if available == [] then e.endpoint.None? else e.endpoint == Some(EndpointOf(available[0]))
  {
    var list := ProvidersOf(r, t);
    assert ProvidersOf(r.(selection := r.selection[t := SelectionFirst]), t) == list;
    assert Candidates(r, t, "") == Available(list, r.lifecycle);
    assert Choose(r, t, "", 0).Selected? <==> Available(list, r.lifecycle) != [] by {
      if list == [] { assert Available(list, r.lifecycle) == []; }
    }
    assert Candidates(r.(selection := r.selection[t := SelectionFirst]), t, "") == Available(list, r.lifecycle);
  }

  lemma EventShape(r: Registry, t: string, moves: seq<Move>)
    ensures var e, found := BuiltEvent(r, t, moves), Found(r.lifecycle, ProvidersOf(r, t), moves);
            && e.serviceType == t && (e.endpoint.None? <==> e.state == ServiceUnavailable)
            && e.endpoint == if found == [] then None else Some(EndpointOf(found[0]))
  {
  }

  /** With a single endpoint, the event tells the selection of the state at one of its reads. */
  lemma OneEndpointTells(r: Registry, t: string, moves: seq<Move>)
    requires Builds(r, t, moves) && r.lifecycle.Some? && OneEndpoint(ProvidersOf(r, t))
    ensures TellsSomeState(r, t, moves, BuiltEvent(r, t, moves))
  {
    var list, x, e := ProvidersOf(r, t), Opening(r.lifecycle, ProvidersOf(r, t)), BuiltEvent(r, t, moves);
    var seen, found := ReadsOf(x, moves), Scanned(x, moves).kept;
    EventShape(r, t, moves);
    ReadsDecide(r.lifecycle, list, moves);
    if list == [] {
      TellsIff(StateAt(r, moves, 0), t, e);
      FirstAvailable(list, StateAt(r, moves, 0).lifecycle);
      assert TellsSelection(StateAt(r, moves, 0), t, e);
    } else {
      var j := 0;
      if found != [] { j :| FirstRoutable(list, seen, j) && found[0] == list[j]; }
      var i := ReadMoment(x, moves, j);
      var now := StateAt(r, moves, i);
      assert now.lifecycle == seen[j];
      assert forall k :: 0 <= k < |list| ==> EndpointOf(list[k]).providerID == EndpointOf(list[j]).providerID;
      assert forall k :: 0 <= k < |list| ==> (Routable(now.lifecycle, list[k]) <==> Routable(now.lifecycle, list[j]));
      FirstAvailable(list, now.lifecycle);
      TellsIff(now, t, e);
      assert TellsSelection(now, t, e);
    }
  }

  lemma UntrackedTells(r: Registry, t: string, moves: seq<Move>)
    requires r.lifecycle.None?
    ensures TellsSomeState(r, t, moves, BuiltEvent(r, t, moves))
  {
    UntrackedScan(ProvidersOf(r, t), moves);
    EventShape(r, t, moves);
    TellsIff(StateAt(r, moves, 0), t, BuiltEvent(r, t, moves));
    assert TellsSelection(StateAt(r, moves, 0), t, BuiltEvent(r, t, moves));
  }

  /** In every state of the moves, some provider of the list is routable. */
  ghost predicate AlwaysSome(list: seq<ServiceProvider>, lifecycle: Option<Lifecycle>, moves: seq<Move>) {
    forall i :: 0 <= i <= |moves| ==> SomeRoutable(list, HealthAfter(lifecycle, moves[..i]))
  }

  lemma AlwaysOneMore(list: seq<ServiceProvider>, lifecycle: Option<Lifecycle>, moves: seq<Move>, move: Move)
    requires AlwaysSome(list, lifecycle, moves) && SomeRoutable(list, HealthAfter(lifecycle, moves + [move]))
    ensures AlwaysSome(list, lifecycle, moves + [move])
  {
    var all := moves + [move];
    forall i | 0 <= i <= |all| ensures SomeRoutable(list, HealthAfter(lifecycle, all[..i])) {
      if i <= |moves| { assert all[..i] == moves[..i]; } else { assert all[..i] == all; }
    }
  }

  /** Before each read, another plugin reports healthy and the one to be read unhealthy: every read misses
      while somebody is always routable. `a` and `b` are two of the entries, of different plugins. */
  function MissingMoves(list: seq<ServiceProvider>, a: ServiceProvider, b: ServiceProvider, n: nat): seq<Move>
    requires n <= |list|
  {
    if n == 0 then []
    else
      var p := list[n - 1].runtimeID;
      var other := if p == a.runtimeID then b.runtimeID else a.runtimeID;
      MissingMoves(list, a, b, n - 1) + [Report(other, Healthy)] + [Report(p, Unhealthy)] + [Read]
  }

  lemma {:induction false} MissingMovesMiss(lifecycle: Option<Lifecycle>, list: seq<ServiceProvider>, a: ServiceProvider, b: ServiceProvider, n: nat)
    requires n <= |list| && lifecycle.Some? && a in list && b in list && a.runtimeID != b.runtimeID && SomeRoutable(list, lifecycle)
    ensures var moves := MissingMoves(list, a, b, n);
            && AlwaysSome(list, lifecycle, moves) && HealthAfter(lifecycle, moves).Some?
            && Scanned(Opening(lifecycle, list), moves).todo == list[n..]
            && Scanned(Opening(lifecycle, list), moves).kept == []
  {
    if n > 0 {
      MissingMovesMiss(lifecycle, list, a, b, n - 1);
      MissOne(lifecycle, list, MissingMoves(list, a, b, n - 1), if list[n - 1].runtimeID == a.runtimeID then b else a);
    }
  }

  lemma MissOne(lifecycle: Option<Lifecycle>, list: seq<ServiceProvider>, moves: seq<Move>, other: ServiceProvider)
    requires var x := Scanned(Opening(lifecycle, list), moves);
             && x.todo != [] && x.kept == [] && x.todo[0].runtimeID != other.runtimeID
    requires other in list && AlwaysSome(list, lifecycle, moves) && HealthAfter(lifecycle, moves).Some?
    ensures var x := Scanned(Opening(lifecycle, list), moves);
            var all := moves + [Report(other.runtimeID, Healthy)] + [Report(x.todo[0].runtimeID, Unhealthy)] + [Read];
            && AlwaysSome(list, lifecycle, all) && HealthAfter(lifecycle, all).Some?
            && Scanned(Opening(lifecycle, list), all).todo == x.todo[1..] && Scanned(Opening(lifecycle, list), all).kept == []
  {
    var start := Opening(lifecycle, list);
    var p := Scanned(start, moves).todo[0].runtimeID;
    var one := moves + [Report(other.runtimeID, Healthy)];
    var two := one + [Report(p, Unhealthy)];
    var j :| 0 <= j < |list| && list[j] == other;
    ScanFollowsHealth(start, moves);
    HealthOneMore(lifecycle, moves, Report(other.runtimeID, Healthy));
    assert Routable(HealthAfter(lifecycle, one), list[j]);
    AlwaysOneMore(list, lifecycle, moves, Report(other.runtimeID, Healthy));
    HealthOneMore(lifecycle, one, Report(p, Unhealthy));
    assert Routable(HealthAfter(lifecycle, two), list[j]);
    AlwaysOneMore(list, lifecycle, one, Report(p, Unhealthy));
    HealthOneMore(lifecycle, two, Read);
    AlwaysOneMore(list, lifecycle, two, Read);
    ScanOneMore(start, moves, Report(other.runtimeID, Healthy));
    ScanOneMore(start, one, Report(p, Unhealthy));
    ScanOneMore(start, two, Read);
  }

  /** If some of several plugins is routable at the outset, all of them can be missed. */
  lemma AllCanBeMissed(r: Registry, t: string) returns (moves: seq<Move>)
    requires r.lifecycle.Some? && !OnePlugin(ProvidersOf(r, t)) && SomeRoutable(ProvidersOf(r, t), r.lifecycle)
    ensures Builds(r, t, moves) && BuiltEvent(r, t, moves).state == ServiceUnavailable
    ensures forall i :: 0 <= i <= |moves| ==> Available(ProvidersOf(r, t), StateAt(r, moves, i).lifecycle) != []
  {
    var list := ProvidersOf(r, t);
    var i, j :| 0 <= i < |list| && 0 <= j < |list| && list[i].runtimeID != list[j].runtimeID;
    moves := MissingMoves(list, list[i], list[j], |list|);
    MissingMovesMiss(r.lifecycle, list, list[i], list[j], |list|);
    forall k | 0 <= k <= |moves| ensures Available(list, StateAt(r, moves, k).lifecycle) != [] {
      FirstAvailable(list, StateAt(r, moves, k).lifecycle);
    }
  }

  /** `n` reads in a row. */
  function Reading(n: nat): seq<Move> {
    if n == 0 then [] else Reading(n - 1) + [Read]
  }

  lemma {:induction false} ReadingMisses(x: Scan, n: nat)
    requires n <= |x.todo| && forall k :: 0 <= k < n ==> !Routable(x.lifecycle, x.todo[k])
    ensures Scanned(x, Reading(n)) == Scan(x.lifecycle, x.todo[n..], x.kept)
  {
    if n > 0 {
      ReadingMisses(x, n - 1);
      ScanOneMore(x, Reading(n - 1), Read);
    }
  }

  lemma {:induction false} ReadingKeeps(x: Scan, n: nat)
    requires n <= |x.todo| && x.kept == [] && x.todo != [] && Routable(x.lifecycle, x.todo[0])
    ensures var y := Scanned(x, Reading(n));
            && y.lifecycle == x.lifecycle && y.todo == x.todo[n..]
            && (n > 0 ==> y.kept != [] && y.kept[0] == x.todo[0])
            && (n == 0 ==> y.kept == [])
  {
    if n > 0 {
      ReadingKeeps(x, n - 1);
      ScanOneMore(x, Reading(n - 1), Read);
    }
  }

  /** The health states stay among a few during the moves. */
  ghost predicate StaysAmong(H: set<Option<Lifecycle>>, lifecycle: Option<Lifecycle>, moves: seq<Move>) {
    forall i :: 0 <= i <= |moves| ==> HealthAfter(lifecycle, moves[..i]) in H
  }

  lemma AmongOneMore(H: set<Option<Lifecycle>>, lifecycle: Option<Lifecycle>, moves: seq<Move>, move: Move)
    requires StaysAmong(H, lifecycle, moves) && HealthAfter(lifecycle, moves + [move]) in H
    ensures StaysAmong(H, lifecycle, moves + [move])
  {
    var all := moves + [move];
    forall i | 0 <= i <= |all| ensures HealthAfter(lifecycle, all[..i]) in H {
      if i <= |moves| { assert all[..i] == moves[..i]; } else { assert all[..i] == all; }
    }
  }

  lemma {:induction false} AmongReads(H: set<Option<Lifecycle>>, lifecycle: Option<Lifecycle>, moves: seq<Move>, n: nat)
    requires StaysAmong(H, lifecycle, moves)
    ensures StaysAmong(H, lifecycle, moves + Reading(n))
    ensures HealthAfter(lifecycle, moves + Reading(n)) == HealthAfter(lifecycle, moves)
  {
    if n == 0 {
      assert moves + [] == moves;
    } else {
      AmongReads(H, lifecycle, moves, n - 1);
      assert moves + Reading(n) == (moves + Reading(n - 1)) + [Read];
      HealthOneMore(lifecycle, moves + Reading(n - 1), Read);
      assert HealthAfter(lifecycle, moves) in H by { assert moves[..|moves|] == moves; }
      AmongOneMore(H, lifecycle, moves + Reading(n - 1), Read);
    }
  }

  /** Keep the first plugin unroutable until entry `j` is next, */
  function WaitFor(list: seq<ServiceProvider>, j: nat): seq<Move>
    requires 0 < j < |list|
  {
    [Report(list[0].runtimeID, Unhealthy)] + Reading(j)
  }

  /** then make it and that of entry `j` routable, */
  function WaitAndRaise(list: seq<ServiceProvider>, j: nat): seq<Move>
    requires 0 < j < |list|
  {
    WaitFor(list, j) + [Report(list[0].runtimeID, Healthy)] + [Report(list[j].runtimeID, Healthy)]
  }

  /** and read on. */
  function LateMoves(list: seq<ServiceProvider>, j: nat): seq<Move>
    requires 0 < j < |list|
  {
    WaitAndRaise(list, j) + Reading(|list| - j)
  }

  function DownFirst(list: seq<ServiceProvider>, lifecycle: Option<Lifecycle>): Option<Lifecycle>
    requires list != []
  {
    Reported(lifecycle, list[0].runtimeID, Unhealthy)
  }

  function UpAgain(list: seq<ServiceProvider>, lifecycle: Option<Lifecycle>): Option<Lifecycle>
    requires list != []
  {
    Reported(DownFirst(list, lifecycle), list[0].runtimeID, Healthy)
  }

  function BothUp(list: seq<ServiceProvider>, lifecycle: Option<Lifecycle>, j: nat): Option<Lifecycle>
    requires j < |list|
  {
    Reported(UpAgain(list, lifecycle), list[j].runtimeID, Healthy)
  }

  lemma WaitForHealth(H: set<Option<Lifecycle>>, lifecycle: Option<Lifecycle>, list: seq<ServiceProvider>, j: nat)
    requires 0 < j < |list| && lifecycle in H && DownFirst(list, lifecycle) in H
    ensures StaysAmong(H, lifecycle, WaitFor(list, j)) && HealthAfter(lifecycle, WaitFor(list, j)) == DownFirst(list, lifecycle)
  {
    AmongFirst(H, lifecycle, list[0].runtimeID, Unhealthy);
    AmongReads(H, lifecycle, [Report(list[0].runtimeID, Unhealthy)], j);
  }

  lemma AmongFirst(H: set<Option<Lifecycle>>, lifecycle: Option<Lifecycle>, runtimeID: string, health: Health)
    requires lifecycle in H && Reported(lifecycle, runtimeID, health) in H
    ensures HealthAfter(lifecycle, [Report(runtimeID, health)]) == Reported(lifecycle, runtimeID, health)
    ensures StaysAmong(H, lifecycle, [Report(runtimeID, health)])
  {
    var none: seq<Move> := [];
    assert none + [Report(runtimeID, health)] == [Report(runtimeID, health)];
    HealthOneMore(lifecycle, none, Report(runtimeID, health));
    assert forall i :: 0 <= i <= |none| ==> none[..i] == none;
    AmongOneMore(H, lifecycle, none, Report(runtimeID, health));
  }

  lemma WaitAndRaiseHealth(H: set<Option<Lifecycle>>, lifecycle: Option<Lifecycle>, list: seq<ServiceProvider>, j: nat)
    requires 0 < j < |list| && lifecycle in H && DownFirst(list, lifecycle) in H
    requires UpAgain(list, lifecycle) in H && BothUp(list, lifecycle, j) in H
    ensures StaysAmong(H, lifecycle, WaitAndRaise(list, j))
  {
    var up, both := Report(list[0].runtimeID, Healthy), Report(list[j].runtimeID, Healthy);
    var m := WaitFor(list, j);
    WaitForHealth(H, lifecycle, list, j);
    HealthOneMore(lifecycle, m, up);
    AmongOneMore(H, lifecycle, m, up);
    HealthOneMore(lifecycle, m + [up], both);
    AmongOneMore(H, lifecycle, m + [up], both);
  }

  lemma LateMovesHealth(lifecycle: Option<Lifecycle>, list: seq<ServiceProvider>, j: nat)
    requires 0 < j < |list|
    ensures StaysAmong({lifecycle, DownFirst(list, lifecycle), UpAgain(list, lifecycle), BothUp(list, lifecycle, j)},
                       lifecycle, LateMoves(list, j))
  {
    var H := {lifecycle, DownFirst(list, lifecycle), UpAgain(list, lifecycle), BothUp(list, lifecycle, j)};
    WaitAndRaiseHealth(H, lifecycle, list, j);
    AmongReads(H, lifecycle, WaitAndRaise(list, j), |list| - j);
  }

  lemma WaitForFinds(lifecycle: Option<Lifecycle>, list: seq<ServiceProvider>, j: nat)
    requires lifecycle.Some? && 0 < j < |list| && forall k :: 0 <= k < j ==> list[k].runtimeID == list[0].runtimeID
    ensures Scanned(Opening(lifecycle, list), WaitFor(list, j)) == Scan(DownFirst(list, lifecycle), list[j..], [])
  {
    var down := Report(list[0].runtimeID, Unhealthy);
    var x := Opening(lifecycle, list);
    assert [] + [down] == [down];
    ScanOneMore(x, [], down);
    ReadingMisses(Scanned(x, [down]), j);
    ScanConcat(x, [down], Reading(j));
  }

  lemma WaitAndRaiseFinds(lifecycle: Option<Lifecycle>, list: seq<ServiceProvider>, j: nat)
    requires lifecycle.Some? && 0 < j < |list| && forall k :: 0 <= k < j ==> list[k].runtimeID == list[0].runtimeID
    ensures Scanned(Opening(lifecycle, list), WaitAndRaise(list, j)) == Scan(BothUp(list, lifecycle, j), list[j..], [])
  {
    var m, up := WaitFor(list, j), Report(list[0].runtimeID, Healthy);
    WaitForFinds(lifecycle, list, j);
    ScanOneMore(Opening(lifecycle, list), m, up);
    ScanOneMore(Opening(lifecycle, list), m + [up], Report(list[j].runtimeID, Healthy));
  }

  lemma LateMovesFind(lifecycle: Option<Lifecycle>, list: seq<ServiceProvider>, j: nat)
    requires lifecycle.Some? && 0 < j < |list| && forall k :: 0 <= k < j ==> list[k].runtimeID == list[0].runtimeID
    ensures Completes(lifecycle, list, LateMoves(list, j))
    ensures Found(lifecycle, list, LateMoves(list, j)) != [] && Found(lifecycle, list, LateMoves(list, j))[0] == list[j]
  {
    WaitAndRaiseFinds(lifecycle, list, j);
    ReadingKeeps(Scan(BothUp(list, lifecycle, j), list[j..], []), |list| - j);
    ScanConcat(Opening(lifecycle, list), WaitAndRaise(list, j), Reading(|list| - j));
  }

  /** No state on the way has entry `j` as its first routable one. */
  lemma LateMovesMislead(r: Registry, t: string, j: nat, h: Option<Lifecycle>, e: Event)
    requires r.lifecycle.Some? && 0 < j < |ProvidersOf(r, t)|
    requires !SomeRoutable(ProvidersOf(r, t), r.lifecycle) || OnePlugin(ProvidersOf(r, t))
    requires var list := ProvidersOf(r, t);
             && h in {r.lifecycle, DownFirst(list, r.lifecycle), UpAgain(list, r.lifecycle), BothUp(list, r.lifecycle, j)}
             && EndpointOf(list[j]) != EndpointOf(list[0])
             && e.serviceType == t && e.state != ServiceUnavailable && e.endpoint == Some(EndpointOf(list[j]))
    ensures !TellsSelection(r.(lifecycle := h), t, e)
  {
    var list := ProvidersOf(r, t);
    TellsIff(r.(lifecycle := h), t, e);
    FirstAvailable(list, h);
    assert SomeRoutable(list, h) ==> Routable(h, list[0]) by {
      if SomeRoutable(list, h) {
        var k :| 0 <= k < |list| && Routable(h, list[k]);
        if !OnePlugin(list) { assert !Routable(r.lifecycle, list[k]); }
      }
    }
  }

  /** Where several endpoints are listed, some reports in the course of the build mislead it. */
  lemma SomeBuildMisleads(r: Registry, t: string) returns (moves: seq<Move>)
    requires r.lifecycle.Some? && !OneEndpoint(ProvidersOf(r, t))
    ensures Builds(r, t, moves) && !TellsSomeState(r, t, moves, BuiltEvent(r, t, moves))
  {
    var list := ProvidersOf(r, t);
    if SomeRoutable(list, r.lifecycle) && !OnePlugin(list) {
      moves := AllCanBeMissed(r, t);
      forall i | 0 <= i <= |moves| ensures !TellsSelection(StateAt(r, moves, i), t, BuiltEvent(r, t, moves)) {
        EventShape(r, t, moves);
        TellsIff(StateAt(r, moves, i), t, BuiltEvent(r, t, moves));
      }
    } else {
      var j := FirstDifferent(list);
      moves := LateMoves(list, j);
      LateMovesFind(r.lifecycle, list, j);
      LateMovesHealth(r.lifecycle, list, j);
      EventShape(r, t, moves);
      forall i | 0 <= i <= |moves| ensures !TellsSelection(StateAt(r, moves, i), t, BuiltEvent(r, t, moves)) {
        LateMovesMislead(r, t, j, HealthAfter(r.lifecycle, moves[..i]), BuiltEvent(r, t, moves));
      }
    }
  }

  lemma FirstDifferent(list: seq<ServiceProvider>) returns (j: nat)
    requires !OneEndpoint(list)
    ensures 0 < j < |list| && EndpointOf(list[j]) != EndpointOf(list[0])
    ensures forall k :: 0 <= k < j ==> list[k].runtimeID == list[0].runtimeID
  {
    j := 1;
    while j < |list| && EndpointOf(list[j]) == EndpointOf(list[0])
      invariant 1 <= j <= |list|
      invariant forall k :: 0 <= k < j ==> EndpointOf(list[k]) == EndpointOf(list[0])
    {
      j := j + 1;
    }
    assert forall k :: 0 <= k < j ==> EndpointOf(list[k]).providerID == EndpointOf(list[0]).providerID;
  }

  /** The exact condition: whatever is reported while an event is built, it tells what a selection would have
      returned at some moment of its building, if and only if health is not tracked or the list makes a
      single endpoint. */
  lemma EventTellsIff(r: Registry, t: string)
    ensures r.lifecycle.None? || OneEndpoint(ProvidersOf(r, t)) <==>
            forall moves :: Builds(r, t, moves) ==> TellsSomeState(r, t, moves, BuiltEvent(r, t, moves))
  {
    if r.lifecycle.None? || OneEndpoint(ProvidersOf(r, t)) {
      forall moves | Builds(r, t, moves) ensures TellsSomeState(r, t, moves, BuiltEvent(r, t, moves)) {
        if r.lifecycle.None? { UntrackedTells(r, t, moves); } else { OneEndpointTells(r, t, moves); }
      }
    } else {
      var moves := SomeBuildMisleads(r, t);
    }
  }

  const TWICE := [
    ServiceProvider("r1", "a", "t", "1.0.0", "/", map[]),
    ServiceProvider("r2", "a", "t", "2.0.0", "/", map[])]

  /** A single plugin is not enough for that: registered twice, at different versions, it can be unroutable at
      the first read and routable at the second, so that the event names a version that no selection would. */
  lemma OnePluginIsNotEnough(r: Registry)
    requires r.lifecycle.Some? && ProvidersOf(r, "t") == TWICE
    ensures OnePlugin(ProvidersOf(r, "t"))
    ensures exists moves :: Builds(r, "t", moves) && !TellsSomeState(r, "t", moves, BuiltEvent(r, "t", moves))
  {
    assert EndpointOf(TWICE[0]).version != EndpointOf(TWICE[1]).version;
    EventTellsIff(r, "t");
  }

  /** The event is about availability what a selection would have been at some moment of its building. */
  ghost predicate TellsSomeAvailability(r: Registry, t: string, moves: seq<Move>, e: Event) {
    exists i :: 0 <= i <= |moves| && (e.state == ServiceUnavailable <==> Available(ProvidersOf(r, t), StateAt(r, moves, i).lifecycle) == [])
  }

  /** Availability alone is right about some moment if and only if, besides, a single plugin is listed, or
      nobody on the list is routable at the outset. */
  lemma AvailabilityTellsIff(r: Registry, t: string)
    ensures r.lifecycle.None? || OnePlugin(ProvidersOf(r, t)) || !SomeRoutable(ProvidersOf(r, t), r.lifecycle) <==>
            forall moves :: Builds(r, t, moves) ==> TellsSomeAvailability(r, t, moves, BuiltEvent(r, t, moves))
  {
    var list := ProvidersOf(r, t);
    if r.lifecycle.None? || OnePlugin(list) || !SomeRoutable(list, r.lifecycle) {
      forall moves | Builds(r, t, moves) ensures TellsSomeAvailability(r, t, moves, BuiltEvent(r, t, moves)) {
        AvailabilityTells(r, t, moves);
      }
    } else {
      var moves := AllCanBeMissed(r, t);
    }
  }

  lemma AvailabilityTells(r: Registry, t: string, moves: seq<Move>)
    requires Builds(r, t, moves)
    requires r.lifecycle.None? || OnePlugin(ProvidersOf(r, t)) || !SomeRoutable(ProvidersOf(r, t), r.lifecycle)
    ensures TellsSomeAvailability(r, t, moves, BuiltEvent(r, t, moves))
  {
    var list, x := ProvidersOf(r, t), Opening(r.lifecycle, ProvidersOf(r, t));
    EventShape(r, t, moves);
    if r.lifecycle.None? {
      UntrackedScan(list, moves);
      assert StateAt(r, moves, 0).lifecycle == r.lifecycle;
    } else {
      ReadsDecide(r.lifecycle, list, moves);
      FirstAvailable(list, r.lifecycle);
      var seen, found := ReadsOf(x, moves), Scanned(x, moves).kept;
      assert StateAt(r, moves, 0).lifecycle == r.lifecycle;
      if found != [] || (list != [] && OnePlugin(list)) {
        var j := 0;
        if found != [] { j :| FirstRoutable(list, seen, j) && found[0] == list[j]; }
        var i := ReadMoment(x, moves, j);
        assert StateAt(r, moves, i).lifecycle == seen[j];
        FirstAvailable(list, seen[j]);
      }
    }
  }
}
