/** The health watch protocol: one-slot channels that a setter drains and refills under the lock
    while their readers take from them without it. Every step below is one atomic action of the
    code, and a run interleaves the steps of setters, shutdowns and watchers in any order. */
module HealthWatch {
  import opened Wrappers
  import opened Streams
  import opened WatcherLists
  import Runs

  datatype Status = Unspecified | Serving | NotServing | ServiceUnknown

  /** Where a `Watch` call is: in its loop, on its way out, or past its cleanup. */
  datatype Stage = Streaming | Leaving | Gone

  /** One `Watch` call: its channel, the status it has taken from there and not dealt with yet, and
      its history: the status it was registered with, how much of the service's log precedes it, what
      it has taken from the channel, and what it has sent. */
  datatype Session = Session(
    service: string, slot: Option<Status>, inHand: Option<Status>, stage: Stage,
    initial: Status, since: nat, taken: seq<Status>, sent: seq<Status>)

  /** Who holds the lock: nobody; a shutdown between services, with `rest` still to be set; or a
      notifier, which has drained the first of the `pending` watchers or not yet. A plain setter
      is a notifier without `rest`. */
  datatype Phase =
    | Idle
    | Sweeping(rest: set<string>)
    | Notifying(service: string, status: Status, pending: seq<nat>, drained: bool, rest: set<string>)

  datatype System = System(
    shutdown: bool, statusMap: map<string, Status>,
    listed: map<string, seq<nat>>, sessions: map<nat, Session>,
    phase: Phase, log: map<string, seq<Status>>)

  const START := System(false, map["" := Serving], map[], map[], Idle, map[])

  datatype Step =
    | Register(watcher: nat, service: string)
    | Set(service: string, status: Status)
    | BeginShutdown
    | Sweep(service: string)
    | Drain
    | Put
    | NextService
    | Unlock
    | Take(watcher: nat)
    | Send(watcher: nat)
    | FailSend(watcher: nat)
    | Cancel(watcher: nat)
    | Cleanup(watcher: nat)

  function Current(s: System, v: string): Status {
    GetOr(s.statusMap, v, ServiceUnknown)
  }

  function Listed(s: System, v: string): seq<nat> {
    GetOr(s.listed, v, [])
  }

  function LogOf(s: System, v: string): seq<Status> {
    GetOr(s.log, v, [])
  }

  function Newcomer(v: string, status: Status, since: nat): Session {
    Session(v, Some(status), None, Streaming, status, since, [], [])
  }

  /** The streaming loop drops a status equal to the one it sent last. */
  predicate Repeats(sent: seq<Status>, status: Status) {
    sent != [] && sent[|sent| - 1] == status
  }

  function Taken(x: Session): Session
    requires x.slot.Some?
  {
    x.(slot := None, inHand := x.slot, taken := x.taken + [x.slot.value])
  }

  function Sent(x: Session): Session
    requires x.inHand.Some?
  {
    x.(inHand := None, sent := if Repeats(x.sent, x.inHand.value) then x.sent else x.sent + [x.inHand.value])
  }

  function Started(s: System, v: string, status: Status, rest: set<string>): System {
    s.(statusMap := s.statusMap[v := status],
       log := s.log[v := LogOf(s, v) + [status]],
       phase := Notifying(v, status, Listed(s, v), false, rest))
  }

  /** `None` when the step cannot happen in this state. */
  function Next(s: System, step: Step): Option<System> {
    match step
    case Register(w, v) =>
      if s.phase != Idle || w in s.sessions then None
      else Some(s.(listed := s.listed[v := Listed(s, v) + [w]],
                   sessions := s.sessions[w := Newcomer(v, Current(s, v), |LogOf(s, v)|)]))
    case Set(v, status) =>
      if s.phase != Idle || s.shutdown then None else Some(Started(s, v, status, {}))
    case BeginShutdown =>
      if s.phase != Idle then None else Some(s.(shutdown := true, phase := Sweeping(s.statusMap.Keys)))
    case Sweep(v) =>
      if !s.phase.Sweeping? || v !in s.phase.rest then None
      else Some(Started(s, v, NotServing, s.phase.rest - {v}))
    case Drain =>
      if !s.phase.Notifying? || s.phase.pending == [] || s.phase.drained || s.phase.pending[0] !in s.sessions then None
      else
        var w := s.phase.pending[0];
        Some(s.(sessions := s.sessions[w := s.sessions[w].(slot := None)], phase := s.phase.(drained := true)))
    case Put =>
      if !s.phase.Notifying? || s.phase.pending == [] || !s.phase.drained || s.phase.pending[0] !in s.sessions then None
      else
        var w := s.phase.pending[0];
        var x := s.sessions[w];
        Some(s.(sessions := s.sessions[w := if x.slot.None? then x.(slot := Some(s.phase.status)) else x],
                phase := s.phase.(drained := false, pending := s.phase.pending[1..])))
    case NextService =>
      if !s.phase.Notifying? || s.phase.pending != [] then None else Some(s.(phase := Sweeping(s.phase.rest)))
    case Unlock =>
      if s.phase != Sweeping({}) then None else Some(s.(phase := Idle))
    case Take(w) =>
      if w !in s.sessions || s.sessions[w].stage != Streaming || s.sessions[w].inHand.Some? || s.sessions[w].slot.None? then None
      else Some(s.(sessions := s.sessions[w := Taken(s.sessions[w])]))
    case Send(w) =>
      if w !in s.sessions || s.sessions[w].stage != Streaming || s.sessions[w].inHand.None? then None
      else Some(s.(sessions := s.sessions[w := Sent(s.sessions[w])]))
    case FailSend(w) =>
      if w !in s.sessions || s.sessions[w].stage != Streaming || s.sessions[w].inHand.None?
         || Repeats(s.sessions[w].sent, s.sessions[w].inHand.value) then None
      else Some(s.(sessions := s.sessions[w := s.sessions[w].(stage := Leaving)]))
    case Cancel(w) =>
      if w !in s.sessions || s.sessions[w].stage != Streaming || s.sessions[w].inHand.Some? then None
      else Some(s.(sessions := s.sessions[w := s.sessions[w].(stage := Leaving)]))
    case Cleanup(w) =>
      if s.phase != Idle || w !in s.sessions || s.sessions[w].stage != Leaving then None
      else
        var v := s.sessions[w].service;
        Some(s.(listed := s.listed[v := Without(Listed(s, v), w)],
                sessions := s.sessions[w := s.sessions[w].(stage := Gone)]))
  }

  function Exec(s: System, steps: seq<Step>): Option<System> {
    Runs.Exec(Next, s, steps)
  }

  // ---------------------------------------------------------------- the invariant

  /** The statuses of the service from the session's registration on. */
  ghost function History(s: System, x: Session): seq<Status> {
    var log := LogOf(s, x.service);
    [x.initial] + if x.since <= |log| then log[x.since..] else []
  }

  ghost function InSlot(x: Session): seq<Status> {
    if x.slot.Some? then [x.slot.value] else []
  }

  /** Taken and waiting statuses follow the history `h`. */
  ghost predicate Follows(x: Session, h: seq<Status>) {
    Subsequence(x.taken + InSlot(x), h)
  }

  /** No update is lost: the status is waiting in the channel, or it was the last one taken. */
  ghost predicate Holds(x: Session, status: Status) {
    x.slot == Some(status) || (x.slot.None? && x.taken != [] && x.taken[|x.taken| - 1] == status)
  }

  ghost predicate NoRepeats(s: seq<Status>) {
    forall i :: 0 < i < |s| ==> s[i - 1] != s[i]
  }

  /** The taken statuses that the loop has dealt with. */
  ghost function Settled(x: Session): seq<Status> {
    if x.inHand.Some? && x.taken != [] then x.taken[..|x.taken| - 1] else x.taken
  }

  /** What was sent is what was taken without immediate repetitions, up to the status in hand. */
  ghost predicate Deduplicated(x: Session) {
    && (x.inHand.Some? ==> x.taken != [] && x.taken[|x.taken| - 1] == x.inHand.value)
    && NoRepeats(x.sent) && Subsequence(x.sent, Settled(x))
    && (Settled(x) == [] <==> x.sent == [])
    && (x.sent != [] ==> x.sent[|x.sent| - 1] == Settled(x)[|Settled(x)| - 1])
  }

  ghost predicate Awaiting(s: System, w: nat) {
    s.phase.Notifying? && w in s.phase.pending
  }

  /** A watcher that the current notification has not reached yet lags one entry behind. */
  ghost predicate Told(s: System, w: nat) {
    && w in s.sessions
    && var x := s.sessions[w];
       var h := History(s, x);
       && x.since <= |LogOf(s, x.service)|
       && h[|h| - 1] == Current(s, x.service)
       && if Awaiting(s, w)
          then |h| >= 2 && Follows(x, h[..|h| - 1]) && (w == s.phase.pending[0] && s.phase.drained ==> x.slot.None?)
          else Follows(x, h) && Holds(x, Current(s, x.service))
  }

  ghost predicate ListOk(s: System, v: string) {
    Distinct(Listed(s, v)) && forall w :: w in Listed(s, v) ==> Told(s, w) && s.sessions[w].service == v
  }

  /** A watcher stays listed until its cleanup. */
  ghost predicate Placed(s: System, w: nat) {
    w in s.sessions ==> (s.sessions[w].stage != Gone <==> w in Listed(s, s.sessions[w].service))
  }

  /** Once shut down, every service is NOT_SERVING except those the shutdown has still to set. */
  ghost predicate PhaseOk(s: System) {
    match s.phase
    case Idle => s.shutdown ==> forall v :: v in s.statusMap ==> s.statusMap[v] == NotServing
    case Sweeping(rest) =>
      && rest <= s.statusMap.Keys
      && (!s.shutdown ==> rest == {})
      && (s.shutdown ==> forall v :: v in s.statusMap && v !in rest ==> s.statusMap[v] == NotServing)
    case Notifying(service, status, pending, drained, rest) =>
      && rest <= s.statusMap.Keys
      && Distinct(pending) && (forall w :: w in pending ==> w in Listed(s, service))
      && (drained ==> pending != [])
      && service in s.statusMap && s.statusMap[service] == status
      && (!s.shutdown ==> rest == {})
      && (s.shutdown ==> forall v :: v in s.statusMap && v !in rest ==> s.statusMap[v] == NotServing)
  }

  ghost predicate Invariant(s: System) {
    && (forall v {:trigger ListOk(s, v)} :: ListOk(s, v))
    && (forall w {:trigger Deduplicated(s.sessions[w])} :: w in s.sessions ==> Deduplicated(s.sessions[w]))
    && (forall w {:trigger Placed(s, w)} :: Placed(s, w))
    && PhaseOk(s)
  }

  lemma StartSatisfiesInvariant()
    ensures Invariant(START)
  {
    forall v {:trigger ListOk(START, v)} ensures ListOk(START, v) {}
  }

  lemma TakenIsDeduplicated(x: Session)
    requires x.slot.Some? && x.inHand.None? && Deduplicated(x)
    ensures Deduplicated(Taken(x))
  {
    assert Settled(Taken(x)) == Settled(x);
  }

  lemma SentIsDeduplicated(x: Session)
    requires x.inHand.Some? && Deduplicated(x)
    ensures Deduplicated(Sent(x))
  {
    assert Settled(Sent(x)) == Settled(x) + [x.inHand.value];
    if Repeats(x.sent, x.inHand.value) {
      SubsequenceSkip(x.sent, Settled(x), x.inHand.value);
    } else {
      SubsequenceTake(x.sent, Settled(x), x.inHand.value);
    }
  }

  // ---------------------------------------------------------------- each step keeps it

  /** Nothing that concerns watcher `w` differs between the two states. */
  ghost predicate SameFor(s: System, s': System, w: nat) {
    && w in s.sessions && w in s'.sessions && s'.sessions[w] == s.sessions[w]
    && var v := s.sessions[w].service;
    && Current(s', v) == Current(s, v) && LogOf(s', v) == LogOf(s, v)
    && (Awaiting(s', w) <==> Awaiting(s, w))
    && (Awaiting(s', w) && s'.phase.drained && w == s'.phase.pending[0] ==> s.phase.drained && w == s.phase.pending[0])
  }

  lemma StaysTold(s: System, s': System, w: nat)
    requires Told(s, w) && SameFor(s, s', w)
    ensures Told(s', w)
  {
  }

  lemma ToldIsKnown(s: System, w: nat)
    requires Told(s, w)
    ensures w in s.sessions
  {
  }

  lemma NewcomerIsTold(s: System, w: nat, v: string)
    requires s.phase == Idle && Next(s, Register(w, v)).Some?
    ensures Told(Next(s, Register(w, v)).value, w)
  {
    var s' := Next(s, Register(w, v)).value;
    var x := s'.sessions[w];
    assert History(s', x) == [x.initial];
    SubsequenceReflexive([x.initial]);
    assert x.taken + InSlot(x) == [x.initial];
  }

  lemma RegisterKeeps(s: System, w: nat, v: string)
    requires Invariant(s) && Next(s, Register(w, v)).Some?
    ensures Invariant(Next(s, Register(w, v)).value)
  {
    var s' := Next(s, Register(w, v)).value;
    NewcomerIsTold(s, w, v);
    forall y {:trigger Placed(s', y)} ensures Placed(s', y) { assert Placed(s, y); }
    forall u {:trigger ListOk(s', u)} ensures ListOk(s', u) {
      assert ListOk(s, u);
      RegisterKeepsList(s, w, v, u);
    }
  }

  lemma RegisterKeepsList(s: System, w: nat, v: string, u: string)
    requires s.phase == Idle && Next(s, Register(w, v)).Some? && ListOk(s, u)
    requires Told(Next(s, Register(w, v)).value, w)
    ensures ListOk(Next(s, Register(w, v)).value, u)
  {
    var s' := Next(s, Register(w, v)).value;
    forall y | y in Listed(s, u) ensures y != w && Told(s', y) {
      ToldIsKnown(s, y);
      StaysTold(s, s', y);
    }
    DistinctAppend(Listed(s, u), w);
  }

  /** Setting a service moves its log and its current status together. */
  lemma StartedHistory(s: System, v: string, status: Status, rest: set<string>, x: Session)
    requires x.since <= |LogOf(s, x.service)|
    ensures History(Started(s, v, status, rest), x) == History(s, x) + if x.service == v then [status] else []
  {
    if x.service == v {
      assert (LogOf(s, v) + [status])[x.since..] == LogOf(s, v)[x.since..] + [status];
    }
  }

  lemma StartedTells(s: System, v: string, status: Status, rest: set<string>, w: nat)
    requires !s.phase.Notifying? && Told(s, w)
    requires s.sessions[w].service == v <==> w in Listed(s, v)
    ensures Told(Started(s, v, status, rest), w)
  {
    var s' := Started(s, v, status, rest);
    var x := s.sessions[w];
    var h, h' := History(s, x), History(s', x);
    StartedHistory(s, v, status, rest, x);
    assert Awaiting(s', w) <==> x.service == v;
    if x.service == v {
      assert h'[..|h'| - 1] == h;
    } else {
      assert h' == h;
    }
  }

  lemma StartedKeeps(s: System, v: string, status: Status, rest: set<string>)
    requires Invariant(s) && !s.phase.Notifying?
    requires rest <= s.statusMap.Keys
    requires s.shutdown ==> status == NotServing && forall u :: u in s.statusMap && u !in rest && u != v ==> s.statusMap[u] == NotServing
    requires !s.shutdown ==> rest == {}
    ensures Invariant(Started(s, v, status, rest))
  {
    var s' := Started(s, v, status, rest);
    assert ListOk(s, v);
    forall y {:trigger Placed(s', y)} ensures Placed(s', y) { assert Placed(s, y); }
    forall u {:trigger ListOk(s', u)} ensures ListOk(s', u) {
      assert ListOk(s, u);
      forall y | y in Listed(s', u) ensures Told(s', y) && s'.sessions[y].service == u {
        StartedTells(s, v, status, rest, y);
      }
    }
  }

  /** A step that changes one session and leaves everything as it was for the others. */
  lemma SessionStepKeeps(s: System, w: nat, x: Session, phase: Phase)
    requires Invariant(s) && w in s.sessions && x.service == s.sessions[w].service && Deduplicated(x)
    requires x.stage != Gone <==> s.sessions[w].stage != Gone
    requires var s' := s.(sessions := s.sessions[w := x], phase := phase);
             && PhaseOk(s') && Told(s', w)
             && (forall y :: y != w ==> (Awaiting(s', y) <==> Awaiting(s, y)))
             && (phase.Notifying? && phase.drained ==> phase.pending != [] && (phase.pending[0] == w || phase == s.phase))
    ensures Invariant(s.(sessions := s.sessions[w := x], phase := phase))
  {
    var s' := s.(sessions := s.sessions[w := x], phase := phase);
    forall y {:trigger Placed(s', y)} ensures Placed(s', y) { assert Placed(s, y); }
    forall u {:trigger ListOk(s', u)} ensures ListOk(s', u) {
      assert ListOk(s, u);
      forall y | y in Listed(s', u) ensures Told(s', y) {
        ToldIsKnown(s, y);
        if y != w { StaysTold(s, s', y); }
      }
    }
  }

  lemma PendingIsListed(s: System)
    requires Invariant(s) && s.phase.Notifying? && s.phase.pending != []
    ensures var w := s.phase.pending[0]; Told(s, w) && s.sessions[w].service == s.phase.service && Awaiting(s, w)
  {
    assert ListOk(s, s.phase.service);
    assert s.phase.pending[0] in s.phase.pending;
  }

  lemma DrainKeeps(s: System)
    requires Invariant(s) && Next(s, Drain).Some?
    ensures Invariant(Next(s, Drain).value)
  {
    var w := s.phase.pending[0];
    var x := s.sessions[w];
    var s' := Next(s, Drain).value;
    PendingIsListed(s);
    assert Deduplicated(x);
    var y := x.(slot := None);
    assert y.taken + InSlot(y) == y.taken;
    if x.slot.Some? {
      SubsequenceDropLast(x.taken, x.slot.value, History(s, x)[..|History(s, x)| - 1]);
    } else {
      assert x.taken + InSlot(x) == x.taken;
    }
    assert History(s', y) == History(s, x);
    SessionStepKeeps(s, w, y, s'.phase);
  }

  /** The channel is empty when the setter puts: nobody else fills it, so the default branch of
      the put is never taken. */
  lemma PutFindsRoom(s: System)
    requires Invariant(s) && s.phase.Notifying? && s.phase.drained
    ensures s.phase.pending != [] && s.phase.pending[0] in s.sessions
    ensures s.sessions[s.phase.pending[0]].slot.None?
  {
    PendingIsListed(s);
  }

  lemma FilledIsTold(s: System)
    requires Invariant(s) && Next(s, Put).Some?
    ensures var w := s.phase.pending[0]; var s' := Next(s, Put).value;
            && s'.sessions[w] == s.sessions[w].(slot := Some(s.phase.status)) && !Awaiting(s', w) && Told(s', w)
  {
    var w, s' := s.phase.pending[0], Next(s, Put).value;
    var x := s.sessions[w];
    PutFindsRoom(s);
    PendingIsListed(s);
    assert s.phase.pending == [w] + s.phase.pending[1..];
    FilledFollows(x, History(s, x), s.phase.status);
    assert History(s', s'.sessions[w]) == History(s, x);
  }

  lemma FilledFollows(x: Session, h: seq<Status>, status: Status)
    requires h != [] && h[|h| - 1] == status && Follows(x, h[..|h| - 1]) && x.slot.None?
    ensures Follows(x.(slot := Some(status)), h) && Holds(x.(slot := Some(status)), status)
  {
    assert h == h[..|h| - 1] + [status];
    assert x.taken + InSlot(x) == x.taken;
    SubsequenceTake(x.taken, h[..|h| - 1], status);
  }

  lemma PutKeeps(s: System)
    requires Invariant(s) && Next(s, Put).Some?
    ensures Invariant(Next(s, Put).value)
  {
    var w := s.phase.pending[0];
    var s' := Next(s, Put).value;
    FilledIsTold(s);
    PendingIsListed(s);
    assert Deduplicated(s.sessions[w]);
    TailMembers(s.phase.pending);
    SessionStepKeeps(s, w, s'.sessions[w], s'.phase);
  }

  lemma TailMembers(pending: seq<nat>)
    requires pending != []
    ensures forall y :: y in pending <==> y == pending[0] || y in pending[1..]
  {
    assert pending == [pending[0]] + pending[1..];
  }

  lemma StreamingIsListed(s: System, w: nat)
    requires Invariant(s) && w in s.sessions && s.sessions[w].stage != Gone
    ensures w in Listed(s, s.sessions[w].service) && Told(s, w) && Deduplicated(s.sessions[w])
  {
    assert Placed(s, w);
    assert ListOk(s, s.sessions[w].service);
  }

  /** What has come through the channel or is in it does not change when it is taken or dealt with. */
  lemma StaysToldItself(s: System, w: nat, y: Session)
    requires Told(s, w)
    requires var x := s.sessions[w];
             && y.service == x.service && y.initial == x.initial && y.since == x.since
             && ((y.slot == x.slot && y.taken == x.taken) || (x.slot.Some? && y.slot.None? && y.taken == x.taken + [x.slot.value]))
    ensures Told(s.(sessions := s.sessions[w := y]), w)
  {
    assert y.taken + InSlot(y) == s.sessions[w].taken + InSlot(s.sessions[w]);
    assert History(s.(sessions := s.sessions[w := y]), y) == History(s, s.sessions[w]);
  }

  lemma TakeKeeps(s: System, w: nat)
    requires Invariant(s) && Next(s, Take(w)).Some?
    ensures Invariant(Next(s, Take(w)).value)
  {
    StreamingIsListed(s, w);
    TakenIsDeduplicated(s.sessions[w]);
    StaysToldItself(s, w, Taken(s.sessions[w]));
    SessionStepKeeps(s, w, Taken(s.sessions[w]), s.phase);
  }

  /** Dealing with a taken status, or leaving the loop, is no business of the setters. */
  lemma LoopStepKeeps(s: System, step: Step)
    requires Invariant(s) && Next(s, step).Some? && (step.Send? || step.FailSend? || step.Cancel?)
    ensures Invariant(Next(s, step).value)
  {
    var w := step.watcher;
    var x, y := s.sessions[w], Next(s, step).value.sessions[w];
    StreamingIsListed(s, w);
    if step.Send? { SentIsDeduplicated(x); } else { assert Settled(y) == Settled(x); }
    StaysToldItself(s, w, y);
    SessionStepKeeps(s, w, y, s.phase);
  }

  /** Moving on to the next service, or unlocking, changes nothing for the watchers. */
  lemma PhaseStepKeeps(s: System, phase: Phase, shutdown: bool)
    requires Invariant(s) && !phase.Notifying? && (s.phase.Notifying? ==> s.phase.pending == [])
    requires PhaseOk(s.(phase := phase, shutdown := shutdown))
    ensures Invariant(s.(phase := phase, shutdown := shutdown))
  {
    var s' := s.(phase := phase, shutdown := shutdown);
    forall y {:trigger Placed(s', y)} ensures Placed(s', y) { assert Placed(s, y); }
    forall u {:trigger ListOk(s', u)} ensures ListOk(s', u) {
      assert ListOk(s, u);
      forall y | y in Listed(s', u) ensures Told(s', y) { ToldIsKnown(s, y); StaysTold(s, s', y); }
    }
  }

  lemma CleanedList(s: System, w: nat, y: nat)
    requires Invariant(s) && Next(s, Cleanup(w)).Some?
    ensures y in Listed(Next(s, Cleanup(w)).value, s.sessions[w].service) <==> y in Listed(s, s.sessions[w].service) && y != w
  {
    assert ListOk(s, s.sessions[w].service);
    WithoutFacts(Listed(s, s.sessions[w].service), w, y);
  }

  lemma CleanupKeeps(s: System, w: nat)
    requires Invariant(s) && Next(s, Cleanup(w)).Some?
    ensures Invariant(Next(s, Cleanup(w)).value)
  {
    var s' := Next(s, Cleanup(w)).value;
    assert Deduplicated(s.sessions[w]) && Settled(s'.sessions[w]) == Settled(s.sessions[w]);
    forall y {:trigger Placed(s', y)} ensures Placed(s', y) {
      assert Placed(s, y);
      CleanedList(s, w, y);
    }
    forall u {:trigger ListOk(s', u)} ensures ListOk(s', u) {
      assert ListOk(s, u);
      WithoutFacts(Listed(s, u), w, w);
      forall y | y in Listed(s', u) ensures y in Listed(s, u) && Told(s', y) {
        WithoutFacts(Listed(s, u), w, y);
        ToldIsKnown(s, y);
        StaysTold(s, s', y);
      }
    }
  }

  lemma StepKeepsInvariant(s: System, step: Step)
    requires Invariant(s) && Next(s, step).Some?
    ensures Invariant(Next(s, step).value)
  {
    match step
    case Register(w, v) => RegisterKeeps(s, w, v);
    case Set(v, status) => StartedKeeps(s, v, status, {});
    case BeginShutdown => PhaseStepKeeps(s, Sweeping(s.statusMap.Keys), true);
    case Sweep(v) => StartedKeeps(s, v, NotServing, s.phase.rest - {v});
    case Drain => DrainKeeps(s);
    case Put => PutKeeps(s);
    case NextService => PhaseStepKeeps(s, Sweeping(s.phase.rest), s.shutdown);
    case Unlock => PhaseStepKeeps(s, Idle, s.shutdown);
    case Take(w) => TakeKeeps(s, w);
    case Send(_) => LoopStepKeeps(s, step);
    case FailSend(_) => LoopStepKeeps(s, step);
    case Cancel(_) => LoopStepKeeps(s, step);
    case Cleanup(w) => CleanupKeeps(s, w);
  }

  lemma RunKeepsInvariant(s: System, steps: seq<Step>)
    requires Invariant(s) && Exec(s, steps).Some?
    ensures Invariant(Exec(s, steps).value)
  {
    forall x, step | Invariant(x) && Next(x, step).Some? ensures Invariant(Next(x, step).value) {
      StepKeepsInvariant(x, step);
    }
    Runs.RunKeeps(Next, Invariant, s, steps);
  }

  /** The system can get into this state. */
  ghost predicate Reachable(s: System) {
    Runs.Reaches(Next, START, s)
  }

  lemma ReachableSatisfiesInvariant(s: System)
    requires Reachable(s)
    ensures Invariant(s)
  {
    var steps :| Runs.Exec(Next, START, steps) == Some(s);
    StartSatisfiesInvariant();
    RunKeepsInvariant(START, steps);
  }

  // ---------------------------------------------------------------- what a service shows

  /** The statuses that the steps set for the service, by a setter or by a shutdown, in their order. */
  function SetsOf(steps: seq<Step>, v: string): seq<Status> {
    if steps == [] then []
    else
      var last := steps[|steps| - 1];
      SetsOf(steps[..|steps| - 1], v)
      + if last.Set? && last.service == v then [last.status]
        else if last.Sweep? && last.service == v then [NotServing]
        else []
  }

  /** What a service shows after the steps: the last status set; or, if none was, SERVING for the server as a
      whole and SERVICE_UNKNOWN for anything else. */
  function Shown(steps: seq<Step>, v: string): Status {
    var sets := SetsOf(steps, v);
    if sets != [] then sets[|sets| - 1] else if v == "" then Serving else ServiceUnknown
  }

  lemma OneMoreSet(s: System, step: Step, v: string)
    requires Next(s, step).Some?
    ensures var s' := Next(s, step).value;
            if step.Set? && step.service == v then LogOf(s', v) == LogOf(s, v) + [step.status] && Current(s', v) == step.status
            else if step.Sweep? && step.service == v then LogOf(s', v) == LogOf(s, v) + [NotServing] && Current(s', v) == NotServing
            else LogOf(s', v) == LogOf(s, v) && Current(s', v) == Current(s, v)
  {
  }

  /** In every interleaving the log of a service holds just what was set, and its status is what it shows. */
  lemma {:induction false} StatusIsShown(steps: seq<Step>, v: string)
    requires Exec(START, steps).Some?
    ensures LogOf(Exec(START, steps).value, v) == SetsOf(steps, v)
    ensures Current(Exec(START, steps).value, v) == Shown(steps, v)
  {
    if steps != [] {
      var front, last := steps[..|steps| - 1], steps[|steps| - 1];
      Runs.LastStep(Next, START, steps);
      StatusIsShown(front, v);
      OneMoreSet(Exec(START, front).value, last, v);
    }
  }

  // ---------------------------------------------------------------- what every run guarantees

  /** In every interleaving, whenever no notification is under way, a watcher that is still listed has
      what its service shows waiting in its channel or took exactly that status last. In
      the latter case it has that status in hand still, or it is also the last one it sent: the last
      one sent is the current one exactly when nothing is in hand, or just a repetition. */
  lemma NoLostUpdate(steps: seq<Step>, v: string, w: nat)
    requires Exec(START, steps).Some?
    requires var s := Exec(START, steps).value; !s.phase.Notifying? && w in Listed(s, v)
    ensures var s := Exec(START, steps).value; var now := Shown(steps, v);
            && w in s.sessions && Holds(s.sessions[w], now)
            && (s.sessions[w].slot.None? && s.sessions[w].inHand.Some? ==> s.sessions[w].inHand == Some(now))
            && (s.sessions[w].slot.None? && s.sessions[w].inHand.None? ==>
                  s.sessions[w].sent != [] && s.sessions[w].sent[|s.sessions[w].sent| - 1] == now)
            && (s.sessions[w].slot.None? ==>
                  (Repeats(s.sessions[w].sent, now) <==>
                   s.sessions[w].inHand.None? || Repeats(s.sessions[w].sent, s.sessions[w].inHand.value)))
  {
    StartSatisfiesInvariant();
    RunKeepsInvariant(START, steps);
    var s := Exec(START, steps).value;
    StatusIsShown(steps, v);
    assert ListOk(s, v) && Told(s, w);
    assert Deduplicated(s.sessions[w]);
  }

  /** A run in which a watcher takes a status that it then fails to send. */
  const FAILING: seq<Step> := [Register(0, ""), Take(0), FailSend(0)]

  /** So a watcher that is still listed may have taken the current status and sent nothing at all. */
  lemma TakenNeedNotBeSent()
    ensures Exec(START, FAILING).Some?
    ensures var s := Exec(START, FAILING).value;
            && s.phase == Idle && 0 in Listed(s, "") && 0 in s.sessions
            && s.sessions[0].taken == [Shown(FAILING, "")] && s.sessions[0].sent == []
  {
    StatusIsShown(FAILING, "");
    var s1 := Next(START, FAILING[0]).value;
    var s2 := Next(s1, FAILING[1]).value;
    assert FAILING[1..][1..] == [FailSend(0)];
    assert Exec(s2, [FailSend(0)]) == Exec(Next(s2, FailSend(0)).value, []);
    assert Exec(s1, FAILING[1..]) == Exec(s2, FAILING[1..][1..]);
  }

  /** In every interleaving the put that follows a drain finds the channel empty. */
  lemma PutNeverSkips(steps: seq<Step>)
    requires Exec(START, steps).Some?
    ensures var s := Exec(START, steps).value;
            s.phase.Notifying? && s.phase.drained ==>
              && s.phase.pending != [] && s.phase.pending[0] in s.sessions
              && s.sessions[s.phase.pending[0]].slot.None?
  {
    StartSatisfiesInvariant();
    RunKeepsInvariant(START, steps);
    var s := Exec(START, steps).value;
    if s.phase.Notifying? && s.phase.drained { PutFindsRoom(s); }
  }

  lemma ListedFollowsHistory(s: System, v: string, w: nat)
    requires Invariant(s) && w in Listed(s, v)
    ensures w in s.sessions && s.sessions[w].service == v && Subsequence(s.sessions[w].sent, History(s, s.sessions[w]))
  {
    assert ListOk(s, v) && Told(s, w);
    var x := s.sessions[w];
    var h := History(s, x);
    assert Deduplicated(x);
    if Awaiting(s, w) {
      SubsequenceSkip(x.taken + InSlot(x), h[..|h| - 1], h[|h| - 1]);
      assert h == h[..|h| - 1] + [h[|h| - 1]];
    }
    if x.slot.Some? {
      SubsequenceDropLast(x.taken, x.slot.value, h);
    } else {
      assert x.taken + InSlot(x) == x.taken;
    }
    if x.inHand.Some? {
      assert x.taken == Settled(x) + [x.inHand.value];
      SubsequenceSkip(x.sent, Settled(x), x.inHand.value);
    }
    SubsequenceTransitive(x.sent, x.taken, h);
  }

  /** What the watcher has sent so far agrees with the history of its service. */
  ghost predicate Recorded(s: System, w: nat) {
    w in s.sessions ==>
      var x := s.sessions[w];
      x.since <= |LogOf(s, x.service)| && Subsequence(x.sent, History(s, x))
  }

  /** `later` holds the same registration, nothing more was sent, and the log may have grown. */
  ghost predicate OnlyHistoryGrew(s: System, s': System, w: nat) {
    && w in s.sessions && w in s'.sessions
    && var x, y := s.sessions[w], s'.sessions[w];
    && y.service == x.service && y.initial == x.initial && y.since == x.since && y.sent == x.sent
    && (LogOf(s', x.service) == LogOf(s, x.service)
        || exists status :: LogOf(s', x.service) == LogOf(s, x.service) + [status])
  }

  lemma OthersOnlyLog(s: System, step: Step, w: nat)
    requires Next(s, step).Some? && w in s.sessions && step != Send(w)
    ensures OnlyHistoryGrew(s, Next(s, step).value, w)
  {
    var s', v := Next(s, step).value, s.sessions[w].service;
    match step
    case Set(u, status) => assert v == u ==> LogOf(s', v) == LogOf(s, v) + [status];
    case Sweep(u) => assert v == u ==> LogOf(s', v) == LogOf(s, v) + [NotServing];
    case _ =>
  }

  lemma StaysRecorded(s: System, s': System, w: nat)
    requires Recorded(s, w) && OnlyHistoryGrew(s, s', w)
    ensures Recorded(s', w)
  {
    var x, y := s.sessions[w], s'.sessions[w];
    if LogOf(s', x.service) == LogOf(s, x.service) {
      assert History(s', y) == History(s, x);
    } else {
      var status :| LogOf(s', x.service) == LogOf(s, x.service) + [status];
      assert History(s', y) == History(s, x) + [status];
      SubsequenceSkip(x.sent, History(s, x), status);
    }
  }

  lemma SendIsRecorded(s: System, w: nat)
    requires Invariant(s) && Next(s, Send(w)).Some? && Recorded(s, w)
    ensures Recorded(Next(s, Send(w)).value, w)
  {
    LoopStepKeeps(s, Send(w));
    StreamingIsListed(s, w);
    ListedFollowsHistory(Next(s, Send(w)).value, s.sessions[w].service, w);
  }

  lemma NewcomerIsRecorded(s: System, step: Step, w: nat)
    requires Next(s, step).Some? && w !in s.sessions
    ensures Recorded(Next(s, step).value, w)
  {
  }

  lemma StepKeepsRecord(s: System, step: Step, w: nat)
    requires Invariant(s) && Recorded(s, w) && Next(s, step).Some?
    ensures Recorded(Next(s, step).value, w)
  {
    if w !in s.sessions {
      NewcomerIsRecorded(s, step, w);
    } else if step == Send(w) {
      SendIsRecorded(s, w);
    } else {
      OthersOnlyLog(s, step, w);
      StaysRecorded(s, Next(s, step).value, w);
    }
  }

  lemma RunKeepsRecord(s: System, steps: seq<Step>, w: nat)
    requires Invariant(s) && Recorded(s, w) && Exec(s, steps).Some?
    ensures Recorded(Exec(s, steps).value, w)
  {
    var keeps := (x: System) => Invariant(x) && Recorded(x, w);
    forall x, step | keeps(x) && Next(x, step).Some? ensures keeps(Next(x, step).value) {
      StepKeepsInvariant(x, step);
      StepKeepsRecord(x, step, w);
    }
    Runs.RunKeeps(Next, keeps, s, steps);
  }

  /** In every interleaving, what a watcher has sent, even one that has since left, is an
      in-order selection of its service's statuses from registration on, without immediate repetitions. */
  lemma SentFollowsHistory(steps: seq<Step>, w: nat)
    requires Exec(START, steps).Some? && w in Exec(START, steps).value.sessions
    ensures var s := Exec(START, steps).value; var x := s.sessions[w];
            && NoRepeats(x.sent) && InOrder(x.sent, History(s, x))
            && x.since <= |LogOf(s, x.service)|
            && History(s, x) == [x.initial] + LogOf(s, x.service)[x.since..]
  {
    StartSatisfiesInvariant();
    RunKeepsInvariant(START, steps);
    RunKeepsRecord(START, steps, w);
    var s := Exec(START, steps).value;
    assert Deduplicated(s.sessions[w]);
    SubsequenceIsInOrder(s.sessions[w].sent, History(s, s.sessions[w]));
  }

  /** The `k`th step of the run registered the watcher, with the status and the log of that moment. */
  ghost predicate RegisteredAt(s: System, steps: seq<Step>, w: nat, x: Session, k: int) {
    && 0 <= k < |steps| && steps[k] == Register(w, x.service) && Exec(s, steps[..k]).Some?
    && var before := Exec(s, steps[..k]).value;
    && w !in before.sessions
    && x.initial == Current(before, x.service)
    && x.since == |LogOf(before, x.service)|
  }

  /** Where a session started, once it is registered. */
  function StartOf(s: System, w: nat): Option<(string, nat, Status)> {
    if w in s.sessions then Some((s.sessions[w].service, s.sessions[w].since, s.sessions[w].initial)) else None
  }

  lemma StepKeepsStart(s: System, step: Step, w: nat)
    requires Next(s, step).Some? && w in s.sessions
    ensures StartOf(Next(s, step).value, w) == StartOf(s, w)
  {
  }

  lemma OnlyRegisterEnters(s: System, step: Step, w: nat)
    requires Next(s, step).Some? && StartOf(s, w).None? && StartOf(Next(s, step).value, w).Some?
    ensures step.Register? && step.watcher == w && w !in s.sessions
    ensures StartOf(Next(s, step).value, w) == Some((step.service, |LogOf(s, step.service)|, Current(s, step.service)))
  {
  }

  lemma SessionsAreRegistered(s: System, steps: seq<Step>, w: nat) returns (k: nat)
    requires Exec(s, steps).Some? && w !in s.sessions && w in Exec(s, steps).value.sessions
    ensures RegisteredAt(s, steps, w, Exec(s, steps).value.sessions[w], k)
  {
    forall x, step | Next(x, step).Some? && StartOf(x, w).Some? ensures StartOf(Next(x, step).value, w) == StartOf(x, w) {
      StepKeepsStart(x, step, w);
    }
    k := Runs.StepThatEnters(Next, (x: System) => StartOf(x, w), s, steps);
    OnlyRegisterEnters(Exec(s, steps[..k]).value, steps[k], w);
  }

  lemma {:induction false} SetsOnlyGrow(steps: seq<Step>, k: nat, v: string)
    requires k <= |steps|
    ensures SetsOf(steps[..k], v) <= SetsOf(steps, v)
  {
    if k < |steps| {
      assert steps[..|steps| - 1][..k] == steps[..k];
      SetsOnlyGrow(steps[..|steps| - 1], k, v);
    } else {
      assert steps[..k] == steps;
    }
  }

  /** In every interleaving, a watcher's history begins with the status that its service showed at the moment of
      its registration, and goes on with those set from then on. */
  lemma HistoryBeginsAtRegistration(steps: seq<Step>, w: nat)
    requires Exec(START, steps).Some? && w in Exec(START, steps).value.sessions
    ensures var x := Exec(START, steps).value.sessions[w];
            exists k :: RegisteredAt(START, steps, w, x, k)
                     && x.initial == Shown(steps[..k], x.service)
                     && SetsOf(steps, x.service) == SetsOf(steps[..k], x.service) + History(Exec(START, steps).value, x)[1..]
  {
    var s := Exec(START, steps).value;
    var k := SessionsAreRegistered(START, steps, w);
    StatusIsShown(steps[..k], s.sessions[w].service);
    StatusIsShown(steps, s.sessions[w].service);
    SetsOnlyGrow(steps, k, s.sessions[w].service);
  }

  /** Shut down for good: every known service is and stays NOT_SERVING. */
  ghost predicate Frozen(s: System) {
    && s.shutdown
    && (forall v :: v in s.statusMap ==> s.statusMap[v] == NotServing)
    && (s.phase.Sweeping? ==> s.phase.rest <= s.statusMap.Keys)
    && (s.phase.Notifying? ==> s.phase.rest <= s.statusMap.Keys)
  }

  lemma StepStaysFrozen(s: System, step: Step)
    requires Frozen(s) && Next(s, step).Some?
    ensures Frozen(Next(s, step).value) && Next(s, step).value.statusMap == s.statusMap
  {
    if step.Sweep? { assert s.statusMap[step.service := NotServing] == s.statusMap; }
  }

  lemma FrozenForever(s: System, steps: seq<Step>)
    requires Frozen(s) && Exec(s, steps).Some?
    ensures Frozen(Exec(s, steps).value) && Exec(s, steps).value.statusMap == s.statusMap
  {
    var keeps := (x: System) => Frozen(x) && x.statusMap == s.statusMap;
    forall x, step | keeps(x) && Next(x, step).Some? ensures keeps(Next(x, step).value) {
      StepStaysFrozen(x, step);
    }
    Runs.RunKeeps(Next, keeps, s, steps);
  }

  /** In every interleaving, after a shutdown has released the lock no later step changes any
      service's status: all the known ones stay NOT_SERVING, and no service becomes known. */
  lemma ShutdownIsFinal(steps: seq<Step>, later: seq<Step>)
    requires Exec(START, steps).Some?
    requires var s := Exec(START, steps).value; s.shutdown && s.phase.Idle? && Exec(s, later).Some?
    ensures var s := Exec(START, steps).value;
            && Exec(s, later).value.statusMap == s.statusMap
            && forall v :: v in s.statusMap ==> Exec(s, later).value.statusMap[v] == NotServing
  {
    StartSatisfiesInvariant();
    RunKeepsInvariant(START, steps);
    FrozenForever(Exec(START, steps).value, later);
  }
}
