/** The circuit breaker: admission and recording as separate atomic steps, the object that
    performs them, and what holds over runs with any number of calls in flight. Times are
    readings of the clock in nanoseconds. */
module Breaker {
  import opened Wrappers
  import opened Division
  import Runs

  datatype CircuitState = Closed | Open | HalfOpen

  datatype Config = Config(failureThreshold: int, successThreshold: int, timeout: int)

  /** The defaults that the constructor fills in; a negative timeout is left as it is. */
  function Normalized(c: Config): Config {
    Config(if c.failureThreshold <= 0 then 5 else c.failureThreshold,
           if c.successThreshold <= 0 then 2 else c.successThreshold,
           if c.timeout == 0 then 10_000_000_000 else c.timeout)
  }

  ghost predicate Proper(c: Config) {
    c.failureThreshold >= 1 && c.successThreshold >= 1
  }

  datatype Breaker = Breaker(
    state: CircuitState, consecutiveFailures: int, consecutiveSuccesses: int, lastFailureTime: int)

  const FRESH := Breaker(Closed, 0, 0, 0)

  function Admits(b: Breaker, c: Config, now: int): bool {
    b.state != Open || now - b.lastFailureTime >= c.timeout
  }

  function AfterAdmission(b: Breaker, c: Config, now: int): Breaker {
    if b.state == Open && Admits(b, c, now) then Breaker(HalfOpen, 0, 0, b.lastFailureTime) else b
  }

  function AfterResult(b: Breaker, c: Config, isFailure: bool, now: int): Breaker {
    match b.state
    case Closed =>
      if isFailure then
        Breaker(if b.consecutiveFailures + 1 >= c.failureThreshold then Open else Closed,
                b.consecutiveFailures + 1, 0, now)
      else b.(consecutiveFailures := 0, consecutiveSuccesses := b.consecutiveSuccesses + 1)
    case Open =>
      if isFailure then b.(lastFailureTime := now) else b
    case HalfOpen =>
      if isFailure then Breaker(Open, 1, 0, now)
      else if b.consecutiveSuccesses + 1 >= c.successThreshold then Breaker(Closed, 0, 0, b.lastFailureTime)
      else b.(consecutiveFailures := 0, consecutiveSuccesses := b.consecutiveSuccesses + 1)
  }

  // ---------------------------------------------------------------- the object

  datatype CallResult = Rejected | Executed(isFailure: bool)

  class CircuitBreaker {
    const config: Config
    var state: CircuitState
    var consecutiveFailures: int
    var consecutiveSuccesses: int
    var lastFailureTime: int

    ghost function View(): Breaker
      reads this
    {
      Breaker(state, consecutiveFailures, consecutiveSuccesses, lastFailureTime)
    }

    constructor (c: Config)
      ensures config == Normalized(c) && Proper(config) && View() == FRESH
      ensures c.failureThreshold > 0 ==> config.failureThreshold == c.failureThreshold
      ensures c.successThreshold > 0 ==> config.successThreshold == c.successThreshold
      ensures c.timeout != 0 ==> config.timeout == c.timeout
      ensures c == Config(0, 0, 0) ==> config == Config(5, 2, 10_000_000_000)
    {
      config := Normalized(c);
      state, consecutiveFailures, consecutiveSuccesses, lastFailureTime := Closed, 0, 0, 0;
    }

    method AllowRequest(now: int) returns (allowed: bool)
      modifies this
      ensures allowed == Admits(old(View()), config, now)
      ensures !allowed <==> old(state) == Open && now - old(lastFailureTime) < config.timeout
      ensures View() == AfterAdmission(old(View()), config, now)
    {
      match state {
        case Closed =>
          allowed := true;
        case Open =>
          if now - lastFailureTime >= config.timeout {
            state := HalfOpen;
            consecutiveSuccesses := 0;
            consecutiveFailures := 0;
            allowed := true;
          } else {
            allowed := false;
          }
        case HalfOpen =>
          allowed := true;
      }
    }

    method RecordResult(isFailure: bool, now: int)
      modifies this
      ensures View() == AfterResult(old(View()), config, isFailure, now)
    {
      match state {
        case Closed =>
          if isFailure {
            consecutiveFailures := consecutiveFailures + 1;
            consecutiveSuccesses := 0;
            lastFailureTime := now;
            if consecutiveFailures >= config.failureThreshold {
              state := Open;
            }
          } else {
            consecutiveFailures := 0;
            consecutiveSuccesses := consecutiveSuccesses + 1;
          }
        case Open =>
          if isFailure {
            lastFailureTime := now;
          }
        case HalfOpen =>
          if isFailure {
            consecutiveFailures := 1;
            consecutiveSuccesses := 0;
            lastFailureTime := now;
            state := Open;
          } else {
            consecutiveSuccesses := consecutiveSuccesses + 1;
            consecutiveFailures := 0;
            if consecutiveSuccesses >= config.successThreshold {
              state := Closed;
              consecutiveSuccesses := 0;
            }
          }
      }
    }

    /** A call nobody interleaves with: admitted at one time, its result recorded at another. */
    method Call(admission: int, isFailure: bool, recording: int) returns (result: CallResult)
      modifies this
      ensures result.Rejected? <==> old(state) == Open && admission - old(lastFailureTime) < config.timeout
      ensures result.Executed? ==> result.isFailure == isFailure
      ensures View() == AfterCall(old(View()), config, admission, isFailure, recording)
    {
      var allowed := AllowRequest(admission);
      if !allowed { return Rejected; }
      RecordResult(isFailure, recording);
      result := Executed(isFailure);
    }
  }

  function AfterCall(b: Breaker, c: Config, admission: int, isFailure: bool, recording: int): Breaker {
    if Admits(b, c, admission)
    then AfterResult(AfterAdmission(b, c, admission), c, isFailure, recording)
    else b
  }

  // ---------------------------------------------------------------- calls in flight

  datatype Step = Admit(now: int) | Record(isFailure: bool, now: int)

  /** A breaker with the admitted calls whose results are still to come, and its history: the
      results recorded since its state last changed, and the time of the latest failure. */
  datatype Trace = Trace(breaker: Breaker, inFlight: nat, results: seq<bool>, latestFailure: Option<int>)

  const BEGIN := Trace(FRESH, 0, [], None)

  /** `None` for a result that no call in flight can deliver. */
  function Next(t: Trace, c: Config, step: Step): Option<Trace> {
    match step
    case Admit(now) =>
      var b := AfterAdmission(t.breaker, c, now);
      Some(Trace(b, if Admits(t.breaker, c, now) then t.inFlight + 1 else t.inFlight,
                 if b.state == t.breaker.state then t.results else [], t.latestFailure))
    case Record(isFailure, now) =>
      if t.inFlight == 0 then None
      else
        var b := AfterResult(t.breaker, c, isFailure, now);
        Some(Trace(b, t.inFlight - 1,
                   if b.state == t.breaker.state then t.results + [isFailure] else [],
                   if isFailure then Some(now) else t.latestFailure))
  }

  /** A trace under its configuration. */
  datatype Machine = Machine(config: Config, trace: Trace)

  function NextUnder(m: Machine, step: Step): Option<Machine> {
    var t := Next(m.trace, m.config, step);
    if t.None? then None else Some(Machine(m.config, t.value))
  }

  function Exec(t: Trace, c: Config, steps: seq<Step>): Option<Trace> {
    var m := Runs.Exec(NextUnder, Machine(c, t), steps);
    if m.None? then None else Some(m.value.trace)
  }

  /** How many failures in a row the results end with. */
  function FailureStreak(results: seq<bool>): nat {
    if results == [] || !results[|results| - 1] then 0 else 1 + FailureStreak(results[..|results| - 1])
  }

  function SuccessStreak(results: seq<bool>): nat {
    if results == [] || results[|results| - 1] then 0 else 1 + SuccessStreak(results[..|results| - 1])
  }

  /** What the counters mean in each state. */
  ghost predicate Consistent(t: Trace, c: Config) {
    && (t.breaker.state == Closed ==>
          && t.breaker.consecutiveFailures == FailureStreak(t.results) < c.failureThreshold
          && t.breaker.consecutiveSuccesses == SuccessStreak(t.results))
    && (t.breaker.state == HalfOpen ==>
          && t.breaker.consecutiveSuccesses == |t.results| < c.successThreshold
          && forall i :: 0 <= i < |t.results| ==> !t.results[i])
    && (t.breaker.state == Open ==> t.latestFailure.Some?)
    && (t.latestFailure.Some? ==> t.breaker.lastFailureTime == t.latestFailure.value)
  }

  ghost predicate ConsistentUnder(c: Config, m: Machine) {
    m.config == c && Consistent(m.trace, c)
  }

  lemma StepKeepsConsistent(t: Trace, c: Config, step: Step)
    requires Proper(c) && Consistent(t, c) && Next(t, c, step).Some?
    ensures Consistent(Next(t, c, step).value, c)
  {
    if step.Record? {
      assert (t.results + [step.isFailure])[..|t.results|] == t.results;
    }
  }

  lemma RunKeepsConsistent(t: Trace, c: Config, steps: seq<Step>)
    requires Proper(c) && Consistent(t, c) && Exec(t, c, steps).Some?
    ensures Consistent(Exec(t, c, steps).value, c)
  {
    forall m, step | ConsistentUnder(c, m) && NextUnder(m, step).Some? ensures ConsistentUnder(c, NextUnder(m, step).value) {
      StepKeepsConsistent(m.trace, c, step);
    }
    Runs.RunKeeps(NextUnder, (m: Machine) => ConsistentUnder(c, m), Machine(c, t), steps);
  }

  /** In every interleaving the state changes only along Closed, Open, HalfOpen and from there back
      to Closed or Open, each change by the kind of step that the protocol names for it. */
  lemma TransitionsAreLegal(t: Trace, c: Config, step: Step)
    requires Next(t, c, step).Some? && Next(t, c, step).value.breaker.state != t.breaker.state
    ensures var from, to := t.breaker.state, Next(t, c, step).value.breaker.state;
            || (from == Closed && to == Open && step.Record? && step.isFailure)
            || (from == Open && to == HalfOpen && step.Admit?)
            || (from == HalfOpen && to == Open && step.Record? && step.isFailure)
            || (from == HalfOpen && to == Closed && step.Record? && !step.isFailure)
  {
  }

  /** In every interleaving, a result opens a closed breaker exactly when it completes a streak of
      FailureThreshold failures recorded since the breaker was closed. */
  lemma OpensExactlyAtThreshold(c: Config, steps: seq<Step>, isFailure: bool, now: int)
    requires Proper(c) && Exec(BEGIN, c, steps).Some?
    requires var t := Exec(BEGIN, c, steps).value; t.breaker.state == Closed && t.inFlight > 0
    ensures var t := Exec(BEGIN, c, steps).value;
            AfterResult(t.breaker, c, isFailure, now).state == Open <==>
            FailureStreak(t.results + [isFailure]) == c.failureThreshold
  {
    RunKeepsConsistent(BEGIN, c, steps);
    var t := Exec(BEGIN, c, steps).value;
    assert (t.results + [isFailure])[..|t.results|] == t.results;
  }

  /** In every interleaving, the results recorded since a breaker became half-open are successes,
      and one more closes it exactly when it makes SuccessThreshold of them; a failure reopens it. */
  lemma ClosesExactlyAtThreshold(c: Config, steps: seq<Step>, isFailure: bool, now: int)
    requires Proper(c) && Exec(BEGIN, c, steps).Some?
    requires var t := Exec(BEGIN, c, steps).value; t.breaker.state == HalfOpen && t.inFlight > 0
    ensures var t := Exec(BEGIN, c, steps).value;
            && (forall i :: 0 <= i < |t.results| ==> !t.results[i])
            && (AfterResult(t.breaker, c, isFailure, now).state == Closed <==>
                  !isFailure && |t.results| + 1 == c.successThreshold)
            && (AfterResult(t.breaker, c, isFailure, now).state == Open <==> isFailure)
  {
    RunKeepsConsistent(BEGIN, c, steps);
  }

  lemma LastOfRun(t: Trace, c: Config, steps: seq<Step>)
    requires steps != [] && Exec(t, c, steps).Some?
    ensures var front := steps[..|steps| - 1];
            && Exec(t, c, front).Some?
            && Next(Exec(t, c, front).value, c, steps[|steps| - 1]) == Some(Exec(t, c, steps).value)
  {
    Runs.LastStep(NextUnder, Machine(c, t), steps);
    Runs.RunKeeps(NextUnder, (m: Machine) => m.config == c, Machine(c, t), steps[..|steps| - 1]);
  }

  /** When the last failure among the steps was recorded. */
  function LatestFailure(steps: seq<Step>): Option<int> {
    if steps == [] then None
    else
      var last := steps[|steps| - 1];
      if last.Record? && last.isFailure then Some(last.now) else LatestFailure(steps[..|steps| - 1])
  }

  lemma {:induction false} LatestFailureIsKept(c: Config, steps: seq<Step>)
    requires Exec(BEGIN, c, steps).Some?
    ensures Exec(BEGIN, c, steps).value.latestFailure == LatestFailure(steps)
  {
    if steps != [] {
      LastOfRun(BEGIN, c, steps);
      LatestFailureIsKept(c, steps[..|steps| - 1]);
    }
  }

  /** In every interleaving, a call is refused if and only if the breaker is open and less than Timeout has
      passed since the latest recorded failure; every other call gets through to the service. */
  lemma RefusedIffRecentFailure(c: Config, steps: seq<Step>, now: int)
    requires Proper(c) && Exec(BEGIN, c, steps).Some?
    ensures var t := Exec(BEGIN, c, steps).value;
            && (t.breaker.state == Open ==> LatestFailure(steps).Some?)
            && Next(t, c, Admit(now)).Some?
            && Next(t, c, Admit(now)).value.inFlight
               == t.inFlight + if t.breaker.state == Open && now - LatestFailure(steps).value < c.timeout then 0 else 1
  {
    RunKeepsConsistent(BEGIN, c, steps);
    LatestFailureIsKept(c, steps);
  }

  // ---------------------------------------------------------------- recovery

  datatype Times = Times(admission: int, recording: int)

  /** Calls that follow each other and all succeed if they reach the service. */
  function Successes(calls: seq<Times>): seq<Step> {
    if calls == [] then []
    else Successes(calls[..|calls| - 1]) + [Admit(calls[|calls| - 1].admission)] + [Record(false, calls[|calls| - 1].recording)]
  }

  /** The state the run leads to, with as many calls in flight as before: since each recorded result is that
      of one call, all the calls were admitted. */
  ghost predicate AllReach(t: Trace, c: Config, calls: seq<Times>, state: CircuitState) {
    && Exec(t, c, Successes(calls)).Some?
    && Exec(t, c, Successes(calls)).value.inFlight == t.inFlight
    && Exec(t, c, Successes(calls)).value.breaker.state == state
  }

  lemma {:induction false} OneMoreSuccess(t: Trace, c: Config, calls: seq<Times>, t1: Trace)
    requires calls != [] && Exec(t, c, Successes(calls[..|calls| - 1])) == Some(t1)
    requires var last := calls[|calls| - 1];
             Next(t1, c, Admit(last.admission)).Some? && Next(Next(t1, c, Admit(last.admission)).value, c, Record(false, last.recording)).Some?
    ensures var last := calls[|calls| - 1];
            Exec(t, c, Successes(calls)) == Next(Next(t1, c, Admit(last.admission)).value, c, Record(false, last.recording))
  {
    var last, front := calls[|calls| - 1], Successes(calls[..|calls| - 1]);
    var m := Machine(c, t);
    Runs.RunKeeps(NextUnder, (x: Machine) => x.config == c, m, front);
    Runs.ExecConcat(NextUnder, m, front, [Admit(last.admission)]);
    Runs.OneStep(NextUnder, Machine(c, t1), Admit(last.admission));
    Runs.ExecConcat(NextUnder, m, front + [Admit(last.admission)], [Record(false, last.recording)]);
    Runs.OneStep(NextUnder, Machine(c, Next(t1, c, Admit(last.admission)).value), Record(false, last.recording));
  }

  /** A closed breaker lets any row of successes through and stays closed. */
  lemma {:induction false} SuccessesPass(c: Config, t: Trace, calls: seq<Times>)
    requires t.breaker.state == Closed
    ensures AllReach(t, c, calls, Closed)
  {
    if calls != [] {
      SuccessesPass(c, t, calls[..|calls| - 1]);
      OneMoreSuccess(t, c, calls, Exec(t, c, Successes(calls[..|calls| - 1])).value);
    }
  }

  lemma {:induction false} ProbesCount(c: Config, t: Trace, calls: seq<Times>)
    requires Proper(c) && Consistent(t, c) && t.breaker.state == Open && 0 < |calls| <= c.successThreshold
    requires calls[0].admission - t.latestFailure.value >= c.timeout
    ensures AllReach(t, c, calls, if |calls| < c.successThreshold then HalfOpen else Closed)
    ensures |calls| < c.successThreshold ==> Exec(t, c, Successes(calls)).value.breaker.consecutiveSuccesses == |calls|
  {
    var front := calls[..|calls| - 1];
    if front == [] {
      assert Exec(t, c, Successes(front)) == Some(t);
      OneMoreSuccess(t, c, calls, t);
    } else {
      ProbesCount(c, t, front);
      OneMoreSuccess(t, c, calls, Exec(t, c, Successes(front)).value);
    }
  }

  /** Recovery: from any reachable open state, once Timeout has passed since the latest recorded failure, calls
      that follow each other and succeed all reach the service; SuccessThreshold of them close the breaker,
      fewer leave it half-open, and any more get through as well. */
  lemma Recovers(c: Config, steps: seq<Step>, calls: seq<Times>, more: seq<Times>)
    requires Proper(c) && Exec(BEGIN, c, steps).Some? && Exec(BEGIN, c, steps).value.breaker.state == Open
    requires 0 < |calls| <= c.successThreshold && LatestFailure(steps).Some?
    requires calls[0].admission - LatestFailure(steps).value >= c.timeout
    ensures var t := Exec(BEGIN, c, steps).value;
            && AllReach(t, c, calls, if |calls| < c.successThreshold then HalfOpen else Closed)
            && (|calls| == c.successThreshold ==> AllReach(Exec(t, c, Successes(calls)).value, c, more, Closed))
  {
    var t := Exec(BEGIN, c, steps).value;
    RunKeepsConsistent(BEGIN, c, steps);
    LatestFailureIsKept(c, steps);
    ProbesCount(c, t, calls);
    if |calls| == c.successThreshold { SuccessesPass(c, Exec(t, c, Successes(calls)).value, more); }
  }

  /** In every interleaving, an open breaker admits a call exactly when Timeout has passed since the
      latest recorded failure, including failures recorded after it opened. */
  lemma OpenAdmitsAfterTimeout(c: Config, steps: seq<Step>, now: int)
    requires Proper(c) && Exec(BEGIN, c, steps).Some?
    requires Exec(BEGIN, c, steps).value.breaker.state == Open
    ensures var t := Exec(BEGIN, c, steps).value;
            && t.latestFailure.Some?
            && (Admits(t.breaker, c, now) <==> now - t.latestFailure.value >= c.timeout)
  {
    RunKeepsConsistent(BEGIN, c, steps);
  }

  // ---------------------------------------------------------------- a failing service

  datatype FailingCall = FailingCall(admission: int, recording: int)

  /** How many of a row of failing calls reach the service with admission times in [lo, hi]. */
  function Reaching(b: Breaker, c: Config, calls: seq<FailingCall>, lo: int, hi: int): nat
    decreases |calls|
  {
    if calls == [] then 0
    else
      var call := calls[0];
      (if Admits(b, c, call.admission) && lo <= call.admission <= hi then 1 else 0)
      + Reaching(AfterCall(b, c, call.admission, true, call.recording), c, calls[1..], lo, hi)
  }

  /** How many times, at least `step` apart, fit into an interval of the given length. */
  function Slots(length: int, step: int): nat
    requires step > 0
  {
    if length < 0 then 0 else 1 + length / step
  }

  lemma SlotsMonotone(x: int, y: int, step: int)
    requires step > 0 && x <= y
    ensures Slots(x, step) <= Slots(y, step)
  {
    if x >= 0 { QuotientMonotone(x, y, step); }
  }

  /** One admission uses up a slot. */
  lemma SlotsStep(length: int, step: int)
    requires step > 0 && length >= 0
    ensures Slots(length - step, step) == length / step
  {
    if length >= step {
      var q, r := length / step, length % step;
      assert length - step == (q - 1) * step + r;
      QuotientUnique(length - step, step, q - 1, r);
    } else {
      assert length / step == 0;
    }
  }

  function Max(x: int, y: int): int {
    if x < y then y else x
  }

  /** A bound on the calls still to reach the service within [lo, hi]. */
  function Budget(b: Breaker, c: Config, lo: int, hi: int): int
    requires c.timeout > 0
  {
    match b.state
    case Closed => c.failureThreshold - b.consecutiveFailures + (hi - lo) / c.timeout
    case HalfOpen => 1 + (hi - lo) / c.timeout
    case Open => Slots(hi - Max(lo, b.lastFailureTime + c.timeout), c.timeout)
  }

  ghost predicate Reachable(b: Breaker, c: Config) {
    b.state == Closed ==> 0 <= b.consecutiveFailures < c.failureThreshold
  }

  lemma CallPaysFromBudget(b: Breaker, c: Config, call: FailingCall, lo: int, hi: int)
    requires Proper(c) && c.timeout > 0 && Reachable(b, c) && lo <= hi && call.admission <= call.recording
    ensures var b' := AfterCall(b, c, call.admission, true, call.recording);
            && Reachable(b', c)
            && Budget(b', c, lo, hi) + (if Admits(b, c, call.admission) && lo <= call.admission <= hi then 1 else 0)
               <= Budget(b, c, lo, hi)
  {
    var a, r, T := call.admission, call.recording, c.timeout;
    var b' := AfterCall(b, c, a, true, r);
    if Admits(b, c, a) && b'.state == Open {
      SlotsMonotone(hi - Max(lo, r + T), hi - lo, T);
      if lo <= a <= hi {
        SlotsStep(hi - lo, T);
        SlotsMonotone(hi - Max(lo, r + T), (hi - lo) - T, T);
        if b.state == Open {
          var s := Max(lo, b.lastFailureTime + T);
          SlotsStep(hi - s, T);
          SlotsMonotone(hi - Max(lo, r + T), (hi - s) - T, T);
        }
      } else if b.state == Open {
        SlotsMonotone(hi - Max(lo, r + T), hi - Max(lo, b.lastFailureTime + T), T);
      }
    }
  }

  lemma {:induction false} ReachingWithinBudget(b: Breaker, c: Config, calls: seq<FailingCall>, lo: int, hi: int)
    requires Proper(c) && c.timeout > 0 && Reachable(b, c) && lo <= hi
    requires forall i :: 0 <= i < |calls| ==> calls[i].admission <= calls[i].recording
    ensures Reaching(b, c, calls, lo, hi) <= Max(0, Budget(b, c, lo, hi))
    decreases |calls|
  {
    if calls != [] {
      CallPaysFromBudget(b, c, calls[0], lo, hi);
      var b' := AfterCall(b, c, calls[0].admission, true, calls[0].recording);
      BudgetIsNatural(b', c, lo, hi);
      ReachingWithinBudget(b', c, calls[1..], lo, hi);
    }
  }

  lemma BudgetIsNatural(b: Breaker, c: Config, lo: int, hi: int)
    requires c.timeout > 0 && Reachable(b, c) && lo <= hi
    ensures Budget(b, c, lo, hi) >= 0
  {
    QuotientMonotone(0, hi - lo, c.timeout);
  }

  /** While the service fails, whatever reachable state the breaker starts from, no time window of
      length L lets more than FailureThreshold + L / Timeout calls through to it. */
  lemma FailingServiceIsSpared(c: Config, steps: seq<Step>, calls: seq<FailingCall>, lo: int, L: nat)
    requires Proper(c) && c.timeout > 0 && Exec(BEGIN, c, steps).Some?
    requires forall i :: 0 <= i < |calls| ==> calls[i].admission <= calls[i].recording
    ensures Reaching(Exec(BEGIN, c, steps).value.breaker, c, calls, lo, lo + L) <= c.failureThreshold + L / c.timeout
  {
    RunKeepsConsistent(BEGIN, c, steps);
    var b := Exec(BEGIN, c, steps).value.breaker;
    BudgetIsNatural(b, c, lo, lo + L);
    ReachingWithinBudget(b, c, calls, lo, lo + L);
    if b.state == Open {
      SlotsMonotone(lo + L - Max(lo, b.lastFailureTime + c.timeout), L, c.timeout);
    }
  }
}
