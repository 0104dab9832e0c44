/** The token bucket over exact reals: what one call does, and which of a row of calls it allows when each
    call brings its own limit. Times are seconds. */
module TokenBucket {

  datatype Rate = Rate(requestsPerSecond: real, burst: int)

  datatype Bucket = Bucket(tokens: real, capacity: real, refillRate: real, lastRefill: real)

  datatype Call = Call(time: real, limit: Rate)

  function NewBucket(limit: Rate, now: real): Bucket {
    Bucket(limit.burst as real, limit.burst as real, limit.requestsPerSecond, now)
  }

  /** What a bucket gains in `elapsed` seconds. */
  function Refill(elapsed: real, rate: real): real {
    elapsed * rate
  }

  lemma RefillSplit(e: real, d: real, rate: real)
    ensures Refill(e, rate) == Refill(e - d, rate) + Refill(d, rate)
  {
  }

  lemma RefillNatural(elapsed: real, rate: real)
    requires elapsed >= 0.0 && rate >= 0.0
    ensures Refill(elapsed, rate) >= 0.0
  {
  }

  /** The tokens after adopting the limit and refilling for the elapsed time, capped. */
  function Level(b: Bucket, limit: Rate, now: real): real {
    var filled := b.tokens + Refill(now - b.lastRefill, limit.requestsPerSecond);
    if filled > limit.burst as real then limit.burst as real else filled
  }

  function Allows(b: Bucket, limit: Rate, now: real): bool {
    Level(b, limit, now) >= 1.0
  }

  function AfterTake(b: Bucket, limit: Rate, now: real): Bucket {
    var level := Level(b, limit, now);
    Bucket(if level >= 1.0 then level - 1.0 else level, limit.burst as real, limit.requestsPerSecond, now)
  }

  function After(b: Bucket, calls: seq<Call>): Bucket {
    if calls == [] then b
    else AfterTake(After(b, calls[..|calls| - 1]), calls[|calls| - 1].limit, calls[|calls| - 1].time)
  }

  function Answers(b: Bucket, calls: seq<Call>): seq<bool> {
    if calls == [] then []
    else
      var front, last := calls[..|calls| - 1], calls[|calls| - 1];
      Answers(b, front) + [Allows(After(b, front), last.limit, last.time)]
  }

  /** The same, taken from the front. */
  lemma {:induction false} AnswersFrom(b: Bucket, first: Call, rest: seq<Call>)
    ensures Answers(b, [first] + rest)
         == [Allows(b, first.limit, first.time)] + Answers(AfterTake(b, first.limit, first.time), rest)
    ensures After(b, [first] + rest) == After(AfterTake(b, first.limit, first.time), rest)
  {
    var calls := [first] + rest;
    if rest == [] {
      assert calls[..0] == [] && calls == [first];
    } else {
      assert calls[..|calls| - 1] == [first] + rest[..|rest| - 1];
      AnswersFrom(b, first, rest[..|rest| - 1]);
    }
  }

  lemma {:induction false} AnswersLength(b: Bucket, calls: seq<Call>)
    ensures |Answers(b, calls)| == |calls|
  {
    if calls != [] { AnswersLength(b, calls[..|calls| - 1]); }
  }

  /** How many answers from place `i` on are positive. */
  function AllowedFrom(answers: seq<bool>, i: nat): nat
  {
    if |answers| <= i then 0
    else AllowedFrom(answers[..|answers| - 1], i) + if answers[|answers| - 1] then 1 else 0
  }

  function Took(a: bool): nat {
    if a then 1 else 0
  }

  lemma AllowedFromAppend(answers: seq<bool>, a: bool, i: nat)
    requires i <= |answers|
    ensures AllowedFrom(answers + [a], i) == AllowedFrom(answers, i) + Took(a)
  {
    assert (answers + [a])[..|answers|] == answers;
  }

  // ---------------------------------------------------------------- windows

  /** When the `i`th of the stretches between the calls begins: at `start` or with the call before. */
  function StretchStart(start: real, calls: seq<Call>, i: nat): real
    requires i <= |calls|
  {
    if i == 0 then start else calls[i - 1].time
  }

  /** What is refilled in the stretches from the `i`th up to call `n`, each at the rate of the call that ends it. */
  function Gained(start: real, calls: seq<Call>, i: nat, n: nat): real
    requires i <= n <= |calls|
  {
    if n == i then 0.0
    else Gained(start, calls, i, n - 1)
         + Refill(calls[n - 1].time - StretchStart(start, calls, n - 1), calls[n - 1].limit.requestsPerSecond)
  }

  lemma {:induction false} GainedBefore(start: real, calls: seq<Call>, more: seq<Call>, i: nat, n: nat)
    requires i <= n <= |calls|
    ensures Gained(start, calls + more, i, n) == Gained(start, calls, i, n)
  {
    if n > i { GainedBefore(start, calls, more, i, n - 1); }
  }

  /** The tokens that a window opens with: those held at the start, or the burst of the call that opens it. */
  function HeldAt(held: real, calls: seq<Call>, i: nat): real
    requires i <= |calls|
  {
    if i == 0 then held else calls[i - 1].limit.burst as real
  }

  /** A window that opens before stretch `i` has room for `x` more at the last of the calls, beside those that it
      allowed: together they stay within what it opened with and what has been refilled. */
  ghost predicate HasRoom(held: real, start: real, calls: seq<Call>, answers: seq<bool>, i: nat, x: real)
    requires i <= |calls|
  {
    x + AllowedFrom(answers, if i == 0 then 0 else i - 1) as real <= HeldAt(held, calls, i) + Gained(start, calls, i, |calls|)
  }

  /** At the last of the calls, whose answer is still to come, there is room for `x`: it is within the burst of
      that call; and within every window that begins with the bucket's first `held` tokens, or with one of the
      earlier calls and the burst of that moment. */
  ghost predicate WindowsHaveRoom(held: real, start: real, calls: seq<Call>, answers: seq<bool>, x: real)
    requires calls != []
  {
    x <= calls[|calls| - 1].limit.burst as real && forall i: nat :: i < |calls| ==> HasRoom(held, start, calls, answers, i, x)
  }

  /** Room at a call after one that was answered `a` is room at that one for what is asked, plus what it took,
      less what is refilled in between. */
  lemma RoomShifts(held: real, start: real, calls: seq<Call>, answers: seq<bool>, a: bool, last: Call, i: nat, x: real)
    requires calls != [] && |answers| + 1 == |calls| && i < |calls|
    ensures var y := x + Took(a) as real - Refill(last.time - calls[|calls| - 1].time, last.limit.requestsPerSecond);
            HasRoom(held, start, calls + [last], answers + [a], i, x) <==> HasRoom(held, start, calls, answers, i, y)
  {
    GainedBefore(start, calls, [last], i, |calls|);
    AllowedFromAppend(answers, a, if i == 0 then 0 else i - 1);
  }

  /** The window that opens with the last answered call. */
  lemma RoomSinceLast(held: real, start: real, calls: seq<Call>, answers: seq<bool>, a: bool, last: Call, x: real)
    requires calls != [] && |answers| + 1 == |calls|
    ensures var y := x + Took(a) as real - Refill(last.time - calls[|calls| - 1].time, last.limit.requestsPerSecond);
            HasRoom(held, start, calls + [last], answers + [a], |calls|, x) <==> y <= calls[|calls| - 1].limit.burst as real
  {
    AllowedFromAppend(answers, a, |calls| - 1);
    assert AllowedFrom(answers, |answers|) == 0;
    assert Gained(start, calls + [last], |calls|, |calls|) == 0.0;
  }

  lemma WindowsShift(held: real, start: real, calls: seq<Call>, answers: seq<bool>, a: bool, last: Call, x: real)
    requires calls != [] && |answers| + 1 == |calls|
    ensures var y := x + Took(a) as real - Refill(last.time - calls[|calls| - 1].time, last.limit.requestsPerSecond);
            WindowsHaveRoom(held, start, calls + [last], answers + [a], x) <==>
            x <= last.limit.burst as real && WindowsHaveRoom(held, start, calls, answers, y)
  {
    var y := x + Took(a) as real - Refill(last.time - calls[|calls| - 1].time, last.limit.requestsPerSecond);
    forall i: nat | i < |calls|
      ensures HasRoom(held, start, calls + [last], answers + [a], i, x) <==> HasRoom(held, start, calls, answers, i, y)
    {
      RoomShifts(held, start, calls, answers, a, last, i, x);
    }
    RoomSinceLast(held, start, calls, answers, a, last, x);
  }

  /** How the level after a call relates to the level at the call. */
  lemma LevelShifts(b: Bucket, call: Call, last: Call, x: real)
    ensures x <= Level(AfterTake(b, call.limit, call.time), last.limit, last.time) <==>
            && x <= last.limit.burst as real
            && x + Took(Allows(b, call.limit, call.time)) as real - Refill(last.time - call.time, last.limit.requestsPerSecond)
               <= Level(b, call.limit, call.time)
  {
  }

  lemma FirstCall(b: Bucket, last: Call, x: real)
    ensures x <= Level(b, last.limit, last.time) <==> WindowsHaveRoom(b.tokens, b.lastRefill, [] + [last], [], x)
  {
    assert [] + [last] == [last];
    assert Gained(b.lastRefill, [last], 0, 0) == 0.0;
    assert HasRoom(b.tokens, b.lastRefill, [last], [], 0, x) <==>
           x <= b.tokens + Refill(last.time - b.lastRefill, last.limit.requestsPerSecond);
  }

  /** The level of any bucket at a call is what its tightest window leaves. */
  lemma {:induction false} LevelIsTightestWindow(b: Bucket, calls: seq<Call>, last: Call, x: real)
    ensures x <= Level(After(b, calls), last.limit, last.time) <==>
            WindowsHaveRoom(b.tokens, b.lastRefill, calls + [last], Answers(b, calls), x)
    decreases |calls|
  {
    if calls == [] {
      FirstCall(b, last, x);
    } else {
      var front, call := calls[..|calls| - 1], calls[|calls| - 1];
      var a := Allows(After(b, front), call.limit, call.time);
      assert calls == front + [call];
      AnswersLength(b, front);
      WindowsShift(b.tokens, b.lastRefill, calls, Answers(b, front), a, last, x);
      LevelShifts(After(b, front), call, last, x);
      LevelIsTightestWindow(b, front, call, x + Took(a) as real - Refill(last.time - call.time, last.limit.requestsPerSecond));
    }
  }

  /** Each call may bring its own limit. A request is allowed exactly when it fits into the burst of its own
      limit, and into every window that ends with it: for the bucket's creation and every earlier call as window
      start, the requests allowed in the window and this one together stay within the burst of that moment
      plus what is refilled, stretch by stretch, at the rates then in force. */
  lemma AllowedIffWindowsHaveRoom(first: Rate, created: real, calls: seq<Call>, last: Call)
    ensures var b := NewBucket(first, created);
            Answers(b, calls + [last])
            == Answers(b, calls) + [WindowsHaveRoom(first.burst as real, created, calls + [last], Answers(b, calls), 1.0)]
  {
    assert (calls + [last])[..|calls|] == calls;
    LevelIsTightestWindow(NewBucket(first, created), calls, last, 1.0);
  }

  // ---------------------------------------------------------------- changing limits

  /** `n` calls at one moment under one limit. */
  function Burst(limit: Rate, now: real, n: nat): seq<Call> {
    if n == 0 then [] else [Call(now, limit)] + Burst(limit, now, n - 1)
  }

  lemma AtOnce(b: Bucket, limit: Rate, now: real)
    requires b.lastRefill == now
    ensures Level(b, limit, now) == if b.tokens > limit.burst as real then limit.burst as real else b.tokens
  {
    assert Refill(0.0, limit.requestsPerSecond) == 0.0;
  }

  /** From any bucket with tokens left, a changed limit lets through at once exactly as many calls as fit into
      both the tokens and the new burst. */
  lemma {:induction false} ChangedLimitAtOnce(b: Bucket, limit: Rate, now: real, n: nat, k: nat)
    requires b.lastRefill == now && k < n
    ensures |Answers(b, Burst(limit, now, n))| == n
    ensures Answers(b, Burst(limit, now, n))[k] <==> (k + 1) as real <= b.tokens && k + 1 <= limit.burst
    decreases n
  {
    var first, rest := Call(now, limit), Burst(limit, now, n - 1);
    AnswersFrom(b, first, rest);
    AnswersLength(AfterTake(b, limit, now), rest);
    BurstLength(limit, now, n - 1);
    AtOnce(b, limit, now);
    if k > 0 { ChangedLimitAtOnce(AfterTake(b, limit, now), limit, now, n - 1, k - 1); }
  }

  lemma {:induction false} BurstLength(limit: Rate, now: real, n: nat)
    ensures |Burst(limit, now, n)| == n
  {
    if n > 0 { BurstLength(limit, now, n - 1); }
  }

  // ---------------------------------------------------------------- bounds on windows

  ghost predicate Ascending(start: real, calls: seq<Call>) {
    forall i: nat :: i < |calls| ==> StretchStart(start, calls, i) <= calls[i].time
  }

  ghost predicate Sensible(calls: seq<Call>) {
    forall i :: 0 <= i < |calls| ==> calls[i].limit.requestsPerSecond >= 0.0 && calls[i].limit.burst >= 0
  }

  /** The window that opens with call `i` has let no more through than the burst of that call and what is
      refilled since. */
  ghost predicate WithinBound(b: Bucket, calls: seq<Call>, i: nat)
    requires i < |calls|
  {
    AllowedFrom(Answers(b, calls), i) as real <= calls[i].limit.burst as real + Gained(b.lastRefill, calls, i + 1, |calls|)
  }

  lemma OneMoreAnswer(b: Bucket, front: seq<Call>, last: Call, i: nat)
    requires i <= |front|
    ensures AllowedFrom(Answers(b, front + [last]), i)
         == AllowedFrom(Answers(b, front), i) + Took(Allows(After(b, front), last.limit, last.time))
  {
    assert (front + [last])[..|front|] == front;
    AnswersLength(b, front);
    AllowedFromAppend(Answers(b, front), Allows(After(b, front), last.limit, last.time), i);
  }

  /** An allowed call leaves the windows that end with it within their bounds. */
  lemma WindowEndingNow(b: Bucket, front: seq<Call>, last: Call, i: nat)
    requires Allows(After(b, front), last.limit, last.time) && i <= |front|
    ensures WithinBound(b, front + [last], i)
  {
    OneMoreAnswer(b, front, last, i);
    LevelIsTightestWindow(b, front, last, 1.0);
    AnswersLength(b, front);
    if i < |front| {
      assert HasRoom(b.tokens, b.lastRefill, front + [last], Answers(b, front), i + 1, 1.0);
    } else {
      assert AllowedFrom(Answers(b, front), i) == 0;
    }
  }

  lemma GainGrows(start: real, front: seq<Call>, last: Call, i: nat)
    requires Ascending(start, front + [last]) && Sensible(front + [last]) && i <= |front|
    ensures Gained(start, front, i, |front|) <= Gained(start, front + [last], i, |front| + 1)
  {
    var calls := front + [last];
    GainedBefore(start, front, [last], i, |front|);
    assert StretchStart(start, calls, |front|) <= calls[|front|].time;
    RefillNatural(last.time - StretchStart(start, calls, |front|), last.limit.requestsPerSecond);
  }

  lemma PrefixIsSensible(start: real, front: seq<Call>, last: Call)
    requires Ascending(start, front + [last]) && Sensible(front + [last])
    ensures Ascending(start, front) && Sensible(front)
  {
    forall i: nat | i < |front| ensures StretchStart(start, front, i) <= front[i].time {
      assert StretchStart(start, front + [last], i) <= (front + [last])[i].time;
    }
    assert forall i :: 0 <= i < |front| ==> (front + [last])[i] == front[i];
  }

  /** A denied one does so because time goes on. */
  lemma WindowStaysWithin(b: Bucket, front: seq<Call>, last: Call, i: nat)
    requires Ascending(b.lastRefill, front + [last]) && Sensible(front + [last]) && i < |front|
    requires AllowedFrom(Answers(b, front + [last]), i) == AllowedFrom(Answers(b, front), i)
    requires WithinBound(b, front, i)
    ensures WithinBound(b, front + [last], i)
  {
    GainGrows(b.lastRefill, front, last, i + 1);
    assert (front + [last])[i] == front[i];
  }

  lemma EmptyWindow(b: Bucket, front: seq<Call>, last: Call)
    requires last.limit.burst >= 0
    requires AllowedFrom(Answers(b, front + [last]), |front|) == AllowedFrom(Answers(b, front), |front|)
    ensures WithinBound(b, front + [last], |front|)
  {
    AnswersLength(b, front);
    assert AllowedFrom(Answers(b, front), |front|) == 0;
    assert last.limit.burst as real >= 0.0;
  }

  lemma DeniedKeepsBound(b: Bucket, front: seq<Call>, last: Call, i: nat)
    requires Ascending(b.lastRefill, front + [last]) && Sensible(front + [last]) && i <= |front|
    requires AllowedFrom(Answers(b, front + [last]), i) == AllowedFrom(Answers(b, front), i)
    requires i < |front| ==> WithinBound(b, front, i)
    ensures WithinBound(b, front + [last], i)
  {
    if i < |front| {
      WindowStaysWithin(b, front, last, i);
    } else {
      assert (front + [last])[|front|] == last;
      EmptyWindow(b, front, last);
    }
  }

  /** So on a monotone clock no window that opens with a call exceeds its bound. */
  lemma {:induction false} NoWindowExceeds(b: Bucket, calls: seq<Call>, i: nat)
    requires Ascending(b.lastRefill, calls) && Sensible(calls) && i < |calls|
    ensures WithinBound(b, calls, i)
    decreases |calls|
  {
    var front, last := calls[..|calls| - 1], calls[|calls| - 1];
    assert calls == front + [last];
    OneMoreAnswer(b, front, last, i);
    if Allows(After(b, front), last.limit, last.time) {
      WindowEndingNow(b, front, last, i);
    } else {
      PrefixIsSensible(b.lastRefill, front, last);
      if i < |front| { NoWindowExceeds(b, front, i); }
      DeniedKeepsBound(b, front, last, i);
    }
  }

  // ---------------------------------------------------------------- a fixed limit

  /** The calls at these times under one limit. */
  function At(limit: Rate, times: seq<real>): seq<Call> {
    if times == [] then [] else At(limit, times[..|times| - 1]) + [Call(times[|times| - 1], limit)]
  }

  ghost predicate Fixed(limit: Rate, calls: seq<Call>) {
    forall i :: 0 <= i < |calls| ==> calls[i].limit == limit
  }

  /** Under a fixed limit, what is refilled is RequestsPerSecond times the length of the window. */
  lemma {:induction false} SteadyGain(limit: Rate, start: real, calls: seq<Call>, i: nat, n: nat)
    requires Fixed(limit, calls) && i <= n <= |calls|
    ensures Gained(start, calls, i, n)
         == (StretchStart(start, calls, n) - StretchStart(start, calls, i)) * limit.requestsPerSecond
  {
    if n > i {
      SteadyGain(limit, start, calls, i, n - 1);
      RefillSplit(calls[n - 1].time - StretchStart(start, calls, i), calls[n - 1].time - StretchStart(start, calls, n - 1),
                  limit.requestsPerSecond);
    } else {
      assert 0.0 * limit.requestsPerSecond == 0.0;
    }
  }

  lemma SmallBurstDenies(b: Bucket, limit: Rate, now: real)
    requires limit.burst < 1
    ensures !Allows(b, limit, now)
  {
    assert limit.burst as real <= 0.0;
  }

  /** A denied call leaves a bucket that refills to the same level. */
  lemma DeniedKeepsLevel(b: Bucket, limit: Rate, denied: real, now: real)
    requires limit.burst >= 1 && !Allows(b, limit, denied)
    ensures Level(AfterTake(b, limit, denied), limit, now) == Level(b, limit, now)
  {
    assert limit.burst as real >= 1.0;
    RefillSplit(now - b.lastRefill, now - denied, limit.requestsPerSecond);
  }

  /** So nothing that is asked later can tell that there was a denied call, if the next one brings the same limit,
      whatever limits the others bring. */
  lemma DeniedCallIsForgotten(b: Bucket, denied: Call, later: seq<Call>)
    requires !Allows(b, denied.limit, denied.time) && denied.limit.burst >= 1
    requires later != [] && later[0].limit == denied.limit
    ensures Answers(AfterTake(b, denied.limit, denied.time), later) == Answers(b, later)
  {
    var first, rest := later[0], later[1..];
    assert later == [first] + rest;
    DeniedKeepsLevel(b, denied.limit, denied.time, first.time);
    AnswersFrom(b, first, rest);
    AnswersFrom(AfterTake(b, denied.limit, denied.time), first, rest);
  }

  /** Another limit can: the denied call has refilled the time before it at its own rate. */
  lemma DeniedCallCanShow()
    ensures var b, denied, later := Bucket(0.0, 1.0, 1.0, 0.0), Call(1.0, Rate(0.0, 1)), [Call(1.0, Rate(1.0, 1))];
            && !Allows(b, denied.limit, denied.time)
            && Answers(b, later) == [true] && Answers(AfterTake(b, denied.limit, denied.time), later) == [false]
  {
    var later := [Call(1.0, Rate(1.0, 1))];
    assert later[..0] == [] && later == [] + later;
    assert Refill(1.0, 0.0) == 0.0 && Refill(0.0, 1.0) == 0.0 && Refill(1.0, 1.0) == 1.0;
  }

  lemma AtFront(limit: Rate, times: seq<real>)
    requires times != []
    ensures At(limit, times) != [] && At(limit, times)[|At(limit, times)| - 1] == Call(times[|times| - 1], limit)
    ensures At(limit, times)[..|At(limit, times)| - 1] == At(limit, times[..|times| - 1])
  {
  }

  /** Under a fixed limit, denied calls never change a later answer. */
  lemma {:induction false} DeniedCallsAreInvisible(b: Bucket, limit: Rate, denied: real, later: seq<real>)
    requires !Allows(b, limit, denied)
    ensures Answers(AfterTake(b, limit, denied), At(limit, later)) == Answers(b, At(limit, later))
    ensures limit.burst >= 1 && later != [] ==>
              After(AfterTake(b, limit, denied), At(limit, later)) == After(b, At(limit, later))
    decreases |later|
  {
    if later != [] {
      var front, now := later[..|later| - 1], later[|later| - 1];
      AtFront(limit, later);
      DeniedCallsAreInvisible(b, limit, denied, front);
      if limit.burst < 1 {
        SmallBurstDenies(After(b, At(limit, front)), limit, now);
        SmallBurstDenies(After(AfterTake(b, limit, denied), At(limit, front)), limit, now);
      } else if front == [] {
        DeniedKeepsLevel(b, limit, denied, now);
      }
    }
  }
}
