/** The rate limiter: one bucket object per key, made on first use and evicted when idle. A call looks
    its bucket up and takes from it in two steps, so that the bucket can be evicted in between. What
    evictions can and cannot change is characterised exactly. */
module RateLimiter {
  import opened Wrappers
  import opened TokenBucket

  /** Buckets idle for longer than this many seconds are evicted. */
  const IDLE: real := 300.0

  /** The buckets in the map, and those that calls have looked up and not taken from yet: `None` for
      the bucket still in the map under that key, `Some` for one that was evicted meanwhile. Calls
      on one key follow each other; calls on different keys may overlap. */
  datatype Limiter = Limiter(buckets: map<string, Bucket>, held: map<string, Option<Bucket>>)

  const EMPTY := Limiter(map[], map[])

  /** A call on this key has its bucket. */
  predicate Holds(l: Limiter, key: string) {
    key in l.held && (l.held[key].None? ==> key in l.buckets)
  }

  function Held(l: Limiter, key: string): Bucket
    requires Holds(l, key)
  {
    if l.held[key].Some? then l.held[key].value else l.buckets[key]
  }

  /** Finds the key's bucket or makes one. */
  function AfterLookup(l: Limiter, key: string, limit: Rate, created: real): Limiter {
    Limiter(if key in l.buckets then l.buckets else l.buckets[key := NewBucket(limit, created)], l.held[key := None])
  }

  /** Takes from the bucket held; what is taken from an evicted one is lost. */
  function AfterTaking(l: Limiter, key: string, limit: Rate, now: real): Limiter
    requires Holds(l, key)
  {
    Limiter(if l.held[key].Some? then l.buckets else l.buckets[key := AfterTake(l.buckets[key], limit, now)], l.held - {key})
  }

  predicate Idle(b: Bucket, now: real) {
    b.lastRefill < now - IDLE
  }

  function Evicted(l: Limiter, now: real): Limiter {
    Limiter(map key | key in l.buckets && !Idle(l.buckets[key], now) :: l.buckets[key],
            map key | key in l.held ::
              if l.held[key].None? && key in l.buckets && Idle(l.buckets[key], now) then Some(l.buckets[key]) else l.held[key])
  }

  // ---------------------------------------------------------------- the objects

  class BucketObject {
    var tokens: real
    var capacity: real
    var refillRate: real
    var lastRefill: real

    ghost function View(): Bucket
      reads this
    {
      Bucket(tokens, capacity, refillRate, lastRefill)
    }

    constructor (limit: Rate, now: real)
      ensures View() == NewBucket(limit, now)
    {
      tokens, capacity, refillRate, lastRefill := limit.burst as real, limit.burst as real, limit.requestsPerSecond, now;
    }

    method Take(limit: Rate, now: real) returns (allowed: bool)
      modifies this
      ensures allowed == Allows(old(View()), limit, now)
      ensures View() == AfterTake(old(View()), limit, now)
    {
      if capacity != limit.burst as real || refillRate != limit.requestsPerSecond {
        capacity := limit.burst as real;
        refillRate := limit.requestsPerSecond;
      }
      var elapsed := now - lastRefill;
      tokens := tokens + Refill(elapsed, refillRate);
      if tokens > capacity {
        tokens := capacity;
      }
      assert tokens == Level(old(View()), limit, now);
      lastRefill := now;
      if tokens >= 1.0 {
        tokens := tokens - 1.0;
        return true;
      }
      return false;
    }
  }

  class TokenBucketLimiter {
    var buckets: map<string, BucketObject>
    // the bucket of each call that has looked one up
    ghost var held: map<string, BucketObject>

    /** No two keys share a bucket, and a call holds a bucket of its own key. */
    ghost predicate Valid()
      reads this
    {
      && (forall j, k :: j in buckets && k in buckets && j != k ==> buckets[j] != buckets[k])
      && (forall j, k :: j in held && k in held && j != k ==> held[j] != held[k])
      && (forall j, k :: j in held && k in buckets && j != k ==> held[j] != buckets[k])
    }

    ghost function Stored(): map<string, Bucket>
      reads this, buckets.Values
    {
      map key | key in buckets :: buckets[key].View()
    }

    /** The bucket of a call, if it is not the one in the map any more. */
    ghost function Detached(key: string): Option<Bucket>
      requires key in held
      reads this, held.Values
    {
      if key in buckets && buckets[key] == held[key] then None else Some(held[key].View())
    }

    ghost function InUse(): map<string, Option<Bucket>>
      reads this, held.Values
    {
      map key | key in held :: Detached(key)
    }

    ghost function View(): Limiter
      reads this, buckets.Values, held.Values
    {
      Limiter(Stored(), InUse())
    }

    lemma ViewIs(l: Limiter)
      requires l.buckets.Keys == buckets.Keys && l.held.Keys == held.Keys
      requires forall k :: k in buckets ==> buckets[k].View() == l.buckets[k]
      requires forall k :: k in held ==> Detached(k) == l.held[k]
      ensures View() == l
    {
      assert Stored() == l.buckets;
      assert InUse() == l.held;
    }

    constructor ()
      ensures Valid() && View() == EMPTY
    {
      buckets, held := map[], map[];
    }

    /** The first half of `Allow`. */
    method Lookup(key: string, limit: Rate, created: real) returns (b: BucketObject)
      requires Valid() && key !in held
      modifies this
      ensures Valid() && fresh(buckets.Values - old(buckets.Values)) && held == old(held)[key := b]
      ensures key in buckets && b == buckets[key]
      ensures View() == AfterLookup(old(View()), key, limit, created)
    {
      b := FindOrMake(key, limit, created);
      ghost var found := View();
      held := held[key := b];
      ViewIs(found.(held := found.held[key := None]));
    }

    method FindOrMake(key: string, limit: Rate, created: real) returns (b: BucketObject)
      requires Valid() && key !in held
      modifies this`buckets
      ensures Valid() && fresh(buckets.Values - old(buckets.Values))
      ensures key in buckets && b == buckets[key]
      ensures forall k :: k in held ==> b != held[k]
      ensures View() == AfterLookup(old(View()), key, limit, created).(held := old(View()).held)
    {
      if key !in buckets {
        b := new BucketObject(limit, created);
        buckets := buckets[key := b];
      } else {
        b := buckets[key];
      }
      ViewIs(AfterLookup(old(View()), key, limit, created).(held := old(View()).held));
    }

    /** The second half, on the bucket that the first one returned. */
    method TakeFrom(key: string, b: BucketObject, limit: Rate, now: real) returns (allowed: bool)
      requires Valid() && key in held && held[key] == b
      modifies this`held, b
      ensures Valid() && held == old(held) - {key}
      ensures allowed == Allows(Held(old(View()), key), limit, now)
      ensures View() == AfterTaking(old(View()), key, limit, now)
    {
      allowed := b.Take(limit, now);
      held := held - {key};
      ViewIs(AfterTaking(old(View()), key, limit, now));
    }

    /** A whole call, during which the cleanup may run any number of times. */
    method Allow(key: string, limit: Rate, created: real, cleanups: seq<real>, now: real) returns (allowed: bool)
      requires Valid() && key !in held
      modifies this, buckets.Values
      ensures Valid() && held == old(held) && fresh(buckets.Values - old(buckets.Values))
      ensures var l := EvictedOften(AfterLookup(old(View()), key, limit, created), cleanups);
              Holds(l, key) && allowed == Allows(Held(l, key), limit, now) && View() == AfterTaking(l, key, limit, now)
    {
      var b := Lookup(key, limit, created);
      ghost var l, known := View(), buckets.Values;
      assert cleanups[..0] == [];
      for i := 0 to |cleanups|
        invariant Valid() && held == old(held)[key := b]
        invariant buckets.Values <= known && (b in old(buckets.Values) || fresh(b))
        invariant View() == EvictedOften(l, cleanups[..i])
      {
        RemoveOldBuckets(cleanups[i]);
        assert cleanups[..i + 1][..i] == cleanups[..i];
      }
      assert cleanups[..|cleanups|] == cleanups;
      allowed := TakeFrom(key, b, limit, now);
      TakenBack(old(held), key, b);
    }

    /** Walks the map in any order and deletes what has been idle too long. */
    method RemoveOldBuckets(now: real)
      requires Valid()
      modifies this`buckets
      ensures Valid() && buckets.Values <= old(buckets.Values)
      ensures forall key :: key in old(buckets) ==> (key in buckets <==> old(buckets)[key].lastRefill >= now - 300.0)
      ensures forall key :: key in buckets ==> key in old(buckets) && buckets[key] == old(buckets)[key]
      ensures View() == Evicted(old(View()), now)
    {
      var threshold := now - IDLE;
      var todo := buckets.Keys;
      while todo != {}
        invariant todo <= buckets.Keys && Valid()
        invariant forall key :: key in buckets ==> key in old(buckets) && buckets[key] == old(buckets)[key]
        invariant forall key :: key in old(buckets) ==>
          (key in buckets <==> key in todo || old(buckets)[key].lastRefill >= threshold)
      {
        var key :| key in todo;
        if buckets[key].lastRefill < threshold {
          buckets := buckets - {key};
        }
        todo := todo - {key};
      }
      ViewIs(Evicted(old(View()), now));
    }
  }

  lemma TakenBack<T>(m: map<string, T>, key: string, b: T)
    requires key !in m
    ensures m[key := b] - {key} == m
  {
  }

  function EvictedOften(l: Limiter, cleanups: seq<real>): Limiter {
    if cleanups == [] then l else Evicted(EvictedOften(l, cleanups[..|cleanups| - 1]), cleanups[|cleanups| - 1])
  }

  // ---------------------------------------------------------------- runs

  datatype Op =
    | Lookup(key: string, limit: Rate, time: real)
    | Take(key: string, limit: Rate, time: real)
    | Evict(time: real)

  datatype Reply = Reply(key: string, allowed: bool)

  predicate Possible(l: Limiter, op: Op) {
    match op
    case Lookup(key, _, _) => key !in l.held
    case Take(key, _, _) => Holds(l, key)
    case Evict(_) => true
  }

  /** What an operation does, on a limiter that evicts or on one that never does. */
  function After(l: Limiter, op: Op, evicts: bool): Limiter {
    if !Possible(l, op) then l
    else
      match op
      case Lookup(key, limit, created) => AfterLookup(l, key, limit, created)
      case Take(key, limit, now) => AfterTaking(l, key, limit, now)
      case Evict(now) => if evicts then Evicted(l, now) else l
  }

  function Replies(l: Limiter, op: Op): seq<Reply> {
    if op.Take? && Holds(l, op.key)
    then [Reply(op.key, Allows(Held(l, op.key), op.limit, op.time))]
    else []
  }

  /** The replies of a run, in which each call brings its own limit. */
  function Run(l: Limiter, ops: seq<Op>, evicts: bool): seq<Reply>
    decreases |ops|
  {
    if ops == [] then []
    else Replies(l, ops[0]) + Run(After(l, ops[0], evicts), ops[1..], evicts)
  }

  /** The keys on which a call is under way after the operation. */
  function BusyAfter(busy: set<string>, op: Op): set<string> {
    match op
    case Lookup(key, _, _) => busy + {key}
    case Take(key, _, _) => busy - {key}
    case Evict(_) => busy
  }

  /** The clock does not run backwards, and the calls on each key follow each other. */
  ghost predicate Orderly(ops: seq<Op>, time: real, busy: set<string>)
    decreases |ops|
  {
    ops != [] ==>
      && time <= ops[0].time
      && (ops[0].Lookup? ==> ops[0].key !in busy)
      && (ops[0].Take? ==> ops[0].key in busy)
      && Orderly(ops[1..], ops[0].time, BusyAfter(busy, ops[0]))
  }

  /** The operations can happen in this order. */
  ghost predicate Feasible(ops: seq<Op>) {
    exists time :: Orderly(ops, time, {})
  }

  /** No eviction falls between the lookup and the take of a call. */
  ghost predicate Quiet(ops: seq<Op>, busy: set<string>)
    decreases |ops|
  {
    ops != [] ==> (ops[0].Evict? ==> busy == {}) && Quiet(ops[1..], BusyAfter(busy, ops[0]))
  }

  /** No eviction takes away a bucket that a call has looked up and not taken from yet. */
  ghost predicate Intact(l: Limiter, ops: seq<Op>)
    decreases |ops|
  {
    ops != [] ==>
      && (ops[0].Evict? ==> forall key :: key in l.held && key in l.buckets ==> !Idle(l.buckets[key], ops[0].time))
      && Intact(After(l, ops[0], true), ops[1..])
  }

  lemma {:induction false} QuietRunsAreIntact(l: Limiter, ops: seq<Op>, time: real)
    requires Orderly(ops, time, l.held.Keys) && Quiet(ops, l.held.Keys)
    requires forall key :: key in l.held ==> Holds(l, key)
    ensures Intact(l, ops)
    decreases |ops|
  {
    if ops != [] {
      var l' := After(l, ops[0], true);
      assert l'.held.Keys == BusyAfter(l.held.Keys, ops[0]);
      QuietRunsAreIntact(l', ops[1..], ops[0].time);
    }
  }

  // ---------------------------------------------------------------- one key among many

  function RepliesTo(replies: seq<Reply>, key: string): seq<bool> {
    if replies == [] then []
    else (if replies[0].key == key then [replies[0].allowed] else []) + RepliesTo(replies[1..], key)
  }

  /** The takes of the calls on the key. */
  function TakesOf(ops: seq<Op>, key: string): seq<Call> {
    if ops == [] then []
    else (if ops[0].Take? && ops[0].key == key then [Call(ops[0].time, ops[0].limit)] else []) + TakesOf(ops[1..], key)
  }

  /** The first lookup of the key, which makes its bucket. */
  function FirstLookup(ops: seq<Op>, key: string): Call {
    if ops == [] then Call(0.0, Rate(0.0, 0))
    else if ops[0].Lookup? && ops[0].key == key then Call(ops[0].time, ops[0].limit)
    else FirstLookup(ops[1..], key)
  }

  lemma RepliesToConcat(a: seq<Reply>, b: seq<Reply>, key: string)
    requires |a| <= 1
    ensures RepliesTo(a + b, key) == RepliesTo(a, key) + RepliesTo(b, key)
  {
    if |a| == 1 { assert (a + b)[1..] == b && a[1..] == []; } else { assert a + b == b; }
  }

  /** Nobody holds a bucket that is not in the map. */
  ghost predicate Attached(l: Limiter) {
    forall key :: key in l.held ==> l.held[key].None? && key in l.buckets
  }

  lemma StepForKey(l: Limiter, op: Op, key: string)
    requires Attached(l) && Possible(l, op) && key in l.buckets
    ensures var l', own := After(l, op, false), op.Take? && op.key == key;
            && Attached(l') && l'.held.Keys == BusyAfter(l.held.Keys, op) && key in l'.buckets
            && l'.buckets[key] == (if own then AfterTake(l.buckets[key], op.limit, op.time) else l.buckets[key])
            && RepliesTo(Replies(l, op), key) == if own then [Allows(l.buckets[key], op.limit, op.time)] else []
  {
    assert RepliesTo([], key) == [];
  }

  /** From when its bucket exists, a key is answered as if its bucket were the only one. */
  lemma {:induction false} KeyKeepsToItself(l: Limiter, ops: seq<Op>, key: string, time: real)
    requires Attached(l) && Orderly(ops, time, l.held.Keys) && key in l.buckets
    ensures RepliesTo(Run(l, ops, false), key) == Answers(l.buckets[key], TakesOf(ops, key))
    decreases |ops|
  {
    if ops != [] {
      var op, l' := ops[0], After(l, ops[0], false);
      StepForKey(l, op, key);
      KeyKeepsToItself(l', ops[1..], key, op.time);
      RepliesToConcat(Replies(l, op), Run(l', ops[1..], false), key);
      if op.Take? && op.key == key {
        AnswersFrom(l.buckets[key], Call(op.time, op.limit), TakesOf(ops[1..], key));
      } else {
        assert TakesOf(ops, key) == TakesOf(ops[1..], key);
      }
    }
  }

  lemma StepForOthers(l: Limiter, op: Op, key: string)
    requires Attached(l) && Possible(l, op) && key !in l.buckets
    ensures var l' := After(l, op, false);
            && Attached(l') && l'.held.Keys == BusyAfter(l.held.Keys, op) && !(op.Take? && op.key == key)
            && (if op.Lookup? && op.key == key then key in l'.buckets && l'.buckets[key] == NewBucket(op.limit, op.time)
                else key !in l'.buckets)
            && RepliesTo(Replies(l, op), key) == []
  {
    assert RepliesTo([], key) == [];
  }

  /** In every run without evictions, whatever calls on other keys come in between and whatever limits the calls
      bring, those on one key are answered by a bucket of its own, made when the key was first looked up. */
  lemma {:induction false} KeysAreIndependent(l: Limiter, ops: seq<Op>, key: string, time: real)
    requires Attached(l) && Orderly(ops, time, l.held.Keys) && key !in l.buckets
    ensures RepliesTo(Run(l, ops, false), key)
         == Answers(NewBucket(FirstLookup(ops, key).limit, FirstLookup(ops, key).time), TakesOf(ops, key))
    decreases |ops|
  {
    if ops != [] {
      var op, l' := ops[0], After(l, ops[0], false);
      StepForOthers(l, op, key);
      RepliesToConcat(Replies(l, op), Run(l', ops[1..], false), key);
      assert TakesOf(ops, key) == TakesOf(ops[1..], key);
      if op.Lookup? && op.key == key {
        KeyKeepsToItself(l', ops[1..], key, op.time);
      } else {
        KeysAreIndependent(l', ops[1..], key, op.time);
      }
    }
  }

  lemma TakesOfFirst(first: Op, rest: seq<Op>, key: string)
    ensures TakesOf([first] + rest, key)
         == (if first.Take? && first.key == key then [Call(first.time, first.limit)] else []) + TakesOf(rest, key)
  {
    assert ([first] + rest)[1..] == rest;
  }

  lemma {:induction false} TakesAppend(ops: seq<Op>, last: Op, key: string)
    requires last.Take? && last.key == key
    ensures TakesOf(ops + [last], key) == TakesOf(ops, key) + [Call(last.time, last.limit)]
  {
    if ops == [] {
      assert [] + [last] == [last] && [last][1..] == [];
      assert TakesOf([last], key) == [Call(last.time, last.limit)] + TakesOf([], key);
    } else {
      TakesAppend(ops[1..], last, key);
      TakesOfFirst(ops[0], ops[1..] + [last], key);
      assert ops + [last] == [ops[0]] + (ops[1..] + [last]);
    }
  }

  /** So the windows of a key decide its requests in the whole limiter, too: the last call of a run is
      allowed exactly when it fits into the burst of its limit and into every window over the earlier calls on
      its key, each with the limit it brought. */
  lemma LimiterAllowsIffWindowsHaveRoom(ops: seq<Op>, key: string, limit: Rate, now: real)
    requires Feasible(ops + [Take(key, limit, now)])
    ensures var first := FirstLookup(ops + [Take(key, limit, now)], key);
            var calls, earlier := TakesOf(ops, key), Answers(NewBucket(first.limit, first.time), TakesOf(ops, key));
            RepliesTo(Run(EMPTY, ops + [Take(key, limit, now)], false), key)
              == earlier + [WindowsHaveRoom(first.limit.burst as real, first.time, calls + [Call(now, limit)], earlier, 1.0)]
  {
    var all := ops + [Take(key, limit, now)];
    var time :| Orderly(all, time, {});
    assert EMPTY.held.Keys == {};
    KeysAreIndependent(EMPTY, all, key, time);
    TakesAppend(ops, Take(key, limit, now), key);
    AllowedIffWindowsHaveRoom(FirstLookup(all, key).limit, FirstLookup(all, key).time, TakesOf(ops, key), Call(now, limit));
  }

  // ---------------------------------------------------------------- evictions that cannot be noticed

  /** Under this limit an idle bucket would be full again. */
  predicate Benign(limit: Rate) {
    0 <= limit.burst && limit.burst as real <= Refill(IDLE, limit.requestsPerSecond)
  }

  /** An idle bucket would be full again, or the limit allows nothing anyway. */
  predicate Forgiving(limit: Rate) {
    limit.burst < 1 || Benign(limit)
  }

  /** The bucket is full from `time` on. */
  ghost predicate Full(b: Bucket, limit: Rate, time: real) {
    b.tokens >= 0.0 && b.lastRefill <= time && Level(b, limit, time) == limit.burst as real
  }

  /** How the evicting limiter `l` and the other one `m` agree on a key: on its bucket, or a call is under way for
      whose limit both buckets are full, or the only one is idle. */
  ghost predicate SameOrIdle(l: Limiter, m: Limiter, using: map<string, Rate>, key: string, time: real) {
    && (key in m.buckets ==> m.buckets[key].tokens >= 0.0 && m.buckets[key].lastRefill <= time)
    && (key in l.buckets ==> key in m.buckets)
    && (key in l.buckets && key !in l.held ==> l.buckets[key] == m.buckets[key])
    && (key in l.buckets && l.buckets[key] != m.buckets[key] ==>
          && key in using && Benign(using[key])
          && Full(l.buckets[key], using[key], time) && Full(m.buckets[key], using[key], time))
    && (key in m.buckets && key !in l.buckets ==> Idle(m.buckets[key], time))
  }

  /** They agree on every key but the `dead` ones, which no call is ever allowed on. `using` are the limits of the
      calls under way. */
  ghost predicate Matches(l: Limiter, m: Limiter, using: map<string, Rate>, dead: string -> bool, time: real) {
    && Attached(l) && Attached(m) && l.held == m.held
    && forall key :: !dead(key) ==> SameOrIdle(l, m, using, key, time)
  }

  lemma BenignRate(limit: Rate)
    requires Benign(limit)
    ensures limit.burst as real >= 0.0 && limit.requestsPerSecond >= 0.0
  {
  }

  lemma StaysFull(b: Bucket, limit: Rate, time: real, now: real)
    requires Benign(limit) && Full(b, limit, time) && time <= now
    ensures Full(b, limit, now)
  {
    BenignRate(limit);
    RefillNatural(now - time, limit.requestsPerSecond);
    RefillSplit(now - b.lastRefill, now - time, limit.requestsPerSecond);
  }

  lemma IdleMeansFull(b: Bucket, limit: Rate, now: real)
    requires Benign(limit) && b.tokens >= 0.0 && b.lastRefill <= now - IDLE
    ensures Full(b, limit, now)
  {
    var r, elapsed := limit.requestsPerSecond, now - b.lastRefill;
    BenignRate(limit);
    RefillNatural(elapsed - IDLE, r);
    RefillSplit(elapsed, IDLE, r);
  }

  lemma NewMeansFull(limit: Rate, created: real)
    requires Benign(limit)
    ensures Full(NewBucket(limit, created), limit, created)
  {
    BenignRate(limit);
  }

  lemma LevelStaysNatural(b: Bucket, limit: Rate, now: real)
    requires Benign(limit) && b.tokens >= 0.0 && b.lastRefill <= now
    ensures AfterTake(b, limit, now).tokens >= 0.0
  {
    BenignRate(limit);
    RefillNatural(now - b.lastRefill, limit.requestsPerSecond);
  }

  lemma SameOrIdleLater(l: Limiter, m: Limiter, using: map<string, Rate>, key: string, time: real, now: real)
    requires SameOrIdle(l, m, using, key, time) && time <= now
    ensures SameOrIdle(l, m, using, key, now)
  {
    if key in l.buckets && l.buckets[key] != m.buckets[key] {
      StaysFull(l.buckets[key], using[key], time, now);
      StaysFull(m.buckets[key], using[key], time, now);
    }
  }

  lemma LookupMatches(l: Limiter, m: Limiter, using: map<string, Rate>, key: string, limit: Rate, now: real)
    requires Benign(limit) && key !in l.held && SameOrIdle(l, m, using, key, now)
    ensures SameOrIdle(AfterLookup(l, key, limit, now), AfterLookup(m, key, limit, now), using[key := limit], key, now)
  {
    NewMeansFull(limit, now);
    if key in m.buckets && key !in l.buckets { IdleMeansFull(m.buckets[key], limit, now); }
  }

  lemma TakeMatches(l: Limiter, m: Limiter, using: map<string, Rate>, key: string, limit: Rate, now: real)
    requires Attached(l) && Attached(m) && key in l.held && key in m.held && key in using && using[key] == limit
    requires Benign(limit) && SameOrIdle(l, m, using, key, now)
    ensures Allows(Held(l, key), limit, now) == Allows(Held(m, key), limit, now)
    ensures SameOrIdle(AfterTaking(l, key, limit, now), AfterTaking(m, key, limit, now), using, key, now)
  {
    LevelStaysNatural(m.buckets[key], limit, now);
  }

  /** The limits of the calls under way after the operation. */
  function UsingAfter(using: map<string, Rate>, op: Op): map<string, Rate> {
    if op.Lookup? then using[op.key := op.limit] else using
  }

  /** A call takes at the limit it has looked up with. */
  ghost predicate Paired(ops: seq<Op>, using: map<string, Rate>)
    decreases |ops|
  {
    ops != [] ==>
      && (ops[0].Take? ==> ops[0].key in using && using[ops[0].key] == ops[0].limit)
      && Paired(ops[1..], UsingAfter(using, ops[0]))
  }

  /** Every call on a dead key comes with a limit that allows nothing, every other one with a benign limit. */
  ghost predicate SplitBy(ops: seq<Op>, dead: string -> bool) {
    forall i :: 0 <= i < |ops| && !ops[i].Evict? ==> if dead(ops[i].key) then ops[i].limit.burst < 1 else Benign(ops[i].limit)
  }

  /** On each key, all the limits are benign or all of them allow nothing. */
  ghost predicate Tolerant(ops: seq<Op>) {
    exists dead: string -> bool :: SplitBy(ops, dead)
  }

  lemma OthersMatch(l: Limiter, m: Limiter, using: map<string, Rate>, op: Op, key: string, time: real)
    requires Attached(l) && Attached(m) && l.held == m.held && SameOrIdle(l, m, using, key, time) && time <= op.time
    requires op.Evict? || op.key != key
    requires op.Evict? ==> key in l.held && key in l.buckets ==> !Idle(l.buckets[key], op.time)
    ensures SameOrIdle(After(l, op, true), After(m, op, false), UsingAfter(using, op), key, op.time)
  {
    SameOrIdleLater(l, m, using, key, time, op.time);
  }

  lemma OwnMatches(l: Limiter, m: Limiter, using: map<string, Rate>, op: Op, time: real)
    requires Attached(l) && Attached(m) && l.held == m.held && !op.Evict? && time <= op.time && Benign(op.limit)
    requires SameOrIdle(l, m, using, op.key, time)
    requires op.Lookup? ==> op.key !in l.held
    requires op.Take? ==> op.key in l.held && op.key in using && using[op.key] == op.limit
    ensures SameOrIdle(After(l, op, true), After(m, op, false), UsingAfter(using, op), op.key, op.time)
    ensures Replies(l, op) == Replies(m, op)
  {
    SameOrIdleLater(l, m, using, op.key, time, op.time);
    if op.Lookup? {
      LookupMatches(l, m, using, op.key, op.limit, op.time);
    } else {
      TakeMatches(l, m, using, op.key, op.limit, op.time);
    }
  }

  lemma DeadDenied(l: Limiter, m: Limiter, op: Op)
    requires Attached(l) && Attached(m) && l.held == m.held && !op.Evict? && op.limit.burst < 1
    ensures Replies(l, op) == Replies(m, op)
  {
    if op.Take? && op.key in l.held {
      SmallBurstDenies(Held(l, op.key), op.limit, op.time);
      SmallBurstDenies(Held(m, op.key), op.limit, op.time);
    }
  }

  lemma StepsMatch(l: Limiter, m: Limiter, using: map<string, Rate>, dead: string -> bool, op: Op, time: real)
    requires Matches(l, m, using, dead, time) && time <= op.time
    requires op.Evict? || if dead(op.key) then op.limit.burst < 1 else Benign(op.limit)
    requires op.Lookup? ==> op.key !in l.held
    requires op.Take? ==> op.key in l.held && op.key in using && using[op.key] == op.limit
    requires op.Evict? ==> forall key :: key in l.held && key in l.buckets ==> !Idle(l.buckets[key], op.time)
    ensures Replies(l, op) == Replies(m, op)
    ensures Matches(After(l, op, true), After(m, op, false), UsingAfter(using, op), dead, op.time)
  {
    var l', m' := After(l, op, true), After(m, op, false);
    HeldAlike(l, m, op);
    if !op.Evict? {
      if dead(op.key) { DeadDenied(l, m, op); } else { OwnMatches(l, m, using, op, time); }
    }
    forall key | !dead(key) ensures SameOrIdle(l', m', UsingAfter(using, op), key, op.time) {
      if op.Evict? || op.key != key { OthersMatch(l, m, using, op, key, time); }
    }
  }

  lemma HeldAlike(l: Limiter, m: Limiter, op: Op)
    requires Attached(l) && Attached(m) && l.held == m.held
    requires op.Evict? ==> forall key :: key in l.held && key in l.buckets ==> !Idle(l.buckets[key], op.time)
    ensures Attached(After(l, op, true)) && Attached(After(m, op, false))
    ensures After(l, op, true).held == After(m, op, false).held
  {
  }

  lemma {:induction false} RunsMatch(l: Limiter, m: Limiter, using: map<string, Rate>, dead: string -> bool, time: real, ops: seq<Op>)
    requires Matches(l, m, using, dead, time) && Orderly(ops, time, l.held.Keys) && Intact(l, ops)
    requires Paired(ops, using) && SplitBy(ops, dead)
    ensures Run(l, ops, true) == Run(m, ops, false)
    decreases |ops|
  {
    if ops != [] {
      StepsMatch(l, m, using, dead, ops[0], time);
      var l', m' := After(l, ops[0], true), After(m, ops[0], false);
      assert l'.held.Keys == BusyAfter(l.held.Keys, ops[0]);
      assert forall i :: 0 <= i < |ops[1..]| ==> ops[1..][i] == ops[i + 1];
      RunsMatch(l', m', UsingAfter(using, ops[0]), dead, ops[0].time, ops[1..]);
    }
  }

  /** A limiter that evicts at arbitrary moments answers every request like one that never does, as long as it
      takes no bucket away from a call, and on each key all the limits that the calls bring are such that an idle
      bucket would be full again, or all of them allow nothing. */
  lemma EvictionIsInvisible(ops: seq<Op>)
    requires Feasible(ops) && Intact(EMPTY, ops) && Paired(ops, map[]) && Tolerant(ops)
    ensures EvictionUnnoticed(ops)
  {
    var time :| Orderly(ops, time, {});
    var dead: string -> bool :| SplitBy(ops, dead);
    assert EMPTY.held.Keys == {};
    RunsMatch(EMPTY, EMPTY, map[], dead, time, ops);
  }

  // ---------------------------------------------------------------- evictions that can

  /** Every call comes with this limit. */
  ghost predicate AllUnder(limit: Rate, ops: seq<Op>) {
    forall i :: 0 <= i < |ops| && !ops[i].Evict? ==> ops[i].limit == limit
  }

  /** Evicting or not, the replies are the same. */
  ghost predicate EvictionUnnoticed(ops: seq<Op>) {
    Run(EMPTY, ops, true) == Run(EMPTY, ops, false)
  }

  /** `n` calls at one moment. */
  function Calls(limit: Rate, n: nat, t: real): seq<Op> {
    if n == 0 then [] else [Lookup("", limit, t), Take("", limit, t)] + Calls(limit, n - 1, t)
  }

  function Granted(n: nat): seq<Reply> {
    if n == 0 then [] else [Reply("", true)] + Granted(n - 1)
  }

  function BucketFor(l: Limiter, limit: Rate, created: real): Bucket {
    if "" in l.buckets then l.buckets[""] else NewBucket(limit, created)
  }

  function AfterCall(l: Limiter, limit: Rate, t: real): Limiter {
    Limiter(l.buckets["" := AfterTake(BucketFor(l, limit, t), limit, t)], map[])
  }

  lemma OneCall(l: Limiter, limit: Rate, t: real, rest: seq<Op>, evicts: bool)
    requires l.held == map[]
    ensures Run(l, [Lookup("", limit, t), Take("", limit, t)] + rest, evicts)
         == [Reply("", Allows(BucketFor(l, limit, t), limit, t))] + Run(AfterCall(l, limit, t), rest, evicts)
  {
    var ops := [Lookup("", limit, t), Take("", limit, t)] + rest;
    var next := After(l, ops[0], evicts);
    assert ops[1..][0] == Take("", limit, t) && ops[1..][1..] == rest;
    assert After(next, Take("", limit, t), evicts) == AfterCall(l, limit, t);
    assert Run(next, ops[1..], evicts)
        == Replies(next, Take("", limit, t)) + Run(AfterCall(l, limit, t), rest, evicts);
  }

  lemma LevelAtOnce(b: Bucket, limit: Rate, now: real)
    requires b.lastRefill == now && b.tokens <= limit.burst as real
    ensures Level(b, limit, now) == b.tokens
  {
  }

  function AfterCalls(l: Limiter, limit: Rate, t: real, n: nat): Limiter
    decreases n
  {
    if n == 0 then l else AfterCalls(AfterCall(l, limit, t), limit, t, n - 1)
  }

  lemma {:induction false} CallsSpend(l: Limiter, limit: Rate, t: real, n: nat)
    requires l.held == map[] && n > 0 && n as real <= Level(BucketFor(l, limit, t), limit, t)
    ensures var l' := AfterCalls(l, limit, t, n);
            && l'.held == map[] && l'.buckets.Keys == l.buckets.Keys + {""} && l'.buckets[""].lastRefill == t
            && l'.buckets[""].tokens == Level(BucketFor(l, limit, t), limit, t) - n as real
    decreases n
  {
    var next := AfterCall(l, limit, t);
    LevelAtOnce(next.buckets[""], limit, t);
    assert AfterCalls(next, limit, t, 0) == next;
    if n > 1 { CallsSpend(next, limit, t, n - 1); }
  }

  lemma FirstOfCalls(l: Limiter, limit: Rate, t: real, n: nat, rest: seq<Op>, evicts: bool)
    requires l.held == map[] && n > 0
    ensures Run(l, Calls(limit, n, t) + rest, evicts)
         == [Reply("", Allows(BucketFor(l, limit, t), limit, t))]
          + Run(AfterCall(l, limit, t), Calls(limit, n - 1, t) + rest, evicts)
  {
    assert Calls(limit, n, t) + rest == [Lookup("", limit, t), Take("", limit, t)] + (Calls(limit, n - 1, t) + rest);
    OneCall(l, limit, t, Calls(limit, n - 1, t) + rest, evicts);
  }

  lemma FirstGranted(n: nat, rest: seq<Reply>)
    requires n > 0
    ensures Granted(n) + rest == [Reply("", true)] + (Granted(n - 1) + rest)
  {
  }

  /** With `n` tokens at hand, `n` calls at one moment are all allowed. */
  lemma {:induction false} EnoughTokens(l: Limiter, limit: Rate, t: real, n: nat, rest: seq<Op>, evicts: bool)
    requires l.held == map[] && n as real <= Level(BucketFor(l, limit, t), limit, t)
    ensures Run(l, Calls(limit, n, t) + rest, evicts)
         == Granted(n) + Run(AfterCalls(l, limit, t, n), rest, evicts)
    decreases n
  {
    if n == 0 {
      assert Calls(limit, 0, t) + rest == rest;
    } else {
      LevelAtOnce(AfterCall(l, limit, t).buckets[""], limit, t);
      EnoughTokens(AfterCall(l, limit, t), limit, t, n - 1, rest, evicts);
      FirstOfCalls(l, limit, t, n, rest, evicts);
      FirstGranted(n, Run(AfterCalls(l, limit, t, n), rest, evicts));
    }
  }

  /** With fewer tokens, not all of them are. */
  lemma {:induction false} TooFewTokens(l: Limiter, limit: Rate, t: real, n: nat, evicts: bool)
    requires l.held == map[] && n > 0 && n as real > Level(BucketFor(l, limit, t), limit, t)
    ensures Run(l, Calls(limit, n, t), evicts) != Granted(n)
    decreases n
  {
    var next := AfterCall(l, limit, t);
    OneCall(l, limit, t, Calls(limit, n - 1, t), evicts);
    assert Granted(n)[0] == Reply("", true) && Granted(n)[1..] == Granted(n - 1);
    if Allows(BucketFor(l, limit, t), limit, t) {
      LevelAtOnce(next.buckets[""], limit, t);
      TooFewTokens(next, limit, t, n - 1, evicts);
      assert Run(l, Calls(limit, n, t), evicts)[1..] == Run(next, Calls(limit, n - 1, t), evicts);
    } else {
      assert !Run(l, Calls(limit, n, t), evicts)[0].allowed;
    }
  }

  lemma OrderlyCall(limit: Rate, t: real, rest: seq<Op>)
    requires Orderly(rest, t, {}) && Quiet(rest, {})
    requires AllUnder(limit, rest)
    ensures AllUnder(limit, [Lookup("", limit, t), Take("", limit, t)] + rest)
    ensures Orderly([Lookup("", limit, t), Take("", limit, t)] + rest, t, {}) && Quiet([Lookup("", limit, t), Take("", limit, t)] + rest, {})
  {
    var ops := [Lookup("", limit, t), Take("", limit, t)] + rest;
    assert ops[1..][0] == Take("", limit, t) && ops[1..][1..] == rest;
    assert BusyAfter(BusyAfter({}, ops[0]), ops[1..][0]) == {};
  }

  lemma {:induction false} OrderlyCalls(limit: Rate, n: nat, t: real, rest: seq<Op>)
    requires Orderly(rest, t, {}) && Quiet(rest, {})
    requires AllUnder(limit, rest)
    ensures AllUnder(limit, Calls(limit, n, t) + rest)
    ensures Orderly(Calls(limit, n, t) + rest, t, {}) && Quiet(Calls(limit, n, t) + rest, {})
  {
    if n == 0 {
      assert Calls(limit, 0, t) + rest == rest;
    } else {
      OrderlyCalls(limit, n - 1, t, rest);
      assert Calls(limit, n, t) + rest == [Lookup("", limit, t), Take("", limit, t)] + (Calls(limit, n - 1, t) + rest);
      OrderlyCall(limit, t, Calls(limit, n - 1, t) + rest);
    }
  }

  lemma DifferentTails<T>(a: seq<T>, b: seq<T>, c: seq<T>)
    requires b != c
    ensures a + b != a + c
  {
    assert (a + b)[|a|..] == b && (a + c)[|a|..] == c;
  }

  /** A moment when an idle bucket may be evicted but is not full yet. */
  lemma UnforgivingMoment(limit: Rate) returns (t: real)
    requires !Forgiving(limit)
    ensures t > IDLE && Refill(t, limit.requestsPerSecond) < limit.burst as real
  {
    var r, b := limit.requestsPerSecond, limit.burst as real;
    if r <= 0.0 {
      t := IDLE + 1.0;
      RefillSplit(t, 1.0, r);
    } else {
      var gap := b - Refill(IDLE, r);
      var d := gap / (2.0 * r);
      t := IDLE + d;
      RefillSplit(t, d, r);
      assert Refill(d, r) == gap / 2.0;
    }
  }

  /** Spend the burst, wait until the bucket is evicted but not full, and ask for the burst again. */
  function Probe(limit: Rate, t: real): seq<Op>
    requires limit.burst >= 1
  {
    Calls(limit, limit.burst, 0.0) + ([Evict(t)] + Calls(limit, limit.burst, t))
  }

  lemma ProbeIsQuiet(limit: Rate, t: real)
    requires limit.burst >= 1 && t > 0.0
    ensures AllUnder(limit, Probe(limit, t)) && Feasible(Probe(limit, t)) && Quiet(Probe(limit, t), {})
  {
    var rest := [Evict(t)] + Calls(limit, limit.burst, t);
    OrderlyCalls(limit, limit.burst, t, []);
    assert Calls(limit, limit.burst, t) + [] == Calls(limit, limit.burst, t);
    assert rest[0] == Evict(t) && rest[1..] == Calls(limit, limit.burst, t);
    OrderlyCalls(limit, limit.burst, 0.0, rest);
  }

  lemma EvictFirst(l: Limiter, limit: Rate, t: real, rest: seq<Op>, evicts: bool)
    ensures Run(l, [Evict(t)] + rest, evicts)
         == Run(if evicts then Evicted(l, t) else l, rest, evicts)
  {
    assert ([Evict(t)] + rest)[1..] == rest;
  }

  lemma ProbeShowsEviction(limit: Rate, t: real)
    requires limit.burst >= 1 && t > IDLE && Refill(t, limit.requestsPerSecond) < limit.burst as real
    ensures !EvictionUnnoticed(Probe(limit, t))
  {
    var n := limit.burst;
    var rest := [Evict(t)] + Calls(limit, n, t);
    LevelAtOnce(NewBucket(limit, 0.0), limit, 0.0);
    var l := AfterCalls(EMPTY, limit, 0.0, n);
    CallsSpend(EMPTY, limit, 0.0, n);
    EnoughTokens(EMPTY, limit, 0.0, n, rest, true);
    EnoughTokens(EMPTY, limit, 0.0, n, rest, false);
    EvictFirst(l, limit, t, Calls(limit, n, t), true);
    EvictFirst(l, limit, t, Calls(limit, n, t), false);
    FreshBurst(Evicted(l, t), limit, t);
    TooFewTokens(l, limit, t, n, false);
    DifferentTails(Granted(n), Run(l, rest, true), Run(l, rest, false));
  }

  /** Without a bucket, the whole burst is allowed at once. */
  lemma FreshBurst(l: Limiter, limit: Rate, t: real)
    requires l == EMPTY && limit.burst >= 1
    ensures Run(l, Calls(limit, limit.burst, t), true) == Granted(limit.burst)
  {
    LevelAtOnce(NewBucket(limit, t), limit, t);
    EnoughTokens(l, limit, t, limit.burst, [], true);
    assert Calls(limit, limit.burst, t) + [] == Calls(limit, limit.burst, t) && Granted(limit.burst) + [] == Granted(limit.burst);
  }

  /** Runs under one forgiving limit are of the kind described above. */
  lemma UniformRuns(limit: Rate, ops: seq<Op>)
    requires Feasible(ops) && AllUnder(limit, ops) && Forgiving(limit)
    ensures Paired(ops, map[]) && Tolerant(ops)
  {
    var time :| Orderly(ops, time, {});
    UniformIsPaired(limit, ops, time, {}, map[]);
    var dead: string -> bool := _ => limit.burst < 1;
    assert SplitBy(ops, dead);
  }

  lemma {:induction false} UniformIsPaired(limit: Rate, ops: seq<Op>, time: real, busy: set<string>, using: map<string, Rate>)
    requires Orderly(ops, time, busy) && AllUnder(limit, ops)
    requires forall key :: key in busy ==> key in using && using[key] == limit
    ensures Paired(ops, using)
    decreases |ops|
  {
    if ops != [] {
      assert forall i :: 0 <= i < |ops[1..]| ==> ops[1..][i] == ops[i + 1];
      UniformIsPaired(limit, ops[1..], ops[0].time, BusyAfter(busy, ops[0]), UsingAfter(using, ops[0]));
    }
  }

  lemma QuietMeansIntact(ops: seq<Op>)
    requires Feasible(ops) && Quiet(ops, {})
    ensures Intact(EMPTY, ops)
  {
    var time :| Orderly(ops, time, {});
    assert EMPTY.held.Keys == {};
    QuietRunsAreIntact(EMPTY, ops, time);
  }

  /** As long as no eviction takes a bucket away from a call, which none does that falls between calls,
      evictions go unnoticed in every run under a limit exactly when its burst is at most what 300 seconds
      refill, or it allows nothing at all. */
  lemma EvictionIsInvisibleIff(limit: Rate)
    ensures limit.burst < 1 || limit.burst as real <= 300.0 * limit.requestsPerSecond <==>
            forall ops :: Feasible(ops) && AllUnder(limit, ops) && Intact(EMPTY, ops) ==> EvictionUnnoticed(ops)
    ensures limit.burst < 1 || limit.burst as real <= 300.0 * limit.requestsPerSecond <==>
            forall ops :: Feasible(ops) && AllUnder(limit, ops) && Quiet(ops, {}) ==> EvictionUnnoticed(ops)
  {
    assert Forgiving(limit) <==> limit.burst < 1 || limit.burst as real <= 300.0 * limit.requestsPerSecond;
    forall ops | Feasible(ops) && Quiet(ops, {}) ensures Intact(EMPTY, ops) { QuietMeansIntact(ops); }
    if Forgiving(limit) {
      forall ops | Feasible(ops) && AllUnder(limit, ops) && Intact(EMPTY, ops) ensures EvictionUnnoticed(ops) {
        UniformRuns(limit, ops);
        EvictionIsInvisible(ops);
      }
    } else {
      var t := UnforgivingMoment(limit);
      ProbeIsQuiet(limit, t);
      ProbeShowsEviction(limit, t);
    }
  }

  // ---------------------------------------------------------------- evictions in the middle of a call

  /** A call, a second one whose bucket is evicted between its lookup and its take, and a burst. */
  function LateProbe(limit: Rate, t: real): seq<Op>
    requires limit.burst >= 1
  {
    [Lookup("", limit, 0.0), Take("", limit, 0.0)] + ([Lookup("", limit, t), Evict(t), Take("", limit, t)] + Calls(limit, limit.burst, t))
  }

  lemma LateProbeIsFeasible(limit: Rate, t: real)
    requires limit.burst >= 1 && t > 0.0
    ensures AllUnder(limit, LateProbe(limit, t)) && Feasible(LateProbe(limit, t))
  {
    var calls := Calls(limit, limit.burst, t);
    var late := [Lookup("", limit, t), Evict(t), Take("", limit, t)] + calls;
    OrderlyCalls(limit, limit.burst, t, []);
    assert calls + [] == calls;
    assert late[1..][1..][1..] == calls && late[1..][1..][0] == Take("", limit, t) && late[1..][0] == Evict(t);
    assert BusyAfter(BusyAfter(BusyAfter({}, late[0]), late[1..][0]), late[1..][1..][0]) == {};
    assert Orderly(late, t, {});
    var ops := LateProbe(limit, t);
    assert ops[1..][1..] == late && ops[1..][0] == Take("", limit, 0.0);
    assert BusyAfter(BusyAfter({}, ops[0]), ops[1..][0]) == {};
    assert Orderly(ops, 0.0, {});
  }

  /** The second call of the probe: its reply is the same with and without the eviction, but only
      without it does the take count. */
  lemma LateTake(l: Limiter, limit: Rate, t: real, rest: seq<Op>, evicts: bool)
    requires l.held == map[] && l.buckets.Keys == {""} && Idle(l.buckets[""], t)
    ensures Run(l, [Lookup("", limit, t), Evict(t), Take("", limit, t)] + rest, evicts)
         == [Reply("", Allows(l.buckets[""], limit, t))]
          + Run(if evicts then EMPTY else AfterCall(l, limit, t), rest, evicts)
  {
    var ops := [Lookup("", limit, t), Evict(t), Take("", limit, t)] + rest;
    assert ops[1..][1..][1..] == rest && ops[1..][1..][0] == Take("", limit, t) && ops[1..][0] == Evict(t);
    var l1 := After(l, Lookup("", limit, t), evicts);
    var l2 := After(l1, Evict(t), evicts);
    var l3 := After(l2, Take("", limit, t), evicts);
    assert Held(l2, "") == l.buckets[""];
    assert l3 == if evicts then EMPTY else AfterCall(l, limit, t);
    assert Run(l2, ops[1..][1..], evicts)
        == [Reply("", Allows(l.buckets[""], limit, t))] + Run(l3, rest, evicts);
    assert Run(l1, ops[1..], evicts) == [] + Run(l2, ops[1..][1..], evicts);
    assert Run(l, ops, evicts) == [] + Run(l1, ops[1..], evicts);
  }

  /** The take of such a call is lost, so one request too many is allowed afterwards. */
  lemma LateProbeShowsEviction(limit: Rate)
    requires limit.burst >= 1
    ensures !EvictionUnnoticed(LateProbe(limit, IDLE + 1.0))
  {
    var t, n := IDLE + 1.0, limit.burst;
    var late := [Lookup("", limit, t), Evict(t), Take("", limit, t)] + Calls(limit, n, t);
    var l := AfterCall(EMPTY, limit, 0.0);
    OneCall(EMPTY, limit, 0.0, late, true);
    OneCall(EMPTY, limit, 0.0, late, false);
    LateTake(l, limit, t, Calls(limit, n, t), true);
    LateTake(l, limit, t, Calls(limit, n, t), false);
    FreshBurst(EMPTY, limit, t);
    LevelAtOnce(AfterCall(l, limit, t).buckets[""], limit, t);
    TooFewTokens(AfterCall(l, limit, t), limit, t, n, false);
    var first := [Reply("", Allows(BucketFor(EMPTY, limit, 0.0), limit, 0.0))];
    var second := [Reply("", Allows(l.buckets[""], limit, t))];
    DifferentTails(second, Granted(n), Run(AfterCall(l, limit, t), Calls(limit, n, t), false));
    DifferentTails(first, Run(l, late, true), Run(l, late, false));
  }

  lemma StaysHeld(l: Limiter, op: Op, evicts: bool)
    requires Possible(l, op) && forall key :: key in l.held ==> Holds(l, key)
    ensures var l' := After(l, op, evicts);
            l'.held.Keys == BusyAfter(l.held.Keys, op) && forall key :: key in l'.held ==> Holds(l', key)
  {
  }

  lemma {:induction false} NothingAllowed(l: Limiter, m: Limiter, limit: Rate, ops: seq<Op>, time: real)
    requires limit.burst < 1 && AllUnder(limit, ops) && l.held.Keys == m.held.Keys && Orderly(ops, time, l.held.Keys)
    requires forall key :: key in l.held ==> Holds(l, key) && Holds(m, key)
    ensures Run(l, ops, true) == Run(m, ops, false)
    decreases |ops|
  {
    if ops != [] {
      var op := ops[0];
      var l', m' := After(l, op, true), After(m, op, false);
      if op.Take? {
        SmallBurstDenies(Held(l, op.key), limit, op.time);
        SmallBurstDenies(Held(m, op.key), limit, op.time);
      }
      StaysHeld(l, op, true);
      StaysHeld(m, op, false);
      assert forall i :: 0 <= i < |ops[1..]| ==> ops[1..][i] == ops[i + 1];
      NothingAllowed(l', m', limit, ops[1..], op.time);
    }
  }

  /** With evictions at any moment, even between the lookup and the take of a call, they go unnoticed in
      every run at a limit exactly when the limit allows nothing. */
  lemma EvictionAnywhereIsInvisibleIff(limit: Rate)
    ensures limit.burst < 1 <==> forall ops :: Feasible(ops) && AllUnder(limit, ops) ==> EvictionUnnoticed(ops)
  {
    if limit.burst < 1 {
      forall ops | Feasible(ops) && AllUnder(limit, ops) ensures EvictionUnnoticed(ops) {
        var time :| Orderly(ops, time, {});
        assert EMPTY.held.Keys == {};
        NothingAllowed(EMPTY, EMPTY, limit, ops, time);
      }
    } else {
      LateProbeIsFeasible(limit, IDLE + 1.0);
      LateProbeShowsEviction(limit);
    }
  }

  /** For example, at one request a second and a burst of one: a forgiving limit, and yet the late
      eviction lets a third request through where the limiter that never evicts allows two. */
  lemma EvictionLosesToken()
    ensures var limit := Rate(1.0, 1);
            && Forgiving(limit) && Feasible(LateProbe(limit, 301.0))
            && Run(EMPTY, LateProbe(limit, 301.0), true) == Granted(3)
            && Run(EMPTY, LateProbe(limit, 301.0), false) == Granted(2) + [Reply("", false)]
  {
    var limit, t := Rate(1.0, 1), 301.0;
    var late := [Lookup("", limit, t), Evict(t), Take("", limit, t)] + Calls(limit, 1, t);
    var l := AfterCall(EMPTY, limit, 0.0);
    LateProbeIsFeasible(limit, t);
    OneCall(EMPTY, limit, 0.0, late, true);
    OneCall(EMPTY, limit, 0.0, late, false);
    LateTake(l, limit, t, Calls(limit, 1, t), true);
    LateTake(l, limit, t, Calls(limit, 1, t), false);
    FreshBurst(EMPTY, limit, t);
    OneCall(AfterCall(l, limit, t), limit, t, [], false);
    assert Calls(limit, 0, t) == [] && Calls(limit, 1, t) == [Lookup("", limit, t), Take("", limit, t)] + [];
    assert Granted(1) == [Reply("", true)];
    assert Granted(2) == [Reply("", true)] + Granted(1) && Granted(3) == [Reply("", true)] + Granted(2);
  }
}
