/**
 The per-device token bucket, in exact arithmetic, and the sliding-window limit it stands for.
 Times are seconds of the process clock; readings may arrive out of order.
 */
module RateLimit {
  import opened Basics

  datatype Policy = Policy(rate: real, capacity: real)

  predicate ValidPolicy(p: Policy) {
    p.rate > 0.0 && p.capacity >= 1.0
  }

  datatype Operation = Notifications | Status | ChannelMutations | WechatAdminGrants

  function PerMinute(tokens: real, capacity: real): Policy {
    Policy(tokens / 60.0, capacity)
  }

  function PolicyOf(op: Operation): (p: Policy)
    ensures ValidPolicy(p)
  {
    match op
    case Notifications => PerMinute(60.0, 20.0)
    case Status => PerMinute(120.0, 40.0)
    case ChannelMutations => PerMinute(10.0, 5.0)
    case WechatAdminGrants => PerMinute(10.0, 5.0)
  }

  datatype Bucket = Bucket(tokens: real, lastRefill: real)

  function Least(a: real, b: real): real {
    if a <= b then a else b
  }

  function Greatest(a: real, b: real): real {
    if a <= b then b else a
  }

  function Credit(p: Policy, at: real): real {
    at * p.rate
  }

  /** What accrues over a span of time. */
  function Gain(p: Policy, from: real, to: real): real {
    Credit(p, to) - Credit(p, from)
  }

  lemma GainIsRateTimesSpan(p: Policy, from: real, to: real)
    ensures Gain(p, from, to) == (to - from) * p.rate
  {
  }

  // ---------------------------------------------------------------------
  // One bucket
  // ---------------------------------------------------------------------

  function Full(p: Policy, now: real): Bucket {
    Bucket(p.capacity, now)
  }

  function Refill(b: Bucket, p: Policy, now: real): Bucket {
    var elapsed := if now <= b.lastRefill then 0.0 else now - b.lastRefill;
    Bucket(Least(b.tokens + elapsed * p.rate, p.capacity), Greatest(b.lastRefill, now))
  }

  predicate Passes(b: Bucket) {
    b.tokens >= 1.0
  }

  /** A refilled bucket after the call it is asked for. */
  function Spend(b: Bucket): Bucket {
    if Passes(b) then b.(tokens := b.tokens - 1.0) else b
  }

  /** The wait a refused call is told. */
  function RetryAfter(b: Bucket, p: Policy): real
    requires ValidPolicy(p)
  {
    (1.0 - b.tokens) / p.rate
  }

  // ---------------------------------------------------------------------
  // A history of calls
  // ---------------------------------------------------------------------

  /** The latest reading so far: the clock the bucket goes by. */
  function Effective(times: seq<real>, j: nat): real
    requires j < |times|
  {
    if j == 0 then times[0] else Greatest(Effective(times, j - 1), times[j])
  }

  /** The bucket as call `j` finds it, refilled. */
  function Found(p: Policy, times: seq<real>, j: nat): Bucket
    requires j < |times|
  {
    if j == 0 then Refill(Full(p, times[0]), p, times[0])
    else Refill(Spend(Found(p, times, j - 1)), p, times[j])
  }

  predicate Admitted(p: Policy, times: seq<real>, j: nat)
    requires j < |times|
  {
    Passes(Found(p, times, j))
  }

  /** How many of the calls from `i` up to, not including, `j` were admitted. */
  function AdmittedCount(p: Policy, times: seq<real>, i: nat, j: nat): nat
    requires i <= j <= |times|
    decreases j
  {
    if i == j then 0
    else AdmittedCount(p, times, i, j - 1) + if Admitted(p, times, j - 1) then 1 else 0
  }

  lemma {:induction false} FoundIsEffective(p: Policy, times: seq<real>, j: nat)
    requires ValidPolicy(p) && j < |times|
    ensures Found(p, times, j).lastRefill == Effective(times, j)
    ensures 0.0 <= Found(p, times, j).tokens <= p.capacity
  {
    if j > 0 {
      FoundIsEffective(p, times, j - 1);
      var b := Spend(Found(p, times, j - 1));
      if times[j] > b.lastRefill {
        Accrues(p, b.lastRefill, times[j]);
      }
    }
  }

  lemma Accrues(p: Policy, from: real, to: real)
    requires ValidPolicy(p) && from <= to
    ensures (to - from) * p.rate >= 0.0
  {
  }

  lemma {:induction false} EffectiveGrows(times: seq<real>, i: nat, j: nat)
    requires i <= j < |times|
    ensures Effective(times, i) <= Effective(times, j)
  {
    if i < j {
      EffectiveGrows(times, i, j - 1);
    }
  }

  lemma RefillGains(b: Bucket, p: Policy, now: real)
    ensures Refill(b, p, now).tokens == Least(b.tokens + Gain(p, b.lastRefill, Greatest(b.lastRefill, now)), p.capacity)
    ensures Refill(b, p, now).lastRefill == Greatest(b.lastRefill, now)
  {
    GainIsRateTimesSpan(p, b.lastRefill, Greatest(b.lastRefill, now));
  }

  /** A refill in effective time. */
  lemma FoundStep(p: Policy, times: seq<real>, j: nat)
    requires ValidPolicy(p) && j + 1 < |times|
    ensures Found(p, times, j + 1).tokens
              == Least(Spend(Found(p, times, j)).tokens + Gain(p, Effective(times, j), Effective(times, j + 1)),
                       p.capacity)
  {
    FoundIsEffective(p, times, j);
    RefillGains(Spend(Found(p, times, j)), p, times[j + 1]);
  }

  // ---------------------------------------------------------------------
  // Every window
  // ---------------------------------------------------------------------

  /** What the window from call `i` to call `j` leaves room for, before call `j`. */
  function Room(p: Policy, times: seq<real>, i: nat, j: nat): real
    requires i <= j < |times|
  {
    p.capacity + Gain(p, Effective(times, i), Effective(times, j)) - AdmittedCount(p, times, i, j) as real
  }

  lemma RoomStep(p: Policy, times: seq<real>, i: nat, j: nat)
    requires i <= j && j + 1 < |times|
    ensures Room(p, times, i, j + 1)
              == Room(p, times, i, j) + Gain(p, Effective(times, j), Effective(times, j + 1))
                 - (if Admitted(p, times, j) then 1.0 else 0.0)
  {
  }

  /** The tokens a call finds are the room of the tightest window ending at it. */
  lemma {:induction false} TokensAreTheTightestRoom(p: Policy, times: seq<real>, j: nat)
    requires ValidPolicy(p) && j < |times|
    ensures forall i | 0 <= i <= j :: Found(p, times, j).tokens <= Room(p, times, i, j)
    ensures exists i :: 0 <= i <= j && Found(p, times, j).tokens == Room(p, times, i, j)
  {
    if j == 0 {
      assert Found(p, times, 0).tokens == Room(p, times, 0, 0);
    } else {
      TokensAreTheTightestRoom(p, times, j - 1);
      FoundStep(p, times, j - 1);
      var t := Found(p, times, j).tokens;
      forall i | 0 <= i <= j ensures t <= Room(p, times, i, j) {
        if i < j {
          RoomStep(p, times, i, j - 1);
        }
      }
      if t == p.capacity {
        assert t == Room(p, times, j, j);
      } else {
        var i :| 0 <= i <= j - 1 && Found(p, times, j - 1).tokens == Room(p, times, i, j - 1);
        RoomStep(p, times, i, j - 1);
        assert t == Room(p, times, i, j);
      }
    }
  }

  /** One more call at `j` keeps the window that starts at call `i` within its limit. */
  predicate Fits(p: Policy, times: seq<real>, i: nat, j: nat)
    requires i <= j < |times|
  {
    AdmittedCount(p, times, i, j) as real + 1.0 <= p.capacity + Gain(p, Effective(times, i), Effective(times, j))
  }

  lemma FitsIsRoom(p: Policy, times: seq<real>, i: nat, j: nat)
    requires i <= j < |times|
    ensures Fits(p, times, i, j) <==> Room(p, times, i, j) >= 1.0
  {
  }

  /**
   A call is admitted exactly when one more would fit every window ending at it: over the span
   from any earlier call, no more than the capacity plus what accrued.
   */
  lemma AdmittedIffEveryWindowFits(p: Policy, times: seq<real>, j: nat)
    requires ValidPolicy(p) && j < |times|
    ensures Admitted(p, times, j) <==> forall i | 0 <= i <= j :: Fits(p, times, i, j)
  {
    TokensAreTheTightestRoom(p, times, j);
    var tightest :| 0 <= tightest <= j && Found(p, times, j).tokens == Room(p, times, tightest, j);
    if Admitted(p, times, j) {
      forall i | 0 <= i <= j ensures Fits(p, times, i, j) {
        assert Found(p, times, j).tokens <= Room(p, times, i, j);
        FitsIsRoom(p, times, i, j);
      }
    } else {
      FitsIsRoom(p, times, tightest, j);
      assert !Fits(p, times, tightest, j);
    }
  }

  /** Over any span of effective time the admitted calls number at most the capacity plus the rate times the span. */
  lemma WindowBound(p: Policy, times: seq<real>, i: nat, j: nat)
    requires ValidPolicy(p) && i <= j < |times|
    ensures AdmittedCount(p, times, i, j + 1) as real <= p.capacity + Gain(p, Effective(times, i), Effective(times, j))
  {
    TokensAreTheTightestRoom(p, times, j);
    FoundIsEffective(p, times, j);
    assert Found(p, times, j).tokens <= Room(p, times, i, j);
  }

  // ---------------------------------------------------------------------
  // The wait
  // ---------------------------------------------------------------------

  lemma WaitAccrues(p: Policy, b: Bucket, t: real)
    requires ValidPolicy(p)
    ensures b.tokens + (t - b.lastRefill) * p.rate >= 1.0 <==> t >= b.lastRefill + RetryAfter(b, p)
  {
    var d := RetryAfter(b, p);
    assert d * p.rate == 1.0 - b.tokens;
    if t >= b.lastRefill + d {
      assert (t - b.lastRefill - d) * p.rate >= 0.0;
    } else {
      assert (b.lastRefill + d - t) * p.rate > 0.0;
    }
  }

  /**
   After a refusal the next call succeeds exactly when its reading reaches the refused bucket's
   effective time plus the wait. With readings in order that time is the refused call's own, so the
   wait is the least that works; with an older reading the wait counts from the latest one.
   */
  lemma WaitIsExact(p: Policy, b: Bucket, now: real, t: real)
    requires ValidPolicy(p) && b.tokens <= p.capacity
    requires !Passes(Refill(b, p, now))
    ensures var refused := Refill(b, p, now);
            && RetryAfter(refused, p) > 0.0
            && (Passes(Refill(refused, p, t)) <==> t >= Greatest(b.lastRefill, now) + RetryAfter(refused, p))
  {
    var refused := Refill(b, p, now);
    WaitAccrues(p, refused, t);
    WaitAccrues(p, refused, refused.lastRefill);
    assert refused.tokens < 1.0;
  }

  /** Asking again too early does not move the moment of success. */
  lemma PollingDoesNotDelay(p: Policy, b: Bucket, now: real)
    requires ValidPolicy(p) && b.tokens <= p.capacity && b.tokens < 1.0 && b.lastRefill <= now
    requires !Passes(Refill(b, p, now))
    ensures var polled := Refill(b, p, now);
            Spend(polled) == polled && polled.lastRefill + RetryAfter(polled, p) == b.lastRefill + RetryAfter(b, p)
  {
    var polled := Refill(b, p, now);
    assert polled.tokens == b.tokens + (now - b.lastRefill) * p.rate;
    assert RetryAfter(polled, p) * p.rate == 1.0 - polled.tokens;
    assert RetryAfter(b, p) * p.rate == 1.0 - b.tokens;
    SameProduct(p.rate, RetryAfter(b, p) - RetryAfter(polled, p), now - b.lastRefill);
  }

  lemma SameProduct(r: real, x: real, y: real)
    requires r > 0.0 && x * r == y * r
    ensures x == y
  {
  }

  // ---------------------------------------------------------------------
  // The four operations
  // ---------------------------------------------------------------------

  /** How many calls an operation takes at one moment. */
  function Burst(op: Operation): nat {
    match op
    case Notifications => 20
    case Status => 40
    case ChannelMutations => 5
    case WechatAdminGrants => 5
  }

  /** The seconds an operation takes to allow one call more. */
  function Spacing(op: Operation): real {
    match op
    case Notifications => 1.0
    case Status => 0.5
    case ChannelMutations => 6.0
    case WechatAdminGrants => 6.0
  }

  lemma {:induction false} BurstRunsDown(op: Operation, times: seq<real>, j: nat)
    requires j < |times| && forall i | 0 <= i < |times| :: times[i] == times[0]
    ensures Found(PolicyOf(op), times, j)
              == Bucket(if j < Burst(op) then (Burst(op) - j) as real else 0.0, times[0])
  {
    if j > 0 {
      BurstRunsDown(op, times, j - 1);
    }
  }

  /** Calls that come all at once are admitted up to the burst, and the rest told to wait for one call's worth. */
  lemma BurstThenWait(op: Operation, times: seq<real>)
    requires times != [] && forall i | 0 <= i < |times| :: times[i] == times[0]
    ensures Answer(PolicyOf(op), times) == if |times| <= Burst(op) then Ok(()) else Err(Spacing(op))
  {
    BurstRunsDown(op, times, |times| - 1);
  }

  // ---------------------------------------------------------------------
  // The limiter
  // ---------------------------------------------------------------------

  datatype Key = Key(device: Uuid, op: Operation)

  /** A bucket is what the readings of its own key have made it. */
  predicate Kept(k: Key, b: Bucket, times: seq<real>) {
    times != [] && b == Spend(Found(PolicyOf(k.op), times, |times| - 1))
  }

  /** The answer to the last call of a history. */
  function Answer(p: Policy, times: seq<real>): Result<(), real>
    requires ValidPolicy(p) && times != []
  {
    var last := |times| - 1;
    if Admitted(p, times, last) then Ok(()) else Err(RetryAfter(Found(p, times, last), p))
  }

  lemma NextCall(k: Key, b: Bucket, before: seq<real>, now: real)
    requires if before == [] then b == Full(PolicyOf(k.op), now) else Kept(k, b, before)
    ensures Kept(k, Spend(Refill(b, PolicyOf(k.op), now)), before + [now])
    ensures Answer(PolicyOf(k.op), before + [now])
              == var found := Refill(b, PolicyOf(k.op), now);
                 if Passes(found) then Ok(()) else Err(RetryAfter(found, PolicyOf(k.op)))
  {
    FoundPrefix(PolicyOf(k.op), before, now);
  }

  class LocalRateLimiter {
    var buckets: map<Key, Bucket>
    ghost var calls: map<Key, seq<real>>

    constructor ()
      ensures Valid() && buckets == map[] && calls == map[]
    {
      buckets, calls := map[], map[];
    }

    /** Every bucket is what its own history of readings makes it. */
    ghost predicate Valid()
      reads this
    {
      buckets.Keys == calls.Keys && forall k | k in calls :: Kept(k, buckets[k], calls[k])
    }

    ghost function History(k: Key): seq<real>
      reads this
    {
      if k in calls then calls[k] else []
    }

    /** One call; refused calls are told how long to wait. */
    method Check(device: Uuid, op: Operation, now: real) returns (r: Result<(), real>)
      requires Valid()
      modifies this
      ensures Valid()
      ensures calls == old(calls)[Key(device, op) := old(History(Key(device, op))) + [now]]
      ensures forall k | k != Key(device, op) && k in old(buckets) :: k in buckets && buckets[k] == old(buckets)[k]
      ensures r == Answer(PolicyOf(op), old(History(Key(device, op))) + [now])
    {
      var k, p := Key(device, op), PolicyOf(op);
      var bucket := if k in buckets then buckets[k] else Full(p, now);
      NextCall(k, bucket, History(k), now);
      calls := calls[k := History(k) + [now]];
      bucket, r := Consume(bucket, p, now);
      buckets := buckets[k := bucket];
    }
  }

  /** `Bucket::consume` */
  method Consume(b: Bucket, p: Policy, now: real) returns (after: Bucket, r: Result<(), real>)
    requires ValidPolicy(p)
    ensures after == Spend(Refill(b, p, now))
    ensures r == if Passes(Refill(b, p, now)) then Ok(()) else Err(RetryAfter(Refill(b, p, now), p))
  {
    var elapsed := if now <= b.lastRefill then 0.0 else now - b.lastRefill;
    after := b.(tokens := Least(b.tokens + elapsed * p.rate, p.capacity));
    after := after.(lastRefill := Greatest(b.lastRefill, now));
    if after.tokens >= 1.0 {
      after := after.(tokens := after.tokens - 1.0);
      return after, Ok(());
    }
    var missing := 1.0 - after.tokens;
    return after, Err(missing / p.rate);
  }

  /** A new reading does not change what earlier calls found. */
  lemma {:induction false} FoundStays(p: Policy, before: seq<real>, now: real, j: nat)
    requires j < |before|
    ensures Found(p, before + [now], j) == Found(p, before, j)
  {
    if j > 0 {
      FoundStays(p, before, now, j - 1);
    }
  }

  lemma FoundPrefix(p: Policy, before: seq<real>, now: real)
    ensures var n := |before|;
            Found(p, before + [now], n)
              == Refill(if n == 0 then Full(p, now) else Spend(Found(p, before, n - 1)), p, now)
  {
    if before != [] {
      FoundStays(p, before, now, |before| - 1);
    }
  }
}
