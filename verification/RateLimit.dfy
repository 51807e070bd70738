/** The token-bucket rate limiter (internal/ratelimit/ratelimit.go), over real
    numbers and a clock, in seconds, that never goes back. */
module RateLimit {

  datatype Bucket = Bucket(tokens: real, max: real, rate: real, lastTime: real)

  /** The bucket with the tokens that accrued until now, never above its maximum. */
  function Refilled(b: Bucket, now: real): Bucket {
    var t := b.tokens + (now - b.lastTime) * b.rate;
    b.(tokens := if t > b.max then b.max else t, lastTime := now)
  }

  predicate Grants(b: Bucket, now: real) {
    Refilled(b, now).tokens >= 1.0
  }

  /** One try at the lock: a token if there is one. */
  function Tried(b: Bucket, now: real): Bucket {
    var r := Refilled(b, now);
    if r.tokens >= 1.0 then r.(tokens := r.tokens - 1.0) else r
  }

  /** How long it takes the bucket to make up for what is missing to a token. */
  function Shortfall(b: Bucket): real
    requires b.rate > 0.0
  {
    (1.0 - b.tokens) / b.rate
  }

  const Nanosecond := 0.000000001

  /** A duration, cut off at whole nanoseconds. */
  function Duration(seconds: real): real {
    (seconds * 1000000000.0).Floor as real * Nanosecond
  }

  /** How long a waiter that got none sleeps. */
  function Sleep(b: Bucket): real
    requires b.rate > 0.0
  {
    Duration(Shortfall(b))
  }

  predicate Valid(b: Bucket) {
    0.0 <= b.tokens <= b.max && b.rate >= 0.0
  }

  class TokenBucket {
    var b: Bucket

    constructor (rate: real, burst: int, now: real)
      ensures b == Bucket(burst as real, burst as real, rate, now)
    {
      b := Bucket(burst as real, burst as real, rate, now);
    }

    /** One pass through the critical section. */
    method Try(now: real) returns (granted: bool, wait: real)
      requires b.rate > 0.0
      modifies this
      ensures b == Tried(old(b), now) && granted == Grants(old(b), now)
      ensures !granted ==> wait == Sleep(b)
    {
      wait := 0.0;
      b := b.(tokens := b.tokens + (now - b.lastTime) * b.rate);
      if b.tokens > b.max { b := b.(tokens := b.max); }
      b := b.(lastTime := now);
      if b.tokens >= 1.0 {
        b := b.(tokens := b.tokens - 1.0);
        return true, wait;
      }
      granted, wait := false, Duration((1.0 - b.tokens) / b.rate);
    }

    /** A waiter nobody competes with. It wakes late(k) after its k-th sleep
        should end, or is cancelled during it; its n-th sleep, if it comes to
        that, is at least a nanosecond late. */
    method Wait(start: real, late: nat -> real, cancelled: nat -> bool, ghost n: nat) returns (granted: bool, sleeps: nat)
      requires Valid(b) && b.rate > 0.0 && b.max >= 1.0 && b.lastTime <= start
      requires late(n) >= Nanosecond && forall k :: late(k) >= 0.0
      modifies this
      ensures Grants(old(b), start) ==> granted && sleeps == 0
      ensures !Grants(old(b), start) && granted ==> 1 <= sleeps <= n + 1
      ensures forall k :: 0 <= k < sleeps ==> !cancelled(k)
      ensures !granted ==> sleeps <= n && cancelled(sleeps)
      ensures Valid(b)
    {
      var now := start;
      sleeps := 0;
      while true
        invariant Valid(b) && b.rate == old(b).rate && b.max == old(b).max && b.lastTime <= now
        invariant sleeps == 0 ==> b == old(b) && now == start
        invariant sleeps > 0 ==> !Grants(old(b), start)
        invariant sleeps <= n + 1 && (sleeps == n + 1 ==> Grants(b, now))
        invariant forall k :: 0 <= k < sleeps ==> !cancelled(k)
        decreases n + 1 - sleeps
      {
        TriedValid(b, now);
        var ok, wait := Try(now);
        if ok { return true, sleeps; }
        if cancelled(sleeps) { return false, sleeps; }
        SleepSuffices(b, now + wait + late(sleeps));
        SleepFallsShort(b);
        now := now + wait + late(sleeps);
        sleeps := sleeps + 1;
      }
    }
  }

  // ---------------------------------------------------------------------
  // Accrual
  // ---------------------------------------------------------------------

  /** The tokens a clock has made by a time; those made between two times accrue. */
  type Clock = real -> real

  function RateClock(rate: real): Clock {
    x => x * rate
  }

  ghost predicate NeverBack(clock: Clock) {
    forall x, y :: x <= y ==> clock(x) <= clock(y)
  }

  function RefilledBy(b: Bucket, clock: Clock, now: real): Bucket {
    var t := b.tokens + clock(now) - clock(b.lastTime);
    b.(tokens := if t > b.max then b.max else t, lastTime := now)
  }

  function TriedBy(b: Bucket, clock: Clock, now: real): Bucket {
    var r := RefilledBy(b, clock, now);
    if r.tokens >= 1.0 then r.(tokens := r.tokens - 1.0) else r
  }

  lemma Accrued(rate: real, x: real, y: real)
    ensures (y - x) * rate == y * rate - x * rate
    ensures rate >= 0.0 && x <= y ==> x * rate <= y * rate
  {
  }

  lemma RateClockNeverBack(rate: real)
    requires rate >= 0.0
    ensures NeverBack(RateClock(rate))
  {
    forall x: real, y: real | x <= y ensures RateClock(rate)(x) <= RateClock(rate)(y) { Accrued(rate, x, y); }
  }

  lemma RefilledIsBy(b: Bucket, now: real)
    ensures Refilled(b, now) == RefilledBy(b, RateClock(b.rate), now)
    ensures Tried(b, now) == TriedBy(b, RateClock(b.rate), now)
  {
    Accrued(b.rate, b.lastTime, now);
  }

  lemma TriedByValid(b: Bucket, clock: Clock, now: real)
    requires Valid(b) && NeverBack(clock) && b.lastTime <= now
    ensures Valid(TriedBy(b, clock, now))
  {
    assert clock(b.lastTime) <= clock(now);
  }

  lemma TriedValid(b: Bucket, now: real)
    ensures Valid(b) && b.lastTime <= now ==> Valid(Tried(b, now))
  {
    if Valid(b) && b.lastTime <= now {
      RateClockNeverBack(b.rate);
      RefilledIsBy(b, now);
      TriedByValid(b, RateClock(b.rate), now);
    }
  }

  lemma SleepProduct(missing: real, rate: real, slept: real)
    requires rate > 0.0
    ensures slept * rate >= missing <==> slept >= missing / rate
  {
    assert missing / rate * rate == missing;
    var gap := slept - missing / rate;
    assert slept * rate - missing == gap * rate;
  }

  /** A waiter that finds nobody else came by gets a token exactly when it has
      slept off the shortfall and the bucket can hold a token. */
  lemma SleepSuffices(b: Bucket, now: real)
    requires b.rate > 0.0 && b.tokens < 1.0
    ensures Grants(b, now) <==> now >= b.lastTime + Shortfall(b) && b.max >= 1.0
  {
    RefilledGrants(b, now);
    SleepProduct(1.0 - b.tokens, b.rate, now - b.lastTime);
  }

  lemma RefilledGrants(b: Bucket, now: real)
    ensures Grants(b, now) <==> (now - b.lastTime) * b.rate >= 1.0 - b.tokens && b.max >= 1.0
  {
    var made := (now - b.lastTime) * b.rate;
    assert Refilled(b, now).tokens == if b.tokens + made > b.max then b.max else b.tokens + made;
  }

  /** The sleep it computes falls short of that by less than a nanosecond, and by
      nothing exactly when the shortfall is a whole number of nanoseconds. */
  lemma SleepFallsShort(b: Bucket)
    requires b.rate > 0.0 && b.tokens < 1.0
    ensures 0.0 <= Sleep(b) <= Shortfall(b) < Sleep(b) + Nanosecond
    ensures Sleep(b) == Shortfall(b) <==> (Shortfall(b) * 1000000000.0).Floor as real == Shortfall(b) * 1000000000.0
  {
    var missing, rate := 1.0 - b.tokens, b.rate;
    assert missing / rate >= 0.0;
  }

  lemma FloorOfThird(x: real)
    requires 333333333.0 <= x < 333333334.0
    ensures x.Floor == 333333333
  {
  }

  /** At three tokens a second the sleep for one token is 333333333 nanoseconds, and
      when it ends the token is not there. */
  lemma ThirdFallsShort()
    ensures var b := Bucket(0.0, 1.0, 3.0, 0.0); Sleep(b) == 0.333333333 && !Grants(b, Sleep(b))
  {
    var b := Bucket(0.0, 1.0, 3.0, 0.0);
    assert Shortfall(b) * 3.0 == 1.0;
    FloorOfThird(Shortfall(b) * 1000000000.0);
    SleepSuffices(b, Sleep(b));
  }

  // ---------------------------------------------------------------------
  // Whole runs: tries by any waiters, one after another
  // ---------------------------------------------------------------------

  ghost predicate Ascending(start: real, times: seq<real>) {
    && (forall i :: 0 <= i < |times| ==> start <= times[i])
    && (forall i, j :: 0 <= i < j < |times| ==> times[i] <= times[j])
  }

  /** The bucket after the first n tries. */
  function AfterTries(b: Bucket, times: seq<real>, n: nat): Bucket
    requires n <= |times|
  {
    if n == 0 then b else Tried(AfterTries(b, times, n - 1), times[n - 1])
  }

  predicate Granted(b: Bucket, times: seq<real>, i: nat)
    requires i < |times|
  {
    Grants(AfterTries(b, times, i), times[i])
  }

  /** How many of the first n tries were granted at a time between s and t. */
  function GrantsBetween(b: Bucket, times: seq<real>, n: nat, s: real, t: real): nat
    requires n <= |times|
  {
    if n == 0 then 0
    else GrantsBetween(b, times, n - 1, s, t)
         + (if Granted(b, times, n - 1) && s <= times[n - 1] <= t then 1 else 0)
  }

  function AfterTriesBy(b: Bucket, clock: Clock, times: seq<real>, n: nat): Bucket
    requires n <= |times|
  {
    if n == 0 then b else TriedBy(AfterTriesBy(b, clock, times, n - 1), clock, times[n - 1])
  }

  predicate GrantedBy(b: Bucket, clock: Clock, times: seq<real>, i: nat)
    requires i < |times|
  {
    RefilledBy(AfterTriesBy(b, clock, times, i), clock, times[i]).tokens >= 1.0
  }

  function GrantsBy(b: Bucket, clock: Clock, times: seq<real>, n: nat, s: real, t: real): nat
    requires n <= |times|
  {
    if n == 0 then 0
    else GrantsBy(b, clock, times, n - 1, s, t)
         + (if GrantedBy(b, clock, times, n - 1) && s <= times[n - 1] <= t then 1 else 0)
  }

  lemma {:induction false} TriesAreBy(b: Bucket, times: seq<real>, n: nat)
    requires n <= |times|
    ensures AfterTries(b, times, n) == AfterTriesBy(b, RateClock(b.rate), times, n) && AfterTries(b, times, n).rate == b.rate
  {
    if n > 0 {
      TriesAreBy(b, times, n - 1);
      RefilledIsBy(AfterTries(b, times, n - 1), times[n - 1]);
    }
  }

  lemma {:induction false} GrantsAreBy(b: Bucket, times: seq<real>, n: nat, s: real, t: real)
    requires n <= |times|
    ensures GrantsBetween(b, times, n, s, t) == GrantsBy(b, RateClock(b.rate), times, n, s, t)
  {
    if n > 0 {
      GrantsAreBy(b, times, n - 1, s, t);
      TriesAreBy(b, times, n - 1);
      RefilledIsBy(AfterTries(b, times, n - 1), times[n - 1]);
    }
  }

  lemma {:induction false} RunStaysInRange(b: Bucket, clock: Clock, times: seq<real>, n: nat)
    requires Valid(b) && NeverBack(clock) && Ascending(b.lastTime, times) && n <= |times|
    ensures var x := AfterTriesBy(b, clock, times, n);
            Valid(x) && x.max == b.max && x.lastTime == if n == 0 then b.lastTime else times[n - 1]
  {
    if n > 0 {
      RunStaysInRange(b, clock, times, n - 1);
      TriedByValid(AfterTriesBy(b, clock, times, n - 1), clock, times[n - 1]);
    }
  }

  lemma {:induction false} NoneBefore(b: Bucket, clock: Clock, times: seq<real>, n: nat, s: real, t: real)
    requires Ascending(b.lastTime, times) && n <= |times| && (n > 0 ==> times[n - 1] < s)
    ensures GrantsBy(b, clock, times, n, s, t) == 0
  {
    if n > 0 { NoneBefore(b, clock, times, n - 1, s, t); }
  }

  /** What has been granted since s, together with what is left, is at most a
      full bucket and what accrued since s. */
  lemma {:induction false} GrantsPlusTokens(b: Bucket, clock: Clock, times: seq<real>, n: nat, s: real, t: real)
    requires Valid(b) && NeverBack(clock) && Ascending(b.lastTime, times) && 0 < n <= |times| && s <= times[n - 1] <= t
    ensures GrantsBy(b, clock, times, n, s, t) as real + AfterTriesBy(b, clock, times, n).tokens
            <= b.max + clock(times[n - 1]) - clock(s)
    decreases n
  {
    RunStaysInRange(b, clock, times, n - 1);
    assert clock(s) <= clock(times[n - 1]);
    if n == 1 || times[n - 2] < s {
      NoneBefore(b, clock, times, n - 1, s, t);
    } else {
      GrantsPlusTokens(b, clock, times, n - 1, s, t);
    }
  }

  lemma {:induction false} RunIsBounded(b: Bucket, clock: Clock, times: seq<real>, n: nat, s: real, t: real)
    requires Valid(b) && NeverBack(clock) && Ascending(b.lastTime, times) && n <= |times| && s <= t
    ensures GrantsBy(b, clock, times, n, s, t) as real <= b.max + clock(t) - clock(s)
    decreases n
  {
    assert clock(s) <= clock(t);
    if n > 0 && s <= times[n - 1] <= t {
      GrantsPlusTokens(b, clock, times, n, s, t);
      RunStaysInRange(b, clock, times, n);
      assert clock(times[n - 1]) <= clock(t);
    } else if n > 0 && times[n - 1] > t {
      RunIsBounded(b, clock, times, n - 1, s, t);
    } else {
      NoneBefore(b, clock, times, n, s, t);
    }
  }

  lemma BoundedByClock(b: Bucket, clock: Clock, times: seq<real>, n: nat, s: real, t: real)
    requires Valid(b) && clock == RateClock(b.rate) && NeverBack(clock)
    requires Ascending(b.lastTime, times) && n <= |times| && s <= t
    ensures GrantsBetween(b, times, n, s, t) as real <= b.max + clock(t) - clock(s)
  {
    GrantsAreBy(b, times, n, s, t);
    RunIsBounded(b, clock, times, n, s, t);
  }

  lemma BoundedByRate(b: Bucket, times: seq<real>, n: nat, s: real, t: real, made: real)
    requires Valid(b) && Ascending(b.lastTime, times) && n <= |times| && s <= t
    requires made == RateClock(b.rate)(t) - RateClock(b.rate)(s)
    ensures GrantsBetween(b, times, n, s, t) as real <= b.max + made
  {
    RateClockNeverBack(b.rate);
    BoundedByClock(b, RateClock(b.rate), times, n, s, t);
  }

  /** In every run and every interval, no more is granted than the burst and the
      rate allow. */
  lemma GrantsAreBounded(b: Bucket, times: seq<real>, n: nat, s: real, t: real)
    requires Valid(b) && Ascending(b.lastTime, times) && n <= |times| && s <= t
    ensures GrantsBetween(b, times, n, s, t) as real <= b.max + (t - s) * b.rate
  {
    var made := (t - s) * b.rate;
    Accrued(b.rate, s, t);
    BoundedByRate(b, times, n, s, t, made);
  }

  /** Tokens never fall below zero nor rise above the maximum. */
  lemma TokensStayInRange(b: Bucket, times: seq<real>, n: nat)
    requires Valid(b) && Ascending(b.lastTime, times) && n <= |times|
    ensures 0.0 <= AfterTries(b, times, n).tokens <= b.max
  {
    RateClockNeverBack(b.rate);
    TriesAreBy(b, times, n);
    RunStaysInRange(b, RateClock(b.rate), times, n);
  }

  /** A bucket that cannot hold one token never grants any. */
  lemma SmallBucketNeverGrants(b: Bucket, times: seq<real>, n: nat)
    requires Valid(b) && b.max < 1.0 && Ascending(b.lastTime, times) && n < |times|
    ensures !Granted(b, times, n)
  {
    RateClockNeverBack(b.rate);
    TriesAreBy(b, times, n);
    RunStaysInRange(b, RateClock(b.rate), times, n);
  }
}
