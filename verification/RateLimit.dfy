/**
 A token bucket per address, with buckets that have filled up again thrown away once a
 minute. Time is counted in seconds on the reals.
 */
module RateLimit {
  type Ip = nat

  datatype Bucket = Bucket(tokens: real, lastRefill: real)

  datatype Limits = Limits(capacity: real, refillPerSec: real)

  datatype State = State(buckets: map<Ip, Bucket>, lastSweep: real)

  datatype Request = Request(ip: Ip, now: real)

  const SWEEP_INTERVAL: real := 60.0

  function PerMinute(n: nat): Limits {
    Limits(n as real, n as real / 60.0)
  }

  predicate Enabled(l: Limits) {
    l.capacity > 0.0
  }

  /** `saturating_duration_since` */
  function Since(earlier: real, now: real): real {
    if now >= earlier then now - earlier else 0.0
  }

  function Min(a: real, b: real): real {
    if a <= b then a else b
  }

  function Projected(l: Limits, b: Bucket, now: real): real {
    Min(b.tokens + Since(b.lastRefill, now) * l.refillPerSec, l.capacity)
  }

  /** The bucket of an address, one that is full when the address has none. */
  function BucketOf(l: Limits, s: State, ip: Ip, now: real): Bucket {
    if ip in s.buckets then s.buckets[ip] else Bucket(l.capacity, now)
  }

  /** The tokens an address has at a time. */
  function Level(l: Limits, s: State, ip: Ip, now: real): real {
    Projected(l, BucketOf(l, s, ip, now), now)
  }

  /** A limiter without capacity is switched off and lets everything through. */
  predicate Allows(l: Limits, s: State, ip: Ip, now: real) {
    !Enabled(l) || Level(l, s, ip, now) >= 1.0
  }

  function Spend(l: Limits, s: State, r: Request): State {
    var level := Level(l, s, r.ip, r.now);
    s.(buckets := s.buckets[r.ip := Bucket(if level >= 1.0 then level - 1.0 else level, r.now)])
  }

  predicate Refilled(l: Limits, b: Bucket, now: real) {
    b.tokens + Since(b.lastRefill, now) * l.refillPerSec >= l.capacity
  }

  /** The buckets still worth keeping. */
  function Sweep(l: Limits, s: State, now: real): State {
    State(map ip | ip in s.buckets && !Refilled(l, s.buckets[ip], now) :: s.buckets[ip], now)
  }

  function Next(l: Limits, s: State, r: Request, sweeps: bool): State {
    var spent := Spend(l, s, r);
    if !Enabled(l) then s
    else if sweeps && Since(s.lastSweep, r.now) >= SWEEP_INTERVAL then Sweep(l, spent, r.now) else spent
  }

  // ---- Runs ----

  function After(l: Limits, s: State, rs: seq<Request>, sweeps: bool): State
    decreases |rs|
  {
    if rs == [] then s else After(l, Next(l, s, rs[0], sweeps), rs[1..], sweeps)
  }

  function Answers(l: Limits, s: State, rs: seq<Request>, sweeps: bool): seq<bool>
    decreases |rs|
  {
    if rs == [] then []
    else [Allows(l, s, rs[0].ip, rs[0].now)] + Answers(l, Next(l, s, rs[0], sweeps), rs[1..], sweeps)
  }

  /** The requests come at non-decreasing times, none before `now`. */
  predicate Timely(rs: seq<Request>, now: real)
    decreases |rs|
  {
    rs == [] || (now <= rs[0].now && Timely(rs[1..], rs[0].now))
  }

  function LastTime(rs: seq<Request>, now: real): real {
    if rs == [] then now else rs[|rs| - 1].now
  }

  /** Buckets hold between nothing and the capacity and were last touched in the past. */
  predicate Good(l: Limits, s: State, now: real) {
    && l.capacity >= 0.0 && l.refillPerSec >= 0.0
    && forall ip | ip in s.buckets :: 0.0 <= s.buckets[ip].tokens <= l.capacity && s.buckets[ip].lastRefill <= now
  }

  lemma SpendKeepsGood(l: Limits, s: State, r: Request, now: real)
    requires Good(l, s, now) && now <= r.now
    ensures Good(l, Spend(l, s, r), r.now)
  {
    LevelInRange(l, s, r.ip, r.now, now);
  }

  lemma NextKeepsGood(l: Limits, s: State, r: Request, sweeps: bool, now: real)
    requires Good(l, s, now) && now <= r.now
    ensures Good(l, Next(l, s, r, sweeps), r.now)
  {
    SpendKeepsGood(l, s, r, now);
  }

  lemma NonNegativeProduct(a: real, b: real)
    requires a >= 0.0 && b >= 0.0
    ensures a * b >= 0.0
  {
  }

  lemma LevelInRange(l: Limits, s: State, ip: Ip, t: real, now: real)
    requires Good(l, s, now) && now <= t
    ensures 0.0 <= Level(l, s, ip, t) <= l.capacity
  {
    NonNegativeProduct(Since(BucketOf(l, s, ip, t).lastRefill, t), l.refillPerSec);
  }

  // ---- Sweeping is invisible ----

  /** Two states that no later request of the address can tell apart. */
  ghost predicate Alike(l: Limits, a: State, b: State, ip: Ip, now: real) {
    forall t | t >= now :: Level(l, a, ip, t) == Level(l, b, ip, t)
  }

  lemma MoreTimeMoreTokens(rate: real, a: real, b: real)
    requires rate >= 0.0 && a <= b
    ensures a * rate <= b * rate
  {
    NonNegativeProduct(b - a, rate);
    assert b * rate == a * rate + (b - a) * rate;
  }

  /** A bucket that is thrown away would have read as full from then on. */
  lemma SweptReadsFull(l: Limits, b: Bucket, now: real, t: real)
    requires Refilled(l, b, now) && b.lastRefill <= now <= t && l.refillPerSec >= 0.0
    ensures Projected(l, b, t) == l.capacity
  {
    MoreTimeMoreTokens(l.refillPerSec, now - b.lastRefill, t - b.lastRefill);
  }

  lemma SweepIsAlike(l: Limits, s: State, ip: Ip, now: real)
    requires Good(l, s, now)
    ensures Alike(l, Sweep(l, s, now), s, ip, now)
  {
    forall t | t >= now ensures Level(l, Sweep(l, s, now), ip, t) == Level(l, s, ip, t) {
      if ip in s.buckets && Refilled(l, s.buckets[ip], now) {
        SweptReadsFull(l, s.buckets[ip], now, t);
      }
    }
  }

  /** One request keeps the states alike, whether the second one sees it or, coming from another
      address, does not. */
  lemma NextKeepsAlike(l: Limits, a: State, b: State, r: Request, sweeps: bool, ip: Ip, now: real)
    requires Good(l, a, now) && Alike(l, a, b, ip, now) && now <= r.now
    ensures Alike(l, Next(l, a, r, sweeps), Next(l, b, r, false), ip, r.now)
    ensures r.ip != ip ==> Alike(l, Next(l, a, r, sweeps), b, ip, r.now)
  {
    SpendKeepsGood(l, a, r, now);
    SweepIsAlike(l, Spend(l, a, r), ip, r.now);
    assert Level(l, a, ip, r.now) == Level(l, b, ip, r.now);
    forall t | t >= r.now
      ensures Level(l, Next(l, a, r, sweeps), ip, t) == Level(l, Next(l, b, r, false), ip, t)
      ensures r.ip != ip ==> Level(l, Next(l, a, r, sweeps), ip, t) == Level(l, b, ip, t)
    {
      assert Level(l, a, ip, t) == Level(l, b, ip, t);
      assert Level(l, Sweep(l, Spend(l, a, r), r.now), ip, t) == Level(l, Spend(l, a, r), ip, t);
    }
  }

  /** A limiter that sweeps and one that never does, alike at the start, answer every timely
      sequence of requests the same way. */
  lemma {:induction false} SweepingIsInvisible(l: Limits, a: State, b: State, rs: seq<Request>, now: real)
    requires Good(l, a, now) && (forall ip :: Alike(l, a, b, ip, now)) && Timely(rs, now)
    ensures Answers(l, a, rs, true) == Answers(l, b, rs, false)
    decreases |rs|
  {
    if rs != [] {
      var r := rs[0];
      assert Alike(l, a, b, r.ip, now);
      assert Level(l, a, r.ip, r.now) == Level(l, b, r.ip, r.now);
      forall ip ensures Alike(l, Next(l, a, r, true), Next(l, b, r, false), ip, r.now) {
        NextKeepsAlike(l, a, b, r, true, ip, now);
      }
      NextKeepsGood(l, a, r, true, now);
      SweepingIsInvisible(l, Next(l, a, r, true), Next(l, b, r, false), rs[1..], r.now);
    }
  }

  // ---- Addresses do not disturb each other ----

  function Only(rs: seq<Request>, ip: Ip): seq<Request>
    decreases |rs|
  {
    if rs == [] then [] else (if rs[0].ip == ip then [rs[0]] else []) + Only(rs[1..], ip)
  }

  /** The answers given to one address. */
  function AnswersTo(rs: seq<Request>, answers: seq<bool>, ip: Ip): seq<bool>
    requires |rs| == |answers|
    decreases |rs|
  {
    if rs == [] then [] else (if rs[0].ip == ip then [answers[0]] else []) + AnswersTo(rs[1..], answers[1..], ip)
  }

  lemma {:induction false} OneAnswerEach(l: Limits, s: State, rs: seq<Request>, sweeps: bool)
    ensures |Answers(l, s, rs, sweeps)| == |rs|
    decreases |rs|
  {
    if rs != [] {
      OneAnswerEach(l, Next(l, s, rs[0], sweeps), rs[1..], sweeps);
    }
  }

  /** An address gets the answers it would get from a limiter that sees nobody else. */
  lemma {:induction false} AddressesAreIndependent(l: Limits, a: State, b: State, rs: seq<Request>, sweeps: bool,
                                                   ip: Ip, now: real)
    requires Good(l, a, now) && Alike(l, a, b, ip, now) && Timely(rs, now)
    ensures |Answers(l, a, rs, sweeps)| == |rs|
    ensures AnswersTo(rs, Answers(l, a, rs, sweeps), ip) == Answers(l, b, Only(rs, ip), false)
    decreases |rs|
  {
    OneAnswerEach(l, a, rs, sweeps);
    if rs != [] {
      var r := rs[0];
      var answers, rest := Answers(l, a, rs, sweeps), Answers(l, Next(l, a, r, sweeps), rs[1..], sweeps);
      assert answers[1..] == rest;
      NextKeepsAlike(l, a, b, r, sweeps, ip, now);
      NextKeepsGood(l, a, r, sweeps, now);
      if r.ip == ip {
        assert Level(l, a, ip, r.now) == Level(l, b, ip, r.now);
        assert Only(rs, ip)[1..] == Only(rs[1..], ip);
        AddressesAreIndependent(l, Next(l, a, r, sweeps), Next(l, b, r, false), rs[1..], sweeps, ip, r.now);
      } else {
        AddressesAreIndependent(l, Next(l, a, r, sweeps), b, rs[1..], sweeps, ip, r.now);
        assert Only(rs, ip) == Only(rs[1..], ip);
      }
    }
  }

  // ---- How much gets through ----

  function Allowed(rs: seq<Request>, answers: seq<bool>, ip: Ip): nat
    requires |rs| == |answers|
    decreases |rs|
  {
    if rs == [] then 0
    else (if rs[0].ip == ip && answers[0] then 1 else 0) + Allowed(rs[1..], answers[1..], ip)
  }

  function Refill(l: Limits, from: real, to: real): real {
    (to - from) * l.refillPerSec
  }

  lemma SplitTime(l: Limits, a: real, b: real, c: real)
    ensures Refill(l, a, c) == Refill(l, a, b) + Refill(l, b, c)
  {
  }

  /** Tokens come in no faster than the refill rate. */
  lemma RefillRate(l: Limits, s: State, ip: Ip, now: real, t: real)
    requires Good(l, s, now) && now <= t
    ensures Level(l, s, ip, t) <= Level(l, s, ip, now) + Refill(l, now, t)
  {
    var b := BucketOf(l, s, ip, now);
    NonNegativeProduct(t - now, l.refillPerSec);
    if ip in s.buckets {
      assert (t - b.lastRefill) * l.refillPerSec == (now - b.lastRefill) * l.refillPerSec + (t - now) * l.refillPerSec;
    }
  }

  /** A request costs its address a token exactly when it is allowed, and others nothing. */
  lemma CostOfARequest(l: Limits, s: State, r: Request, sweeps: bool, ip: Ip, now: real)
    requires Enabled(l) && Good(l, s, now) && now <= r.now
    ensures Level(l, Next(l, s, r, sweeps), ip, r.now)
            == Level(l, s, ip, r.now) - if r.ip == ip && Allows(l, s, ip, r.now) then 1.0 else 0.0
  {
    SpendKeepsGood(l, s, r, now);
    SweepIsAlike(l, Spend(l, s, r), ip, r.now);
    LevelInRange(l, s, r.ip, r.now, now);
    assert Level(l, Sweep(l, Spend(l, s, r), r.now), ip, r.now) == Level(l, Spend(l, s, r), ip, r.now);
  }

  /** The potential: what was let through plus what is left is at most what was there plus what came in. */
  lemma {:induction false} TokensPayForRequests(l: Limits, s: State, rs: seq<Request>, sweeps: bool, ip: Ip, now: real)
    requires Enabled(l) && Good(l, s, now) && Timely(rs, now)
    ensures |Answers(l, s, rs, sweeps)| == |rs| && now <= LastTime(rs, now)
    ensures Good(l, After(l, s, rs, sweeps), LastTime(rs, now))
    ensures Allowed(rs, Answers(l, s, rs, sweeps), ip) as real
            + Level(l, After(l, s, rs, sweeps), ip, LastTime(rs, now))
            <= Level(l, s, ip, now) + Refill(l, now, LastTime(rs, now))
    decreases |rs|
  {
    OneAnswerEach(l, s, rs, sweeps);
    if rs != [] {
      var r, s' := rs[0], Next(l, s, rs[0], sweeps);
      assert Answers(l, s, rs, sweeps)[1..] == Answers(l, s', rs[1..], sweeps);
      NextKeepsGood(l, s, r, sweeps, now);
      RefillRate(l, s, ip, now, r.now);
      CostOfARequest(l, s, r, sweeps, ip, now);
      TokensPayForRequests(l, s', rs[1..], sweeps, ip, r.now);
      assert LastTime(rs, now) == LastTime(rs[1..], r.now);
      SplitTime(l, now, r.now, LastTime(rs, now));
    }
  }

  function Quota(perMin: nat, seconds: real): real {
    perMin as real + perMin as real / 60.0 * seconds
  }

  /** The requests allowed to the address in the window number at most the quota of its length. */
  predicate WithinQuota(perMin: nat, s: State, window: seq<Request>, ip: Ip)
    requires window != []
  {
    var answers := Answers(PerMinute(perMin), s, window, true);
    && |answers| == |window|
    && Allowed(window, answers, ip) as real <= Quota(perMin, window[|window| - 1].now - window[0].now)
  }

  lemma QuotaIsRefill(perMin: nat, from: real, to: real)
    ensures Quota(perMin, to - from) == PerMinute(perMin).capacity + Refill(PerMinute(perMin), from, to)
  {
  }

  lemma {:induction false} BoundFrom(perMin: nat, s: State, window: seq<Request>, ip: Ip)
    requires perMin > 0 && window != [] && Good(PerMinute(perMin), s, window[0].now) && Timely(window, window[0].now)
    ensures WithinQuota(perMin, s, window, ip)
  {
    var l, first, last := PerMinute(perMin), window[0].now, window[|window| - 1].now;
    TokensPayForRequests(l, s, window, true, ip, first);
    LevelInRange(l, s, ip, first, first);
    LevelInRange(l, After(l, s, window, true), ip, last, last);
    QuotaIsRefill(perMin, first, last);
  }

  lemma {:induction false} RunKeepsGood(l: Limits, s: State, rs: seq<Request>, sweeps: bool, now: real)
    requires Good(l, s, now) && Timely(rs, now)
    ensures Good(l, After(l, s, rs, sweeps), LastTime(rs, now))
    decreases |rs|
  {
    if rs != [] {
      NextKeepsGood(l, s, rs[0], sweeps, now);
      RunKeepsGood(l, Next(l, s, rs[0], sweeps), rs[1..], sweeps, rs[0].now);
    }
  }

  /** The state of a limiter that started at a time and has served some requests. */
  function Reached(perMin: nat, start: real, served: seq<Request>): State {
    After(PerMinute(perMin), State(map[], start), served, true)
  }

  lemma {:induction false} ReachedIsGood(perMin: nat, start: real, served: seq<Request>, now: real)
    requires Timely(served, start) && LastTime(served, start) <= now
    ensures Good(PerMinute(perMin), Reached(perMin, start, served), now)
  {
    RunKeepsGood(PerMinute(perMin), State(map[], start), served, true, start);
  }

  /** A disabled limiter allows each of the address's requests. */
  lemma {:induction false} DisabledAllowsAll(l: Limits, s: State, rs: seq<Request>, sweeps: bool, ip: Ip)
    requires !Enabled(l)
    ensures |Answers(l, s, rs, sweeps)| == |rs| && Allowed(rs, Answers(l, s, rs, sweeps), ip) == |Only(rs, ip)|
    decreases |rs|
  {
    OneAnswerEach(l, s, rs, sweeps);
    if rs != [] {
      DisabledAllowsAll(l, s, rs[1..], sweeps, ip);
      assert Answers(l, s, rs, sweeps)[1..] == Answers(l, s, rs[1..], sweeps);
    }
  }

  lemma NoQuotaAtZero(seconds: real)
    ensures Quota(0, seconds) == 0.0
  {
  }

  lemma {:induction false} ZeroBound(s: State, window: seq<Request>, ip: Ip)
    requires window != []
    ensures WithinQuota(0, s, window, ip) <==> Only(window, ip) == []
  {
    DisabledAllowsAll(PerMinute(0), s, window, true, ip);
    NoQuotaAtZero(window[|window| - 1].now - window[0].now);
  }

  /** In every run, and every window of it, an address has at most `perMin` requests allowed plus
      `perMin / 60` for each second of the window. The bound holds exactly when the limiter is on;
      `perMin` zero switches it off, and then it fails for every address that sends a request. */
  lemma {:induction false} WindowBound(perMin: nat, start: real, served: seq<Request>, window: seq<Request>, ip: Ip)
    requires Timely(served, start) && window != [] && Timely(window, LastTime(served, start))
    ensures WithinQuota(perMin, Reached(perMin, start, served), window, ip) <==> perMin > 0 || Only(window, ip) == []
  {
    if perMin > 0 {
      ReachedIsGood(perMin, start, served, window[0].now);
      BoundFrom(perMin, Reached(perMin, start, served), window, ip);
    } else {
      ZeroBound(Reached(perMin, start, served), window, ip);
    }
  }

  lemma OneTokenPerTurn(n: real)
    requires n > 0.0
    ensures 60.0 / n * (n / 60.0) == 1.0
  {
    assert 60.0 / n * n == 60.0;
  }

  lemma WaitFillsOne(l: Limits, b: Bucket, wait: real, t: real)
    requires l.capacity >= 1.0 && l.refillPerSec >= 0.0 && b.tokens >= 0.0
    requires wait * l.refillPerSec == 1.0 && wait >= 0.0 && b.lastRefill + wait <= t
    ensures Projected(l, b, t) >= 1.0
  {
    MoreTimeMoreTokens(l.refillPerSec, wait, t - b.lastRefill);
  }

  /** The address has sent nothing since, so its bucket has not been touched since. */
  predicate QuietSince(rs: seq<Request>, ip: Ip, latest: real) {
    forall i | 0 <= i < |rs| && rs[i].ip == ip :: rs[i].now <= latest
  }

  predicate UntouchedSince(s: State, ip: Ip, latest: real) {
    ip in s.buckets ==> s.buckets[ip].lastRefill <= latest
  }

  lemma {:induction false} QuietMeansUntouched(l: Limits, s: State, rs: seq<Request>, sweeps: bool, ip: Ip,
                                               latest: real)
    requires UntouchedSince(s, ip, latest) && QuietSince(rs, ip, latest)
    ensures UntouchedSince(After(l, s, rs, sweeps), ip, latest)
    decreases |rs|
  {
    if rs != [] {
      assert rs[0].ip == ip ==> rs[0].now <= latest;
      assert forall i | 0 <= i < |rs[1..]| :: rs[1..][i] == rs[i + 1];
      QuietMeansUntouched(l, Next(l, s, rs[0], sweeps), rs[1..], sweeps, ip, latest);
    }
  }

  /** Nobody starves: an address that waits `60 / perMin` seconds gets its next request through,
      whatever the others do meanwhile. */
  lemma {:induction false} PatienceIsRewarded(perMin: nat, start: real, served: seq<Request>, ip: Ip, t: real)
    requires perMin > 0 && Timely(served, start) && t >= LastTime(served, start)
    requires QuietSince(served, ip, t - 60.0 / perMin as real)
    ensures Allows(PerMinute(perMin), Reached(perMin, start, served), ip, t)
  {
    var l, s, wait := PerMinute(perMin), Reached(perMin, start, served), 60.0 / perMin as real;
    ReachedIsGood(perMin, start, served, t);
    QuietMeansUntouched(l, State(map[], start), served, true, ip, t - wait);
    OneTokenPerTurn(perMin as real);
    if ip in s.buckets {
      WaitFillsOne(l, s.buckets[ip], wait, t);
    }
  }

  /** A clock that runs back earns nothing and costs nothing. */
  lemma BackwardClock(l: Limits, b: Bucket, now: real)
    requires now < b.lastRefill && b.tokens <= l.capacity
    ensures Projected(l, b, now) == b.tokens
  {
    assert 0.0 * l.refillPerSec == 0.0;
  }

  // ---- What a sweep forgets, and a burst ----

  /** A request a minute or more after the last sweep throws away exactly the other addresses' buckets
      that are full again; an earlier one throws nothing away. */
  lemma SweepLaw(l: Limits, s: State, r: Request, ip: Ip)
    requires Enabled(l) && ip != r.ip && s.lastSweep <= r.now && (ip in s.buckets ==> s.buckets[ip].lastRefill <= r.now)
    ensures var s', due := Next(l, s, r, true), r.now - s.lastSweep >= 60.0;
      && s'.lastSweep == (if due then r.now else s.lastSweep)
      && (ip in s'.buckets ==> ip in s.buckets && s'.buckets[ip] == s.buckets[ip])
      && (ip in s.buckets ==>
            var full := s.buckets[ip].tokens + (r.now - s.buckets[ip].lastRefill) * l.refillPerSec >= l.capacity;
            ip in s'.buckets <==> !(due && full))
  {
  }

  function Burst(ip: Ip, t: real, k: nat): seq<Request> {
    seq(k, _ => Request(ip, t))
  }

  /** At one instant an address gets as many requests through as it has whole tokens. */
  lemma {:induction false} BurstFrom(l: Limits, s: State, ip: Ip, t: real, m: nat, k: nat)
    requires Enabled(l) && Good(l, s, t) && Level(l, s, ip, t) == m as real
    ensures |Answers(l, s, Burst(ip, t, k), true)| == k
    ensures forall i | 0 <= i < k :: Answers(l, s, Burst(ip, t, k), true)[i] <==> i < m
    decreases k
  {
    OneAnswerEach(l, s, Burst(ip, t, k), true);
    if k > 0 {
      var r, s' := Request(ip, t), Next(l, s, Request(ip, t), true);
      assert Burst(ip, t, k)[1..] == Burst(ip, t, k - 1);
      NextKeepsGood(l, s, r, true, t);
      CostOfARequest(l, s, r, true, ip, t);
      BurstFrom(l, s', ip, t, if m > 0 then m - 1 else 0, k - 1);
    }
  }

  /** A fresh address gets exactly `perMin` requests of a burst through. */
  lemma BurstLaw(perMin: nat, start: real, ip: Ip, t: real, k: nat)
    requires perMin > 0 && start <= t
    ensures var answers := Answers(PerMinute(perMin), State(map[], start), Burst(ip, t, k), true);
      |answers| == k && forall i | 0 <= i < k :: answers[i] <==> i < perMin
  {
    BurstFrom(PerMinute(perMin), State(map[], start), ip, t, perMin, k);
  }

  // ---- The limiter ----

  class RateLimiter {
    const limits: Limits
    var buckets: map<Ip, Bucket>
    var lastSweep: real

    function Contents(): State
      reads this
    {
      State(buckets, lastSweep)
    }

    constructor (perMin: nat, now: real)
      ensures limits == PerMinute(perMin) && Contents() == State(map[], now)
    {
      limits := PerMinute(perMin);
      buckets := map[];
      lastSweep := now;
    }

    /** A limiter with no capacity lets everything through and keeps nothing. */
    method Check(ip: Ip, now: real) returns (allowed: bool)
      modifies this
      ensures !Enabled(limits) ==> allowed && Contents() == old(Contents())
      ensures allowed == Allows(limits, old(Contents()), ip, now)
      ensures Contents() == Next(limits, old(Contents()), Request(ip, now), true)
    {
      if !Enabled(limits) {
        return true;
      }
      if ip !in buckets {
        buckets := buckets[ip := Bucket(limits.capacity, now)];
      }
      var tokens := Projected(limits, buckets[ip], now);
      if tokens >= 1.0 {
        tokens := tokens - 1.0;
        allowed := true;
      } else {
        allowed := false;
      }
      buckets := buckets[ip := Bucket(tokens, now)];
      if Since(lastSweep, now) >= SWEEP_INTERVAL {
        buckets := map other | other in buckets && !Refilled(limits, buckets[other], now) :: buckets[other];
        lastSweep := now;
      }
    }
  }
}
