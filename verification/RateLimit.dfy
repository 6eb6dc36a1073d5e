/** The per-address rate limiter: token buckets refilled over real time, and the eviction of idle ones. Time is
    in seconds and never runs backwards; a look-up together with its decision is one step. */
module RateLimit {

  datatype Bucket = Bucket(tokens: real, maxTokens: real, refillRate: real, lastRefill: real)

  /** A new bucket is full. */
  function NewBucket(rate: real, now: real): Bucket {
    Bucket(rate, rate, rate, now)
  }

  /** The tokens gained in a stretch of time. */
  function Gain(elapsed: real, rate: real): real {
    elapsed * rate
  }

  function Refill(b: Bucket, now: real): Bucket {
    var tokens := b.tokens + Gain(now - b.lastRefill, b.refillRate);
    b.(tokens := if tokens > b.maxTokens then b.maxTokens else tokens, lastRefill := now)
  }

  predicate Allows(b: Bucket, now: real) {
    Refill(b, now).tokens >= 1.0
  }

  function Decide(b: Bucket, now: real): Bucket {
    var r := Refill(b, now);
    if r.tokens >= 1.0 then r.(tokens := r.tokens - 1.0) else r
  }

  ghost predicate ValidBucket(b: Bucket) {
    0.0 <= b.tokens <= b.maxTokens && b.refillRate >= 0.0
  }

  lemma GainNonNegative(elapsed: real, rate: real)
    requires elapsed >= 0.0 && rate >= 0.0
    ensures Gain(elapsed, rate) >= 0.0
  {
  }

  lemma GainAdds(x: real, y: real, rate: real)
    ensures Gain(x + y, rate) == Gain(x, rate) + Gain(y, rate)
  {
  }

  lemma GainMonotone(x: real, y: real, rate: real)
    requires x <= y && rate >= 0.0
    ensures Gain(x, rate) <= Gain(y, rate)
  {
    GainNonNegative(y - x, rate);
    GainAdds(x, y - x, rate);
    assert x + (y - x) == y;
  }

  /** Tokens always stay between none and the maximum. */
  lemma DecideKeepsValid(b: Bucket, now: real)
    requires ValidBucket(b) && now >= b.lastRefill
    ensures ValidBucket(Decide(b, now)) && Decide(b, now).lastRefill == now
    ensures Decide(b, now).maxTokens == b.maxTokens && Decide(b, now).refillRate == b.refillRate
  {
    RefillKeepsValid(b, now);
  }

  /** A request is let through exactly when the bucket can hold a token and, with what it has gained since it was
      last asked, has one; it is then charged that token and nothing else. */
  lemma AllowsExactlyWhenOneToken(b: Bucket, now: real)
    requires ValidBucket(b) && now >= b.lastRefill
    ensures Allows(b, now) <==> b.maxTokens >= 1.0 && b.tokens + (now - b.lastRefill) * b.refillRate >= 1.0
    ensures Decide(b, now).tokens == Refill(b, now).tokens - if Allows(b, now) then 1.0 else 0.0
    ensures !Allows(b, now) ==> Decide(b, now).tokens < 1.0
  {
    assert Gain(now - b.lastRefill, b.refillRate) == (now - b.lastRefill) * b.refillRate;
  }

  // ---------------------------------------------------------------------------
  // One bucket
  // ---------------------------------------------------------------------------

  /** The times of requests never decrease, and start no earlier than `from`. */
  ghost predicate Ordered(from: real, times: seq<real>) {
    && (forall i | 0 <= i < |times| :: from <= times[i])
    && (forall i, j | 0 <= i < j < |times| :: times[i] <= times[j])
  }

  function After(b: Bucket, times: seq<real>): Bucket {
    if times == [] then b else Decide(After(b, times[..|times| - 1]), times[|times| - 1])
  }

  /** How many of the requests are let through. */
  function Allowed(b: Bucket, times: seq<real>): nat {
    if times == [] then 0
    else Allowed(b, times[..|times| - 1]) + if Allows(After(b, times[..|times| - 1]), times[|times| - 1]) then 1 else 0
  }

  lemma {:induction false} AfterIsValid(b: Bucket, times: seq<real>)
    requires ValidBucket(b) && Ordered(b.lastRefill, times)
    ensures var b' := After(b, times);
            && ValidBucket(b') && b'.maxTokens == b.maxTokens && b'.refillRate == b.refillRate
            && b'.lastRefill == if times == [] then b.lastRefill else times[|times| - 1]
  {
    if times == [] {
    } else {
      AfterIsValid(b, times[..|times| - 1]);
      DecideKeepsValid(After(b, times[..|times| - 1]), times[|times| - 1]);
    }
  }

  /** Tokens spent and tokens left never exceed the tokens there were and those gained since. */
  lemma {:induction false} TokensAreConserved(b: Bucket, times: seq<real>)
    requires ValidBucket(b) && Ordered(b.lastRefill, times)
    ensures var b' := After(b, times);
            Allowed(b, times) as real + b'.tokens <= b.tokens + Gain(b'.lastRefill - b.lastRefill, b.refillRate)
  {
    if times == [] {
    } else {
      var shorter, now := times[..|times| - 1], times[|times| - 1];
      var mid := After(b, shorter);
      AfterIsValid(b, shorter);
      TokensAreConserved(b, shorter);
      GainAdds(mid.lastRefill - b.lastRefill, now - mid.lastRefill, b.refillRate);
      assert (mid.lastRefill - b.lastRefill) + (now - mid.lastRefill) == now - b.lastRefill;
    }
  }

  lemma RefillKeepsValid(b: Bucket, now: real)
    requires ValidBucket(b) && now >= b.lastRefill
    ensures var r := Refill(b, now);
            ValidBucket(r) && r.lastRefill == now && r.maxTokens == b.maxTokens && r.refillRate == b.refillRate
  {
    GainNonNegative(now - b.lastRefill, b.refillRate);
  }

  /** So many requests at one instant. */
  function Burst(now: real, n: nat): seq<real> { seq(n, _ => now) }

  function Least(a: nat, b: int): int { if a < b then a else b }

  /** A new bucket of rate `r` lets through the first `r.Floor` requests of one instant, and no more. */
  lemma {:induction false} BurstIsAllowed(r: real, now: real, n: nat)
    requires r >= 0.0
    ensures Allowed(NewBucket(r, now), Burst(now, n)) == Least(n, r.Floor)
    ensures After(NewBucket(r, now), Burst(now, n)) == NewBucket(r, now).(tokens := r - Least(n, r.Floor) as real)
  {
    if n == 0 {
      assert r.Floor >= 0;
    } else {
      BurstIsAllowed(r, now, n - 1);
      assert Burst(now, n)[..n - 1] == Burst(now, n - 1);
      assert Gain(0.0, r) == 0.0;
    }
  }

  /** Requests each of which comes late enough for one token to have been gained. */
  ghost predicate Spaced(from: real, times: seq<real>, rate: real) {
    forall i | 0 <= i < |times| :: Gain(times[i] - (if i == 0 then from else times[i - 1]), rate) >= 1.0
  }

  lemma OrderedPrefix(from: real, times: seq<real>)
    requires Ordered(from, times) && times != []
    ensures Ordered(from, times[..|times| - 1])
  {
  }

  /** Requests spaced like that are all let through. */
  lemma {:induction false} SpacedAreAllowed(b: Bucket, times: seq<real>)
    requires ValidBucket(b) && b.maxTokens >= 1.0
    requires Ordered(b.lastRefill, times) && Spaced(b.lastRefill, times, b.refillRate)
    ensures Allowed(b, times) == |times|
  {
    if times == [] {
    } else {
      var shorter, now := times[..|times| - 1], times[|times| - 1];
      OrderedPrefix(b.lastRefill, times);
      assert Spaced(b.lastRefill, shorter, b.refillRate);
      SpacedAreAllowed(b, shorter);
      AfterIsValid(b, shorter);
    }
  }

  lemma BoundSinceRefill(b: Bucket, window: seq<real>)
    requires ValidBucket(b) && window != [] && b.lastRefill == window[0] && Ordered(b.lastRefill, window)
    ensures Allowed(b, window) as real <= b.maxTokens + Gain(window[|window| - 1] - window[0], b.refillRate)
  {
    TokensAreConserved(b, window);
    AfterIsValid(b, window);
  }

  lemma WindowBound(b: Bucket, window: seq<real>)
    requires ValidBucket(b) && Ordered(b.lastRefill, window) && window != []
    ensures Allowed(b, window) as real <= b.maxTokens + Gain(window[|window| - 1] - window[0], b.refillRate)
  {
    RefillKeepsValid(b, window[0]);
    RefillFirst(b, window);
    BoundSinceRefill(Refill(b, window[0]), window);
  }

  lemma WiderWindow(count: real, most: real, x: real, y: real, rate: real)
    requires count <= most + Gain(x, rate) && x <= y && rate >= 0.0
    ensures count <= most + Gain(y, rate)
  {
    GainMonotone(x, y, rate);
  }

  lemma WindowWithin(b: Bucket, window: seq<real>, from: real, to: real)
    requires ValidBucket(b) && Ordered(b.lastRefill, window) && from <= to
    requires forall i | 0 <= i < |window| :: from <= window[i] <= to
    ensures Allowed(b, window) as real <= b.maxTokens + Gain(to - from, b.refillRate)
  {
    if window == [] {
      GainNonNegative(to - from, b.refillRate);
    } else {
      WindowBound(b, window);
      WiderWindow(Allowed(b, window) as real, b.maxTokens, window[|window| - 1] - window[0], to - from, b.refillRate);
    }
  }

  lemma OrderedSplit(from: real, before: seq<real>, window: seq<real>)
    requires Ordered(from, before + window)
    ensures Ordered(from, before) && Ordered(if before == [] then from else before[|before| - 1], window)
  {
    var all := before + window;
    assert forall i | 0 <= i < |before| :: before[i] == all[i];
    assert forall i | 0 <= i < |window| :: window[i] == all[|before| + i];
  }

  /** The rate bound: whatever came before, in any window of time a bucket lets through at most its maximum
      plus what it gains during the window. */
  lemma RateBound(b: Bucket, before: seq<real>, window: seq<real>, from: real, to: real)
    requires ValidBucket(b) && Ordered(b.lastRefill, before + window) && from <= to
    requires forall i | 0 <= i < |window| :: from <= window[i] <= to
    ensures Allowed(After(b, before), window) as real <= b.maxTokens + Gain(to - from, b.refillRate)
  {
    OrderedSplit(b.lastRefill, before, window);
    AfterIsValid(b, before);
    WindowWithin(After(b, before), window, from, to);
  }

  lemma RefillTwice(b: Bucket, now: real)
    ensures Refill(Refill(b, now), now) == Refill(b, now)
  {
    assert Gain(0.0, b.refillRate) == 0.0;
  }

  /** Refilling at the time of the first request in advance changes no decision. */
  lemma {:induction false} RefillFirst(b: Bucket, times: seq<real>)
    requires times != []
    ensures Allowed(Refill(b, times[0]), times) == Allowed(b, times)
    ensures After(Refill(b, times[0]), times) == After(b, times)
  {
    if |times| == 1 {
      assert times[..0] == [];
      RefillTwice(b, times[0]);
    } else {
      RefillFirst(b, times[..|times| - 1]);
    }
  }

  // ---------------------------------------------------------------------------
  // Many buckets, with and without eviction
  // ---------------------------------------------------------------------------

  datatype Limiter = Limiter(rate: real, now: real, buckets: map<string, Bucket>)

  datatype Event = Request(ip: string, at: real) | Cleanup(at: real)

  /** The bucket of an address: the one there is, or a new one. */
  function BucketOf(buckets: map<string, Bucket>, rate: real, ip: string, now: real): Bucket {
    if ip in buckets then buckets[ip] else NewBucket(rate, now)
  }

  predicate Idle(b: Bucket, now: real) {
    now - b.lastRefill > 60.0
  }

  function Evict(buckets: map<string, Bucket>, now: real): map<string, Bucket> {
    map ip | ip in buckets && !Idle(buckets[ip], now) :: buckets[ip]
  }

  /** An event before the present cannot happen. `evicting` says whether clean-ups do anything. */
  function Next(l: Limiter, e: Event, evicting: bool): Limiter {
    if e.at < l.now then l
    else match e
      case Request(ip, at) => l.(now := at, buckets := l.buckets[ip := Decide(BucketOf(l.buckets, l.rate, ip, at), at)])
      case Cleanup(at) => l.(now := at, buckets := if evicting then Evict(l.buckets, at) else l.buckets)
  }

  function Run(l: Limiter, events: seq<Event>, evicting: bool): Limiter {
    if events == [] then l else Next(Run(l, events[..|events| - 1], evicting), events[|events| - 1], evicting)
  }

  /** The decisions taken, in order. */
  function Decisions(l: Limiter, events: seq<Event>, evicting: bool): seq<bool> {
    if events == [] then []
    else
      var mid, e := Run(l, events[..|events| - 1], evicting), events[|events| - 1];
      Decisions(l, events[..|events| - 1], evicting) +
      if e.Request? && e.at >= mid.now then [Allows(BucketOf(mid.buckets, mid.rate, e.ip, e.at), e.at)] else []
  }

  /** A bucket of this limiter: never over-full, never refilled in the future. */
  ghost predicate BucketOk(b: Bucket, rate: real, now: real) {
    ValidBucket(b) && b.maxTokens == rate == b.refillRate && b.lastRefill <= now
  }

  /** The two limiters agree on every bucket, except that the evicting one may lack some that have long been
      idle. */
  ghost predicate Agree(a: Limiter, b: Limiter) {
    && a.rate == b.rate > 0.0 && a.now == b.now
    && (forall ip | ip in a.buckets :: ip in b.buckets && a.buckets[ip] == b.buckets[ip])
    && (forall ip | ip in b.buckets :: BucketOk(b.buckets[ip], b.rate, b.now))
    && (forall ip | ip in b.buckets && ip !in a.buckets :: Idle(b.buckets[ip], b.now))
  }

  /** An idle bucket has filled up, so that it decides as a new one would. */
  lemma IdleIsNew(b: Bucket, rate: real, since: real, now: real)
    requires BucketOk(b, rate, since) && Idle(b, since) && since <= now && rate > 0.0
    ensures Refill(b, now) == Refill(NewBucket(rate, now), now)
    ensures Allows(b, now) == Allows(NewBucket(rate, now), now) && Decide(b, now) == Decide(NewBucket(rate, now), now)
  {
    GainMonotone(1.0, now - b.lastRefill, rate);
  }

  lemma SameDecision(a: Limiter, b: Limiter, ip: string, at: real)
    requires Agree(a, b) && at >= a.now
    ensures var x, y := BucketOf(a.buckets, a.rate, ip, at), BucketOf(b.buckets, b.rate, ip, at);
            Allows(x, at) == Allows(y, at) && Decide(x, at) == Decide(y, at) && BucketOk(Decide(y, at), b.rate, at)
  {
    var y := BucketOf(b.buckets, b.rate, ip, at);
    if ip in b.buckets && ip !in a.buckets {
      IdleIsNew(y, a.rate, a.now, at);
    }
    DecideKeepsValid(y, at);
  }

  lemma NextAgrees(a: Limiter, b: Limiter, e: Event)
    requires Agree(a, b)
    ensures Agree(Next(a, e, true), Next(b, e, false))
  {
    if e.at >= a.now && e.Request? {
      SameDecision(a, b, e.ip, e.at);
    }
  }

  /** Eviction cannot be observed: on every trace of requests and clean-ups, the limiter that drops idle buckets
      decides exactly as one that keeps them all. */
  lemma {:induction false} EvictionIsUnobservable(rate: real, start: real, events: seq<Event>)
    requires rate > 0.0
    ensures var l := Limiter(rate, start, map[]);
            && Decisions(l, events, true) == Decisions(l, events, false)
            && Agree(Run(l, events, true), Run(l, events, false))
  {
    if events == [] {
    } else {
      var l, shorter, e := Limiter(rate, start, map[]), events[..|events| - 1], events[|events| - 1];
      EvictionIsUnobservable(rate, start, shorter);
      var a, b := Run(l, shorter, true), Run(l, shorter, false);
      NextAgrees(a, b, e);
      if e.Request? && e.at >= a.now {
        SameDecision(a, b, e.ip, e.at);
      }
    }
  }

  // ---------------------------------------------------------------------------
  // The objects
  // ---------------------------------------------------------------------------

  class TokenBucket {
    var tokens: real
    const maxTokens: real
    const refillRate: real
    var lastRefill: real

    function View(): Bucket
      reads this
    {
      Bucket(tokens, maxTokens, refillRate, lastRefill)
    }

    constructor (rate: real, now: real)
      ensures View() == NewBucket(rate, now)
    {
      tokens, maxTokens, refillRate, lastRefill := rate, rate, rate, now;
    }

    method Allow(now: real) returns (allowed: bool)
      modifies this
      ensures View() == Decide(old(View()), now) && allowed == Allows(old(View()), now)
      ensures now >= old(lastRefill) && ValidBucket(old(View())) ==>
                (allowed <==> maxTokens >= 1.0 && old(tokens) + (now - old(lastRefill)) * refillRate >= 1.0)
    {
      if ValidBucket(View()) && now >= lastRefill { AllowsExactlyWhenOneToken(View(), now); }
      var elapsed := now - lastRefill;
      assert elapsed * refillRate == Gain(now - lastRefill, refillRate);
      tokens := tokens + elapsed * refillRate;
      if tokens > maxTokens {
        tokens := maxTokens;
      }
      lastRefill := now;
      if tokens >= 1.0 {
        tokens := tokens - 1.0;
        return true;
      }
      return false;
    }
  }

  class IpRateLimiter {
    const rate: real
    var buckets: map<string, TokenBucket>

    /** No two addresses share a bucket. */
    ghost predicate Valid()
      reads this
    {
      forall ip, ip' | ip in buckets && ip' in buckets && ip != ip' :: buckets[ip] != buckets[ip']
    }

    ghost function Views(): map<string, Bucket>
      reads this, buckets.Values
    {
      map ip | ip in buckets :: buckets[ip].View()
    }

    constructor (rate: real)
      ensures Valid() && Views() == map[] && this.rate == rate
    {
      this.rate := rate;
      buckets := map[];
    }

    method GetBucket(ip: string, now: real) returns (b: TokenBucket)
      requires Valid()
      modifies this`buckets
      ensures Valid() && ip in buckets && buckets[ip] == b
      ensures b in old(buckets.Values) || fresh(b)
      ensures buckets.Keys == old(buckets.Keys) + {ip}
      ensures forall x | x in old(buckets) :: x in buckets && buckets[x] == old(buckets)[x]
      ensures b.View() == BucketOf(old(Views()), rate, ip, now)
    {
      if ip in buckets {
        return buckets[ip];
      }
      b := new TokenBucket(rate, now);
      buckets := buckets[ip := b];
    }

    method Allow(ip: string, now: real) returns (allowed: bool)
      requires Valid()
      modifies this`buckets, buckets.Values
      ensures Valid()
      ensures allowed == Allows(BucketOf(old(Views()), rate, ip, now), now)
      ensures Views() == old(Views())[ip := Decide(BucketOf(old(Views()), rate, ip, now), now)]
    {
      var b := GetBucket(ip, now);
      allowed := b.Allow(now);
    }

    /** One pass of the clean-up loop. */
    method CleanUp(now: real)
      requires Valid()
      modifies this`buckets
      ensures Valid() && Views() == Evict(old(Views()), now)
      ensures forall ip | ip in old(buckets) :: ip in buckets <==> now - old(buckets[ip].lastRefill) <= 60.0
    {
      var ips := buckets.Keys;
      while ips != {}
        invariant ips <= buckets.Keys <= old(buckets.Keys)
        invariant forall ip | ip in buckets :: buckets[ip] == old(buckets)[ip]
        invariant forall ip | ip in old(buckets) && ip !in ips :: ip in buckets <==> !Idle(old(Views())[ip], now)
        decreases ips
      {
        var ip :| ip in ips;
        var idle := now - buckets[ip].lastRefill > 60.0;
        if idle {
          buckets := buckets - {ip};
        }
        ips := ips - {ip};
      }
    }
  }
}
