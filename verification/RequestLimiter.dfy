/** The request limiter: several token buckets per request, created on demand, pruned when idle, and
    capped in number. Times are nanoseconds, token counts are reals. */
module RequestLimiter {
  import opened Wrappers

  datatype Kind = Installation | ClientReads | ClientMutations | SiteMutations | GeneratedDocuments

  datatype Key = Key(kind: Kind, store: string, client: string)

  datatype RateLimits = RateLimits(
    readsPerMinute: int, readBurst: int, mutationsPerMinute: int, mutationBurst: int,
    siteMutationsPerMinute: int, siteMutationBurst: int, generatedPerDay: int, generatedBurst: int,
    installationPerMinute: int, installationBurst: int, ssePerClientSite: int, ssePerSite: int,
    maxBuckets: int, bucketIdleTime: int)

  const SECOND := 1_000_000_000
  const MINUTE := 60 * SECOND

  /** What `normalizeRateLimits` accepts. */
  predicate ValidLimits(l: RateLimits) {
    && l.readsPerMinute >= 1 && l.readBurst >= 1 && l.mutationsPerMinute >= 1 && l.mutationBurst >= 1
    && l.siteMutationsPerMinute >= 1 && l.siteMutationBurst >= 1 && l.generatedPerDay >= 1 && l.generatedBurst >= 1
    && l.installationPerMinute >= 1 && l.installationBurst >= 1
    && l.ssePerClientSite >= 1 && l.ssePerSite >= l.ssePerClientSite
    && l.maxBuckets >= 16 && l.bucketIdleTime > 0
  }

  const DEFAULTS := RateLimits(600, 100, 60, 20, 300, 60, 10_000, 100, 6_000, 1_000, 6, 100, 10_000, 30 * MINUTE)

  type Limits = l: RateLimits | ValidLimits(l) witness DEFAULTS

  function Rate(l: Limits, kind: Kind): real {
    match kind
    case Installation => l.installationPerMinute as real / 60.0
    case ClientReads => l.readsPerMinute as real / 60.0
    case ClientMutations => l.mutationsPerMinute as real / 60.0
    case SiteMutations => l.siteMutationsPerMinute as real / 60.0
    case GeneratedDocuments => l.generatedPerDay as real / 86400.0
  }

  function Burst(l: Limits, kind: Kind): real {
    match kind
    case Installation => l.installationBurst as real
    case ClientReads => l.readBurst as real
    case ClientMutations => l.mutationBurst as real
    case SiteMutations => l.siteMutationBurst as real
    case GeneratedDocuments => l.generatedBurst as real
  }

  datatype Request = Request(store: string, client: string, mutation: bool, generated: bool, now: int)

  /** The buckets a request draws from; their kinds differ, so the keys do. */
  function Needs(r: Request): seq<Key> {
    [Key(Installation, "", "")]
    + (if r.mutation then [Key(ClientMutations, r.store, r.client), Key(SiteMutations, r.store, "")]
       else [Key(ClientReads, r.store, r.client)])
    + (if r.generated then [Key(GeneratedDocuments, r.store, "")] else [])
  }

  datatype Bucket = Bucket(tokens: real, updated: int, used: int)

  datatype Limiter = Limiter(buckets: map<Key, Bucket>, lastPrune: Option<int>)

  datatype Decision = Admitted | TokensLacking(wait: int) | BucketsFull

  // ---- Arithmetic of one bucket ----

  function Seconds(dt: int): real { dt as real / 1_000_000_000.0 }

  function Gain(rate: real, dt: int): real { Seconds(dt) * rate }

  function RealMin(a: real, b: real): real { if a < b then a else b }

  function Ceil(x: real): int { -(-x).Floor }

  function Refill(l: Limits, key: Key, b: Bucket, now: int): Bucket {
    if now > b.updated then
      b.(tokens := RealMin(Burst(l, key.kind), b.tokens + Gain(Rate(l, key.kind), now - b.updated)), updated := now)
    else b
  }

  function WaitFor(l: Limits, key: Key, tokens: real): int
  {
    if tokens < 1.0 then Ceil((1.0 - tokens) / Rate(l, key.kind) * 1_000_000_000.0) else 0
  }

  // ---- The decision ----

  predicate PruneDue(l: Limits, s: Limiter, now: int) {
    s.lastPrune.None? || now - s.lastPrune.value >= MINUTE || |s.buckets| >= l.maxBuckets
  }

  function Prune(l: Limits, s: Limiter, now: int): Limiter {
    if PruneDue(l, s, now) then
      Limiter(map k | k in s.buckets && now - s.buckets[k].used < l.bucketIdleTime :: s.buckets[k], Some(now))
    else s
  }

  function KeySet(needs: seq<Key>): set<Key> { set k | k in needs }

  function RefillNeeded(l: Limits, buckets: map<Key, Bucket>, needs: seq<Key>, now: int): map<Key, Bucket> {
    map k | k in buckets :: if k in needs then Refill(l, k, buckets[k], now) else buckets[k]
  }

  /** The longest wait among the needed buckets that exist. */
  function Wait(l: Limits, buckets: map<Key, Bucket>, needs: seq<Key>, now: int): int
  {
    if needs == [] then 0
    else
      var rest, k := Wait(l, buckets, needs[..|needs| - 1], now), needs[|needs| - 1];
      var mine := if k in buckets then WaitFor(l, k, Refill(l, k, buckets[k], now).tokens) else 0;
      if mine > rest then mine else rest
  }

  function Opened(l: Limits, buckets: map<Key, Bucket>, key: Key, now: int): Bucket {
    if key in buckets then Refill(l, key, buckets[key], now) else Bucket(Burst(l, key.kind), now, 0)
  }

  function Spend(l: Limits, buckets: map<Key, Bucket>, needs: seq<Key>, now: int): map<Key, Bucket> {
    map k | k in buckets.Keys + KeySet(needs) ::
      if k in needs then
        var b := Opened(l, buckets, k, now); b.(tokens := b.tokens - 1.0, used := now)
      else buckets[k]
  }

  function Decide(l: Limits, s: Limiter, needs: seq<Key>, now: int): (Limiter, Decision)
  {
    var s := Prune(l, s, now);
    if |s.buckets.Keys + KeySet(needs)| > l.maxBuckets then (s, BucketsFull)
    else
      var wait := Wait(l, s.buckets, needs, now);
      if wait > 0 then (s.(buckets := RefillNeeded(l, s.buckets, needs, now)), TokensLacking(wait))
      else (s.(buckets := Spend(l, s.buckets, needs, now)), Admitted)
  }

  function Allow(l: Limits, s: Limiter, r: Request): (Limiter, Decision)
  {
    Decide(l, s, Needs(r), r.now)
  }

  // ---- The limiter object ----

  class RequestLimiter {
    const limits: Limits
    var buckets: map<Key, Bucket>
    var lastPrune: Option<int>

    function State(): Limiter
      reads this
    {
      Limiter(buckets, lastPrune)
    }

    constructor (limits: Limits)
      ensures State() == Limiter(map[], None) && this.limits == limits
    {
      this.limits := limits;
      buckets, lastPrune := map[], None;
    }

    method PruneIdle(now: int)
      modifies this
      ensures State() == Prune(limits, old(State()), now)
    {
      if lastPrune.Some? && now - lastPrune.value < MINUTE && |buckets| < limits.maxBuckets {
        return;
      }
      var keys := buckets.Keys;
      while keys != {}
        invariant keys <= old(buckets).Keys
        invariant buckets == map k | k in old(buckets)
          && (k in keys || now - old(buckets)[k].used < limits.bucketIdleTime) :: old(buckets)[k]
        decreases keys
      {
        var key :| key in keys;
        keys := keys - {key};
        if now - buckets[key].used >= limits.bucketIdleTime {
          buckets := buckets - {key};
        }
      }
      lastPrune := Some(now);
    }

    /** Refill what exists and find the longest wait. */
    method LongestWait(needs: seq<Key>, now: int) returns (wait: int)
      requires forall i, j :: 0 <= i < j < |needs| ==> needs[i] != needs[j]
      modifies this`buckets
      ensures buckets == RefillNeeded(limits, old(buckets), needs, now)
      ensures wait == Wait(limits, old(buckets), needs, now)
    {
      wait := 0;
      for i := 0 to |needs|
        invariant buckets == RefillNeeded(limits, old(buckets), needs[..i], now)
        invariant wait == Wait(limits, old(buckets), needs[..i], now)
      {
        WaitNext(limits, old(buckets), needs, i, now);
        var key := needs[i];
        if key in buckets {
          assert buckets[key] == old(buckets)[key];
          var bucket := Refill(limits, key, buckets[key], now);
          buckets := buckets[key := bucket];
          if bucket.tokens < 1.0 {
            var needed := Ceil((1.0 - bucket.tokens) / Rate(limits, key.kind) * 1_000_000_000.0);
            if needed > wait {
              wait := needed;
            }
          }
        }
      }
      assert needs[..|needs|] == needs;
    }

    method TakeTokens(needs: seq<Key>, now: int)
      requires forall i, j :: 0 <= i < j < |needs| ==> needs[i] != needs[j]
      modifies this`buckets
      ensures buckets == Spend(limits, old(buckets), needs, now)
    {
      for i := 0 to |needs|
        invariant buckets == Spend(limits, old(buckets), needs[..i], now)
      {
        var key := needs[i];
        if key !in buckets {
          buckets := buckets[key := Bucket(Burst(limits, key.kind), now, 0)];
        }
        var bucket := Refill(limits, key, buckets[key], now);
        SpendNext(limits, old(buckets), needs, i, now);
        buckets := buckets[key := bucket.(tokens := bucket.tokens - 1.0, used := now)];
      }
      assert needs[..|needs|] == needs;
    }

    method CountMissing(needs: seq<Key>) returns (missing: nat)
      requires forall i, j :: 0 <= i < j < |needs| ==> needs[i] != needs[j]
      ensures |buckets| + missing == |buckets.Keys + KeySet(needs)|
    {
      missing := 0;
      for i := 0 to |needs|
        invariant missing == Missing(buckets.Keys, needs[..i])
      {
        assert needs[..i + 1][..i] == needs[..i];
        if needs[i] !in buckets {
          missing := missing + 1;
        }
      }
      assert needs[..|needs|] == needs;
      MissingCounts(buckets.Keys, needs);
    }

    method AllowRequest(r: Request) returns (decision: Decision)
      modifies this
      ensures (State(), decision) == Allow(limits, old(State()), r)
    {
      var needs := Needs(r);
      PruneIdle(r.now);
      ghost var pruned := buckets;
      var missing := CountMissing(needs);
      if |buckets| + missing > limits.maxBuckets {
        return BucketsFull;
      }
      var wait := LongestWait(needs, r.now);
      if wait > 0 {
        return TokensLacking(wait);
      }
      RefillThenSpend(limits, pruned, needs, r.now);
      TakeTokens(needs, r.now);
      return Admitted;
    }
  }

  lemma {:induction false} OneMoreKey(keys: set<Key>, needs: seq<Key>, key: Key)
    requires key !in needs
    ensures |keys + KeySet(needs + [key])| == |keys + KeySet(needs)| + if key in keys then 0 else 1
  {
    if key in keys {
      assert keys + KeySet(needs + [key]) == keys + KeySet(needs);
    } else {
      assert keys + KeySet(needs + [key]) == keys + KeySet(needs) + {key};
    }
  }

  lemma {:induction false} WaitNext(l: Limits, buckets: map<Key, Bucket>, needs: seq<Key>, i: nat, now: int)
    requires i < |needs|
    ensures var rest, k := Wait(l, buckets, needs[..i], now), needs[i];
            var mine := if k in buckets then WaitFor(l, k, Refill(l, k, buckets[k], now).tokens) else 0;
            Wait(l, buckets, needs[..i + 1], now) == if mine > rest then mine else rest
  {
    assert needs[..i + 1][..i] == needs[..i];
  }

  function Missing(keys: set<Key>, needs: seq<Key>): nat {
    if needs == [] then 0 else Missing(keys, needs[..|needs| - 1]) + if needs[|needs| - 1] in keys then 0 else 1
  }

  lemma {:induction false} MissingCounts(keys: set<Key>, needs: seq<Key>)
    requires forall i, j :: 0 <= i < j < |needs| ==> needs[i] != needs[j]
    ensures |keys| + Missing(keys, needs) == |keys + KeySet(needs)|
  {
    if needs == [] {
      assert keys + KeySet(needs) == keys;
    } else {
      var init, key := needs[..|needs| - 1], needs[|needs| - 1];
      assert needs == init + [key];
      MissingCounts(keys, init);
      OneMoreKey(keys, init, key);
    }
  }

  lemma {:induction false} SpendNext(l: Limits, buckets: map<Key, Bucket>, needs: seq<Key>, i: nat, now: int)
    requires i < |needs| && needs[i] !in needs[..i]
    ensures var b := Opened(l, buckets, needs[i], now);
            var before := Spend(l, buckets, needs[..i], now);
            Spend(l, buckets, needs[..i + 1], now) == before[needs[i] := b.(tokens := b.tokens - 1.0, used := now)]
  {
    assert needs[..i + 1] == needs[..i] + [needs[i]];
  }

  /** Spending refills again, to no further effect. */
  lemma {:induction false} RefillThenSpend(l: Limits, buckets: map<Key, Bucket>, needs: seq<Key>, now: int)
    ensures Spend(l, RefillNeeded(l, buckets, needs, now), needs, now) == Spend(l, buckets, needs, now)
  {
  }

  // ---- Arithmetic ----

  lemma {:induction false} GainAdd(rate: real, a: int, b: int)
    ensures Gain(rate, a + b) == Gain(rate, a) + Gain(rate, b)
  {
    assert Seconds(a + b) == Seconds(a) + Seconds(b);
  }

  lemma {:induction false} Scale(rate: real, a: real, b: real)
    requires rate >= 0.0 && a <= b
    ensures a * rate <= b * rate
  {
  }

  lemma {:induction false} GainMono(rate: real, a: int, b: int)
    requires rate >= 0.0 && a <= b
    ensures Gain(rate, a) <= Gain(rate, b)
  {
    Scale(rate, Seconds(a), Seconds(b));
  }

  lemma {:induction false} GainZero(rate: real)
    ensures Gain(rate, 0) == 0.0
  {
  }

  lemma {:induction false} Positive(l: Limits, kind: Kind)
    ensures Rate(l, kind) > 0.0 && Burst(l, kind) >= 1.0
  {
  }

  lemma {:induction false} CeilIsLeast(x: real, d: int)
    ensures Ceil(x) <= d <==> x <= d as real
  {
  }

  // ---- What a bucket is worth ----

  function BucketLevel(l: Limits, key: Key, b: Bucket, now: int): real {
    RealMin(Burst(l, key.kind), b.tokens + Gain(Rate(l, key.kind), now - b.updated))
  }

  /** The tokens a request at `now` would find; an absent bucket is a full one. */
  function Level(l: Limits, buckets: map<Key, Bucket>, key: Key, now: int): real {
    if key in buckets then BucketLevel(l, key, buckets[key], now) else Burst(l, key.kind)
  }

  /** A bucket was left with at least nothing when last used, and has been refilled since. */
  predicate GoodBucket(l: Limits, key: Key, b: Bucket, now: int) {
    && 0.0 <= b.tokens <= Burst(l, key.kind)
    && b.used <= b.updated <= now
    && b.tokens >= RealMin(Burst(l, key.kind), Gain(Rate(l, key.kind), b.updated - b.used))
  }

  predicate GoodBuckets(l: Limits, buckets: map<Key, Bucket>, now: int) {
    forall k :: k in buckets ==> GoodBucket(l, k, buckets[k], now)
  }

  /** Idle long enough to be pruned means idle long enough to be full. */
  predicate Covered(l: Limits) {
    forall kind: Kind :: Gain(Rate(l, kind), l.bucketIdleTime) >= Burst(l, kind)
  }

  lemma {:induction false} DefaultsCover()
    ensures Covered(DEFAULTS)
  {
    var l: Limits := DEFAULTS;
    assert Seconds(30 * MINUTE) == 1800.0;
    forall kind: Kind ensures Gain(Rate(l, kind), l.bucketIdleTime) >= Burst(l, kind) {
      match kind
      case Installation =>
      case ClientReads =>
      case ClientMutations =>
      case SiteMutations =>
      case GeneratedDocuments =>
    }
  }

  lemma {:induction false} RefillLevel(l: Limits, key: Key, b: Bucket, now: int, t: int)
    requires GoodBucket(l, key, b, now) && now <= t
    ensures var b' := Refill(l, key, b, now);
            && GoodBucket(l, key, b', now)
            && b'.updated == now && b'.used == b.used && b'.tokens == BucketLevel(l, key, b, now)
            && BucketLevel(l, key, b', t) == BucketLevel(l, key, b, t)
  {
    var rate := Rate(l, key.kind);
    Positive(l, key.kind);
    GainZero(rate);
    GainMono(rate, 0, now - b.updated);
    GainMono(rate, 0, t - now);
    GainAdd(rate, now - b.updated, t - now);
    GainAdd(rate, b.updated - b.used, now - b.updated);
  }

  /** An idle bucket at the prune deadline is full, when the limits cover it. */
  lemma {:induction false} IdleIsFull(l: Limits, key: Key, b: Bucket, now: int, t: int)
    requires GoodBucket(l, key, b, now) && now <= t
    requires now - b.used >= l.bucketIdleTime && Gain(Rate(l, key.kind), l.bucketIdleTime) >= Burst(l, key.kind)
    ensures BucketLevel(l, key, b, t) == Burst(l, key.kind)
  {
    var rate := Rate(l, key.kind);
    Positive(l, key.kind);
    GainMono(rate, 0, t - b.updated);
    GainZero(rate);
    GainAdd(rate, b.updated - b.used, t - b.updated);
    GainMono(rate, l.bucketIdleTime, t - b.used);
  }

  /** Pruning at idle time never changes what any good bucket is worth, if and only if the idle time
      refills a whole burst. */
  lemma {:induction false} PruneHarmlessIff(l: Limits, key: Key, now: int)
    ensures (forall b :: GoodBucket(l, key, b, now) && now - b.used >= l.bucketIdleTime ==>
                          BucketLevel(l, key, b, now) == Level(l, map[], key, now))
       <==> Gain(Rate(l, key.kind), l.bucketIdleTime) >= Burst(l, key.kind)
  {
    if Gain(Rate(l, key.kind), l.bucketIdleTime) >= Burst(l, key.kind) {
      forall b | GoodBucket(l, key, b, now) && now - b.used >= l.bucketIdleTime
        ensures BucketLevel(l, key, b, now) == Burst(l, key.kind)
      {
        IdleIsFull(l, key, b, now, now);
      }
    } else {
      var b := Bucket(0.0, now - l.bucketIdleTime, now - l.bucketIdleTime);
      Positive(l, key.kind);
      GainZero(Rate(l, key.kind));
      assert GoodBucket(l, key, b, now);
      assert BucketLevel(l, key, b, now) == Gain(Rate(l, key.kind), l.bucketIdleTime);
    }
  }

  // ---- One decision, seen through the levels ----

  /** The longest wait, read off the levels alone. */
  function LevelWait(l: Limits, buckets: map<Key, Bucket>, needs: seq<Key>, now: int): int
  {
    if needs == [] then 0
    else
      var rest, k := LevelWait(l, buckets, needs[..|needs| - 1], now), needs[|needs| - 1];
      var mine := WaitFor(l, k, Level(l, buckets, k, now));
      if mine > rest then mine else rest
  }

  lemma {:induction false} WaitIsLevelWait(l: Limits, buckets: map<Key, Bucket>, needs: seq<Key>, now: int)
    requires GoodBuckets(l, buckets, now)
    ensures Wait(l, buckets, needs, now) == LevelWait(l, buckets, needs, now) >= 0
  {
    if needs != [] {
      WaitIsLevelWait(l, buckets, needs[..|needs| - 1], now);
      var k := needs[|needs| - 1];
      Positive(l, k.kind);
      if k in buckets {
        RefillLevel(l, k, buckets[k], now, now);
      }
    }
  }

  /** One bucket's wait is the least whole time after which its level has reached one token. */
  lemma {:induction false} WaitIsLeast(l: Limits, key: Key, level: real, d: int)
    requires d >= 0
    ensures WaitFor(l, key, level) <= d <==> RealMin(Burst(l, key.kind), level + Gain(Rate(l, key.kind), d)) >= 1.0
  {
    var rate := Rate(l, key.kind);
    Positive(l, key.kind);
    if level < 1.0 {
      CeilGain(rate, 1.0 - level, d);
    } else {
      GainZero(rate);
      GainMono(rate, 0, d);
    }
  }

  lemma {:induction false} CeilGain(rate: real, lack: real, d: int)
    requires rate > 0.0
    ensures Ceil(lack / rate * 1_000_000_000.0) <= d <==> Gain(rate, d) >= lack
  {
    var y := lack / rate;
    assert y * rate == lack;
    CeilIsLeast(y * 1_000_000_000.0, d);
    assert y * 1_000_000_000.0 <= d as real <==> y <= Seconds(d);
    if y <= Seconds(d) {
      Scale(rate, y, Seconds(d));
    } else {
      ScaleStrict(rate, Seconds(d), y);
    }
  }

  lemma {:induction false} ScaleStrict(rate: real, a: real, b: real)
    requires rate > 0.0 && a < b
    ensures a * rate < b * rate
  {
  }

  /** The wait found at `now` is the least time after which every needed level has reached one token. */
  lemma {:induction false} LongestWaitIsLeast(l: Limits, buckets: map<Key, Bucket>, needs: seq<Key>, now: int, d: int)
    requires GoodBuckets(l, buckets, now) && d >= 0
    ensures LevelWait(l, buckets, needs, now) <= d <==> AllReady(l, buckets, needs, now + d)
  {
    if needs != [] {
      var init, k := needs[..|needs| - 1], needs[|needs| - 1];
      LongestWaitIsLeast(l, buckets, init, now, d);
      LevelLater(l, buckets, k, now, now + d);
      WaitIsLeast(l, k, Level(l, buckets, k, now), d);
      ReadySnoc(l, buckets, needs, now + d);
    }
  }

  predicate Ready(l: Limits, buckets: map<Key, Bucket>, key: Key, t: int) {
    Level(l, buckets, key, t) >= 1.0
  }

  predicate AllReady(l: Limits, buckets: map<Key, Bucket>, needs: seq<Key>, t: int) {
    forall k :: k in needs ==> Ready(l, buckets, k, t)
  }

  lemma {:induction false} ReadySnoc(l: Limits, buckets: map<Key, Bucket>, needs: seq<Key>, t: int)
    requires needs != []
    ensures AllReady(l, buckets, needs, t) <==>
              AllReady(l, buckets, needs[..|needs| - 1], t) && Ready(l, buckets, needs[|needs| - 1], t)
  {
    assert needs == needs[..|needs| - 1] + [needs[|needs| - 1]];
  }

  lemma {:induction false} LevelLater(l: Limits, buckets: map<Key, Bucket>, key: Key, now: int, t: int)
    requires GoodBuckets(l, buckets, now) && now <= t
    ensures Level(l, buckets, key, t)
         == RealMin(Burst(l, key.kind), Level(l, buckets, key, now) + Gain(Rate(l, key.kind), t - now))
    ensures 0.0 <= Level(l, buckets, key, now) <= Burst(l, key.kind)
  {
    var rate := Rate(l, key.kind);
    Positive(l, key.kind);
    GainZero(rate);
    GainMono(rate, 0, t - now);
    if key in buckets {
      var b := buckets[key];
      GainMono(rate, 0, now - b.updated);
      GainAdd(rate, now - b.updated, t - now);
    }
  }

  ghost predicate SameLevels(l: Limits, a: map<Key, Bucket>, b: map<Key, Bucket>, now: int) {
    forall k, t :: now <= t ==> Level(l, a, k, t) == Level(l, b, k, t)
  }

  /** Refilling changes no level. */
  lemma {:induction false} RefillSame(l: Limits, buckets: map<Key, Bucket>, needs: seq<Key>, now: int)
    requires GoodBuckets(l, buckets, now)
    ensures GoodBuckets(l, RefillNeeded(l, buckets, needs, now), now)
    ensures SameLevels(l, RefillNeeded(l, buckets, needs, now), buckets, now)
  {
    var after := RefillNeeded(l, buckets, needs, now);
    forall k | k in after ensures GoodBucket(l, k, after[k], now) {
      RefillLevel(l, k, buckets[k], now, now);
    }
    forall k, t | now <= t ensures Level(l, after, k, t) == Level(l, buckets, k, t) {
      if k in buckets {
        RefillLevel(l, k, buckets[k], now, t);
      }
    }
  }

  function LevelAfterSpend(l: Limits, key: Key, level: real, needed: bool, d: int): real {
    if needed then RealMin(Burst(l, key.kind), level - 1.0 + Gain(Rate(l, key.kind), d))
    else RealMin(Burst(l, key.kind), level + Gain(Rate(l, key.kind), d))
  }

  ghost predicate SpentLevels(l: Limits, before: map<Key, Bucket>, after: map<Key, Bucket>, needs: seq<Key>, now: int) {
    forall k, t :: now <= t ==>
      Level(l, after, k, t) == LevelAfterSpend(l, k, Level(l, before, k, now), k in needs, t - now)
  }

  /** Spending takes exactly one token from every needed level and leaves the others. */
  lemma {:induction false} SpendLevels(l: Limits, buckets: map<Key, Bucket>, needs: seq<Key>, now: int)
    requires GoodBuckets(l, buckets, now)
    ensures SpentLevels(l, buckets, Spend(l, buckets, needs, now), needs, now)
  {
    var after := Spend(l, buckets, needs, now);
    forall k, t | now <= t
      ensures Level(l, after, k, t) == LevelAfterSpend(l, k, Level(l, buckets, k, now), k in needs, t - now)
    {
      LevelLater(l, buckets, k, now, t);
      if k in needs && k in buckets {
        RefillLevel(l, k, buckets[k], now, now);
      }
    }
  }

  lemma {:induction false} SpendGood(l: Limits, buckets: map<Key, Bucket>, needs: seq<Key>, now: int)
    requires GoodBuckets(l, buckets, now)
    requires AllReady(l, buckets, needs, now)
    ensures GoodBuckets(l, Spend(l, buckets, needs, now), now)
  {
    var after := Spend(l, buckets, needs, now);
    forall k | k in after ensures GoodBucket(l, k, after[k], now) {
      GainZero(Rate(l, k.kind));
      if k in needs {
        assert Ready(l, buckets, k, now);
        LevelLater(l, buckets, k, now, now);
        if k in buckets {
          RefillLevel(l, k, buckets[k], now, now);
        }
      }
    }
  }

  lemma {:induction false} PruneSame(l: Limits, s: Limiter, now: int)
    requires Covered(l) && GoodBuckets(l, s.buckets, now)
    ensures GoodBuckets(l, Prune(l, s, now).buckets, now)
    ensures SameLevels(l, Prune(l, s, now).buckets, s.buckets, now)
    ensures Prune(l, s, now).buckets.Keys <= s.buckets.Keys
  {
    var after := Prune(l, s, now).buckets;
    forall k, t | now <= t ensures Level(l, after, k, t) == Level(l, s.buckets, k, t) {
      if k in s.buckets && k !in after {
        IdleIsFull(l, k, s.buckets[k], now, t);
      }
    }
  }

  lemma {:induction false} SameWait(l: Limits, a: map<Key, Bucket>, b: map<Key, Bucket>, needs: seq<Key>, now: int)
    requires SameLevels(l, a, b, now)
    ensures LevelWait(l, a, needs, now) == LevelWait(l, b, needs, now)
  {
    if needs != [] {
      SameWait(l, a, b, needs[..|needs| - 1], now);
    }
  }

  ghost predicate Good(l: Limits, s: Limiter, now: int) {
    GoodBuckets(l, s.buckets, now) && |s.buckets| <= l.maxBuckets
  }

  lemma {:induction false} Later(l: Limits, buckets: map<Key, Bucket>, now: int, t: int)
    requires GoodBuckets(l, buckets, now) && now <= t
    ensures GoodBuckets(l, buckets, t)
  {
    forall k | k in buckets ensures GoodBucket(l, k, buckets[k], t) {
      assert GoodBucket(l, k, buckets[k], now);
    }
  }

  /** Everything one decision does to the levels. */
  ghost predicate Effect(l: Limits, s: Limiter, needs: seq<Key>, now: int, s': Limiter, decision: Decision)
  {
    && Good(l, s', now)
    && (match decision
        case Admitted =>
          AllReady(l, s.buckets, needs, now) && SpentLevels(l, s.buckets, s'.buckets, needs, now)
        case TokensLacking(wait) =>
          wait == LevelWait(l, s.buckets, needs, now) > 0 && SameLevels(l, s'.buckets, s.buckets, now)
        case BucketsFull => SameLevels(l, s'.buckets, s.buckets, now))
  }

  lemma {:induction false} DecideEffect(l: Limits, s: Limiter, needs: seq<Key>, now: int)
    requires Covered(l) && Good(l, s, now)
    ensures Effect(l, s, needs, now, Decide(l, s, needs, now).0, Decide(l, s, needs, now).1)
  {
    var p := Prune(l, s, now);
    PruneSame(l, s, now);
    Subset(p.buckets, s.buckets);
    WaitIsLevelWait(l, p.buckets, needs, now);
    SameWait(l, p.buckets, s.buckets, needs, now);
    if |p.buckets.Keys + KeySet(needs)| <= l.maxBuckets {
      if Wait(l, p.buckets, needs, now) > 0 {
        RefillSame(l, p.buckets, needs, now);
        Subset(RefillNeeded(l, p.buckets, needs, now), p.buckets);
        SameTransitive(l, RefillNeeded(l, p.buckets, needs, now), p.buckets, s.buckets, now);
      } else {
        AdmitEffect(l, s.buckets, p.buckets, needs, now);
        assert Spend(l, p.buckets, needs, now).Keys == p.buckets.Keys + KeySet(needs);
      }
    }
  }

  lemma {:induction false} AdmitEffect(
    l: Limits, before: map<Key, Bucket>, pruned: map<Key, Bucket>, needs: seq<Key>, now: int)
    requires GoodBuckets(l, pruned, now) && SameLevels(l, pruned, before, now)
    requires LevelWait(l, pruned, needs, now) <= 0
    ensures GoodBuckets(l, Spend(l, pruned, needs, now), now)
    ensures AllReady(l, before, needs, now) && SpentLevels(l, before, Spend(l, pruned, needs, now), needs, now)
  {
    LongestWaitIsLeast(l, pruned, needs, now, 0);
    SpendGood(l, pruned, needs, now);
    SpendLevels(l, pruned, needs, now);
  }

  lemma {:induction false} SameTransitive(
    l: Limits, a: map<Key, Bucket>, b: map<Key, Bucket>, c: map<Key, Bucket>, now: int)
    requires SameLevels(l, a, b, now) && SameLevels(l, b, c, now)
    ensures SameLevels(l, a, c, now)
  {
    forall k, t | now <= t ensures Level(l, a, k, t) == Level(l, c, k, t) {
      assert Level(l, a, k, t) == Level(l, b, k, t);
    }
  }

  lemma {:induction false} Subset(a: map<Key, Bucket>, b: map<Key, Bucket>)
    requires a.Keys <= b.Keys
    ensures |a| <= |b|
  {
    assert |b.Keys| == |a.Keys| + |b.Keys - a.Keys|;
  }

  // ---- Whole runs ----

  /** A request by what it needs; the results hold for any choice of buckets, not only that of `Needs`. */
  datatype Call = Call(needs: seq<Key>, now: int)

  function Answer(l: Limits, s: Limiter, r: Call): (Limiter, Decision)
  {
    Decide(l, s, r.needs, r.now)
  }

  function After(l: Limits, s: Limiter, rs: seq<Call>): Limiter
  {
    if rs == [] then s else Answer(l, After(l, s, rs[..|rs| - 1]), rs[|rs| - 1]).0
  }

  /** How many of the requests were admitted that draw from this bucket. */
  function Admissions(l: Limits, s: Limiter, rs: seq<Call>, key: Key): nat
  {
    if rs == [] then 0
    else
      var init, r := rs[..|rs| - 1], rs[|rs| - 1];
      Admissions(l, s, init, key)
      + if key in r.needs && Answer(l, After(l, s, init), r).1.Admitted? then 1 else 0
  }

  /** Clock readings from t0 to t1 that do not run backwards. */
  predicate Steady(rs: seq<Call>, t0: int, t1: int) {
    if rs == [] then t0 <= t1 else Steady(rs[..|rs| - 1], t0, rs[|rs| - 1].now) && rs[|rs| - 1].now <= t1
  }

  lemma {:induction false} RunGood(l: Limits, s: Limiter, rs: seq<Call>, t0: int, t1: int)
    requires Covered(l) && Good(l, s, t0) && Steady(rs, t0, t1)
    ensures Good(l, After(l, s, rs), t1) && t0 <= t1
  {
    if rs == [] {
      Later(l, s.buckets, t0, t1);
    } else {
      var init, r := rs[..|rs| - 1], rs[|rs| - 1];
      RunGood(l, s, init, t0, r.now);
      DecideEffect(l, After(l, s, init), r.needs, r.now);
      Later(l, After(l, s, rs).buckets, r.now, t1);
    }
  }

  /** What has been admitted and what is left never exceed what there was plus what has been gained. */
  lemma {:induction false} LevelsPay(l: Limits, s: Limiter, rs: seq<Call>, key: Key, t0: int, t1: int)
    returns (end: Limiter, paid: nat)
    requires Covered(l) && Good(l, s, t0) && Steady(rs, t0, t1)
    ensures end == After(l, s, rs) && paid == Admissions(l, s, rs, key) && Good(l, end, t1) && t0 <= t1
    ensures Affords(l, key, s.buckets, t0, end.buckets, t1, paid)
  {
    if rs == [] {
      end, paid := s, 0;
      Later(l, s.buckets, t0, t1);
      LevelRises(l, s.buckets, key, t0, t1);
    } else {
      var r := rs[|rs| - 1];
      var s1, before := LevelsPay(l, s, rs[..|rs| - 1], key, t0, r.now);
      end, paid := PayStep(l, s.buckets, s1, r, key, t0, t1, before);
    }
  }

  /** Between two moments a bucket's level pays for what was admitted, with what it gained. */
  predicate Affords(
    l: Limits, key: Key, before: map<Key, Bucket>, t0: int, after: map<Key, Bucket>, t1: int, paid: nat)
  {
    paid as real + Level(l, after, key, t1) <= Level(l, before, key, t0) + Gain(Rate(l, key.kind), t1 - t0)
  }

  lemma {:induction false} PayStep(
    l: Limits, start: map<Key, Bucket>, s: Limiter, r: Call, key: Key, t0: int, t1: int, before: nat)
    returns (s': Limiter, paid: nat)
    requires Covered(l) && Good(l, s, r.now) && r.now <= t1
    requires Affords(l, key, start, t0, s.buckets, r.now, before)
    ensures s' == Answer(l, s, r).0 && Good(l, s', t1)
    ensures paid == before + if key in r.needs && Answer(l, s, r).1.Admitted? then 1 else 0
    ensures Affords(l, key, start, t0, s'.buckets, t1, paid)
  {
    var decision;
    s', decision := Answered(l, s, r);
    paid := before + if key in r.needs && decision.Admitted? then 1 else 0;
    PayNext(l, start, s, r, s', decision, key, t0, t1, before);
    Later(l, s'.buckets, r.now, t1);
  }

  lemma {:induction false} PayNext(
    l: Limits, start: map<Key, Bucket>, s: Limiter, r: Call, s': Limiter, decision: Decision, key: Key,
    t0: int, t1: int, before: nat)
    requires GoodBuckets(l, s.buckets, r.now) && Effect(l, s, r.needs, r.now, s', decision) && r.now <= t1
    requires Affords(l, key, start, t0, s.buckets, r.now, before)
    ensures Affords(l, key, start, t0, s'.buckets, t1,
                    before + if key in r.needs && decision.Admitted? then 1 else 0)
  {
    OnePays(l, s, r.needs, r.now, s', decision, key, t1);
    PayChain(l, start, s.buckets, s'.buckets, key, t0, r.now, t1, before,
             if key in r.needs && decision.Admitted? then 1 else 0);
  }

  lemma {:induction false} LevelRises(l: Limits, buckets: map<Key, Bucket>, key: Key, now: int, t: int)
    requires GoodBuckets(l, buckets, now) && now <= t
    ensures Affords(l, key, buckets, now, buckets, t, 0)
  {
    LevelLater(l, buckets, key, now, t);
  }

  lemma {:induction false} Answered(l: Limits, s: Limiter, r: Call) returns (s': Limiter, decision: Decision)
    requires Covered(l) && Good(l, s, r.now)
    ensures Answer(l, s, r) == (s', decision) && Effect(l, s, r.needs, r.now, s', decision)
  {
    DecideEffect(l, s, r.needs, r.now);
    s', decision := Answer(l, s, r).0, Answer(l, s, r).1;
  }

  lemma {:induction false} PayChain(
    l: Limits, a: map<Key, Bucket>, b: map<Key, Bucket>, c: map<Key, Bucket>, key: Key, t0: int, t: int, t1: int,
    paid: nat, fee: nat)
    requires Affords(l, key, a, t0, b, t, paid) && Affords(l, key, b, t, c, t1, fee)
    ensures Affords(l, key, a, t0, c, t1, paid + fee)
  {
    GainAdd(Rate(l, key.kind), t - t0, t1 - t);
    assert (t - t0) + (t1 - t) == t1 - t0;
  }

  lemma {:induction false} OnePays(
    l: Limits, s: Limiter, needs: seq<Key>, now: int, s': Limiter, decision: Decision, key: Key, t: int)
    requires GoodBuckets(l, s.buckets, now) && now <= t
    requires Effect(l, s, needs, now, s', decision)
    ensures Affords(l, key, s.buckets, now, s'.buckets, t, if key in needs && decision.Admitted? then 1 else 0)
  {
    LevelLater(l, s.buckets, key, now, t);
    if decision.Admitted? {
      assert Level(l, s'.buckets, key, t)
          == LevelAfterSpend(l, key, Level(l, s.buckets, key, now), key in needs, t - now);
    } else {
      assert Level(l, s'.buckets, key, t) == Level(l, s.buckets, key, t);
    }
  }

  const FRESH := Limiter(map[], None)

  /** The admission bound: after any run, in any stretch of time, a bucket admits at most its burst plus
      its rate times the length of the stretch, although idle buckets are dropped and re-created full.
      The number of buckets never exceeds its cap. */
  lemma {:induction false} AdmissionBound(
    l: Limits, before: seq<Call>, window: seq<Call>, key: Key, start: int, t0: int, t1: int)
    requires Covered(l) && Steady(before, start, t0) && Steady(window, t0, t1)
    ensures var s := After(l, FRESH, before);
            && Admissions(l, s, window, key) as real <= Burst(l, key.kind) + Gain(Rate(l, key.kind), t1 - t0)
            && |s.buckets| <= l.maxBuckets
  {
    RunGood(l, FRESH, before, start, t0);
    var s := After(l, FRESH, before);
    LevelLater(l, s.buckets, key, t0, t0);
    var end, paid := LevelsPay(l, s, window, key, t0, t1);
    LevelLater(l, end.buckets, key, t1, t1);
  }

  // ---- The same limiter without pruning and without a cap ----

  function Patient(l: Limits, buckets: map<Key, Bucket>, r: Call): (map<Key, Bucket>, Decision)
  {
    var wait := Wait(l, buckets, r.needs, r.now);
    if wait > 0 then (RefillNeeded(l, buckets, r.needs, r.now), TokensLacking(wait))
    else (Spend(l, buckets, r.needs, r.now), Admitted)
  }

  function PatientAfter(l: Limits, rs: seq<Call>): map<Key, Bucket>
  {
    if rs == [] then map[] else Patient(l, PatientAfter(l, rs[..|rs| - 1]), rs[|rs| - 1]).0
  }

  /** While the cap has not turned a request away. */
  predicate NeverFull(l: Limits, rs: seq<Call>)
  {
    rs == [] ||
    (NeverFull(l, rs[..|rs| - 1]) && !Answer(l, After(l, FRESH, rs[..|rs| - 1]), rs[|rs| - 1]).1.BucketsFull?)
  }

  lemma {:induction false} PatientStep(l: Limits, s: Limiter, buckets: map<Key, Bucket>, r: Call)
    requires Covered(l) && Good(l, s, r.now) && GoodBuckets(l, buckets, r.now)
    requires SameLevels(l, s.buckets, buckets, r.now)
    ensures var (s', decision) := Answer(l, s, r);
            var (buckets', decision') := Patient(l, buckets, r);
            && GoodBuckets(l, buckets', r.now)
            && (!decision.BucketsFull? ==> decision == decision' && SameLevels(l, s'.buckets, buckets', r.now))
  {
    var needs, now := r.needs, r.now;
    var (s', decision) := Answer(l, s, r);
    var (buckets', decision') := Patient(l, buckets, r);
    DecideEffect(l, s, needs, now);
    WaitIsLevelWait(l, buckets, needs, now);
    SameWait(l, s.buckets, buckets, needs, now);
    if decision'.Admitted? {
      LongestWaitIsLeast(l, buckets, needs, now, 0);
      SpendGood(l, buckets, needs, now);
      if decision.Admitted? {
        SpendLevels(l, buckets, needs, now);
      } else if decision.TokensLacking? {
        assert false;
      }
    } else {
      RefillSame(l, buckets, needs, now);
      if decision.TokensLacking? {
        SameTransitive(l, s'.buckets, s.buckets, buckets, now);
        SameReverse(l, buckets', buckets, now);
        SameTransitive(l, s'.buckets, buckets, buckets', now);
      } else if decision.Admitted? {
        LongestWaitIsLeast(l, s.buckets, needs, now, 0);
        assert false;
      }
    }
  }

  lemma {:induction false} SameReverse(l: Limits, a: map<Key, Bucket>, b: map<Key, Bucket>, now: int)
    requires SameLevels(l, a, b, now)
    ensures SameLevels(l, b, a, now)
  {
  }

  /** Pruning refines not pruning: as long as the cap is not reached, every decision, and every wait,
      is the one a limiter would take that never forgets a bucket. */
  lemma {:induction false} PruningIsInvisible(l: Limits, rs: seq<Call>, r: Call, start: int)
    requires Covered(l) && Steady(rs + [r], start, r.now) && NeverFull(l, rs + [r])
    ensures Answer(l, After(l, FRESH, rs), r).1 == Patient(l, PatientAfter(l, rs), r).1
  {
    assert (rs + [r])[..|rs + [r]| - 1] == rs;
    PatientRun(l, rs, start, r.now);
    RunGood(l, FRESH, rs, start, r.now);
    PatientStep(l, After(l, FRESH, rs), PatientAfter(l, rs), r);
  }

  lemma {:induction false} PatientRun(l: Limits, rs: seq<Call>, start: int, t: int)
    requires Covered(l) && Steady(rs, start, t) && NeverFull(l, rs)
    ensures GoodBuckets(l, PatientAfter(l, rs), t)
    ensures SameLevels(l, After(l, FRESH, rs).buckets, PatientAfter(l, rs), t)
  {
    if rs != [] {
      var init, r := rs[..|rs| - 1], rs[|rs| - 1];
      PatientRun(l, init, start, r.now);
      RunGood(l, FRESH, init, start, r.now);
      PatientStep(l, After(l, FRESH, init), PatientAfter(l, init), r);
      Later(l, PatientAfter(l, rs), r.now, t);
    }
  }

  // ---- Retry-After ----

  /** A request turned away for want of tokens has cost nothing in any bucket; with no other request in
      between it is admitted after exactly the wait it was told, and at no whole nanosecond before. */
  lemma {:induction false} RetryAfterIsExact(l: Limits, s: Limiter, r: Call, wait: int, d: int)
    requires Covered(l) && Good(l, s, r.now)
    requires Answer(l, s, r).1 == TokensLacking(wait) && d >= 0
    ensures wait > 0 && SameLevels(l, Answer(l, s, r).0.buckets, s.buckets, r.now)
    ensures Answer(l, Answer(l, s, r).0, r.(now := r.now + d)).1.Admitted? <==> d >= wait
  {
    var s', needs := Answer(l, s, r).0, r.needs;
    DecideEffect(l, s, needs, r.now);
    Later(l, s'.buckets, r.now, r.now + d);
    DenialKeepsRoom(l, s, needs, r.now);
    AdmittedIffReady(l, s', needs, r.now + d);
    ReadyAfterWait(l, s.buckets, s'.buckets, needs, r.now, d);
  }

  lemma {:induction false} DenialKeepsRoom(l: Limits, s: Limiter, needs: seq<Key>, now: int)
    requires Decide(l, s, needs, now).1.TokensLacking?
    ensures |Decide(l, s, needs, now).0.buckets.Keys + KeySet(needs)| <= l.maxBuckets
  {
    assert Decide(l, s, needs, now).0.buckets.Keys == Prune(l, s, now).buckets.Keys;
  }

  lemma {:induction false} ReadyAfterWait(
    l: Limits, before: map<Key, Bucket>, after: map<Key, Bucket>, needs: seq<Key>, now: int, d: int)
    requires GoodBuckets(l, after, now) && SameLevels(l, after, before, now) && d >= 0
    ensures AllReady(l, after, needs, now + d) <==> d >= LevelWait(l, before, needs, now)
  {
    LongestWaitIsLeast(l, after, needs, now, d);
    SameWait(l, after, before, needs, now);
  }

  /** With room for the buckets it needs, a request is admitted exactly when each holds a token. */
  lemma {:induction false} AdmittedIffReady(l: Limits, s: Limiter, needs: seq<Key>, now: int)
    requires Covered(l) && Good(l, s, now) && |s.buckets.Keys + KeySet(needs)| <= l.maxBuckets
    ensures Decide(l, s, needs, now).1.Admitted? <==> AllReady(l, s.buckets, needs, now)
  {
    DecideEffect(l, s, needs, now);
    PruneSame(l, s, now);
    var p := Prune(l, s, now);
    assert p.buckets.Keys + KeySet(needs) <= s.buckets.Keys + KeySet(needs);
    SubsetSets(p.buckets.Keys + KeySet(needs), s.buckets.Keys + KeySet(needs));
    LongestWaitIsLeast(l, s.buckets, needs, now, 0);
  }

  lemma {:induction false} SubsetSets(a: set<Key>, b: set<Key>)
    requires a <= b
    ensures |a| <= |b|
  {
    assert |b| == |a| + |b - a|;
  }

  // ---- Open streams ----

  datatype Slot = Slot(store: string, client: string)

  /** How many of the open streams belong to a site, and to one of its clients. */
  function OnSite(open: seq<Slot>, store: string): nat {
    if open == [] then 0 else OnSite(open[..|open| - 1], store) + if open[|open| - 1].store == store then 1 else 0
  }

  function OfClient(open: seq<Slot>, slot: Slot): nat {
    if open == [] then 0 else OfClient(open[..|open| - 1], slot) + if open[|open| - 1] == slot then 1 else 0
  }

  lemma {:induction false} WithoutOne(open: seq<Slot>, i: nat, store: string, slot: Slot)
    requires i < |open|
    ensures OnSite(open[..i] + open[i + 1..], store) == OnSite(open, store) - if open[i].store == store then 1 else 0
    ensures OfClient(open[..i] + open[i + 1..], slot) == OfClient(open, slot) - if open[i] == slot then 1 else 0
  {
    var rest := open[..i] + open[i + 1..];
    if i == |open| - 1 {
      assert rest == open[..i];
    } else {
      var init, last := open[..|open| - 1], open[|open| - 1];
      WithoutOne(init, i, store, slot);
      assert open[i + 1..] == init[i + 1..] + [last] && init[..i] == open[..i];
      var others := init[..i] + init[i + 1..];
      assert rest == others + [last] && rest[..|rest| - 1] == others;
    }
  }

  lemma {:induction false} WithoutEach(open: seq<Slot>, i: nat)
    requires i < |open|
    ensures var rest, slot := open[..i] + open[i + 1..], open[i];
            && OnSite(open, slot.store) > 0 && OfClient(open, slot) > 0
            && (forall store :: OnSite(rest, store) == OnSite(open, store) - if slot.store == store then 1 else 0)
            && (forall other :: OfClient(rest, other) == OfClient(open, other) - if slot == other then 1 else 0)
  {
    WithoutOne(open, i, open[i].store, open[i]);
    forall store, other
      ensures OnSite(open[..i] + open[i + 1..], store) == OnSite(open, store) - if open[i].store == store then 1 else 0
      ensures OfClient(open[..i] + open[i + 1..], other) == OfClient(open, other) - if open[i] == other then 1 else 0
    {
      WithoutOne(open, i, store, other);
    }
  }

  /** The counters hold exactly the non-zero counts, and no count is over its limit. */
  ghost predicate SitesGood(sites: map<string, nat>, open: seq<Slot>, bound: int) {
    forall store :: if OnSite(open, store) > 0 then store in sites && sites[store] == OnSite(open, store) <= bound
                    else store !in sites
  }

  ghost predicate ClientsGood(clients: map<Slot, nat>, open: seq<Slot>, bound: int) {
    forall slot :: if OfClient(open, slot) > 0 then slot in clients && clients[slot] == OfClient(open, slot) <= bound
                   else slot !in clients
  }

  /** The stream half of the limiter. `open` are the slots whose release function has not run yet. */
  class StreamSlots {
    const limits: Limits
    var siteStreams: map<string, nat>
    var clientStreams: map<Slot, nat>
    ghost var open: seq<Slot>

    ghost predicate Valid()
      reads this
    {
      SitesGood(siteStreams, open, limits.ssePerSite) && ClientsGood(clientStreams, open, limits.ssePerClientSite)
    }

    constructor (limits: Limits)
      ensures Valid() && open == [] && this.limits == limits
    {
      this.limits := limits;
      siteStreams, clientStreams, open := map[], map[], [];
    }

    method Acquire(slot: Slot) returns (ok: bool)
      requires Valid()
      modifies this
      ensures Valid()
      ensures ok == (OnSite(old(open), slot.store) < limits.ssePerSite
                     && OfClient(old(open), slot) < limits.ssePerClientSite)
      ensures open == if ok then old(open) + [slot] else old(open)
    {
      var site := if slot.store in siteStreams then siteStreams[slot.store] else 0;
      var mine := if slot in clientStreams then clientStreams[slot] else 0;
      if site >= limits.ssePerSite || mine >= limits.ssePerClientSite {
        return false;
      }
      siteStreams := siteStreams[slot.store := site + 1];
      clientStreams := clientStreams[slot := mine + 1];
      assert (open + [slot])[..|open|] == open;
      open := open + [slot];
      ok := true;
    }

    /** The release function of the i-th open stream, which runs once. */
    method Release(ghost i: nat, slot: Slot)
      requires Valid() && i < |open| && open[i] == slot
      modifies this
      ensures Valid() && open == old(open)[..i] + old(open)[i + 1..]
    {
      WithoutEach(open, i);
      DropSite(slot.store);
      DropClient(slot);
      open := open[..i] + open[i + 1..];
    }

    method DropSite(store: string)
      requires store in siteStreams && siteStreams[store] > 0
      modifies this`siteStreams
      ensures siteStreams == if old(siteStreams)[store] == 1 then old(siteStreams) - {store}
                             else old(siteStreams)[store := old(siteStreams)[store] - 1]
    {
      siteStreams := siteStreams[store := siteStreams[store] - 1];
      if siteStreams[store] == 0 {
        siteStreams := siteStreams - {store};
      }
    }

    method DropClient(slot: Slot)
      requires slot in clientStreams && clientStreams[slot] > 0
      modifies this`clientStreams
      ensures clientStreams == if old(clientStreams)[slot] == 1 then old(clientStreams) - {slot}
                               else old(clientStreams)[slot := old(clientStreams)[slot] - 1]
    {
      clientStreams := clientStreams[slot := clientStreams[slot] - 1];
      if clientStreams[slot] == 0 {
        clientStreams := clientStreams - {slot};
      }
    }
  }
}
