/** The request limiter as its clients meet it: which requests count against which limit, and what that
    limit promises, in terms of the configured numbers. */
module RequestBounds {
  import opened RequestLimiter

  /** What a limit is about. */
  datatype Scope =
    | AllRequests
    | ReadsOf(store: string, client: string)
    | MutationsOf(store: string, client: string)
    | MutationsOn(store: string)
    | GeneratedOn(store: string)

  predicate Covers(c: Scope, r: Request) {
    match c
    case AllRequests => true
    case ReadsOf(store, client) => !r.mutation && r.store == store && r.client == client
    case MutationsOf(store, client) => r.mutation && r.store == store && r.client == client
    case MutationsOn(store) => r.mutation && r.store == store
    case GeneratedOn(store) => r.generated && r.store == store
  }

  /** At most this many at once ... */
  function AtOnce(l: Limits, c: Scope): int {
    match c
    case AllRequests => l.installationBurst
    case ReadsOf(_, _) => l.readBurst
    case MutationsOf(_, _) => l.mutationBurst
    case MutationsOn(_) => l.siteMutationBurst
    case GeneratedOn(_) => l.generatedBurst
  }

  /** ... and this many more a second. */
  function PerSecond(l: Limits, c: Scope): real {
    match c
    case AllRequests => l.installationPerMinute as real / 60.0
    case ReadsOf(_, _) => l.readsPerMinute as real / 60.0
    case MutationsOf(_, _) => l.mutationsPerMinute as real / 60.0
    case MutationsOn(_) => l.siteMutationsPerMinute as real / 60.0
    case GeneratedOn(_) => l.generatedPerDay as real / 86400.0
  }

  function Over(l: Limits, c: Scope, dt: int): real {
    Gain(PerSecond(l, c), dt)
  }

  /** Gains add up over time, and a second brings what its name says. */
  lemma {:induction false} GainIsPerSecond(rate: real, seconds: nat)
    ensures Gain(rate, seconds * SECOND) == seconds as real * rate
  {
    assert Seconds(seconds * SECOND) == seconds as real;
  }

  // ---- Runs of requests ----

  function AllowAll(l: Limits, s: Limiter, rs: seq<Request>): Limiter {
    if rs == [] then s else Allow(l, AllowAll(l, s, rs[..|rs| - 1]), rs[|rs| - 1]).0
  }

  /** How many of the requests a limit is about were admitted. */
  function AdmittedOf(l: Limits, s: Limiter, rs: seq<Request>, c: Scope): nat {
    if rs == [] then 0
    else
      var init, r := rs[..|rs| - 1], rs[|rs| - 1];
      AdmittedOf(l, s, init, c) + if Covers(c, r) && Allow(l, AllowAll(l, s, init), r).1.Admitted? then 1 else 0
  }

  predicate SteadyRequests(rs: seq<Request>, t0: int, t1: int) {
    if rs == [] then t0 <= t1 else SteadyRequests(rs[..|rs| - 1], t0, rs[|rs| - 1].now) && rs[|rs| - 1].now <= t1
  }

  // ---- The bucket behind each limit ----

  function KeyOf(c: Scope): Key {
    match c
    case AllRequests => Key(Installation, "", "")
    case ReadsOf(store, client) => Key(ClientReads, store, client)
    case MutationsOf(store, client) => Key(ClientMutations, store, client)
    case MutationsOn(store) => Key(SiteMutations, store, "")
    case GeneratedOn(store) => Key(GeneratedDocuments, store, "")
  }

  /** A request draws from the bucket of a limit if and only if the limit is about it; it draws from no other. */
  lemma {:induction false} DrawsIff(r: Request, c: Scope)
    ensures KeyOf(c) in Needs(r) <==> Covers(c, r)
    ensures forall k :: k in Needs(r) ==> exists d :: KeyOf(d) == k && Covers(d, r)
  {
    forall k | k in Needs(r) ensures exists d :: KeyOf(d) == k && Covers(d, r) {
      var d := ScopeOf(k);
      assert KeyOf(d) == k && Covers(d, r);
    }
  }

  function ScopeOf(k: Key): Scope {
    match k.kind
    case Installation => AllRequests
    case ClientReads => ReadsOf(k.store, k.client)
    case ClientMutations => MutationsOf(k.store, k.client)
    case SiteMutations => MutationsOn(k.store)
    case GeneratedDocuments => GeneratedOn(k.store)
  }

  lemma {:induction false} Configured(l: Limits, c: Scope, dt: int)
    ensures Burst(l, KeyOf(c).kind) == AtOnce(l, c) as real && Gain(Rate(l, KeyOf(c).kind), dt) == Over(l, c, dt)
  {
  }

  function CallOf(r: Request): Call {
    Call(Needs(r), r.now)
  }

  function Calls(rs: seq<Request>): seq<Call> {
    if rs == [] then [] else Calls(rs[..|rs| - 1]) + [CallOf(rs[|rs| - 1])]
  }

  lemma {:induction false} CallsSame(l: Limits, s: Limiter, rs: seq<Request>, c: Scope, t0: int, t1: int)
    ensures After(l, s, Calls(rs)) == AllowAll(l, s, rs)
    ensures Admissions(l, s, Calls(rs), KeyOf(c)) == AdmittedOf(l, s, rs, c)
    ensures Steady(Calls(rs), t0, t1) <==> SteadyRequests(rs, t0, t1)
  {
    if rs != [] {
      var init, r := rs[..|rs| - 1], rs[|rs| - 1];
      CallsSame(l, s, init, c, t0, r.now);
      DrawsIff(r, c);
      assert Calls(rs)[..|Calls(rs)| - 1] == Calls(init);
    }
  }

  predicate AtMost(n: nat, atOnce: real, over: real) {
    n as real <= atOnce + over
  }

  /** Every limit holds over every run of requests: in any stretch of time no more of the requests it is about are
      admitted than its burst and its rate allow. */
  lemma {:induction false} RequestsBounded(
    l: Limits, before: seq<Request>, window: seq<Request>, c: Scope, start: int, t0: int, t1: int)
    returns (n: nat, atOnce: real, perSecond: real)
    requires Covered(l) && SteadyRequests(before, start, t0) && SteadyRequests(window, t0, t1)
    ensures n == AdmittedOf(l, AllowAll(l, FRESH, before), window, c)
    ensures atOnce == AtOnce(l, c) as real && perSecond == PerSecond(l, c)
    ensures AtMost(n, atOnce, Gain(perSecond, t1 - t0))
  {
    atOnce, perSecond := ConfiguredAs(l, c);
    n := CallsBounded(l, before, window, c, start, t0, t1, atOnce, perSecond);
  }

  lemma {:induction false} ConfiguredAs(l: Limits, c: Scope) returns (burst: real, rate: real)
    ensures burst == AtOnce(l, c) as real == Burst(l, KeyOf(c).kind)
    ensures rate == PerSecond(l, c) == Rate(l, KeyOf(c).kind)
  {
    burst, rate := AtOnce(l, c) as real, PerSecond(l, c);
  }

  lemma {:induction false} CallsBounded(
    l: Limits, before: seq<Request>, window: seq<Request>, c: Scope, start: int, t0: int, t1: int,
    burst: real, rate: real) returns (n: nat)
    requires Covered(l) && SteadyRequests(before, start, t0) && SteadyRequests(window, t0, t1)
    requires burst == Burst(l, KeyOf(c).kind) && rate == Rate(l, KeyOf(c).kind)
    ensures n == AdmittedOf(l, AllowAll(l, FRESH, before), window, c) && AtMost(n, burst, Gain(rate, t1 - t0))
  {
    CallsSame(l, FRESH, before, c, start, t0);
    CallsSame(l, AllowAll(l, FRESH, before), window, c, t0, t1);
    AdmissionBound(l, Calls(before), Calls(window), KeyOf(c), start, t0, t1);
    n := AdmittedOf(l, AllowAll(l, FRESH, before), window, c);
  }

  // ---- What a request does to each limit ----

  /** The tokens a limit has left. */
  function Left(l: Limits, s: Limiter, c: Scope, t: int): real {
    Level(l, s.buckets, KeyOf(c), t)
  }

  /** What is left of a limit dt nanoseconds after one token was taken from it. */
  function Spent(l: Limits, c: Scope, level: real, dt: int): real {
    RealMin(AtOnce(l, c) as real, level - 1.0 + Over(l, c, dt))
  }

  /** A request takes one token from each limit that is about it, if it is admitted, and none from any other limit. */
  lemma {:induction false} RequestTakes(l: Limits, s: Limiter, r: Request, c: Scope, t: int)
    returns (s': Limiter, decision: Decision)
    requires Covered(l) && Good(l, s, r.now) && r.now <= t
    ensures (s', decision) == Allow(l, s, r) && Good(l, s', r.now)
    ensures Left(l, s', c, t) ==
              if decision.Admitted? && Covers(c, r) then Spent(l, c, Left(l, s, c, r.now), t - r.now) else Left(l, s, c, t)
  {
    s', decision := Decided(l, s, r);
    DrawsIff(r, c);
    Taken(l, s, r, s', decision, c, t);
  }

  lemma {:induction false} Taken(l: Limits, s: Limiter, r: Request, s': Limiter, decision: Decision, c: Scope, t: int)
    requires GoodBuckets(l, s.buckets, r.now) && Effect(l, s, Needs(r), r.now, s', decision) && r.now <= t
    ensures Left(l, s', c, t) ==
              if decision.Admitted? && KeyOf(c) in Needs(r) then Spent(l, c, Left(l, s, c, r.now), t - r.now)
              else Left(l, s, c, t)
  {
    var level := LevelStep(l, s, Needs(r), r.now, s', decision, KeyOf(c), t);
    SpentInNumbers(l, c, Left(l, s, c, r.now), t - r.now);
  }

  lemma {:induction false} Decided(l: Limits, s: Limiter, r: Request) returns (s': Limiter, decision: Decision)
    requires Covered(l) && Good(l, s, r.now)
    ensures (s', decision) == Allow(l, s, r) && Effect(l, s, Needs(r), r.now, s', decision)
  {
    DecideEffect(l, s, Needs(r), r.now);
    s', decision := Allow(l, s, r).0, Allow(l, s, r).1;
  }

  lemma {:induction false} LevelStep(
    l: Limits, s: Limiter, needs: seq<Key>, now: int, s': Limiter, decision: Decision, k: Key, t: int)
    returns (level: real)
    requires GoodBuckets(l, s.buckets, now) && Effect(l, s, needs, now, s', decision) && now <= t
    ensures level == Level(l, s'.buckets, k, t)
    ensures level == if decision.Admitted? && k in needs
                     then LevelAfterSpend(l, k, Level(l, s.buckets, k, now), true, t - now)
                     else Level(l, s.buckets, k, t)
  {
    level := Level(l, s'.buckets, k, t);
    if decision.Admitted? {
      assert level == LevelAfterSpend(l, k, Level(l, s.buckets, k, now), k in needs, t - now);
    }
    LevelLater(l, s.buckets, k, now, t);
  }

  lemma {:induction false} SpentInNumbers(l: Limits, c: Scope, level: real, dt: int)
    ensures LevelAfterSpend(l, KeyOf(c), level, true, dt) == Spent(l, c, level, dt)
  {
    Configured(l, c, dt);
  }

  ghost predicate Affordable(l: Limits, s: Limiter, r: Request) {
    forall c :: Covers(c, r) ==> Left(l, s, c, r.now) >= 1.0
  }

  /** With room for its buckets, a request is admitted if and only if each limit that is about it has a token left. */
  lemma {:induction false} RequestAdmittedIff(l: Limits, s: Limiter, r: Request)
    requires Covered(l) && Good(l, s, r.now) && |s.buckets.Keys + KeySet(Needs(r))| <= l.maxBuckets
    ensures Allow(l, s, r).1.Admitted? <==> Affordable(l, s, r)
  {
    AdmittedIffReady(l, s, Needs(r), r.now);
    if Affordable(l, s, r) {
      forall k | k in Needs(r) ensures Ready(l, s.buckets, k, r.now) {
        DrawsIff(r, ScopeOf(k));
      }
    }
    if AllReady(l, s.buckets, Needs(r), r.now) {
      forall c | Covers(c, r) ensures Left(l, s, c, r.now) >= 1.0 {
        DrawsIff(r, c);
        assert Ready(l, s.buckets, KeyOf(c), r.now);
      }
    }
  }

  // ---- Which buckets are kept ----

  /** A bucket is dropped exactly when a prune is due and nobody has been admitted through it for the idle time. */
  lemma {:induction false} PrunedIff(l: Limits, s: Limiter, now: int, k: Key)
    requires k in s.buckets
    ensures k in Prune(l, s, now).buckets <==>
              || now - s.buckets[k].used < l.bucketIdleTime
              || (s.lastPrune.Some? && now - s.lastPrune.value < 60 * 1_000_000_000 && |s.buckets| < l.maxBuckets)
    ensures k in Prune(l, s, now).buckets ==> Prune(l, s, now).buckets[k] == s.buckets[k]
    ensures Prune(l, s, now).buckets.Keys <= s.buckets.Keys
  {
  }

  /** A bucket counts as used when a request that draws from it is admitted, and at no other time. */
  lemma {:induction false} UsedWhenAdmitted(l: Limits, s: Limiter, r: Request, k: Key)
    requires k in Allow(l, s, r).0.buckets
    ensures var (s', decision) := Allow(l, s, r);
            && (decision.Admitted? && k in Needs(r) ==> s'.buckets[k].used == r.now)
            && (!(decision.Admitted? && k in Needs(r)) ==> k in s.buckets && s'.buckets[k].used == s.buckets[k].used)
  {
  }

  /** A request is turned away for want of room only when the buckets that are still in use and those it needs are
      more than the limiter holds. */
  lemma {:induction false} FullIff(l: Limits, s: Limiter, r: Request)
    ensures Allow(l, s, r).1.BucketsFull? <==> |Prune(l, s, r.now).buckets.Keys + KeySet(Needs(r))| > l.maxBuckets
  {
  }

  // ---- The limits are also given in full ----

  /** So far n requests like this one have been admitted, and nothing else. */
  ghost predicate Used(l: Limits, s: Limiter, r: Request, n: nat) {
    && Good(l, s, r.now) && s.buckets.Keys <= KeySet(Needs(r))
    && forall c :: Covers(c, r) ==> LeftOver(l, s, c, r.now, n)
  }

  predicate LeftOver(l: Limits, s: Limiter, c: Scope, now: int, n: nat) {
    Left(l, s, c, now) == (AtOnce(l, c) - n) as real
  }

  predicate Fits(l: Limits, r: Request, n: nat) {
    && n <= l.installationBurst
    && (if r.mutation then n <= l.mutationBurst && n <= l.siteMutationBurst else n <= l.readBurst)
    && (r.generated ==> n <= l.generatedBurst)
  }

  lemma {:induction false} RunSnoc(l: Limits, s: Limiter, rs: seq<Request>, r: Request, c: Scope)
    ensures AllowAll(l, s, rs + [r]) == Allow(l, AllowAll(l, s, rs), r).0
    ensures AdmittedOf(l, s, rs + [r], c)
         == AdmittedOf(l, s, rs, c) + if Covers(c, r) && Allow(l, AllowAll(l, s, rs), r).1.Admitted? then 1 else 0
  {
    assert (rs + [r])[..|rs + [r]| - 1] == rs;
  }

  /** As many requests as every limit about them has at once are admitted, all at the same moment. */
  lemma {:induction false} BurstAdmitted(l: Limits, r: Request, rs: seq<Request>) returns (end: Limiter)
    requires Covered(l) && Fits(l, r, |rs|) && forall i :: 0 <= i < |rs| ==> rs[i] == r
    ensures end == AllowAll(l, FRESH, rs) && AdmittedOf(l, FRESH, rs, AllRequests) == |rs|
    ensures Used(l, end, r, |rs|)
  {
    if rs == [] {
      end := FRESH;
      FreshUsed(l, r);
    } else {
      var before := rs[..|rs| - 1];
      assert rs == before + [r];
      var s := BurstAdmitted(l, r, before);
      end := BurstNext(l, before, s, r, |rs|);
    }
  }

  lemma {:induction false} FreshUsed(l: Limits, r: Request)
    ensures Used(l, FRESH, r, 0)
  {
    forall c ensures LeftOver(l, FRESH, c, r.now, 0) {
      Configured(l, c, 0);
    }
  }

  lemma {:induction false} BurstNext(l: Limits, rs: seq<Request>, s: Limiter, r: Request, n: nat)
    returns (s': Limiter)
    requires Covered(l) && n > 0 && Fits(l, r, n) && Used(l, s, r, n - 1)
    requires s == AllowAll(l, FRESH, rs) && AdmittedOf(l, FRESH, rs, AllRequests) == n - 1
    ensures s' == AllowAll(l, FRESH, rs + [r]) && AdmittedOf(l, FRESH, rs + [r], AllRequests) == n && Used(l, s', r, n)
  {
    s' := NextAdmitted(l, s, r, n);
    RunSnoc(l, FRESH, rs, r, AllRequests);
  }

  lemma {:induction false} NextAdmitted(l: Limits, s: Limiter, r: Request, n: nat) returns (s': Limiter)
    requires Covered(l) && n > 0 && Fits(l, r, n) && Used(l, s, r, n - 1)
    ensures s' == Allow(l, s, r).0 && Allow(l, s, r).1.Admitted? && Used(l, s', r, n)
  {
    FewBuckets(l, s, r);
    forall c | Covers(c, r) ensures Left(l, s, c, r.now) >= 1.0 {
      assert LeftOver(l, s, c, r.now, n - 1) && AtOnce(l, c) >= n;
    }
    RequestAdmittedIff(l, s, r);
    var decision;
    s', decision := Decided(l, s, r);
    KeysDrawn(l, s, r);
    forall c | Covers(c, r) ensures LeftOver(l, s', c, r.now, n) {
      NextLeft(l, s, r, s', decision, c, n);
    }
  }

  lemma {:induction false} NextLeft(
    l: Limits, s: Limiter, r: Request, s': Limiter, decision: Decision, c: Scope, n: nat)
    requires GoodBuckets(l, s.buckets, r.now) && Effect(l, s, Needs(r), r.now, s', decision) && decision.Admitted?
    requires Covers(c, r) && n > 0 && LeftOver(l, s, c, r.now, n - 1)
    ensures LeftOver(l, s', c, r.now, n)
  {
    DrawsIff(r, c);
    Taken(l, s, r, s', decision, c, r.now);
    TakenOne(l, s, s', c, r.now, n);
  }

  lemma {:induction false} TakenOne(l: Limits, s: Limiter, s': Limiter, c: Scope, now: int, n: nat)
    requires n > 0 && LeftOver(l, s, c, now, n - 1)
    requires Left(l, s', c, now) == Spent(l, c, Left(l, s, c, now), 0)
    ensures LeftOver(l, s', c, now, n)
  {
    assert Over(l, c, 0) == 0.0;
  }

  lemma {:induction false} KeysDrawn(l: Limits, s: Limiter, r: Request)
    requires s.buckets.Keys <= KeySet(Needs(r))
    ensures Allow(l, s, r).0.buckets.Keys <= KeySet(Needs(r))
  {
  }

  lemma {:induction false} FewBuckets(l: Limits, s: Limiter, r: Request)
    requires s.buckets.Keys <= KeySet(Needs(r))
    ensures |s.buckets.Keys + KeySet(Needs(r))| <= l.maxBuckets
  {
    assert s.buckets.Keys + KeySet(Needs(r)) == KeySet(Needs(r));
    KeySetSize(Needs(r));
  }

  lemma {:induction false} KeySetSize(needs: seq<Key>)
    ensures |KeySet(needs)| <= |needs|
  {
    if needs != [] {
      KeySetSize(needs[..|needs| - 1]);
      assert KeySet(needs) == KeySet(needs[..|needs| - 1]) + {needs[|needs| - 1]};
    }
  }
}
