/** Sliding-window limits on login attempts, per user name and per client address. Old attempts and idle
    keys are forgotten; the decisions are those of a limiter that remembers every attempt ever made. */
module LoginLimiter {

  datatype Window = Window(attempts: seq<int>, seenAt: int)

  type Windows = map<string, Window>

  datatype Config = Config(period: int, userLimit: nat, addressLimit: nat, maxKeys: nat)

  datatype Attempt = Attempt(user: string, address: string, at: int)

  // ---- The code as functions ----

  /** Attempts at or before the cutoff are dropped from the front. */
  function TrimOld(attempts: seq<int>, cutoff: int): seq<int> {
    if attempts == [] || attempts[0] > cutoff then attempts else TrimOld(attempts[1..], cutoff)
  }

  function Record(ws: Windows, key: string, now: int, period: int, maximum: nat, maxKeys: nat): (Windows, bool) {
    if key !in ws && |ws| >= maxKeys then (ws, false)
    else
      var attempts := TrimOld(if key in ws then ws[key].attempts else [], now - period) + [now];
      (ws[key := Window(attempts, now)], |attempts| <= maximum)
  }

  function DropIdle(ws: Windows, cutoff: int): Windows {
    map k | k in ws && ws[k].seenAt > cutoff :: ws[k]
  }

  datatype Limiter = Limiter(users: Windows, addresses: Windows)

  function Prune(s: Limiter, c: Config, now: int): Limiter {
    if |s.users| + |s.addresses| < c.maxKeys then s
    else Limiter(DropIdle(s.users, now - c.period), DropIdle(s.addresses, now - c.period))
  }

  /** Both windows record the attempt, whichever of them refuses it. */
  function Allow(s: Limiter, c: Config, a: Attempt): (Limiter, bool) {
    var p := Prune(s, c, a.at);
    var (users, userAllowed) := Record(p.users, a.user, a.at, c.period, c.userLimit, c.maxKeys);
    var (addresses, addressAllowed) := Record(p.addresses, a.address, a.at, c.period, c.addressLimit, c.maxKeys);
    (Limiter(users, addresses), userAllowed && addressAllowed)
  }

  // ---- The limiter object ----

  class LoginLimiter {
    const config: Config
    var users: Windows
    var addresses: Windows

    function State(): Limiter
      reads this
    {
      Limiter(users, addresses)
    }

    constructor (config: Config)
      ensures State() == Limiter(map[], map[]) && this.config == config
    {
      this.config := config;
      users, addresses := map[], map[];
    }

    static method RecordAttempt(ws: Windows, key: string, now: int, period: int, maximum: nat, maxKeys: nat)
      returns (ws': Windows, allowed: bool)
      ensures (ws', allowed) == Record(ws, key, now, period, maximum, maxKeys)
    {
      var attempts: seq<int> := [];
      if key in ws {
        attempts := ws[key].attempts;
      } else if |ws| >= maxKeys {
        return ws, false;
      }
      var cutoff := now - period;
      var first := 0;
      while first < |attempts| && attempts[first] <= cutoff
        invariant 0 <= first <= |attempts|
        invariant TrimOld(attempts, cutoff) == TrimOld(attempts[first..], cutoff)
      {
        assert attempts[first..][1..] == attempts[first + 1..];
        first := first + 1;
      }
      attempts := attempts[first..] + [now];
      return ws[key := Window(attempts, now)], |attempts| <= maximum;
    }

    static method PruneWindows(ws: Windows, cutoff: int) returns (ws': Windows)
      ensures ws' == DropIdle(ws, cutoff)
    {
      ws' := ws;
      var keys := ws.Keys;
      while keys != {}
        invariant keys <= ws.Keys
        invariant ws' == map k | k in ws && (k in keys || ws[k].seenAt > cutoff) :: ws[k]
        decreases keys
      {
        var key :| key in keys;
        keys := keys - {key};
        if ws[key].seenAt <= cutoff {
          ws' := ws' - {key};
        }
      }
    }

    method AllowAttempt(a: Attempt) returns (allowed: bool)
      modifies this
      ensures (State(), allowed) == Allow(old(State()), config, a)
    {
      if |users| + |addresses| >= config.maxKeys {
        users := PruneWindows(users, a.at - config.period);
        addresses := PruneWindows(addresses, a.at - config.period);
      }
      var userAllowed, addressAllowed;
      users, userAllowed := RecordAttempt(users, a.user, a.at, config.period, config.userLimit, config.maxKeys);
      addresses, addressAllowed :=
        RecordAttempt(addresses, a.address, a.at, config.period, config.addressLimit, config.maxKeys);
      return userAllowed && addressAllowed;
    }
  }

  // ---- The whole history as reference ----

  datatype Hit = Hit(key: string, at: int)

  function Times(hits: seq<Hit>, key: string): seq<int> {
    if hits == [] then []
    else
      var rest, hit := Times(hits[..|hits| - 1], key), hits[|hits| - 1];
      if hit.key == key then rest + [hit.at] else rest
  }

  function After(times: seq<int>, cutoff: int): seq<int> {
    if times == [] then []
    else
      var rest, t := After(times[..|times| - 1], cutoff), times[|times| - 1];
      if t > cutoff then rest + [t] else rest
  }

  /** How many attempts with this key fall into the period that ends at `now`. */
  function Recent(hits: seq<Hit>, key: string, now: int, period: int): nat {
    |After(Times(hits, key), now - period)|
  }

  predicate Ordered(times: seq<int>, now: int) {
    (forall i, j :: 0 <= i < j < |times| ==> times[i] <= times[j]) && forall i :: 0 <= i < |times| ==> times[i] <= now
  }

  lemma {:induction false} AfterConcat(a: seq<int>, b: seq<int>, cutoff: int)
    ensures After(a + b, cutoff) == After(a, cutoff) + After(b, cutoff)
  {
    if b == [] {
      assert a + b == a;
    } else {
      assert (a + b)[..|a + b| - 1] == a + b[..|b| - 1];
      AfterConcat(a, b[..|b| - 1], cutoff);
    }
  }

  lemma {:induction false} AfterAll(times: seq<int>, cutoff: int)
    requires forall i :: 0 <= i < |times| ==> times[i] > cutoff
    ensures After(times, cutoff) == times
  {
    if times != [] {
      AfterAll(times[..|times| - 1], cutoff);
    }
  }

  lemma {:induction false} AfterNone(times: seq<int>, cutoff: int)
    requires forall i :: 0 <= i < |times| ==> times[i] <= cutoff
    ensures After(times, cutoff) == []
  {
    if times != [] {
      AfterNone(times[..|times| - 1], cutoff);
    }
  }

  lemma {:induction false} AfterAfter(times: seq<int>, a: int, b: int)
    requires a <= b
    ensures After(After(times, a), b) == After(times, b)
  {
    if times != [] {
      var rest, t := After(times[..|times| - 1], a), times[|times| - 1];
      AfterAfter(times[..|times| - 1], a, b);
      assert (rest + [t])[..|rest|] == rest;
    }
  }

  /** On ordered times, dropping from the front is filtering. */
  lemma {:induction false} TrimIsAfter(times: seq<int>, cutoff: int, now: int)
    requires Ordered(times, now)
    ensures TrimOld(times, cutoff) == After(times, cutoff)
  {
    if times != [] && times[0] <= cutoff {
      TrimIsAfter(times[1..], cutoff, now);
      assert times == [times[0]] + times[1..];
      AfterConcat([times[0]], times[1..], cutoff);
      AfterNone([times[0]], cutoff);
    } else {
      AfterAll(times, cutoff);
    }
  }

  // ---- What the windows remember ----

  function Attempts(ws: Windows, key: string): seq<int> {
    if key in ws then ws[key].attempts else []
  }

  predicate Tidy(ws: Windows, now: int) {
    forall k :: k in ws ==>
      && Ordered(ws[k].attempts, ws[k].seenAt) && ws[k].seenAt <= now
      && ws[k].attempts != [] && ws[k].attempts[|ws[k].attempts| - 1] == ws[k].seenAt
  }

  /** For every cutoff that can still be asked about, the windows know what the history knows. */
  ghost predicate Faithful(ws: Windows, hits: seq<Hit>, cutoff: int) {
    forall k, c :: c >= cutoff ==> After(Times(hits, k), c) == After(Attempts(ws, k), c)
  }

  lemma {:induction false} DropIdleFaithful(ws: Windows, hits: seq<Hit>, cutoff: int, now: int)
    requires Tidy(ws, now) && Faithful(ws, hits, cutoff)
    ensures Tidy(DropIdle(ws, cutoff), now) && Faithful(DropIdle(ws, cutoff), hits, cutoff)
  {
    forall k, c | c >= cutoff ensures After(Times(hits, k), c) == After(Attempts(DropIdle(ws, cutoff), k), c) {
      if k in ws && ws[k].seenAt <= cutoff {
        AfterNone(ws[k].attempts, c);
      }
    }
  }

  lemma {:induction false} TimesSnoc(hits: seq<Hit>, hit: Hit, key: string)
    ensures Times(hits + [hit], key) == if hit.key == key then Times(hits, key) + [hit.at] else Times(hits, key)
  {
    assert (hits + [hit])[..|hits + [hit]| - 1] == hits;
  }

  /** What recording an attempt stores under its key. */
  lemma {:induction false} RecordedTimes(
    attempts: seq<int>, times: seq<int>, now: int, cutoff: int, c: int)
    requires Ordered(attempts, now) && cutoff <= c
    requires After(times, c) == After(attempts, c)
    ensures After(TrimOld(attempts, cutoff) + [now], c) == After(times + [now], c)
  {
    TrimIsAfter(attempts, cutoff, now);
    AfterConcat(times, [now], c);
    AfterConcat(After(attempts, cutoff), [now], c);
    AfterAfter(attempts, cutoff, c);
  }

  lemma {:induction false} StoredIsRecent(attempts: seq<int>, now: int, cutoff: int)
    requires Ordered(attempts, now) && cutoff < now
    ensures Ordered(TrimOld(attempts, cutoff) + [now], now)
    ensures After(TrimOld(attempts, cutoff) + [now], cutoff) == TrimOld(attempts, cutoff) + [now]
  {
    TrimIsAfter(attempts, cutoff, now);
    AfterOrdered(attempts, cutoff, now);
    StillAfter(attempts, cutoff, now);
  }

  lemma {:induction false} StillAfter(attempts: seq<int>, cutoff: int, now: int)
    requires cutoff < now
    ensures After(After(attempts, cutoff) + [now], cutoff) == After(attempts, cutoff) + [now]
  {
    AfterConcat(After(attempts, cutoff), [now], cutoff);
    AfterAfter(attempts, cutoff, cutoff);
    AfterAll([now], cutoff);
  }

  predicate HasRoom(ws: Windows, key: string, maxKeys: nat) {
    key in ws || |ws| < maxKeys
  }

  ghost predicate Remembers(ws: Windows, hits: seq<Hit>, now: int, period: int) {
    Tidy(ws, now) && Faithful(ws, hits, now - period)
  }

  /** With room for its key, an attempt is stored behind what is left of the earlier ones. */
  lemma {:induction false} RecordStores(
    ws: Windows, key: string, now: int, period: int, maximum: nat, maxKeys: nat) returns (stored: seq<int>)
    requires Tidy(ws, now) && period > 0 && HasRoom(ws, key, maxKeys)
    ensures stored == TrimOld(Attempts(ws, key), now - period) + [now]
    ensures Record(ws, key, now, period, maximum, maxKeys) == (ws[key := Window(stored, now)], |stored| <= maximum)
    ensures Ordered(Attempts(ws, key), now) && Ordered(stored, now) && After(stored, now - period) == stored
  {
    var attempts := Attempts(ws, key);
    stored := TrimOld(attempts, now - period) + [now];
    AttemptsOrdered(ws, key, now);
    StoredIsRecent(attempts, now, now - period);
  }

  lemma {:induction false} AttemptsOrdered(ws: Windows, key: string, now: int)
    requires Tidy(ws, now)
    ensures Ordered(Attempts(ws, key), now)
  {
  }

  /** Recording an attempt decides by the history and keeps the windows faithful to it. */
  lemma {:induction false} RecordFaithful(
    ws: Windows, hits: seq<Hit>, key: string, now: int, period: int, maximum: nat, maxKeys: nat)
    requires Remembers(ws, hits, now, period) && period > 0 && HasRoom(ws, key, maxKeys)
    ensures var (ws', allowed) := Record(ws, key, now, period, maximum, maxKeys);
            && Remembers(ws', hits + [Hit(key, now)], now, period)
            && (allowed <==> Recent(hits + [Hit(key, now)], key, now, period) <= maximum)
  {
    var stored := RecordStores(ws, key, now, period, maximum, maxKeys);
    StoredRemembered(ws, hits, key, now, period, stored);
    RecentIsStored(ws[key := Window(stored, now)], hits + [Hit(key, now)], key, now, period, stored);
  }

  lemma {:induction false} StoredRemembered(
    ws: Windows, hits: seq<Hit>, key: string, now: int, period: int, stored: seq<int>)
    requires Remembers(ws, hits, now, period) && Ordered(Attempts(ws, key), now) && Ordered(stored, now)
    requires stored == TrimOld(Attempts(ws, key), now - period) + [now]
    ensures Remembers(ws[key := Window(stored, now)], hits + [Hit(key, now)], now, period)
  {
    StoredFaithful(ws, ws[key := Window(stored, now)], hits, key, now, now - period);
  }

  lemma {:induction false} RecentIsStored(
    ws: Windows, hits: seq<Hit>, key: string, now: int, period: int, stored: seq<int>)
    requires Remembers(ws, hits, now, period) && key in ws && ws[key].attempts == stored
    requires After(stored, now - period) == stored
    ensures Recent(hits, key, now, period) == |stored|
  {
  }

  lemma {:induction false} StoredFaithful(ws: Windows, ws': Windows, hits: seq<Hit>, key: string, now: int, cutoff: int)
    requires Ordered(Attempts(ws, key), now) && Faithful(ws, hits, cutoff)
    requires Attempts(ws', key) == TrimOld(Attempts(ws, key), cutoff) + [now]
    requires forall k :: k != key ==> Attempts(ws', k) == Attempts(ws, k)
    ensures Faithful(ws', hits + [Hit(key, now)], cutoff)
  {
    var hits' := hits + [Hit(key, now)];
    forall k, c | c >= cutoff ensures After(Times(hits', k), c) == After(Attempts(ws', k), c) {
      TimesSnoc(hits, Hit(key, now), k);
      if k == key {
        RecordedTimes(Attempts(ws, key), Times(hits, k), now, cutoff, c);
      }
    }
  }

  lemma {:induction false} AfterOrdered(times: seq<int>, cutoff: int, now: int)
    requires Ordered(times, now)
    ensures Ordered(After(times, cutoff), now)
  {
    if times != [] {
      AfterOrdered(times[..|times| - 1], cutoff, times[|times| - 1]);
    }
  }

  // ---- Whole runs ----

  function Run(c: Config, history: seq<Attempt>): Limiter {
    if history == [] then Limiter(map[], map[])
    else Allow(Run(c, history[..|history| - 1]), c, history[|history| - 1]).0
  }

  /** The clock does not run backwards. */
  predicate Steady(history: seq<Attempt>, now: int) {
    if history == [] then true
    else Steady(history[..|history| - 1], history[|history| - 1].at) && history[|history| - 1].at <= now
  }

  // Everything below holds for the user names and for the addresses alike.

  function WindowsOf(s: Limiter, byUser: bool): Windows {
    if byUser then s.users else s.addresses
  }

  function KeyOf(a: Attempt, byUser: bool): string {
    if byUser then a.user else a.address
  }

  function LimitOf(c: Config, byUser: bool): nat {
    if byUser then c.userLimit else c.addressLimit
  }

  function HitOf(a: Attempt, byUser: bool): Hit {
    Hit(KeyOf(a, byUser), a.at)
  }

  function Hits(history: seq<Attempt>, byUser: bool): seq<Hit> {
    seq(|history|, i requires 0 <= i < |history| => HitOf(history[i], byUser))
  }

  /** There is room for the attempt's key when it arrives. */
  predicate Room(c: Config, history: seq<Attempt>, a: Attempt, byUser: bool) {
    HasRoom(Before(c, history, a, byUser), KeyOf(a, byUser), c.maxKeys)
  }

  /** The attempts that found room, allowed or not. */
  function Logged(c: Config, history: seq<Attempt>, byUser: bool): seq<Hit> {
    if history == [] then []
    else
      var init, a := history[..|history| - 1], history[|history| - 1];
      if Room(c, init, a, byUser) then Logged(c, init, byUser) + [HitOf(a, byUser)] else Logged(c, init, byUser)
  }

  ghost predicate Knows(c: Config, history: seq<Attempt>, now: int, byUser: bool) {
    Remembers(WindowsOf(Run(c, history), byUser), Logged(c, history, byUser), now, c.period)
  }

  /** The windows that the attempt's record starts from. */
  function Before(c: Config, history: seq<Attempt>, a: Attempt, byUser: bool): Windows {
    WindowsOf(Prune(Run(c, history), c, a.at), byUser)
  }

  /** What one of the two records answers to an attempt. */
  predicate Grants(c: Config, history: seq<Attempt>, a: Attempt, byUser: bool) {
    Record(Before(c, history, a, byUser), KeyOf(a, byUser), a.at, c.period, LimitOf(c, byUser), c.maxKeys).1
  }

  predicate Allowed(c: Config, history: seq<Attempt>, a: Attempt) {
    Allow(Run(c, history), c, a).1
  }

  /** There is room, and not too many attempts that found room fall into the last period, this one included. */
  predicate Passes(c: Config, history: seq<Attempt>, a: Attempt, byUser: bool) {
    && Room(c, history, a, byUser)
    && Recent(Logged(c, history + [a], byUser), KeyOf(a, byUser), a.at, c.period) <= LimitOf(c, byUser)
  }

  lemma {:induction false} RunSnoc(c: Config, history: seq<Attempt>, a: Attempt, byUser: bool)
    ensures Run(c, history + [a]) == Allow(Run(c, history), c, a).0
    ensures Logged(c, history + [a], byUser)
         == Logged(c, history, byUser) + if Room(c, history, a, byUser) then [HitOf(a, byUser)] else []
  {
    assert (history + [a])[..|history + [a]| - 1] == history;
  }

  lemma {:induction false} KnowsNext(c: Config, history: seq<Attempt>, a: Attempt, byUser: bool)
    requires c.period > 0 && Knows(c, history, a.at, byUser)
    ensures Knows(c, history + [a], a.at, byUser)
    ensures Grants(c, history, a, byUser) <==> Passes(c, history, a, byUser)
  {
    RunSnoc(c, history, a, byUser);
    AllowWindows(c, history, a, byUser);
    PruneRemembers(c, history, a, byUser);
    if Room(c, history, a, byUser) {
      RecordFaithful(Before(c, history, a, byUser), Logged(c, history, byUser), KeyOf(a, byUser), a.at, c.period,
                     LimitOf(c, byUser), c.maxKeys);
    }
  }

  lemma {:induction false} AllowWindows(c: Config, history: seq<Attempt>, a: Attempt, byUser: bool)
    ensures WindowsOf(Allow(Run(c, history), c, a).0, byUser)
         == Record(Before(c, history, a, byUser), KeyOf(a, byUser), a.at, c.period, LimitOf(c, byUser), c.maxKeys).0
  {
  }

  lemma {:induction false} PruneRemembers(c: Config, history: seq<Attempt>, a: Attempt, byUser: bool)
    requires Knows(c, history, a.at, byUser)
    ensures Remembers(Before(c, history, a, byUser), Logged(c, history, byUser), a.at, c.period)
  {
    DropIdleFaithful(WindowsOf(Run(c, history), byUser), Logged(c, history, byUser), a.at - c.period, a.at);
  }

  lemma {:induction false} KnowsAlways(c: Config, history: seq<Attempt>, now: int, byUser: bool)
    requires c.period > 0 && Steady(history, now)
    ensures Knows(c, history, now, byUser)
  {
    if history != [] {
      var init, a := history[..|history| - 1], history[|history| - 1];
      assert history == init + [a];
      KnowsAlways(c, init, a.at, byUser);
      KnowsNext(c, init, a, byUser);
    }
  }

  /** The limiter refines full history, over every run: although it drops old attempts and idle keys, an attempt
      is allowed exactly when there is room for its name and its address, and counting every attempt that ever
      found room, allowed or not, finds no more than the limits in the last period. */
  lemma {:induction false} CountsLogged(c: Config, history: seq<Attempt>, a: Attempt)
    requires c.period > 0 && Steady(history, a.at)
    ensures Allowed(c, history, a) <==> forall byUser :: Passes(c, history, a, byUser)
  {
    KnowsAlways(c, history, a.at, true);
    KnowsAlways(c, history, a.at, false);
    KnowsNext(c, history, a, true);
    KnowsNext(c, history, a, false);
    assert Allowed(c, history, a) <==> Grants(c, history, a, true) && Grants(c, history, a, false);
  }

  // ---- When there is room ----

  function LoggedKeys(hits: seq<Hit>): set<string> {
    set i | 0 <= i < |hits| :: hits[i].key
  }

  /** The keys with an attempt in the last period that found room. */
  function RecentKeys(c: Config, history: seq<Attempt>, now: int, byUser: bool): set<string> {
    var hits := Logged(c, history, byUser);
    set k | k in LoggedKeys(hits) && Recent(hits, k, now, c.period) > 0
  }

  lemma {:induction false} AfterLast(times: seq<int>, cutoff: int, last: int)
    requires times != [] && Ordered(times, last) && times[|times| - 1] == last
    ensures After(times, cutoff) != [] <==> last > cutoff
  {
    if last <= cutoff {
      AfterNone(times, cutoff);
    }
  }

  lemma {:induction false} TimesOfLogged(hits: seq<Hit>, k: string)
    requires Times(hits, k) != []
    ensures k in LoggedKeys(hits)
  {
    var hit := hits[|hits| - 1];
    if hit.key != k {
      TimesOfLogged(hits[..|hits| - 1], k);
      var i :| 0 <= i < |hits| - 1 && hits[..|hits| - 1][i].key == k;
      assert hits[i].key == k;
    }
  }

  /** A window whose last attempt is recent is one of the recent keys, and each of these has its window. */
  lemma {:induction false} RecentIffSeen(ws: Windows, hits: seq<Hit>, now: int, period: int, k: string)
    requires Remembers(ws, hits, now, period)
    ensures Recent(hits, k, now, period) > 0 <==> k in ws && ws[k].seenAt > now - period
    ensures Recent(hits, k, now, period) > 0 ==> k in LoggedKeys(hits)
  {
    assert After(Times(hits, k), now - period) == After(Attempts(ws, k), now - period);
    if k in ws {
      AfterLast(ws[k].attempts, now - period, ws[k].seenAt);
    }
    if Recent(hits, k, now, period) > 0 {
      TimesOfLogged(hits, k);
    }
  }

  /** There is room for an attempt exactly when its key is among the recent ones, or these are fewer than the
      limiter holds: idle windows never stand in anybody's way. */
  lemma {:induction false} RoomIff(c: Config, history: seq<Attempt>, a: Attempt, byUser: bool)
    returns (recent: set<string>)
    requires c.period > 0 && Steady(history, a.at)
    ensures recent == RecentKeys(c, history, a.at, byUser)
    ensures Room(c, history, a, byUser) <==> KeyOf(a, byUser) in recent || |recent| < c.maxKeys
  {
    recent := RecentAre(c, history, a.at, byUser);
    var ws, before := PruneCase(c, history, a, byUser);
    RoomBySize(ws, before, recent, KeyOf(a, byUser), a.at - c.period, c.maxKeys);
  }

  lemma {:induction false} RecentAre(c: Config, history: seq<Attempt>, now: int, byUser: bool)
    returns (recent: set<string>)
    requires c.period > 0 && Steady(history, now)
    ensures recent == RecentKeys(c, history, now, byUser)
    ensures SeenSince(WindowsOf(Run(c, history), byUser), now - c.period, recent)
  {
    KnowsAlways(c, history, now, byUser);
    recent := RecentKeys(c, history, now, byUser);
    var ws := WindowsOf(Run(c, history), byUser);
    forall k ensures k in recent <==> k in ws && ws[k].seenAt > now - c.period {
      RecentIffSeen(ws, Logged(c, history, byUser), now, c.period, k);
    }
  }

  ghost predicate SeenSince(ws: Windows, cutoff: int, recent: set<string>) {
    forall k :: k in recent <==> k in ws && ws[k].seenAt > cutoff
  }

  lemma {:induction false} RoomBySize(
    ws: Windows, before: Windows, recent: set<string>, key: string, cutoff: int, maxKeys: nat)
    requires SeenSince(ws, cutoff, recent)
    requires before == DropIdle(ws, cutoff) || (before == ws && |ws| < maxKeys)
    ensures HasRoom(before, key, maxKeys) <==> key in recent || |recent| < maxKeys
  {
    assert |ws| == |ws.Keys| && |before| == |before.Keys|;
    if before == DropIdle(ws, cutoff) {
      assert before.Keys == recent;
    } else {
      Smaller(recent, ws.Keys);
    }
  }

  lemma {:induction false} PruneCase(c: Config, history: seq<Attempt>, a: Attempt, byUser: bool)
    returns (ws: Windows, before: Windows)
    ensures ws == WindowsOf(Run(c, history), byUser)
    ensures Room(c, history, a, byUser) <==> HasRoom(before, KeyOf(a, byUser), c.maxKeys)
    ensures before == DropIdle(ws, a.at - c.period) || (before == ws && |ws| < c.maxKeys)
  {
    ws, before := WindowsOf(Run(c, history), byUser), Before(c, history, a, byUser);
  }

  // ---- With fewer keys than the limiter holds, every attempt finds room ----

  function Keys(hits: seq<Hit>): set<string> {
    set i | 0 <= i < |hits| :: hits[i].key
  }

  /** Fewer distinct names and addresses than the limiter holds keys. */
  predicate FewKeys(c: Config, history: seq<Attempt>) {
    forall byUser :: |Keys(Hits(history, byUser))| <= c.maxKeys
  }

  predicate AlwaysRoom(c: Config, history: seq<Attempt>, byUser: bool) {
    history == [] ||
    var init, a := history[..|history| - 1], history[|history| - 1];
    AlwaysRoom(c, init, byUser) && Room(c, init, a, byUser)
  }

  /** The log is the whole history if and only if every attempt found room. */
  lemma {:induction false} LoggedAllIff(c: Config, history: seq<Attempt>, byUser: bool)
    ensures Logged(c, history, byUser) == Hits(history, byUser) <==> AlwaysRoom(c, history, byUser)
    ensures |Logged(c, history, byUser)| <= |history|
  {
    if history != [] {
      var init, a := history[..|history| - 1], history[|history| - 1];
      LoggedAllIff(c, init, byUser);
      assert Hits(history, byUser) == Hits(init, byUser) + [HitOf(a, byUser)];
      assert Room(c, init, a, byUser) && Logged(c, history, byUser) == Hits(history, byUser) ==>
        Logged(c, init, byUser) == Logged(c, history, byUser)[..|init|] == Hits(history, byUser)[..|init|];
    }
  }

  lemma {:induction false} Smaller(a: set<string>, b: set<string>)
    requires a <= b
    ensures |a| <= |b|
    ensures a != b ==> |a| < |b|
  {
    assert |b| == |a| + |b - a|;
    if a != b {
      assert b - a != {};
    }
  }

  lemma {:induction false} MoreKeys(history: seq<Attempt>, a: Attempt, byUser: bool)
    ensures Keys(Hits(history + [a], byUser)) == Keys(Hits(history, byUser)) + {KeyOf(a, byUser)}
    ensures |Keys(Hits(history, byUser))| <= |Keys(Hits(history + [a], byUser))|
  {
    var hits, hits' := Hits(history, byUser), Hits(history + [a], byUser);
    assert hits' == hits + [HitOf(a, byUser)];
    forall k | k in Keys(hits) ensures k in Keys(hits') {
      var i :| 0 <= i < |hits| && hits[i].key == k;
      assert hits'[i].key == k;
    }
    assert hits'[|hits|].key == KeyOf(a, byUser);
    Smaller(Keys(hits), Keys(hits'));
  }

  lemma {:induction false} KeysSeen(c: Config, history: seq<Attempt>, byUser: bool)
    ensures WindowsOf(Run(c, history), byUser).Keys <= Keys(Hits(history, byUser))
  {
    if history != [] {
      var init, a := history[..|history| - 1], history[|history| - 1];
      assert history == init + [a];
      KeysSeen(c, init, byUser);
      MoreKeys(init, a, byUser);
    }
  }

  lemma {:induction false} FewHaveRoom(c: Config, history: seq<Attempt>, a: Attempt, byUser: bool)
    requires FewKeys(c, history + [a])
    ensures FewKeys(c, history) && Room(c, history, a, byUser)
  {
    MoreKeys(history, a, true);
    MoreKeys(history, a, false);
    KeysSeen(c, history, byUser);
    var ws, hits' := Before(c, history, a, byUser), Hits(history + [a], byUser);
    assert |ws| == |ws.Keys|;
    if KeyOf(a, byUser) !in ws {
      Smaller(ws.Keys, Keys(hits'));
    }
  }

  lemma {:induction false} FewAlwaysRoom(c: Config, history: seq<Attempt>, byUser: bool)
    requires FewKeys(c, history)
    ensures AlwaysRoom(c, history, byUser)
  {
    if history != [] {
      var init, a := history[..|history| - 1], history[|history| - 1];
      assert history == init + [a];
      FewHaveRoom(c, init, a, byUser);
      FewAlwaysRoom(c, init, byUser);
    }
  }

  /** Then the count is over every attempt ever made. */
  lemma {:induction false} CountsFullHistory(c: Config, history: seq<Attempt>, a: Attempt)
    requires c.period > 0 && Steady(history, a.at) && FewKeys(c, history + [a])
    ensures Allowed(c, history, a) <==>
              forall byUser :: Recent(Hits(history + [a], byUser), KeyOf(a, byUser), a.at, c.period) <= LimitOf(c, byUser)
  {
    CountsLogged(c, history, a);
    forall byUser
      ensures Passes(c, history, a, byUser) <==>
                Recent(Hits(history + [a], byUser), KeyOf(a, byUser), a.at, c.period) <= LimitOf(c, byUser)
    {
      FewHaveRoom(c, history, a, byUser);
      FewAlwaysRoom(c, history + [a], byUser);
      LoggedAllIff(c, history + [a], byUser);
    }
  }

  // ---- What gets through, however many names and addresses are tried ----

  /** How many attempts with this key, later than `from`, were allowed. */
  function Accepted(c: Config, history: seq<Attempt>, key: string, byUser: bool, from: int): nat {
    if history == [] then 0
    else
      var init, a := history[..|history| - 1], history[|history| - 1];
      Accepted(c, init, key, byUser, from)
      + if KeyOf(a, byUser) == key && a.at > from && Allowed(c, init, a) then 1 else 0
  }

  /** An accepted attempt has found room. */
  lemma {:induction false} AcceptedAreLogged(c: Config, history: seq<Attempt>, key: string, byUser: bool, from: int)
    ensures Accepted(c, history, key, byUser, from) <= |After(Times(Logged(c, history, byUser), key), from)|
  {
    if history != [] {
      var init, a := history[..|history| - 1], history[|history| - 1];
      AcceptedAreLogged(c, init, key, byUser, from);
      TimesSnoc(Logged(c, init, byUser), HitOf(a, byUser), key);
      AfterSnoc(Times(Logged(c, init, byUser), key), a.at, from);
      assert Allowed(c, init, a) ==> Grants(c, init, a, byUser) && Room(c, init, a, byUser);
    }
  }

  lemma {:induction false} AfterSnoc(times: seq<int>, t: int, cutoff: int)
    ensures |After(times + [t], cutoff)| == |After(times, cutoff)| + if t > cutoff then 1 else 0
  {
    assert (times + [t])[..|times + [t]| - 1] == times;
  }

  lemma {:induction false} AfterFewer(times: seq<int>, a: int, b: int)
    requires a <= b
    ensures |After(times, b)| <= |After(times, a)|
  {
    if times != [] {
      AfterFewer(times[..|times| - 1], a, b);
    }
  }

  /** Any stretch of one period lets through at most the limit, per user name and per address. */
  lemma {:induction false} WindowBound(c: Config, history: seq<Attempt>, key: string, byUser: bool, from: int)
    requires c.period > 0 && Steady(history, from + c.period)
    ensures Accepted(c, history, key, byUser, from) <= LimitOf(c, byUser)
  {
    if history != [] {
      var init, a := history[..|history| - 1], history[|history| - 1];
      assert history == init + [a];
      if KeyOf(a, byUser) == key && a.at > from && Allowed(c, init, a) {
        LastAccepted(c, init, a, byUser, from);
        AcceptedAreLogged(c, history, key, byUser, from);
      } else {
        SteadyLater(init, a.at, from + c.period);
        WindowBound(c, init, key, byUser, from);
      }
    }
  }

  lemma {:induction false} LastAccepted(c: Config, history: seq<Attempt>, a: Attempt, byUser: bool, from: int)
    requires c.period > 0 && Steady(history, a.at) && a.at - c.period <= from && Allowed(c, history, a)
    ensures |After(Times(Logged(c, history + [a], byUser), KeyOf(a, byUser)), from)| <= LimitOf(c, byUser)
  {
    CountsLogged(c, history, a);
    assert Passes(c, history, a, byUser);
    RecentBound(Logged(c, history + [a], byUser), KeyOf(a, byUser), a.at, c.period, from, LimitOf(c, byUser));
  }

  lemma {:induction false} RecentBound(hits: seq<Hit>, key: string, now: int, period: int, from: int, limit: nat)
    requires Recent(hits, key, now, period) <= limit && now - period <= from
    ensures |After(Times(hits, key), from)| <= limit
  {
    AfterFewer(Times(hits, key), now - period, from);
  }

  lemma {:induction false} SteadyLater(history: seq<Attempt>, now: int, later: int)
    requires Steady(history, now) && now <= later
    ensures Steady(history, later)
  {
  }
}
