/** The cache of open stores: one entry per key, counted references, callers that wait for an open in
    progress and may give up, pruning of idle stores, eviction, and shutdown. Each locked section is one step. */
module StoreCache {
  import opened Wrappers

  datatype Handle = Pending | Opened | Shut

  /** `ready` is the closed channel of an open that has finished, `failed` its error. */
  datatype Entry = Entry(key: string, store: Handle, ready: bool, failed: bool, refs: nat, used: int)

  datatype Role = Opener | Waiter | Lease

  /** A caller inside `Open`, or a lease it was given. */
  datatype Holder = Holder(entry: nat, role: Role)

  /** `cells` holds every entry ever made, in or out of the map. `holders` is who still has a claim. */
  datatype Cache = Cache(
    entries: map<string, nat>, cells: map<nat, Entry>, closed: bool, maxOpen: nat, idleFor: int,
    holders: map<nat, Holder>, nextEntry: nat, nextHolder: nat)

  function Empty(maxOpen: nat, idleFor: int): Cache {
    Cache(map[], map[], false, maxOpen, idleFor, map[], 0, 0)
  }

  predicate Idle(e: Entry) { e.store == Opened && e.refs == 0 }

  predicate IsStale(e: Entry, now: int, idleFor: int) { Idle(e) && now - e.used >= idleFor }

  function HoldersOf(holders: map<nat, Holder>, id: nat): set<nat> {
    set h | h in holders && holders[h].entry == id
  }

  // ---- What every locked section keeps ----

  predicate Mapped(entries: map<string, nat>, e: Entry, id: nat) {
    e.key in entries && entries[e.key] == id
  }

  /** An entry whose open has not failed: its references are its holders, and it is in the map unless shut. */
  predicate EntryGood(e: Entry, mapped: bool, held: nat, closed: bool) {
    && (e.ready <==> e.store != Pending || e.failed)
    && (e.failed ==> e.store == Pending && !mapped)
    && (!e.failed ==> e.refs == held && (mapped <==> e.store != Shut))
    && (e.store == Shut ==> held == 0)
    && (closed && e.store == Opened ==> e.refs > 0)
  }

  predicate EntryOk(s: Cache, id: nat)
    requires id in s.cells
  {
    EntryGood(s.cells[id], Mapped(s.entries, s.cells[id], id), |HoldersOf(s.holders, id)|, s.closed)
  }

  /** An opener's entry is still being opened; a lease's store is open. */
  predicate HolderGood(x: Holder, e: Entry) {
    match x.role
    case Opener => !e.ready
    case Waiter => true
    case Lease => e.store == Opened
  }

  predicate HolderOk(s: Cache, h: nat)
    requires h in s.holders
  {
    s.holders[h].entry in s.cells && HolderGood(s.holders[h], s.cells[s.holders[h].entry])
  }

  predicate Opening(s: Cache, h: nat) {
    h in s.holders && s.holders[h].role.Opener?
  }

  /** One opener per entry that is still being opened. */
  ghost predicate OneOpener(s: Cache) {
    forall h, g :: Opening(s, h) && Opening(s, g) && s.holders[h].entry == s.holders[g].entry ==> h == g
  }

  predicate Wired(s: Cache) {
    forall k :: k in s.entries ==> s.entries[k] in s.cells && s.cells[s.entries[k]].key == k
  }

  predicate MapOk(s: Cache) {
    |s.entries| <= s.maxOpen && Wired(s)
  }

  predicate EntriesOk(s: Cache) {
    forall id :: id in s.cells ==> id < s.nextEntry && EntryOk(s, id)
  }

  predicate HoldersOk(s: Cache) {
    forall h :: h in s.holders ==> h < s.nextHolder && HolderOk(s, h)
  }

  ghost predicate CacheInv(s: Cache) {
    MapOk(s) && EntriesOk(s) && HoldersOk(s) && OneOpener(s)
  }

  // ---- Pieces of the locked sections ----

  /** Close the stores of these keys and drop them from the map. */
  function CloseKeys(s: Cache, keys: set<string>): Cache {
    s.(entries := s.entries - keys,
       cells := map id | id in s.cells ::
         if s.cells[id].key in keys && Mapped(s.entries, s.cells[id], id) then s.cells[id].(store := Shut) else s.cells[id])
  }

  function IdleKeys(s: Cache): set<string>
    requires Wired(s)
  {
    set k | k in s.entries && Idle(s.cells[s.entries[k]])
  }

  function StaleKeys(s: Cache, now: int): set<string>
    requires Wired(s)
  {
    set k | k in s.entries && IsStale(s.cells[s.entries[k]], now, s.idleFor)
  }

  function Prune(s: Cache, now: int): Cache
    requires Wired(s)
  {
    CloseKeys(s, StaleKeys(s, now))
  }

  /** The least recently used idle store, if any is idle; ties go to any of them. */
  predicate Oldest(s: Cache, victim: Option<string>)
    requires Wired(s)
  {
    match victim
    case None => IdleKeys(s) == {}
    case Some(k) =>
      k in IdleKeys(s)
      && forall j :: j in IdleKeys(s) ==> s.cells[s.entries[k]].used <= s.cells[s.entries[j]].used
  }

  /** Whether `victim` is what opening this key would evict. */
  predicate Picks(s: Cache, key: string, victim: Option<string>)
    requires Wired(s)
  {
    if key !in s.entries && |s.entries| >= s.maxOpen then Oldest(s, victim) else victim == None
  }

  function Evict(s: Cache, victim: Option<string>): Cache
    requires Wired(s)
  {
    if victim.Some? then CloseKeys(s, {victim.value}) else s
  }

  function Release(s: Cache, id: nat, now: int): Cache
    requires id in s.cells
  {
    var e := s.cells[id];
    var e' := e.(refs := if e.refs > 0 then e.refs - 1 else 0, used := now);
    var s' := s.(cells := s.cells[id := e']);
    if s.closed && Idle(e') then
      s'.(cells := s'.cells[id := e'.(store := Shut)],
          entries := if Mapped(s.entries, e, id) then s.entries - {e.key} else s.entries)
    else s'
  }

  function Join(s: Cache, id: nat, now: int): Cache
    requires id in s.cells
  {
    s.(cells := s.cells[id := s.cells[id].(refs := s.cells[id].refs + 1, used := now)],
       holders := s.holders[s.nextHolder := Holder(id, Waiter)], nextHolder := s.nextHolder + 1)
  }

  function Begin(s: Cache, key: string, now: int): Cache {
    s.(entries := s.entries[key := s.nextEntry],
       cells := s.cells[s.nextEntry := Entry(key, Pending, false, false, 1, now)],
       holders := s.holders[s.nextHolder := Holder(s.nextEntry, Opener)],
       nextEntry := s.nextEntry + 1, nextHolder := s.nextHolder + 1)
  }

  // ---- A store is closed only when idle ----

  lemma {:induction false} Unheld(s: Cache, id: nat)
    requires CacheInv(s) && id in s.cells && Idle(s.cells[id])
    ensures HoldersOf(s.holders, id) == {} && forall h :: h in s.holders ==> s.holders[h].entry != id
  {
    assert EntryOk(s, id);
    assert HoldersOf(s.holders, id) == {};
    forall h | h in s.holders ensures s.holders[h].entry != id {
      assert h in HoldersOf(s.holders, s.holders[h].entry);
    }
  }

  lemma {:induction false} CloseKeysKeeps(s: Cache, keys: set<string>)
    requires CacheInv(s) && keys <= IdleKeys(s)
    ensures CacheInv(CloseKeys(s, keys))
  {
    var s' := CloseKeys(s, keys);
    forall id | id in s'.cells ensures EntryOk(s', id) {
      assert EntryOk(s, id);
      CloseOne(s, keys, id);
    }
    forall h | h in s'.holders ensures HolderOk(s', h) {
      assert HolderOk(s, h);
      CloseSpares(s, keys, h);
    }
    forall h, g | Opening(s', h) && Opening(s', g) && s'.holders[h].entry == s'.holders[g].entry ensures h == g {
      assert Opening(s, h) && Opening(s, g);
    }
  }

  lemma {:induction false} CloseOne(s: Cache, keys: set<string>, id: nat)
    requires CacheInv(s) && keys <= IdleKeys(s) && id in s.cells
    ensures EntryOk(CloseKeys(s, keys), id)
  {
    assert EntryOk(s, id);
    if s.cells[id].key in keys && Mapped(s.entries, s.cells[id], id) {
      Unheld(s, id);
    }
  }

  lemma {:induction false} CloseSpares(s: Cache, keys: set<string>, h: nat)
    requires CacheInv(s) && keys <= IdleKeys(s) && h in s.holders
    ensures s.holders[h].entry in s.cells
    ensures CloseKeys(s, keys).cells[s.holders[h].entry] == s.cells[s.holders[h].entry]
  {
    var id := s.holders[h].entry;
    assert HolderOk(s, h);
    if s.cells[id].key in keys && Mapped(s.entries, s.cells[id], id) {
      Unheld(s, id);
      assert false;
    }
  }

  // ---- The locked sections as steps ----

  /** Give up a claim: a waiter that timed out or found an error, or a lease being closed. */
  function Leave(s: Cache, h: nat, now: int): Cache
    requires h in s.holders && s.holders[h].entry in s.cells
  {
    Release(s.(holders := s.holders - {h}), s.holders[h].entry, now)
  }

  function Finish(s: Cache, h: nat, ok: bool): Cache
    requires h in s.holders && s.holders[h].entry in s.cells
  {
    var id := s.holders[h].entry;
    var e := s.cells[id];
    if ok then
      s.(cells := s.cells[id := e.(store := Opened, ready := true)], holders := s.holders[h := Holder(id, Lease)])
    else
      s.(cells := s.cells[id := e.(ready := true, failed := true)], holders := s.holders - {h},
         entries := s.entries - {e.key})
  }

  function Shutdown(s: Cache): Cache
    requires Wired(s)
  {
    if s.closed then s else CloseKeys(s, IdleKeys(s)).(closed := true)
  }

  /** `victim` is the entry that eviction, if it comes to that, happens to pick among the oldest. */
  function Admit(s: Cache, key: string, now: int, victim: Option<string>): Cache
    requires Wired(s)
  {
    if key in s.entries then Join(s, s.entries[key], now)
    else
      var s' := if |s.entries| >= s.maxOpen then Evict(s, victim) else s;
      if |s'.entries| >= s.maxOpen then s' else Begin(s', key, now)
  }

  function Open(s: Cache, key: string, now: int, victim: Option<string>): Cache
    requires Wired(s) && Wired(Prune(s, now))
  {
    if s.closed then s else Admit(Prune(s, now), key, now, victim)
  }

  // ---- Each step keeps the invariant ----

  lemma {:induction false} PruneKeeps(s: Cache, now: int)
    requires CacheInv(s)
    ensures CacheInv(Prune(s, now))
  {
    CloseKeysKeeps(s, StaleKeys(s, now));
  }

  lemma {:induction false} EvictKeeps(s: Cache, victim: Option<string>)
    requires CacheInv(s) && (victim.Some? ==> victim.value in IdleKeys(s))
    ensures CacheInv(Evict(s, victim))
  {
    if victim.Some? {
      CloseKeysKeeps(s, {victim.value});
    }
  }

  lemma {:induction false} HolderAdded(holders: map<nat, Holder>, h: nat, x: Holder, id: nat)
    requires h !in holders
    ensures |HoldersOf(holders[h := x], id)| == |HoldersOf(holders, id)| + if x.entry == id then 1 else 0
  {
    if x.entry == id {
      assert HoldersOf(holders[h := x], id) == HoldersOf(holders, id) + {h};
    } else {
      assert HoldersOf(holders[h := x], id) == HoldersOf(holders, id);
    }
  }

  lemma {:induction false} HolderDropped(holders: map<nat, Holder>, h: nat, id: nat)
    requires h in holders
    ensures |HoldersOf(holders - {h}, id)| == |HoldersOf(holders, id)| - if holders[h].entry == id then 1 else 0
  {
    assert (holders - {h})[h := holders[h]] == holders;
    HolderAdded(holders - {h}, h, holders[h], id);
  }

  lemma {:induction false} JoinKeeps(s: Cache, id: nat, now: int)
    requires CacheInv(s) && id in s.cells && Mapped(s.entries, s.cells[id], id)
    ensures CacheInv(Join(s, id, now))
  {
    var s' := Join(s, id, now);
    assert s.nextHolder !in s.holders;
    forall i | i in s'.cells ensures EntryOk(s', i) {
      assert EntryOk(s, i);
      HolderAdded(s.holders, s.nextHolder, Holder(id, Waiter), i);
    }
    forall h | h in s'.holders ensures HolderOk(s', h) {
      if h in s.holders {
        assert HolderOk(s, h);
      }
    }
    forall h, g | Opening(s', h) && Opening(s', g) && s'.holders[h].entry == s'.holders[g].entry ensures h == g {
      assert Opening(s, h) && Opening(s, g);
    }
  }

  lemma {:induction false} BeginKeeps(s: Cache, key: string, now: int)
    requires CacheInv(s) && key !in s.entries && |s.entries| < s.maxOpen
    ensures CacheInv(Begin(s, key, now))
  {
    var s' := Begin(s, key, now);
    assert MapOk(s');
    assert EntriesOk(s') by {
      forall i | i in s'.cells ensures i < s'.nextEntry && EntryOk(s', i) {
        BeginEntry(s, key, now, i);
      }
    }
    BeginHolders(s, key, now);
    assert OneOpener(s') by {
      forall h, g | Opening(s', h) && Opening(s', g) && s'.holders[h].entry == s'.holders[g].entry ensures h == g {
        BeginOpeners(s, key, now, h, g);
      }
    }
  }

  lemma {:induction false} BeginHolders(s: Cache, key: string, now: int)
    requires CacheInv(s)
    ensures HoldersOk(Begin(s, key, now))
  {
    var s' := Begin(s, key, now);
    assert s.nextEntry !in s.cells;
    forall h | h in s'.holders ensures HolderOk(s', h) {
      if h != s.nextHolder {
        assert HolderOk(s, h);
      }
    }
  }

  lemma {:induction false} BeginEntry(s: Cache, key: string, now: int, i: nat)
    requires CacheInv(s) && key !in s.entries && i in Begin(s, key, now).cells
    ensures EntryOk(Begin(s, key, now), i)
  {
    assert s.nextHolder !in s.holders && s.nextEntry !in s.cells;
    HolderAdded(s.holders, s.nextHolder, Holder(s.nextEntry, Opener), i);
    if i in s.cells {
      assert EntryOk(s, i);
    }
  }

  lemma {:induction false} BeginOpeners(s: Cache, key: string, now: int, h: nat, g: nat)
    requires CacheInv(s)
    requires var s' := Begin(s, key, now);
             Opening(s', h) && Opening(s', g) && s'.holders[h].entry == s'.holders[g].entry
    ensures h == g
  {
    if h != s.nextHolder {
      assert Opening(s, h) && (h in HoldersOf(s.holders, s.nextEntry) || s.holders[h].entry != s.nextEntry);
    }
    if g != s.nextHolder {
      assert Opening(s, g) && (g in HoldersOf(s.holders, s.nextEntry) || s.holders[g].entry != s.nextEntry);
    }
  }

  lemma {:induction false} OpenKeeps(s: Cache, key: string, now: int, victim: Option<string>)
    requires CacheInv(s) && (victim.Some? ==> victim.value in IdleKeys(Prune(s, now)))
    ensures Wired(Prune(s, now)) && CacheInv(Open(s, key, now, victim))
  {
    PruneKeeps(s, now);
    if !s.closed {
      AdmitKeeps(Prune(s, now), key, now, victim);
    }
  }

  lemma {:induction false} AdmitKeeps(p: Cache, key: string, now: int, victim: Option<string>)
    requires CacheInv(p) && (victim.Some? ==> victim.value in IdleKeys(p))
    ensures CacheInv(Admit(p, key, now, victim))
  {
    if key in p.entries {
      JoinKeeps(p, p.entries[key], now);
    } else if |p.entries| < p.maxOpen {
      BeginKeeps(p, key, now);
    } else {
      EvictKeeps(p, victim);
      if |Evict(p, victim).entries| < p.maxOpen {
        BeginKeeps(Evict(p, victim), key, now);
      }
    }
  }

  lemma {:induction false} LeaveKeeps(s: Cache, h: nat, now: int)
    requires CacheInv(s) && h in s.holders && !s.holders[h].role.Opener?
    ensures s.holders[h].entry in s.cells && CacheInv(Leave(s, h, now))
  {
    assert HolderOk(s, h);
    var s' := Leave(s, h, now);
    assert MapOk(s');
    assert EntriesOk(s') by {
      forall i | i in s'.cells ensures i < s'.nextEntry && EntryOk(s', i) {
        assert EntryOk(s, i) && EntryOk(s, s.holders[h].entry);
        LeaveEntry(s, h, now, i);
      }
    }
    assert HoldersOk(s') by {
      forall g | g in s'.holders ensures g < s'.nextHolder && HolderOk(s', g) {
        assert HolderOk(s, g) && EntryOk(s, s.holders[g].entry);
        LeaveSpares(s, h, now, g);
      }
    }
    assert OneOpener(s') by {
      forall a, b | Opening(s', a) && Opening(s', b) && s'.holders[a].entry == s'.holders[b].entry ensures a == b {
        assert Opening(s, a) && Opening(s, b);
      }
    }
  }

  lemma {:induction false} LeaveEntry(s: Cache, h: nat, now: int, i: nat)
    requires h in s.holders && s.holders[h].entry in s.cells && i in s.cells
    requires EntryOk(s, i) && EntryOk(s, s.holders[h].entry)
    ensures EntryOk(Leave(s, h, now), i)
  {
    HolderDropped(s.holders, h, i);
  }

  /** Whoever still holds the entry keeps its store open. */
  lemma {:induction false} LeaveSpares(s: Cache, h: nat, now: int, g: nat)
    requires h in s.holders && g in s.holders && g != h && s.holders[h].entry in s.cells
    requires HolderOk(s, g) && EntryOk(s, s.holders[g].entry)
    ensures HolderOk(Leave(s, h, now), g)
  {
    var id := s.holders[h].entry;
    HolderDropped(s.holders, h, id);
    if s.holders[g].entry == id {
      assert g in HoldersOf(s.holders - {h}, id);
    }
  }

  lemma {:induction false} FinishKeeps(s: Cache, h: nat, ok: bool)
    requires CacheInv(s) && Opening(s, h)
    ensures s.holders[h].entry in s.cells && CacheInv(Finish(s, h, ok))
  {
    assert HolderOk(s, h);
    var s' := Finish(s, h, ok);
    FinishMap(s, h, ok);
    assert EntriesOk(s') by {
      forall i | i in s'.cells ensures i < s'.nextEntry && EntryOk(s', i) {
        FinishEntry(s, h, ok, i);
      }
    }
    assert HoldersOk(s') by {
      forall g | g in s'.holders ensures g < s'.nextHolder && HolderOk(s', g) {
        FinishHolder(s, h, ok, g);
      }
    }
    assert OneOpener(s') by {
      forall a, b | Opening(s', a) && Opening(s', b) && s'.holders[a].entry == s'.holders[b].entry ensures a == b {
        assert Opening(s, a) && Opening(s, b);
      }
    }
  }

  lemma {:induction false} FinishMap(s: Cache, h: nat, ok: bool)
    requires CacheInv(s) && Opening(s, h) && s.holders[h].entry in s.cells
    ensures Wired(Finish(s, h, ok))
  {
    assert HolderOk(s, h) && EntryOk(s, s.holders[h].entry);
  }

  lemma {:induction false} FinishEntry(s: Cache, h: nat, ok: bool, i: nat)
    requires CacheInv(s) && Opening(s, h) && s.holders[h].entry in s.cells && i in s.cells
    ensures EntryOk(Finish(s, h, ok), i)
  {
    assert HolderOk(s, h) && EntryOk(s, i);
    if ok {
      assert HoldersOf(s.holders[h := Holder(s.holders[h].entry, Lease)], i) == HoldersOf(s.holders, i);
      assert h in HoldersOf(s.holders, s.holders[h].entry);
    } else {
      FailEntry(s, h, i);
    }
  }

  lemma {:induction false} FailEntry(s: Cache, h: nat, i: nat)
    requires CacheInv(s) && Opening(s, h) && s.holders[h].entry in s.cells && i in s.cells
    ensures EntryOk(Finish(s, h, false), i)
  {
    assert HolderOk(s, h) && EntryOk(s, i) && EntryOk(s, s.holders[h].entry);
    HolderDropped(s.holders, h, i);
  }

  lemma {:induction false} FinishHolder(s: Cache, h: nat, ok: bool, g: nat)
    requires CacheInv(s) && Opening(s, h) && s.holders[h].entry in s.cells && g in Finish(s, h, ok).holders
    ensures HolderOk(Finish(s, h, ok), g)
  {
    assert HolderOk(s, g) && HolderOk(s, h) && EntryOk(s, s.holders[h].entry);
    assert g != h && Opening(s, g) ==> s.holders[g].entry != s.holders[h].entry;
  }

  lemma {:induction false} ShutdownKeeps(s: Cache)
    requires CacheInv(s)
    ensures CacheInv(Shutdown(s))
  {
    if !s.closed {
      var c, s' := CloseKeys(s, IdleKeys(s)), Shutdown(s);
      CloseKeysKeeps(s, IdleKeys(s));
      forall id | id in s'.cells ensures EntryOk(s', id) {
        assert EntryOk(c, id) && EntryOk(s, id);
      }
      forall h | h in s'.holders ensures HolderOk(s', h) {
        assert HolderOk(c, h);
      }
      forall a, b | Opening(s', a) && Opening(s', b) && s'.holders[a].entry == s'.holders[b].entry ensures a == b {
        assert Opening(c, a) && Opening(c, b);
      }
    }
  }

  // ---- Whole runs ----

  datatype Event =
    | OpenCall(key: string, now: int, victim: Option<string>)
    | OpenDone(h: nat, ok: bool)       // the opener is back from disk
    | Proceed(h: nat, now: int)        // a waiter sees that the entry is ready
    | GiveUp(h: nat, now: int)         // a waiter's context is done
    | CloseLease(h: nat, now: int)
    | CloseFactory

  predicate Plays(s: Cache, h: nat, role: Role) {
    h in s.holders && s.holders[h].role == role && s.holders[h].entry in s.cells
  }

  function Step(s: Cache, e: Event): (s': Cache)
    requires CacheInv(s)
    ensures CacheInv(s')
  {
    match e
    case OpenCall(key, now, victim) =>
      PruneKeeps(s, now);
      if s.closed || !Picks(Prune(s, now), key, victim) then s
      else OpenKeeps(s, key, now, victim); Open(s, key, now, victim)
    case OpenDone(h, ok) => if Plays(s, h, Opener) then FinishKeeps(s, h, ok); Finish(s, h, ok) else s
    case Proceed(h, now) =>
      if Plays(s, h, Waiter) && s.cells[s.holders[h].entry].ready then
        if s.cells[s.holders[h].entry].failed then LeaveKeeps(s, h, now); Leave(s, h, now)
        else TakeKeeps(s, h); Take(s, h)
      else s
    case GiveUp(h, now) => if Plays(s, h, Waiter) then LeaveKeeps(s, h, now); Leave(s, h, now) else s
    case CloseLease(h, now) => if Plays(s, h, Lease) then LeaveKeeps(s, h, now); Leave(s, h, now) else s
    case CloseFactory => ShutdownKeeps(s); Shutdown(s)
  }

  function Take(s: Cache, h: nat): Cache
    requires h in s.holders
  {
    s.(holders := s.holders[h := s.holders[h].(role := Lease)])
  }

  /** A waiter that finds the entry ready and unfailed gets a store that is open. */
  lemma {:induction false} TakeKeeps(s: Cache, h: nat)
    requires CacheInv(s) && Plays(s, h, Waiter)
    requires s.cells[s.holders[h].entry].ready && !s.cells[s.holders[h].entry].failed
    ensures CacheInv(Take(s, h))
  {
    var id, s' := s.holders[h].entry, Take(s, h);
    assert EntryOk(s, id) && h in HoldersOf(s.holders, id);
    assert EntriesOk(s') by {
      forall i | i in s'.cells ensures i < s'.nextEntry && EntryOk(s', i) {
        assert EntryOk(s, i);
        assert HoldersOf(s'.holders, i) == HoldersOf(s.holders, i);
      }
    }
    assert HoldersOk(s') by {
      forall g | g in s'.holders ensures g < s'.nextHolder && HolderOk(s', g) {
        assert HolderOk(s, g);
      }
    }
    assert OneOpener(s') by {
      forall a, b | Opening(s', a) && Opening(s', b) && s'.holders[a].entry == s'.holders[b].entry ensures a == b {
        assert Opening(s, a) && Opening(s, b);
      }
    }
  }

  function Run(s: Cache, events: seq<Event>): (s': Cache)
    requires CacheInv(s)
    ensures CacheInv(s')
  {
    if events == [] then s else Step(Run(s, events[..|events| - 1]), events[|events| - 1])
  }

  lemma {:induction false} EmptyGood(maxOpen: nat, idleFor: int)
    ensures CacheInv(Empty(maxOpen, idleFor))
  {
  }

  /** Lease safety over every interleaving: a lease's store is open; no key has two stores open or being
      opened; the cache never exceeds its bound; and once it is closed and the last claim is given up,
      no store is left open. */
  lemma {:induction false} LeasesAreSafe(maxOpen: nat, idleFor: int, events: seq<Event>)
    ensures CacheInv(Empty(maxOpen, idleFor))
    ensures var s := Run(Empty(maxOpen, idleFor), events);
            && (forall h :: Plays(s, h, Lease) ==> s.cells[s.holders[h].entry].store == Opened)
            && (forall a, b :: Current(s, a) && Current(s, b) && s.cells[a].key == s.cells[b].key ==> a == b)
            && |s.entries| <= s.maxOpen
            && (s.closed && s.holders == map[] ==> forall id :: id in s.cells ==> s.cells[id].store != Opened)
  {
    EmptyGood(maxOpen, idleFor);
    var s := Run(Empty(maxOpen, idleFor), events);
    forall h | Plays(s, h, Lease) ensures s.cells[s.holders[h].entry].store == Opened {
      assert HolderOk(s, h);
    }
    forall a, b | Current(s, a) && Current(s, b) && s.cells[a].key == s.cells[b].key ensures a == b {
      assert EntryOk(s, a) && EntryOk(s, b);
    }
    if s.closed && s.holders == map[] {
      forall id | id in s.cells ensures s.cells[id].store != Opened {
        assert EntryOk(s, id);
        assert HoldersOf(s.holders, id) == {};
      }
    }
  }

  /** An entry whose store is open or on its way. */
  predicate Current(s: Cache, id: nat) {
    id in s.cells && (s.cells[id].store == Opened || (s.cells[id].store == Pending && !s.cells[id].failed))
  }

  /** No entry is forgotten, no store is reopened, and none is closed before it was open. */
  predicate Tame(s: Cache, s': Cache) {
    forall id :: id in s.cells ==> id in s'.cells && TameEntry(s.cells[id], s'.cells[id])
  }

  predicate TameEntry(e: Entry, e': Entry) {
    (e.store == Shut ==> e'.store == Shut) && (e.store == Pending ==> e'.store != Shut)
  }

  lemma {:induction false} TameChain(a: Cache, b: Cache, c: Cache)
    requires Tame(a, b) && Tame(b, c) && PendingKept(a, b)
    ensures Tame(a, c)
  {
  }

  lemma {:induction false} CloseKeysTame(s: Cache, keys: set<string>)
    requires Wired(s) && keys <= IdleKeys(s)
    ensures Tame(s, CloseKeys(s, keys)) && PendingKept(s, CloseKeys(s, keys))
  {
  }

  lemma {:induction false} LeaveTame(s: Cache, h: nat, now: int)
    requires h in s.holders && s.holders[h].entry in s.cells
    ensures Tame(s, Leave(s, h, now))
  {
  }

  lemma {:induction false} FinishTame(s: Cache, h: nat, ok: bool)
    requires CacheInv(s) && Plays(s, h, Opener)
    ensures Tame(s, Finish(s, h, ok))
  {
    assert HolderOk(s, h) && EntryOk(s, s.holders[h].entry);
  }

  lemma {:induction false} AdmitTame(s: Cache, key: string, now: int, victim: Option<string>)
    requires Wired(s) && s.nextEntry !in s.cells && (victim.Some? ==> victim.value in IdleKeys(s))
    ensures Tame(s, Admit(s, key, now, victim)) && PendingKept(s, Admit(s, key, now, victim))
  {
    if key !in s.entries && |s.entries| >= s.maxOpen {
      EvictTame(s, victim);
    }
  }

  predicate PendingKept(s: Cache, s': Cache) {
    forall id :: id in s.cells && s.cells[id].store == Pending ==> id in s'.cells && s'.cells[id].store == Pending
  }

  lemma {:induction false} EvictTame(s: Cache, victim: Option<string>)
    requires Wired(s) && (victim.Some? ==> victim.value in IdleKeys(s))
    ensures Tame(s, Evict(s, victim)) && Evict(s, victim).cells.Keys == s.cells.Keys
    ensures PendingKept(s, Evict(s, victim))
  {
    if victim.Some? {
      CloseKeysTame(s, {victim.value});
    }
  }

  lemma {:induction false} OpenTame(s: Cache, key: string, now: int, victim: Option<string>)
    requires CacheInv(s) && CacheInv(Prune(s, now)) && !s.closed
    requires victim.Some? ==> victim.value in IdleKeys(Prune(s, now))
    ensures Tame(s, Open(s, key, now, victim))
  {
    CloseKeysTame(s, StaleKeys(s, now));
    assert s.nextEntry !in s.cells;
    AdmitTame(Prune(s, now), key, now, victim);
    TameChain(s, Prune(s, now), Open(s, key, now, victim));
  }

  lemma {:induction false} StepTame(s: Cache, e: Event)
    requires CacheInv(s)
    ensures Tame(s, Step(s, e))
  {
    match e
    case OpenCall(key, now, victim) =>
      PruneKeeps(s, now);
      if !s.closed && Picks(Prune(s, now), key, victim) {
        OpenTame(s, key, now, victim);
      }
    case OpenDone(h, ok) =>
      if Plays(s, h, Opener) {
        FinishTame(s, h, ok);
      }
    case Proceed(h, now) =>
      if Plays(s, h, Waiter) {
        LeaveTame(s, h, now);
      }
    case GiveUp(h, now) =>
      if Plays(s, h, Waiter) {
        LeaveTame(s, h, now);
      }
    case CloseLease(h, now) =>
      if Plays(s, h, Lease) {
        LeaveTame(s, h, now);
      }
    case CloseFactory =>
      CloseKeysTame(s, IdleKeys(s));
  }

  lemma {:induction false} ShutUnheld(s: Cache, id: nat)
    requires CacheInv(s) && id in s.cells && s.cells[id].store == Shut
    ensures HoldersOf(s.holders, id) == {}
  {
    assert EntryOk(s, id);
  }

  /** A store is closed at most once, by a step that leaves it without a claim; it is never reopened. */
  lemma {:induction false} ClosedOnceUnheld(s: Cache, e: Event, id: nat)
    requires CacheInv(s) && id in s.cells
    ensures var s' := Step(s, e);
            && id in s'.cells
            && (s.cells[id].store == Shut ==> s'.cells[id].store == Shut)
            && (s'.cells[id].store == Shut && s.cells[id].store != Shut ==>
                  s.cells[id].store == Opened && HoldersOf(s'.holders, id) == {})
  {
    StepTame(s, e);
    if Step(s, e).cells[id].store == Shut {
      ShutUnheld(Step(s, e), id);
    }
  }

  // ---- The factory object ----

  datatype OpenResult = FactoryClosed | Unavailable | WaitFor(entry: nat) | OpenIt(entry: nat)

  class Factory {
    var entries: map<string, nat>
    var cells: map<nat, Entry>
    var closed: bool
    const maxOpen: nat
    const idleFor: int
    ghost var holders: map<nat, Holder>
    var nextEntry: nat
    ghost var nextHolder: nat

    ghost function State(): Cache
      reads this
    {
      Cache(entries, cells, closed, maxOpen, idleFor, holders, nextEntry, nextHolder)
    }

    ghost predicate Valid()
      reads this
    {
      CacheInv(State())
    }

    constructor (maxOpen: nat, idleFor: int)
      ensures Valid() && State() == Empty(maxOpen, idleFor)
    {
      this.maxOpen, this.idleFor := maxOpen, idleFor;
      entries, cells, closed, holders, nextEntry, nextHolder := map[], map[], false, map[], 0, 0;
      new;
      EmptyGood(maxOpen, idleFor);
    }

    /** Closing a store that is not open, or that someone still holds, would be a fault. */
    method CloseStore(key: string)
      requires Wired(State()) && key in IdleKeys(State()) && HoldersOf(holders, entries[key]) == {}
      modifies this`entries, this`cells
      ensures State() == CloseKeys(old(State()), {key})
    {
      var id := entries[key];
      cells := cells[id := cells[id].(store := Shut)];
      entries := entries - {key};
    }

    /** One more idle store of a sweep that began in state s and has closed `done`. */
    method CloseNext(ghost s: Cache, ghost done: set<string>, key: string)
      requires Wired(s) && key in IdleKeys(s) && key !in done && HoldersOf(s.holders, s.entries[key]) == {}
      requires holders == s.holders && entries == s.entries - done && cells == CloseKeys(s, done).cells
      modifies this`entries, this`cells
      ensures entries == s.entries - (done + {key}) && cells == CloseKeys(s, done + {key}).cells
    {
      CloseMore(s, done, key);
      CloseStore(key);
    }

    method PruneStale(now: int)
      requires Wired(State()) && IdleUnheld(State())
      modifies this`entries, this`cells
      ensures State() == Prune(old(State()), now)
    {
      ghost var s, stale := State(), StaleKeys(State(), now);
      var pending := entries.Keys;
      ghost var done: set<string> := {};
      while pending != {}
        invariant pending <= s.entries.Keys && done <= stale <= done + pending && done !! pending
        invariant entries == s.entries - done && cells == CloseKeys(s, done).cells
        decreases pending
      {
        var key :| key in pending;
        pending := pending - {key};
        CloseMore(s, done, key);
        if IsStale(cells[entries[key]], now, idleFor) {
          CloseNext(s, done, key);
          done := done + {key};
        }
      }
      assert done == stale;
    }

    method FindOldest() returns (victim: Option<string>)
      requires Wired(State())
      ensures Oldest(State(), victim)
    {
      victim := None;
      var pending := entries.Keys;
      while pending != {}
        invariant pending <= entries.Keys
        invariant victim.None? ==> IdleKeys(State()) <= pending
        invariant victim.Some? ==> victim.value in IdleKeys(State())
        invariant victim.Some? ==> forall j :: j in IdleKeys(State()) && j !in pending ==>
          cells[entries[victim.value]].used <= cells[entries[j]].used
        decreases pending
      {
        var key :| key in pending;
        pending := pending - {key};
        var entry := cells[entries[key]];
        if entry.store != Opened || entry.refs != 0
           || (victim.Some? && !(entry.used < cells[entries[victim.value]].used)) {
          continue;
        }
        victim := Some(key);
      }
    }

    method EvictOne() returns (victim: Option<string>)
      requires Wired(State()) && IdleUnheld(State())
      modifies this`entries, this`cells
      ensures Oldest(old(State()), victim) && State() == Evict(old(State()), victim)
    {
      victim := FindOldest();
      if victim.Some? {
        CloseStore(victim.value);
      }
    }

    /** The part of the first locked section of `Open` after pruning. */
    method AdmitCaller(key: string, now: int) returns (result: OpenResult, victim: Option<string>)
      requires Wired(State()) && IdleUnheld(State())
      modifies this
      ensures Picks(old(State()), key, victim) && State() == Admit(old(State()), key, now, victim)
      ensures Answered(old(State()), State(), result) && result != FactoryClosed && closed == old(closed)
    {
      victim := None;
      if key in entries {
        JoinEntry(entries[key], now);
        return WaitFor(entries[key]), None;
      }
      if |entries| >= maxOpen {
        victim := EvictOne();
      }
      if |entries| >= maxOpen {
        return Unavailable, victim;
      }
      var id := NewEntry(key, now);
      return OpenIt(id), victim;
    }

    method JoinEntry(id: nat, now: int)
      requires id in cells
      modifies this
      ensures State() == Join(old(State()), id, now)
    {
      cells := cells[id := cells[id].(refs := cells[id].refs + 1, used := now)];
      holders := holders[nextHolder := Holder(id, Waiter)];
      nextHolder := nextHolder + 1;
    }

    method NewEntry(key: string, now: int) returns (id: nat)
      modifies this
      ensures State() == Begin(old(State()), key, now) && id == old(nextEntry)
    {
      id := nextEntry;
      cells := cells[id := Entry(key, Pending, false, false, 1, now)];
      entries := entries[key := id];
      holders := holders[nextHolder := Holder(id, Opener)];
      nextEntry, nextHolder := nextEntry + 1, nextHolder + 1;
    }

    method BeginOpen(key: string, now: int) returns (result: OpenResult, victim: Option<string>)
      requires Valid()
      modifies this
      ensures Valid() && State() == Step(old(State()), OpenCall(key, now, victim))
      ensures old(closed) <==> result == FactoryClosed
      ensures Answered(old(State()), State(), result)
    {
      ghost var s := State();
      IdleIsUnheld(s);
      if closed {
        OpenClosed(s, key, now, None);
        return FactoryClosed, None;
      }
      PruneStale(now);
      PruneKeeps(s, now);
      ghost var p := State();
      IdleIsUnheld(p);
      result, victim := AdmitCaller(key, now);
      OpenPicked(s, key, now, victim);
    }

    /** The second locked section, when the opener is back. */
    method FinishOpen(ghost h: nat, id: nat, ok: bool)
      requires Valid() && Plays(State(), h, Opener) && holders[h].entry == id
      modifies this
      ensures Valid() && State() == Step(old(State()), OpenDone(h, ok))
    {
      FinishKeeps(State(), h, ok);
      SetFinished(h, id, ok);
    }

    method SetFinished(ghost h: nat, id: nat, ok: bool)
      requires h in holders && holders[h].entry == id && id in cells
      modifies this
      ensures State() == Finish(old(State()), h, ok)
    {
      var entry := cells[id];
      if ok {
        cells := cells[id := entry.(store := Opened, ready := true)];
        holders := holders[h := Holder(id, Lease)];
      } else {
        cells := cells[id := entry.(ready := true, failed := true)];
        entries := entries - {entry.key};
        holders := holders - {h};
      }
    }

    /** A lease's `Close`, or a waiter that gives up or finds an error. */
    method ReleaseClaim(ghost h: nat, id: nat, now: int)
      requires Valid() && h in holders && holders[h].entry == id && !holders[h].role.Opener? && id in cells
      modifies this
      ensures Valid() && State() == Leave(old(State()), h, now)
    {
      LeaveKeeps(State(), h, now);
      ReleasedUnheld(State(), h);
      holders := holders - {h};
      DropReference(id, now);
    }

    method DropReference(id: nat, now: int)
      requires id in cells && Wired(State())
      requires closed && cells[id].refs <= 1 && cells[id].store == Opened ==> HoldersOf(holders, id) == {}
      modifies this`cells, this`entries
      ensures State() == Release(old(State()), id, now)
    {
      var entry := cells[id];
      if entry.refs > 0 {
        entry := entry.(refs := entry.refs - 1);
      }
      entry := entry.(used := now);
      cells := cells[id := entry];
      if closed && entry.refs == 0 && entry.store == Opened {
        cells := cells[id := entry.(store := Shut)];
        // Look for the entry in the map and drop it.
        var pending := entries.Keys;
        while pending != {}
          invariant pending <= entries.Keys && entries == old(entries)
          invariant forall k :: k in entries && k !in pending ==> entries[k] != id
          decreases pending
        {
          var key :| key in pending;
          pending := pending - {key};
          if entries[key] == id {
            entries := entries - {key};
            break;
          }
        }
      }
    }

    /** Close every idle store; stores in use are closed by their last release. */
    method Close()
      requires Valid()
      modifies this
      ensures Valid() && State() == Step(old(State()), CloseFactory)
    {
      ghost var s := State();
      ShutdownKeeps(s);
      IdleIsUnheld(s);
      if closed {
        return;
      }
      closed := true;
      CloseIdle();
    }

    method CloseIdle()
      requires Wired(State()) && IdleUnheld(State())
      modifies this`entries, this`cells
      ensures State() == CloseKeys(old(State()), IdleKeys(old(State())))
    {
      ghost var s, idle := State(), IdleKeys(State());
      var pending := entries.Keys;
      ghost var done: set<string> := {};
      while pending != {}
        invariant pending <= s.entries.Keys && done <= idle <= done + pending && done !! pending
        invariant entries == s.entries - done && cells == CloseKeys(s, done).cells
        decreases pending
      {
        var key :| key in pending;
        pending := pending - {key};
        CloseMore(s, done, key);
        if Idle(cells[entries[key]]) {
          CloseNext(s, done, key);
          done := done + {key};
        }
      }
      assert done == idle;
    }
  }

  /** What the caller of `Open` is told, and the claim it now has. */
  predicate Answered(s: Cache, s': Cache, result: OpenResult) {
    match result
    case WaitFor(id) => Plays(s', s.nextHolder, Waiter) && s'.holders[s.nextHolder].entry == id
    case OpenIt(id) => Plays(s', s.nextHolder, Opener) && s'.holders[s.nextHolder].entry == id
    case _ => s'.holders == s.holders
  }

  predicate IdleUnheld(s: Cache)
    requires Wired(s)
  {
    forall k :: k in IdleKeys(s) ==> HoldersOf(s.holders, s.entries[k]) == {}
  }

  lemma {:induction false} IdleIsUnheld(s: Cache)
    requires CacheInv(s)
    ensures IdleUnheld(s)
  {
    forall k | k in IdleKeys(s) ensures HoldersOf(s.holders, s.entries[k]) == {} {
      Unheld(s, s.entries[k]);
    }
  }

  lemma {:induction false} OpenClosed(s: Cache, key: string, now: int, victim: Option<string>)
    requires CacheInv(s) && s.closed
    ensures Step(s, OpenCall(key, now, victim)) == s
  {
  }

  lemma {:induction false} OpenPicked(s: Cache, key: string, now: int, victim: Option<string>)
    requires CacheInv(s) && !s.closed && Wired(Prune(s, now)) && Picks(Prune(s, now), key, victim)
    ensures Step(s, OpenCall(key, now, victim)) == Admit(Prune(s, now), key, now, victim)
  {
  }

  /** The last reference to go leaves no other holder. */
  lemma {:induction false} ReleasedUnheld(s: Cache, h: nat)
    requires CacheInv(s) && h in s.holders && s.holders[h].entry in s.cells
    ensures var id := s.holders[h].entry;
            s.cells[id].refs <= 1 && s.cells[id].store == Opened ==> HoldersOf(s.holders - {h}, id) == {}
  {
    var id := s.holders[h].entry;
    assert EntryOk(s, id);
    HolderDropped(s.holders, h, id);
    if |HoldersOf(s.holders - {h}, id)| == 0 {
      assert HoldersOf(s.holders - {h}, id) == {};
    }
  }

  lemma {:induction false} CloseMore(s: Cache, done: set<string>, key: string)
    requires Wired(s) && key in s.entries && key !in done
    ensures CloseKeys(CloseKeys(s, done), {key}) == CloseKeys(s, done + {key})
    ensures key in CloseKeys(s, done).entries && CloseKeys(s, done).entries[key] == s.entries[key]
    ensures CloseKeys(s, done).cells[s.entries[key]] == s.cells[s.entries[key]] && Wired(CloseKeys(s, done))
  {
    assert s.entries - done - {key} == s.entries - (done + {key});
  }
}
