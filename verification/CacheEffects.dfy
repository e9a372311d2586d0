/** What each step of the store cache does: which stores it closes, what an open call is answered, and when
    a store counts as last used. */
module CacheEffects {
  import opened Wrappers
  import opened StoreCache

  // ---- Which stores are pruned ----

  /** Open, in the map, referenced by nobody, and untouched for the whole idle time. */
  predicate Expendable(s: Cache, key: string, now: int)
    requires Wired(s) && key in s.entries
  {
    var e := s.cells[s.entries[key]];
    e.store == Opened && e.refs == 0 && now - e.used >= s.idleFor
  }

  lemma {:induction false} PruneClosesIff(s: Cache, now: int, key: string)
    requires CacheInv(s) && key in s.entries
    ensures var p, id := Prune(s, now), s.entries[key];
            && (key in p.entries <==> !Expendable(s, key, now))
            && (key in p.entries ==> p.entries[key] == id)
            && id in p.cells
            && p.cells[id] == if Expendable(s, key, now) then s.cells[id].(store := Shut) else s.cells[id]
  {
  }

  lemma {:induction false} PruneSpares(s: Cache, now: int)
    requires CacheInv(s)
    ensures var p := Prune(s, now);
            && p.entries.Keys <= s.entries.Keys && p.cells.Keys == s.cells.Keys && p.holders == s.holders
            && p.closed == s.closed && p.maxOpen == s.maxOpen && p.idleFor == s.idleFor
            && p.nextEntry == s.nextEntry && p.nextHolder == s.nextHolder
            && forall id :: id in s.cells && !Mapped(s.entries, s.cells[id], id) ==> p.cells[id] == s.cells[id]
  {
  }

  // ---- What an open call is answered ----

  /** The caller has joined this entry, as a waiter for it. */
  predicate Joins(p: Cache, s': Cache, id: nat, now: int) {
    && id in p.cells && s'.entries == p.entries
    && s'.cells == p.cells[id := p.cells[id].(refs := p.cells[id].refs + 1, used := now)]
    && s'.holders == p.holders[p.nextHolder := Holder(id, Waiter)]
  }

  /** The caller opens the store itself, under a new entry; one idle store may have made way for it. */
  ghost predicate Starts(p: Cache, s': Cache, key: string, gone: Option<string>, now: int) {
    && s'.holders == p.holders[p.nextHolder := Holder(p.nextEntry, Opener)]
    && key in s'.entries && s'.entries[key] == p.nextEntry && p.nextEntry in s'.cells
    && s'.cells[p.nextEntry] == Entry(key, Pending, false, false, 1, now)
    && (forall k :: k != key ==> (k in s'.entries <==> k in p.entries && gone != Some(k)))
    && (forall k :: k != key && k in s'.entries ==> s'.entries[k] == p.entries[k])
  }

  /** The least recently used idle store has been closed to make room. */
  predicate MadeWay(p: Cache, s': Cache, victim: Option<string>)
    requires Wired(p)
  {
    && victim.Some? && victim.value in IdleKeys(p)
    && (forall k :: k in IdleKeys(p) ==> p.cells[p.entries[victim.value]].used <= p.cells[p.entries[k]].used)
    && p.entries[victim.value] in s'.cells && s'.cells[p.entries[victim.value]].store == Shut
  }

  ghost predicate AnswerTo(p: Cache, s': Cache, key: string, now: int, victim: Option<string>)
    requires Wired(p)
  {
    if key in p.entries then Joins(p, s', p.entries[key], now)
    else if |p.entries| < p.maxOpen then Starts(p, s', key, None, now)
    else if IdleKeys(p) != {} then MadeWay(p, s', victim) && Starts(p, s', key, victim, now)
    else s' == p
  }

  /** After pruning, a caller joins the entry of its key if there is one. Otherwise it gets a new one, for which the
      least recently used idle store makes way if the cache is full; it is turned away only if none is idle. */
  lemma {:induction false} OpenAnswers(s: Cache, key: string, now: int, victim: Option<string>)
    requires CacheInv(s) && !s.closed && Wired(Prune(s, now)) && Picks(Prune(s, now), key, victim)
    ensures AnswerTo(Prune(s, now), Step(s, OpenCall(key, now, victim)), key, now, victim)
  {
    OpenPicked(s, key, now, victim);
    PruneKeeps(s, now);
    AdmitAnswers(Prune(s, now), key, now, victim);
  }

  lemma {:induction false} AdmitAnswers(p: Cache, key: string, now: int, victim: Option<string>)
    requires CacheInv(p) && Picks(p, key, victim)
    ensures AnswerTo(p, Admit(p, key, now, victim), key, now, victim)
  {
    if key !in p.entries && |p.entries| >= p.maxOpen && victim.Some? {
      EvictAnswers(p, key, now, victim.value);
    }
  }

  lemma {:induction false} EvictAnswers(p: Cache, key: string, now: int, victim: string)
    requires CacheInv(p) && key !in p.entries && |p.entries| >= p.maxOpen && victim in IdleKeys(p)
    ensures var s' := Admit(p, key, now, Some(victim));
            && Starts(p, s', key, Some(victim), now)
            && p.entries[victim] in s'.cells && s'.cells[p.entries[victim]].store == Shut
  {
    DropOneKey(p.entries, victim);
    assert p.entries[victim] < p.nextEntry;
    var q := Evict(p, Some(victim));
    assert q.entries == p.entries - {victim} && q.maxOpen == p.maxOpen && q.nextEntry == p.nextEntry;
    assert Admit(p, key, now, Some(victim)) == Begin(q, key, now);
  }

  lemma {:induction false} DropOneKey(m: map<string, nat>, k: string)
    requires k in m
    ensures |m - {k}| == |m| - 1
  {
    assert (m - {k}).Keys == m.Keys - {k};
    assert |(m - {k}).Keys| == |m.Keys| - 1;
  }

  // ---- The other steps ----

  /** A finished open turns its caller into a lease of an open store, or takes entry and caller away. */
  lemma {:induction false} OpenEnds(s: Cache, h: nat, ok: bool)
    requires CacheInv(s) && Plays(s, h, Opener)
    ensures Ended(s, Step(s, OpenDone(h, ok)), h, s.holders[h].entry, ok)
  {
    FinishKeeps(s, h, ok);
    assert EntryOk(s, s.holders[h].entry) && HolderOk(s, h);
    assert Step(s, OpenDone(h, ok)) == Finish(s, h, ok);
  }

  predicate Ended(s: Cache, s': Cache, h: nat, id: nat, ok: bool)
    requires id in s.cells
  {
    && s'.cells == s.cells[id := s.cells[id].(store := if ok then Opened else Pending, ready := true, failed := !ok)]
    && s'.holders == (if ok then s.holders[h := Holder(id, Lease)] else s.holders - {h})
    && s'.entries == if ok then s.entries else s.entries - {s.cells[id].key}
  }

  /** A waiter that sees its entry ready gets the lease, or goes if the open has failed. */
  lemma {:induction false} WaiterGets(s: Cache, h: nat, now: int)
    requires CacheInv(s) && Plays(s, h, Waiter)
    ensures var id, s' := s.holders[h].entry, Step(s, Proceed(h, now));
            if !s.cells[id].ready then s' == s
            else if s.cells[id].failed then h !in s'.holders
            else s' == s.(holders := s.holders[h := Holder(id, Lease)]) && s.cells[id].store == Opened
  {
    assert EntryOk(s, s.holders[h].entry);
    assert h in HoldersOf(s.holders, s.holders[h].entry);
  }

  /** Who lets go gives back one reference and stamps the entry. Its store is closed if that was the last reference
      and the factory is closed, and only then. */
  lemma {:induction false} LeavingDrops(s: Cache, h: nat, now: int)
    requires CacheInv(s) && h in s.holders && !s.holders[h].role.Opener?
    ensures s.holders[h].entry in s.cells
    ensures var id, s' := s.holders[h].entry, Leave(s, h, now);
            var e, e' := s.cells[id], s'.cells[id];
            && s'.holders == s.holders - {h} && e'.used == now
            && (e.refs > 0 ==> e'.refs == e.refs - 1)
            && (e'.store != e.store <==> s.closed && e.store == Opened && e.refs == 1)
            && (forall i :: i in s.cells && i != id ==> s'.cells[i] == s.cells[i])
            && s'.closed == s.closed
  {
    LeaveKeeps(s, h, now);
    assert EntryOk(s, s.holders[h].entry);
    assert h in HoldersOf(s.holders, s.holders[h].entry);
  }

  /** Closing the factory closes exactly the idle stores, once. */
  lemma {:induction false} ShutdownCloses(s: Cache)
    requires CacheInv(s)
    ensures var s' := Step(s, CloseFactory);
            && s'.closed && s'.holders == s.holders && s'.cells.Keys == s.cells.Keys
            && (s.closed ==> s' == s)
            && (forall id :: id in s.cells ==>
                  s'.cells[id].store == if s.cells[id].store == Opened && s.cells[id].refs == 0 then Shut else s.cells[id].store)
  {
    forall id | id in s.cells
      ensures s.cells[id].store == Opened ==> Mapped(s.entries, s.cells[id], id) && (s.closed ==> s.cells[id].refs > 0)
    {
      assert EntryOk(s, id);
    }
  }
}
