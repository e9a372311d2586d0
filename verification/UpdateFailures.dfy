/** Runs of the updater from a fresh installation that end in each kind of fatal step. */
module UpdateFailures {
  import opened Wrappers
  import opened UpdateRecovery

  function Dos(n: nat): seq<Event> {
    if n == 0 then [] else Dos(n - 1) + [Do(Done)]
  }

  lemma {:induction false} RunSnoc(m: Machine, events: seq<Event>, event: Event)
    ensures RunAll(m, events + [event]) == Step(RunAll(m, events), event)
  {
    assert (events + [event])[..|events + [event]| - 1] == events;
  }

  lemma {:induction false} RunDos(m: Machine, events: seq<Event>, n: nat)
    ensures RunAll(m, events + Dos(n)) == Dones(RunAll(m, events), n)
  {
    if n == 0 {
      assert events + Dos(0) == events;
    } else {
      RunDos(m, events, n - 1);
      RunSnoc(m, events + Dos(n - 1), Do(Done));
      assert events + Dos(n) == events + Dos(n - 1) + [Do(Done)];
    }
  }

  const FIRST := Installed([])

  const NEW_DISK := Disk(New, Some(Old), Some(ACTIVATED), [], Some([]))

  lemma {:induction false} Staged(m: Machine)
    requires m == Machine(Disk(Old, None, None, [], None), TakeBackup, 0)
    ensures Dones(m, 3) == Machine(NEW_DISK.(exe := Old, prev := Some(New), marker := Some(PREPARED)), Swap, 0)
  {
    assert Dones(m, 1) == Machine(m.disk.(backup := Some([])), StagePrevious, 0);
    assert Dones(m, 2) == Machine(NEW_DISK.(exe := Old, prev := Some(New), marker := None), WritePrepared, 0);
  }

  lemma {:induction false} Swapped(m: Machine)
    requires m == Machine(Disk(Old, None, None, [], None), TakeBackup, 0)
    ensures Dones(m, 6) == Machine(NEW_DISK, SyncActivated, 0)
  {
    Staged(m);
    assert Dones(m, 4) == Machine(NEW_DISK.(marker := Some(PREPARED)), VerifySwapped, 0);
    assert Dones(m, 5) == Machine(NEW_DISK.(marker := Some(PREPARED)), WriteActivated, 0);
  }

  /** Six operations into the first activation, everything but the last sync is done. */
  lemma {:induction false} Activating()
    ensures RunAll(FIRST, [StartUpdate] + Dos(6)) == Machine(NEW_DISK, SyncActivated, 0)
  {
    RunSnoc(FIRST, [], StartUpdate);
    assert [] + [StartUpdate] == [StartUpdate];
    RunDos(FIRST, [StartUpdate], 6);
    Swapped(RunAll(FIRST, [StartUpdate]));
  }

  lemma {:induction false} MarkerKept() returns (events: seq<Event>)
    ensures events == [StartUpdate] + Dos(6) + [Do(Failed)] + [Do(Done)] + [Do(Failed)]
    ensures RunAll(FIRST, events) == Machine(NEW_DISK.(exe := Old, prev := Some(New)), UndoPrevious, 0)
  {
    var before := [StartUpdate] + Dos(6);
    events := before + [Do(Failed)] + [Do(Done)] + [Do(Failed)];
    Activating();
    RunSnoc(FIRST, before, Do(Failed));
    RunSnoc(FIRST, before + [Do(Failed)], Do(Done));
    RunSnoc(FIRST, before + [Do(Failed)] + [Do(Done)], Do(Failed));
  }

  /** The exchange is undone and the marker stays: the other executable goes, and nothing starts any more. */
  lemma {:induction false} MarkerStays() returns (kept: seq<Event>, events: seq<Event>)
    ensures kept == [StartUpdate] + Dos(6) + [Do(Failed)] + [Do(Done)] + [Do(Failed)]
    ensures events == kept + [Do(Done)]
    ensures forall healthy, n :: !Proceed(RunAll(FIRST, events), healthy, n).pc.Serving?
  {
    kept := MarkerKept();
    events := kept + [Do(Done)];
    RunSnoc(FIRST, kept, Do(Done));
    var m := RunAll(FIRST, events);
    forall healthy, n ensures !Proceed(m, healthy, n).pc.Serving? {
      NeverServes(m, healthy, n);
    }
  }

  predicate Dead(m: Machine) {
    && m.disk.prev.None? && m.disk.exe.Old? && m.disk.marker == Some(ACTIVATED)
    && (m.pc.Down? || m.pc == Booting(Old) || m.pc.CheckFiles?)
  }

  lemma {:induction false} NeverServes(m: Machine, healthy: bool, n: nat)
    requires Dead(m)
    ensures !Proceed(m, healthy, n).pc.Serving?
    decreases n
  {
    if n > 0 {
      NeverServes(Step(m, Next(m, healthy)), healthy, n - 1);
    }
  }

  lemma {:induction false} MarkerGone() returns (events: seq<Event>)
    ensures events == [StartUpdate] + Dos(6) + [Do(Failed)] + [Do(Failed)] + [Do(Done)]
    ensures RunAll(FIRST, events) == Machine(NEW_DISK.(marker := None), UndoPrevious, 0)
  {
    var before := [StartUpdate] + Dos(6);
    events := before + [Do(Failed)] + [Do(Failed)] + [Do(Done)];
    Activating();
    RunSnoc(FIRST, before, Do(Failed));
    RunSnoc(FIRST, before + [Do(Failed)], Do(Failed));
    RunSnoc(FIRST, before + [Do(Failed)] + [Do(Failed)], Do(Done));
  }

  /** The exchange cannot be undone and the marker goes: the new binary serves without a trial. */
  lemma {:induction false} ExchangeStays() returns (gone: seq<Event>, events: seq<Event>)
    ensures gone == [StartUpdate] + Dos(6) + [Do(Failed)] + [Do(Failed)] + [Do(Done)]
    ensures events == gone + [Do(Done)] + [Start] + [Do(Done)]
    ensures var m := RunAll(FIRST, events); m.pc == Serving(New) && m.trials == 0 && m.disk.prev.None?
  {
    gone := MarkerGone();
    events := gone + [Do(Done)] + [Start] + [Do(Done)];
    RunSnoc(FIRST, gone, Do(Done));
    RunSnoc(FIRST, gone + [Do(Done)], Start);
    RunSnoc(FIRST, gone + [Do(Done)] + [Start], Do(Done));
  }

  lemma {:induction false} Trying(m: Machine)
    requires m == Machine(NEW_DISK, SyncActivated, 0)
    ensures Dones(m, 4) == Machine(NEW_DISK.(marker := Some(Marker(Activated, 1))),
                                   Trial(Recovery(Marker(Activated, 1), false)), 1)
  {
    assert Dones(m, 1) == Machine(NEW_DISK, ExecNew(Recovery(ACTIVATED, false)), 0);
    assert Dones(m, 2) == Machine(NEW_DISK, Booting(New), 0);
    assert Dones(m, 3) == Machine(NEW_DISK, CountAttempt(ACTIVATED), 0);
  }

  lemma {:induction false} OnTrialReached() returns (events: seq<Event>)
    ensures events == [StartUpdate] + Dos(6) + Dos(4)
    ensures RunAll(FIRST, events) == Machine(NEW_DISK.(marker := Some(Marker(Activated, 1))),
                                             Trial(Recovery(Marker(Activated, 1), false)), 1)
  {
    events := [StartUpdate] + Dos(6) + Dos(4);
    Activating();
    RunDos(FIRST, [StartUpdate] + Dos(6), 4);
    Trying(Machine(NEW_DISK, SyncActivated, 0));
  }

  /** The new binary has been confirmed half-way: its marker is gone, and it has written data. */
  lemma {:induction false} HalfConfirmed() returns (events: seq<Event>)
    ensures events == [StartUpdate] + Dos(6) + Dos(4) + [Write] + [Probe(true)] + [Do(Done)]
    ensures RunAll(FIRST, events)
         == Machine(NEW_DISK.(marker := None, data := [New]), SyncCleared(Recovery(Marker(Activated, 1), false)), 1)
  {
    var trial := OnTrialReached();
    events := trial + [Write] + [Probe(true)] + [Do(Done)];
    RunSnoc(FIRST, trial, Write);
    RunSnoc(FIRST, trial + [Write], Probe(true));
    RunSnoc(FIRST, trial + [Write] + [Probe(true)], Do(Done));
  }

  /** The rest of the confirmation fails, and the rollback that follows crashes between its two exchanges: the
      old binary serves data that the new one has written. */
  lemma {:induction false} ConfirmationFails() returns (confirmed: seq<Event>, events: seq<Event>)
    ensures confirmed == [StartUpdate] + Dos(6) + Dos(4) + [Write] + [Probe(true)] + [Do(Done)]
    ensures events == confirmed + [Do(Failed)] + [Do(Done)] + [Do(Done)] + [Crash] + [Start] + [Do(Done)]
    ensures var m := RunAll(FIRST, events); m.pc == Serving(Old) && New in m.disk.data
  {
    confirmed := HalfConfirmed();
    var exchanged := confirmed + [Do(Failed)] + [Do(Done)] + [Do(Done)];
    events := exchanged + [Crash] + [Start] + [Do(Done)];
    RunSnoc(FIRST, confirmed, Do(Failed));
    RunSnoc(FIRST, confirmed + [Do(Failed)], Do(Done));
    RunSnoc(FIRST, confirmed + [Do(Failed)] + [Do(Done)], Do(Done));
    RunSnoc(FIRST, exchanged, Crash);
    RunSnoc(FIRST, exchanged + [Crash], Start);
    RunSnoc(FIRST, exchanged + [Crash] + [Start], Do(Done));
  }
}
