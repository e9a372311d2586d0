/** Self-update with crash recovery: a durable marker around an atomic exchange of two executables,
    the decisions taken at start-up, and the rollback. Every file operation is one step; the process
    may crash between any two steps, and a step may fail. */
module UpdateRecovery {
  import opened Wrappers

  datatype Binary = Old | New

  datatype Phase = Prepared | Activated

  datatype Marker = Marker(phase: Phase, attempts: nat)

  /** What survives a crash. `data` records which binary made each write to the installation's state. */
  datatype Disk = Disk(
    exe: Binary, prev: Option<Binary>, marker: Option<Marker>, data: seq<Binary>, backup: Option<seq<Binary>>)

  /** The recovery handle that a process holds in memory. */
  datatype Recovery = Recovery(marker: Marker, binaryRestored: bool)

  datatype Pc =
    | Down
    | Booting(running: Binary)
    | Serving(running: Binary)
    | Trial(recovery: Recovery)          // the new binary serves, not yet confirmed
    // activation, run by the old binary
    | TakeBackup | StagePrevious | WritePrepared | Swap | VerifySwapped | WriteActivated | SyncActivated
    | ExecNew(recovery: Recovery)
    // its deferred undo
    | UndoSwap | UndoMarker | UndoPrevious
    // start-up
    | DiscardPrevious | DiscardMarker | CountAttempt(marker: Marker)
    // confirmation, run by the new binary
    | ClearMarker(recovery: Recovery) | SyncCleared(recovery: Recovery)
    | DropPrevious(recovery: Recovery) | SyncDropped(recovery: Recovery)
    // rollback, run by whichever binary found that it must
    | CheckFiles(recovery: Recovery) | RestoreBinary | RestoreData | ReturnBinary
    | RemoveMarker | RemovePrevious | SyncExecutable | SyncMarker | ExecPrevious

  /** How a file operation ends. Writing the marker can also fail after the rename, in the directory sync. */
  datatype Outcome = Done | Failed | DoneButFailed

  datatype Machine = Machine(disk: Disk, pc: Pc, trials: nat)

  datatype Event =
    | Do(outcome: Outcome)     // the current operation ends
    | Probe(healthy: bool)     // the health check of an unconfirmed start
    | Write                    // the serving binary writes data
    | StartUpdate
    | Crash
    | Start

  // ---- File operations ----

  function Exchange(d: Disk): Disk {
    if d.prev.Some? then d.(exe := d.prev.value, prev := Some(d.exe)) else d
  }

  function PutMarker(d: Disk, m: Marker, outcome: Outcome): Disk {
    if outcome.Failed? then d else d.(marker := Some(m))
  }

  const PREPARED := Marker(Prepared, 0)
  const ACTIVATED := Marker(Activated, 0)

  // ---- One step ----

  /** What start-up decides from the marker and the running binary's own version. */
  function Decide(running: Binary, marker: Option<Marker>): Pc {
    match marker
    case None => Serving(running)
    case Some(m) =>
      if running.Old? && m.phase.Prepared? then DiscardPrevious
      else if running.New? && m.phase.Prepared? then CheckFiles(Recovery(m, false))
      else if running.Old? then CheckFiles(Recovery(m, true))
      else if m.attempts >= 1 then CheckFiles(Recovery(m, false))
      else CountAttempt(m)
  }

  function ActivateStep(d: Disk, pc: Pc, o: Outcome): (Disk, Pc) {
    match pc
    case TakeBackup =>
      if d.marker.Some? || !o.Done? then (d, Down) else (d.(backup := Some(d.data)), StagePrevious)
    case StagePrevious =>
      if o.Done? then (d.(prev := Some(New)), WritePrepared) else (d.(prev := None), Down)
    case WritePrepared =>
      (PutMarker(d, PREPARED, o), if o.Done? then Swap else UndoPrevious)
    case Swap =>
      if o.Done? then (Exchange(d), VerifySwapped) else (d, UndoMarker)
    case VerifySwapped =>
      (d, if o.Done? then WriteActivated else UndoSwap)
    case WriteActivated =>
      (PutMarker(d, ACTIVATED, o), if o.Done? then SyncActivated else UndoSwap)
    case SyncActivated =>
      (d, if o.Done? then ExecNew(Recovery(ACTIVATED, false)) else UndoSwap)
    case ExecNew(recovery) =>
      (d, if o.Done? then Booting(New) else CheckFiles(recovery))
    // Errors of the deferred calls are discarded.
    case UndoSwap => (if o.Done? then Exchange(d) else d, UndoMarker)
    case UndoMarker => (if o.Done? then d.(marker := None) else d, UndoPrevious)
    case UndoPrevious => (if o.Done? then d.(prev := None) else d, Down)
    case _ => (d, pc)
  }

  function StartupStep(d: Disk, pc: Pc, o: Outcome): (Disk, Pc) {
    match pc
    case Booting(running) => (d, Decide(running, d.marker))
    case DiscardPrevious => (if o.Done? then d.(prev := None) else d, DiscardMarker)
    case DiscardMarker => if o.Done? then (d.(marker := None), Serving(Old)) else (d, Down)
    case CountAttempt(m) =>
      var m' := m.(attempts := m.attempts + 1);
      (PutMarker(d, m', o), if o.Done? then Trial(Recovery(m', false)) else Down)
    case _ => (d, pc)
  }

  /** A confirmation that fails at any point makes the process roll back. */
  function ConfirmStep(d: Disk, pc: Pc, o: Outcome): (Disk, Pc) {
    match pc
    case ClearMarker(r) => if o.Done? then (d.(marker := None), SyncCleared(r)) else (d, CheckFiles(r))
    case SyncCleared(r) => (d, if o.Done? then DropPrevious(r) else CheckFiles(r))
    case DropPrevious(r) => if o.Done? then (d.(prev := None), SyncDropped(r)) else (d, CheckFiles(r))
    case SyncDropped(r) => (d, if o.Done? then Serving(New) else CheckFiles(r))
    case _ => (d, pc)
  }

  function RollbackStep(d: Disk, pc: Pc, o: Outcome): (Disk, Pc) {
    match pc
    case CheckFiles(r) =>
      (d, if d.prev.None? || !o.Done? then Down else if r.binaryRestored then RestoreData else RestoreBinary)
    case RestoreBinary => if o.Done? then (Exchange(d), RestoreData) else (d, Down)
    case RestoreData =>
      if o.Done? && d.backup.Some? then (d.(data := d.backup.value), RemoveMarker) else (d, ReturnBinary)
    case ReturnBinary => (if o.Done? then Exchange(d) else d, Down)
    case RemoveMarker => if o.Done? then (d.(marker := None), RemovePrevious) else (d, Down)
    case RemovePrevious => (if o.Done? then d.(prev := None) else d, SyncExecutable)
    case SyncExecutable => (d, if o.Done? then SyncMarker else Down)
    case SyncMarker => (d, if o.Done? then ExecPrevious else Down)
    case ExecPrevious => (d, if o.Done? then Booting(d.exe) else Down)
    case _ => (d, pc)
  }

  predicate InActivation(pc: Pc) {
    match pc
    case TakeBackup => true
    case StagePrevious => true
    case WritePrepared => true
    case Swap => true
    case VerifySwapped => true
    case WriteActivated => true
    case SyncActivated => true
    case ExecNew(_) => true
    case UndoSwap => true
    case UndoMarker => true
    case UndoPrevious => true
    case _ => false
  }

  predicate InStartup(pc: Pc) { pc.Booting? || pc.DiscardPrevious? || pc.DiscardMarker? || pc.CountAttempt? }

  predicate InConfirmation(pc: Pc) { pc.ClearMarker? || pc.SyncCleared? || pc.DropPrevious? || pc.SyncDropped? }

  function Operate(d: Disk, pc: Pc, o: Outcome): (Disk, Pc) {
    if InActivation(pc) then ActivateStep(d, pc, o)
    else if InStartup(pc) then StartupStep(d, pc, o)
    else if InConfirmation(pc) then ConfirmStep(d, pc, o)
    else RollbackStep(d, pc, o)
  }

  function Count(m: Machine, pc': Pc): nat {
    if m.pc.TakeBackup? then 0 else if pc'.Trial? && !m.pc.Trial? then m.trials + 1 else m.trials
  }

  /** The binary that may be writing data; a server keeps running while its start is being confirmed. */
  function Writer(pc: Pc): Option<Binary> {
    if pc.Serving? then Some(pc.running)
    else if pc.Trial? || InConfirmation(pc) then Some(New)
    else None
  }

  function Step(m: Machine, event: Event): Machine {
    match event
    case Do(o) => var r := Operate(m.disk, m.pc, o); Machine(r.0, r.1, Count(m, r.1))
    case Probe(healthy) =>
      if m.pc.Trial? then m.(pc := if healthy then ClearMarker(m.pc.recovery) else CheckFiles(m.pc.recovery)) else m
    case Write =>
      if Writer(m.pc).Some? then m.(disk := m.disk.(data := m.disk.data + [Writer(m.pc).value])) else m
    case StartUpdate => if m.pc == Serving(Old) then m.(pc := TakeBackup) else m
    case Crash => m.(pc := Down)
    case Start => if m.pc.Down? then m.(pc := Booting(m.disk.exe)) else m
  }

  function RunAll(m: Machine, events: seq<Event>): Machine {
    if events == [] then m
    else Step(RunAll(m, events[..|events| - 1]), events[|events| - 1])
  }

  function Installed(data: seq<Binary>): Machine {
    Machine(Disk(Old, None, None, data, None), Serving(Old), 0)
  }

  // ---- The invariant ----

  predicate Exchanged(d: Disk) { d.exe.New? && d.prev == Some(Old) }

  predicate Restored(d: Disk) { d.exe.Old? && d.prev == Some(New) }

  predicate BackedUp(d: Disk) { d.backup.Some? && New !in d.backup.value }

  /** Data is exactly what it was when the update began. */
  predicate Untouched(d: Disk) { BackedUp(d) && d.data == d.backup.value }

  /** What a crash may leave behind. */
  predicate CrashGood(d: Disk) {
    match d.marker
    case None => d.exe.Old? ==> New !in d.data
    case Some(Marker(Prepared, n)) => n == 0 && Untouched(d) && (d.exe.New? ==> Exchanged(d))
    case Some(Marker(Activated, n)) =>
      n <= 1 && BackedUp(d) && (Exchanged(d) || Restored(d)) && (n == 0 ==> Untouched(d))
  }

  /** A confirmation has removed the marker, and not yet the old file. */
  predicate Unmarked(d: Disk) { Exchanged(d) && d.marker.None? && BackedUp(d) }

  predicate OnTrial(d: Disk, r: Recovery) {
    Exchanged(d) && d.marker == Some(r.marker) && r == Recovery(Marker(Activated, 1), false)
  }

  predicate PcGood(d: Disk, pc: Pc) {
    match pc
    case Down => true
    case Booting(running) => running == d.exe
    case Serving(running) => running == d.exe && d.marker.None?
    case Trial(r) => OnTrial(d, r)
    case TakeBackup => d.exe.Old? && d.marker.None?
    case StagePrevious => d.exe.Old? && d.marker.None? && Untouched(d)
    case WritePrepared => Restored(d) && d.marker.None? && Untouched(d)
    case Swap => Restored(d) && d.marker == Some(PREPARED)
    case VerifySwapped => Exchanged(d) && d.marker == Some(PREPARED)
    case WriteActivated => Exchanged(d) && d.marker == Some(PREPARED)
    case SyncActivated => Exchanged(d) && d.marker == Some(ACTIVATED)
    case ExecNew(r) => Exchanged(d) && d.marker == Some(ACTIVATED) && r == Recovery(ACTIVATED, false)
    case UndoSwap => Exchanged(d) && (d.marker == Some(PREPARED) || d.marker == Some(ACTIVATED))
    case UndoMarker => d.marker.Some? && d.marker.value.attempts == 0 && (Exchanged(d) || (Restored(d) && Untouched(d)))
    case UndoPrevious =>
      && (d.marker.Some? ==> d.marker.value.attempts == 0)
      && ((Exchanged(d) && d.marker.Some?) || (Restored(d) && Untouched(d)))
    case DiscardPrevious => d.exe.Old? && d.marker == Some(PREPARED)
    case DiscardMarker => d.exe.Old? && d.marker == Some(PREPARED)
    case CountAttempt(m) => Exchanged(d) && m == ACTIVATED && d.marker == Some(m)
    case ClearMarker(r) => OnTrial(d, r)
    case SyncCleared(r) => Unmarked(d) && !r.binaryRestored
    case DropPrevious(r) => Unmarked(d) && !r.binaryRestored
    case SyncDropped(r) => d.exe.New? && d.prev.None? && d.marker.None?
    case CheckFiles(r) =>
      (d.exe.New? && d.prev.None? && d.marker.None?)
      || (Unmarked(d) && !r.binaryRestored)
      || (d.marker.Some? && if r.binaryRestored then Restored(d) else Exchanged(d))
    case RestoreBinary => Exchanged(d) && (d.marker.Some? || BackedUp(d))
    case RestoreData => Restored(d) && (d.marker.Some? || BackedUp(d))
    case ReturnBinary => Restored(d) && (d.marker.Some? || BackedUp(d))
    case RemoveMarker => Restored(d) && Untouched(d)
    case RemovePrevious => d.exe.Old? && d.marker.None? && Untouched(d)
    case SyncExecutable => d.exe.Old? && d.marker.None? && Untouched(d)
    case SyncMarker => d.exe.Old? && d.marker.None? && Untouched(d)
    case ExecPrevious => d.exe.Old? && d.marker.None? && Untouched(d)
  }

  predicate Confirming(pc: Pc) { pc.Trial? || InConfirmation(pc) }

  predicate TrialsGood(m: Machine) {
    && m.trials <= 1
    && ((m.disk.marker.Some? && m.disk.marker.value.attempts == 0) || m.pc.StagePrevious? || m.pc.WritePrepared?
        ==> m.trials == 0)
    && (Confirming(m.pc) || (m.disk.marker.None? && (m.disk.exe.New? || Returning(m.pc))) ==> m.trials == 1)
  }

  predicate Returning(pc: Pc) { pc.RestoreData? || pc.ReturnBinary? }

  /** A rollback without a marker has put back the old binary and not yet the data. */
  predicate Naked(m: Machine) {
    Returning(m.pc) && m.disk.marker.None?
  }

  predicate MachineInv(m: Machine) {
    (CrashGood(m.disk) || Naked(m)) && PcGood(m.disk, m.pc) && TrialsGood(m)
  }

  // ---- The steps after which the update cannot be brought to its end ----

  /** The deferred undo is about to take away what start-up needs: the marker although the exchange could not be
      undone, or the other executable although the marker still calls for it. */
  predicate Botched(m: Machine) {
    || (m.pc.UndoMarker? && m.disk.exe.New?)
    || (m.pc.UndoPrevious? && m.disk.marker.Some? && !(m.disk.exe.Old? && m.disk.marker == Some(PREPARED)))
  }

  /** A botched undo goes on; or a rollback without a marker, over data the new binary has written, is cut short
      between its two exchanges. */
  predicate Fatal(m: Machine, event: Event) {
    || (event == Do(Done) && Botched(m))
    || (&& Naked(m) && New in m.disk.data
        && (event.Crash? || (event.Do? && !event.outcome.Done? && m.pc.ReturnBinary?)))
  }

  predicate NoneFatal(m: Machine, events: seq<Event>) {
    events == [] ||
    var init := events[..|events| - 1];
    NoneFatal(m, init) && !Fatal(RunAll(m, init), events[|events| - 1])
  }

  lemma {:induction false} ActivateKeeps(m: Machine, o: Outcome)
    requires MachineInv(m) && InActivation(m.pc)
    ensures MachineInv(Step(m, Do(o))) <==> !Fatal(m, Do(o))
  {
  }

  lemma {:induction false} StartupKeeps(m: Machine, o: Outcome)
    requires MachineInv(m) && InStartup(m.pc)
    ensures MachineInv(Step(m, Do(o)))
  {
  }

  lemma {:induction false} ConfirmKeeps(m: Machine, o: Outcome)
    requires MachineInv(m) && InConfirmation(m.pc)
    ensures MachineInv(Step(m, Do(o)))
  {
  }

  lemma {:induction false} RollbackKeeps(m: Machine, o: Outcome)
    requires MachineInv(m) && !InActivation(m.pc) && !InStartup(m.pc) && !InConfirmation(m.pc)
    ensures MachineInv(Step(m, Do(o))) <==> !Fatal(m, Do(o))
  {
  }

  lemma {:induction false} OtherKeeps(m: Machine, event: Event)
    requires MachineInv(m) && !event.Do?
    ensures MachineInv(Step(m, event)) <==> !Fatal(m, event)
  {
  }

  /** Every failure and every crash is survived, but for the fatal steps, and none of those is. */
  lemma {:induction false} StepKeepsIff(m: Machine, event: Event)
    requires MachineInv(m)
    ensures MachineInv(Step(m, event)) <==> !Fatal(m, event)
  {
    match event
    case Do(o) =>
      if InActivation(m.pc) {
        ActivateKeeps(m, o);
      } else if InStartup(m.pc) {
        StartupKeeps(m, o);
      } else if InConfirmation(m.pc) {
        ConfirmKeeps(m, o);
      } else {
        RollbackKeeps(m, o);
      }
    case _ => OtherKeeps(m, event);
  }

  lemma {:induction false} RunKeeps(m: Machine, events: seq<Event>)
    requires MachineInv(m) && NoneFatal(m, events)
    ensures MachineInv(RunAll(m, events))
  {
    if events != [] {
      RunKeeps(m, events[..|events| - 1]);
      StepKeepsIff(RunAll(m, events[..|events| - 1]), events[|events| - 1]);
    }
  }

  /** Crash safety, over every run with crashes and failures anywhere but in a fatal step: the old binary never
      serves data the new one has written, the new binary gets at most one unconfirmed start per activation and
      serves on only after it, both executables are at hand while an update is pending, and a completed rollback
      has put back exactly the data of before the update. */
  lemma {:induction false} UpdateIsCrashSafe(data: seq<Binary>, events: seq<Event>)
    requires New !in data && NoneFatal(Installed(data), events)
    ensures CrashSafe(RunAll(Installed(data), events))
  {
    RunKeeps(Installed(data), events);
    SafeInside(RunAll(Installed(data), events));
  }

  predicate CrashSafe(m: Machine) {
    && (Writer(m.pc) == Some(Old) ==> New !in m.disk.data)
    && m.trials <= 1 && (m.pc == Serving(New) ==> m.trials == 1)
    && (m.disk.marker.Some? && m.disk.marker.value.phase == Activated ==> Exchanged(m.disk) || Restored(m.disk))
    && (m.disk.marker.Some? && m.disk.exe.New? ==> Exchanged(m.disk))
    && (m.pc.ExecPrevious? ==> m.disk.exe.Old? && m.disk.backup == Some(m.disk.data))
  }

  lemma {:induction false} SafeInside(m: Machine)
    requires MachineInv(m)
    ensures CrashSafe(m)
  {
  }

  // ---- Recovery terminates ----

  /** The next step when nothing fails; `healthy` is what the health check will say. */
  function Next(m: Machine, healthy: bool): Event {
    if m.pc.Down? then Start else if m.pc.Trial? then Probe(healthy) else Do(Done)
  }

  function Proceed(m: Machine, healthy: bool, n: nat): Machine
    decreases n
  {
    if n == 0 || m.pc.Serving? then m else Proceed(Step(m, Next(m, healthy)), healthy, n - 1)
  }

  function BootRank(d: Disk): nat { if d.marker.None? then 1 else 12 }

  function Rank(m: Machine): nat {
    match m.pc
    case Serving(_) => 0
    case Booting(_) => BootRank(m.disk)
    case Down => BootRank(m.disk) + 1
    case DiscardPrevious => 3
    case DiscardMarker => 2
    case SyncDropped(_) => 1
    case DropPrevious(_) => 2
    case SyncCleared(_) => 3
    case ClearMarker(_) => 4
    case ExecPrevious => 2
    case SyncMarker => 3
    case SyncExecutable => 4
    case RemovePrevious => 5
    case RemoveMarker => 6
    case RestoreData => 7
    case RestoreBinary => 8
    case CheckFiles(_) => 9
    case Trial(_) => 10
    case CountAttempt(_) => 11
    case ReturnBinary => 14
    case ExecNew(_) => 13
    case SyncActivated => 14
    case WriteActivated => 15
    case VerifySwapped => 16
    case Swap => 17
    case WritePrepared => 18
    case StagePrevious => 19
    case TakeBackup => 20
    case UndoPrevious => 14
    case UndoMarker => 15
    case UndoSwap => 16
  }

  lemma {:induction false} RankFalls(m: Machine, healthy: bool)
    requires MachineInv(m) && !m.pc.Serving? && !Botched(m)
    ensures Rank(Step(m, Next(m, healthy))) < Rank(m) <= 20
  {
    if InActivation(m.pc) {
      ActivationRank(m);
    }
  }

  lemma {:induction false} ActivationRank(m: Machine)
    requires MachineInv(m) && InActivation(m.pc) && !Botched(m)
    ensures Rank(Step(m, Do(Done))) < Rank(m) <= 20
  {
  }

  lemma {:induction false} StaysSound(m: Machine, healthy: bool)
    requires MachineInv(m) && !m.pc.Serving? && !Botched(m)
    ensures var m' := Step(m, Next(m, healthy)); MachineInv(m') && !Botched(m')
  {
    StepKeepsIff(m, Next(m, healthy));
  }

  /** An update begun on data b: until the new binary is confirmed, b is either still the data or restorable. */
  predicate Begun(m: Machine, b: seq<Binary>) {
    m.disk.backup == Some(b) && (m.disk.marker.Some? || m.disk.exe.New? || Returning(m.pc) || m.disk.data == b)
  }

  lemma {:induction false} BegunStays(m: Machine, healthy: bool, b: seq<Binary>)
    requires MachineInv(m) && !m.pc.Serving? && !Botched(m) && Begun(m, b)
    ensures Begun(Step(m, Next(m, healthy)), b)
  {
  }

  lemma {:induction false} ProceedSettles(m: Machine, healthy: bool, n: nat)
    requires MachineInv(m) && !Botched(m) && Rank(m) <= n
    ensures var m' := Proceed(m, healthy, n);
            MachineInv(m') && m'.pc.Serving? && forall b :: Begun(m, b) ==> Begun(m', b)
    decreases n
  {
    if !m.pc.Serving? {
      RankFalls(m, healthy);
      StaysSound(m, healthy);
      forall b | Begun(m, b) ensures Begun(Step(m, Next(m, healthy)), b) {
        BegunStays(m, healthy, b);
      }
      ProceedSettles(Step(m, Next(m, healthy)), healthy, n - 1);
    }
  }

  /** The update is over: no marker is left, and either the old binary serves data the new one has not touched, or
      the new binary serves after its confirmed trial. */
  predicate Settled(m: Machine) {
    && m.pc == Serving(m.disk.exe) && m.disk.marker.None?
    && (m.disk.exe.Old? ==> New !in m.disk.data)
    && (m.disk.exe.New? ==> m.trials == 1)
  }

  lemma {:induction false} TwentySettle(m: Machine, healthy: bool)
    requires MachineInv(m) && !Botched(m)
    ensures var m' := Proceed(m, healthy, 20);
            Settled(m') && (m'.disk.exe.Old? && m.disk.marker.Some? ==> Some(m'.disk.data) == m.disk.backup)
  {
    if !m.pc.Serving? {
      RankFalls(m, healthy);
    }
    ProceedSettles(m, healthy, 20);
    if m.disk.marker.Some? {
      assert Begun(m, m.disk.backup.value);
    }
  }

  /** From every state that a run without a fatal step reaches, twenty fault-free steps settle the update, with
      the old binary on exactly the data the update began with, or the new one confirmed. In the middle of a
      botched undo the process has to crash first. */
  lemma {:induction false} RecoveryTerminates(data: seq<Binary>, events: seq<Event>, healthy: bool)
    requires New !in data && NoneFatal(Installed(data), events)
    ensures var reached := RunAll(Installed(data), events);
            var m := Rescued(reached);
            var m' := Proceed(m, healthy, 20);
            Settled(m') && (m'.disk.exe.Old? && m.disk.marker.Some? ==> Some(m'.disk.data) == m.disk.backup)
  {
    var reached := RunAll(Installed(data), events);
    RunKeeps(Installed(data), events);
    if Botched(reached) {
      StepKeepsIff(reached, Crash);
    }
    TwentySettle(Rescued(reached), healthy);
  }

  // ---- Which binary it settles on ----

  /** At start-up the marker, its attempts and the installed binary decide. Only the first start of an activated
      update asks for the health check; every other pending update goes back to the old binary. */
  function Started(d: Disk, healthy: bool): Binary {
    match d.marker
    case None => d.exe
    case Some(Marker(phase, attempts)) =>
      if phase.Activated? && attempts == 0 && d.exe.New? && healthy then New else Old
  }

  /** From inside an operation: an activation that nothing interrupts ends in its trial, an undo and a rollback with
      the old binary, and a confirmation with the new one. A rollback that could not restore the data starts over. */
  function Destined(m: Machine, healthy: bool): Binary {
    match m.pc
    case Serving(running) => running
    case Down => Started(m.disk, healthy)
    case Booting(_) => Started(m.disk, healthy)
    case Trial(_) => if healthy then New else Old
    case CountAttempt(_) => if healthy then New else Old
    case ReturnBinary => Started(Exchange(m.disk), healthy)
    case CheckFiles(_) => if m.disk.prev.None? then New else Old
    case _ =>
      if InConfirmation(m.pc) then New
      else if InActivation(m.pc) && !m.pc.UndoSwap? && !m.pc.UndoMarker? && !m.pc.UndoPrevious? && healthy then New
      else Old
  }

  lemma {:induction false} DestinyStays(m: Machine, healthy: bool)
    requires MachineInv(m) && !Botched(m) && !m.pc.Serving?
    ensures Destined(Step(m, Next(m, healthy)), healthy) == Destined(m, healthy)
  {
  }

  lemma {:induction false} ReachesDestiny(m: Machine, healthy: bool, n: nat)
    requires MachineInv(m) && !Botched(m) && Rank(m) <= n
    ensures Proceed(m, healthy, n).pc == Serving(Destined(m, healthy))
    decreases n
  {
    if !m.pc.Serving? {
      RankFalls(m, healthy);
      StaysSound(m, healthy);
      DestinyStays(m, healthy);
      ReachesDestiny(Step(m, Next(m, healthy)), healthy, n - 1);
    }
  }

  /** After any run without a fatal step, which binary serves in the end: an unhealthy new binary never does, and a
      healthy one does unless it has had its start already, or the update had not been activated. */
  lemma {:induction false} HealthDecides(data: seq<Binary>, events: seq<Event>, healthy: bool)
    requires New !in data && NoneFatal(Installed(data), events)
    ensures var m := Rescued(RunAll(Installed(data), events));
            && Proceed(m, healthy, 20).pc == Serving(Destined(m, healthy))
            && (m.pc.Trial? ==> Proceed(m, healthy, 20).pc == Serving(if healthy then New else Old))
            && (m.pc.Down? ==> Proceed(m, healthy, 20).pc == Serving(Started(m.disk, healthy)))
  {
    var m := Rescued(RunAll(Installed(data), events));
    RunKeeps(Installed(data), events);
    RescuedSound(RunAll(Installed(data), events));
    if !m.pc.Serving? {
      RankFalls(m, healthy);
    }
    ReachesDestiny(m, healthy, 20);
  }

  lemma {:induction false} RescuedSound(m: Machine)
    requires MachineInv(m)
    ensures MachineInv(Rescued(m)) && !Botched(Rescued(m))
  {
    StepKeepsIff(m, Crash);
  }

  /** The other executable is, or will be, out of the way. */
  predicate Tidying(m: Machine) {
    || m.disk.prev.None? || (m.disk.marker.Some? && !m.pc.DiscardMarker?) || m.pc.SyncCleared? || m.pc.DropPrevious? || m.pc.UndoPrevious?
    || m.pc.RemovePrevious? || m.pc.WritePrepared?
  }

  lemma {:induction false} TidyingStays(m: Machine, healthy: bool)
    requires MachineInv(m) && !Botched(m) && !m.pc.Serving? && Tidying(m)
    ensures Tidying(Step(m, Next(m, healthy)))
  {
  }

  /** Wherever an update is pending, settling it also removes the other executable, unless that removal has failed. */
  lemma {:induction false} SettlesTidy(m: Machine, healthy: bool, n: nat)
    requires MachineInv(m) && !Botched(m) && Rank(m) <= n && Tidying(m)
    ensures Proceed(m, healthy, n).disk.prev.None?
    decreases n
  {
    if !m.pc.Serving? {
      RankFalls(m, healthy);
      StaysSound(m, healthy);
      TidyingStays(m, healthy);
      SettlesTidy(Step(m, Next(m, healthy)), healthy, n - 1);
    }
  }

  // ---- The fatal steps do what their name says ----

  /** The new binary is installed without a marker and without a trial. */
  predicate Unguarded(m: Machine) {
    && m.disk.marker.None? && m.disk.exe.New? && m.trials == 0
    && (m.pc.UndoPrevious? || m.pc.Down? || m.pc == Booting(New) || m.pc == Serving(New))
  }

  /** The marker calls for the other executable, and that is gone. */
  predicate Stranded(m: Machine) {
    && m.disk.marker.Some? && m.disk.prev.None? && !(m.disk.exe.Old? && m.disk.marker.value.phase.Prepared?)
    && (m.pc.Down? || m.pc == Booting(m.disk.exe) || m.pc.Trial? || m.pc.CheckFiles?
        || (m.pc.CountAttempt? && m.disk.exe.New?))
  }

  /** The old binary is installed, and will serve what the new one has written. */
  predicate Exposed(m: Machine) {
    && m.disk.marker.None? && m.disk.exe.Old? && New in m.disk.data
    && (m.pc.Down? || m.pc == Booting(Old) || m.pc == Serving(Old))
  }

  predicate Lost(m: Machine) { Unguarded(m) || Stranded(m) || Exposed(m) }

  lemma {:induction false} LostStays(m: Machine)
    requires Lost(m)
    ensures Lost(Step(m, Next(m, false))) && !Settled(m)
  {
  }

  lemma {:induction false} LostForGood(m: Machine, n: nat)
    requires Lost(m)
    ensures !Settled(Proceed(m, false, n))
    decreases n
  {
    LostStays(m);
    if n > 0 && !m.pc.Serving? {
      LostForGood(Step(m, Next(m, false)), n - 1);
    }
  }

  /** After a fatal step, with no further failure and a new binary that turns out unhealthy, the update never
      settles: a binary serves that must not, or none ever serves again. */
  lemma {:induction false} FatalNeverSettles(m: Machine, event: Event, n: nat)
    requires MachineInv(m) && Fatal(m, event)
    ensures Lost(Step(m, event)) && !Settled(Proceed(Step(m, event), false, n))
  {
    LostForGood(Step(m, event), n);
  }

  /** The update can be brought to its end from here, whatever the health check will say; in the middle of a
      botched undo, by a crash. */
  predicate Recovers(m: Machine) {
    var m' := Rescued(m);
    forall healthy :: Settled(Proceed(m', healthy, 20))
  }

  function Rescued(m: Machine): Machine {
    if Botched(m) then Step(m, Crash) else m
  }

  predicate RecoversThroughout(m: Machine, events: seq<Event>) {
    (events == [] || RecoversThroughout(m, events[..|events| - 1])) && Recovers(RunAll(m, events))
  }

  lemma {:induction false} SoundRecovers(m: Machine)
    requires MachineInv(m)
    ensures Recovers(m)
  {
    var m' := Rescued(m);
    if Botched(m) {
      StepKeepsIff(m, Crash);
    }
    forall healthy ensures Settled(Proceed(m', healthy, 20)) {
      TwentySettle(m', healthy);
    }
  }

  lemma {:induction false} LostIsLost(m: Machine)
    requires Lost(m)
    ensures !Recovers(m)
  {
    var m' := Rescued(m);
    assert Lost(m');
    LostForGood(m', 20);
    assert !Settled(Proceed(m', false, 20));
  }

  /** Over every run: the update can be brought to its end from every state on the way if and only if none of the
      steps is fatal. No other failure and no other crash matters. */
  lemma {:induction false} RecoversIffNoneFatal(data: seq<Binary>, events: seq<Event>)
    requires New !in data
    ensures RecoversThroughout(Installed(data), events) <==> NoneFatal(Installed(data), events)
  {
    var first := Installed(data);
    if NoneFatal(first, events) {
      RunKeeps(first, events);
      SoundRecovers(RunAll(first, events));
    }
    if events != [] {
      var init, event := events[..|events| - 1], events[|events| - 1];
      RecoversIffNoneFatal(data, init);
      if NoneFatal(first, init) && Fatal(RunAll(first, init), event) {
        RunKeeps(first, init);
        FatalNeverSettles(RunAll(first, init), event, 0);
        LostIsLost(RunAll(first, events));
      }
    }
  }

  // ---- When the failures around the marker are harmless ----

  function Dones(m: Machine, n: nat): Machine {
    if n == 0 then m else Step(Dones(m, n - 1), Do(Done))
  }

  /** A crash after n steps of the rollback, then a start: does the old binary serve the new one's data? */
  predicate CrashExposes(d: Disk, r: Recovery, n: nat) {
    var m := Dones(Machine(d, CheckFiles(r), 1), n).(pc := Down);
    Decide(m.disk.exe, m.disk.marker) == Serving(Old) && New in m.disk.data
  }

  /** The rollback of an installed update is safe to interrupt at every point if and only if the marker is
      still there or the new binary has written nothing. A failed confirmation that has already removed
      the marker rolls back without it. */
  lemma {:induction false} RollbackSafeIff(d: Disk, r: Recovery)
    requires Exchanged(d) && BackedUp(d) && !r.binaryRestored && (d.marker.Some? ==> CrashGood(d))
    ensures (forall n :: !CrashExposes(d, r, n)) <==> d.marker.Some? || New !in d.data
  {
    var m := Machine(d, CheckFiles(r), 1);
    if d.marker.None? && New in d.data {
      assert Dones(m, 2) == Step(Step(m, Do(Done)), Do(Done)) by {
        assert Dones(m, 1) == Step(Dones(m, 0), Do(Done));
      }
      assert CrashExposes(d, r, 2);
    }
    if d.marker.Some? || New !in d.data {
      forall n ensures !CrashExposes(d, r, n) {
        RollbackHolds(m, n);
      }
    }
  }

  /** What a rollback keeps when it starts with its marker, or on data without new writes. */
  predicate RollbackHeld(m: Machine) {
    && BackedUp(m.disk)
    && (m.disk.exe.Old? && m.disk.marker.None? ==> New !in m.disk.data)
    && (match m.pc
        case CheckFiles(r) => !r.binaryRestored && Exchanged(m.disk) && Kept(m.disk)
        case RestoreBinary => Exchanged(m.disk) && Kept(m.disk)
        case RestoreData => Restored(m.disk)
        case RemoveMarker => m.disk.exe.Old? && Untouched(m.disk)
        case RemovePrevious => m.disk.exe.Old? && m.disk.marker.None?
        case SyncExecutable => m.disk.exe.Old? && m.disk.marker.None?
        case SyncMarker => m.disk.exe.Old? && m.disk.marker.None?
        case ExecPrevious => m.disk.exe.Old? && m.disk.marker.None?
        case Booting(b) => b.Old? && m.disk.exe.Old? && m.disk.marker.None?
        case Serving(b) => b.Old? && m.disk.exe.Old? && m.disk.marker.None?
        case _ => false)
  }

  predicate Kept(d: Disk) { d.marker.Some? || New !in d.data }

  lemma {:induction false} RollbackHolds(m: Machine, n: nat)
    requires RollbackHeld(m)
    ensures RollbackHeld(Dones(m, n))
  {
    if n > 0 {
      RollbackHolds(m, n - 1);
      assert RollbackHeld(Step(Dones(m, n - 1), Do(Done)));
    }
  }

  function Undone(m: Machine, swap: Outcome, marker: Outcome, previous: Outcome): Machine {
    Step(Step(Step(m, Do(swap)), Do(marker)), Do(previous))
  }

  /** Whether the failures of the deferred undo leave what start-up needs. If the exchange is undone, the marker
      must go too unless it still says prepared or the new file stays; if not, marker and old file must both stay. */
  predicate Recoverable(marker': Option<Marker>, swap: Outcome, marker: Outcome, previous: Outcome) {
    if swap.Done? then marker.Done? || marker' == Some(PREPARED) || !previous.Done?
    else !marker.Done? && !previous.Done?
  }

  /** Exactly which failures of the deferred undo are harmless: after those, and no others, start-up settles the
      update whatever the health check says. */
  lemma {:induction false} UndoRecoversIff(m: Machine, swap: Outcome, marker: Outcome, previous: Outcome)
    requires MachineInv(m) && m.pc.UndoSwap?
    ensures var m' := Undone(m, swap, marker, previous);
            && m'.pc.Down?
            && ((forall healthy :: Settled(Proceed(m', healthy, 20))) <==>
                  Recoverable(m.disk.marker, swap, marker, previous))
            && (!Recoverable(m.disk.marker, swap, marker, previous) ==> forall n :: !Settled(Proceed(m', false, n)))
  {
    var m' := Undone(m, swap, marker, previous);
    UndoneShape(m, swap, marker, previous);
    if Recoverable(m.disk.marker, swap, marker, previous) {
      forall healthy ensures Settled(Proceed(m', healthy, 20)) {
        TwentySettle(m', healthy);
      }
    } else {
      forall n ensures !Settled(Proceed(m', false, n)) {
        LostForGood(m', n);
      }
      assert !Settled(Proceed(m', false, 20));
    }
  }

  lemma {:induction false} UndoneShape(m: Machine, swap: Outcome, marker: Outcome, previous: Outcome)
    requires MachineInv(m) && m.pc.UndoSwap?
    ensures var m' := Undone(m, swap, marker, previous);
            && m'.pc.Down?
            && if Recoverable(m.disk.marker, swap, marker, previous) then MachineInv(m') else Lost(m')
  {
  }

  /** Without the previous file a demanded rollback is refused, and every later start ends the same way. */
  lemma {:induction false} StuckWithoutPrevious(m: Machine, o: Outcome)
    requires m.pc.Down? && m.disk.prev.None? && Decide(m.disk.exe, m.disk.marker).CheckFiles?
    ensures Step(Step(Step(m, Start), Do(o)), Do(o)) == m
  {
  }

  // ---- The updater's four entry points, operation by operation ----

  function OperateOn(at: (Disk, Pc), o: Outcome): (Disk, Pc) {
    Operate(at.0, at.1, o)
  }

  /** The operations from `pc` that end as o(i) ... o(n - 1) say, in turn. */
  function Perform(d: Disk, pc: Pc, o: nat -> Outcome, i: nat, n: nat): (Disk, Pc) {
    Iterate(OperateOn, (d, pc), o, i, n)
  }

  lemma {:induction false} PerformOn(d: Disk, pc: Pc, o: nat -> Outcome, i: nat, j: nat, n: nat)
    requires i <= j <= n
    ensures var at := Perform(d, pc, o, i, j); Perform(d, pc, o, i, n) == Perform(at.0, at.1, o, j, n)
  {
    IterateOn(OperateOn, (d, pc), o, i, j, n);
  }

  datatype StartResult = Normal | Unconfirmed(recovery: Recovery) | RollbackRequired(recovery: Recovery) | StartError

  function AfterStart(running: Binary, result: StartResult): Pc {
    match result
    case Normal => Serving(running)
    case Unconfirmed(r) => Trial(r)
    case RollbackRequired(r) => CheckFiles(r)
    case StartError => Down
  }

  /** Where an error return leads, by the deferred calls that are armed. */
  function Armed(cleanupPrevious: bool, removeMarker: bool, swapped: bool): Pc {
    if swapped then UndoSwap else if removeMarker then UndoMarker else if cleanupPrevious then UndoPrevious else Down
  }

  class Installation {
    var exe: Binary
    var prev: Option<Binary>
    var marker: Option<Marker>
    var data: seq<Binary>
    var backup: Option<seq<Binary>>

    function State(): Disk
      reads this
    {
      Disk(exe, prev, marker, data, backup)
    }

    constructor (data: seq<Binary>)
      ensures State() == Installed(data).disk
    {
      exe, prev, marker, this.data, backup := Old, None, None, data, None;
    }

    method ExchangeFiles(o: Outcome) returns (ok: bool)
      requires prev.Some?
      modifies this`exe, this`prev
      ensures ok == o.Done? && State() == if ok then Exchange(old(State())) else old(State())
    {
      ok := o.Done?;
      if ok {
        exe, prev := prev.value, Some(exe);
      }
    }

    /** The marker is replaced by a rename; the directory sync after it may still fail. */
    method WriteRecovery(m: Marker, o: Outcome) returns (ok: bool)
      modifies this`marker
      ensures ok == o.Done? && State() == PutMarker(old(State()), m, o)
    {
      if !o.Failed? {
        marker := Some(m);
      }
      ok := o.Done?;
    }

    method RemoveRecovery(o: Outcome) returns (ok: bool)
      modifies this`marker
      ensures ok == o.Done? && State() == if ok then old(State()).(marker := None) else old(State())
    {
      ok := o.Done?;
      if ok {
        marker := None;
      }
    }

    method RemovePreviousFile(o: Outcome) returns (ok: bool)
      modifies this`prev
      ensures ok == o.Done? && State() == if ok then old(State()).(prev := None) else old(State())
    {
      ok := o.Done?;
      if ok {
        prev := None;
      }
    }

    /** Up to and including the exchange; `at` is where it stopped. */
    method Prepare(o: nat -> Outcome) returns (cleanupPrevious: bool, removeMarker: bool, swapped: bool, used: nat)
      modifies this
      ensures (swapped ==> removeMarker && prev.Some?) && (removeMarker ==> cleanupPrevious)
      ensures Perform(old(State()), TakeBackup, o, 0, used)
           == (State(), if swapped then VerifySwapped else Armed(cleanupPrevious, removeMarker, false))
    {
      ghost var d := State();
      cleanupPrevious, removeMarker, swapped, used := false, false, false, 1;
      assert Perform(d, TakeBackup, o, 0, 0) == (d, TakeBackup);
      if marker.Some? || !o(0).Done? {
        return;
      }
      backup := Some(data);
      used := 2;
      if !o(1).Done? {
        prev := None;
        return;
      }
      prev := Some(New);
      cleanupPrevious := true;
      var ok := WriteRecovery(PREPARED, o(2));
      used := 3;
      assert Perform(d, TakeBackup, o, 0, 2) == (d.(backup := Some(d.data), prev := Some(New)), WritePrepared);
      if !ok {
        return;
      }
      removeMarker := true;
      swapped := ExchangeFiles(o(3));
      used := 4;
    }

    /** From the verification of the exchanged executable to the end. */
    method Complete(o: nat -> Outcome, i: nat) returns (ok: bool, used: nat)
      requires prev.Some?
      modifies this
      ensures prev.Some? && used >= i
      ensures Perform(old(State()), VerifySwapped, o, i, used)
           == (State(), if ok then ExecNew(Recovery(ACTIVATED, false)) else UndoSwap)
    {
      ghost var d := State();
      assert Perform(d, VerifySwapped, o, i, i) == (d, VerifySwapped);
      if !o(i).Done? {
        return false, i + 1;
      }
      ok := WriteRecovery(ACTIVATED, o(i + 1));
      assert Perform(d, VerifySwapped, o, i, i + 1) == (d, WriteActivated);
      if !ok {
        return false, i + 2;
      }
      assert Perform(d, VerifySwapped, o, i, i + 2) == (State(), SyncActivated);
      return o(i + 2).Done?, i + 3;
    }

    /** The deferred calls that are armed, last registered first; their errors are discarded. */
    method RunDeferred(o: nat -> Outcome, i: nat, cleanupPrevious: bool, removeMarker: bool, swapped: bool)
      returns (used: nat)
      requires (swapped ==> removeMarker && prev.Some?) && (removeMarker ==> cleanupPrevious)
      modifies this
      ensures used >= i
      ensures Perform(old(State()), Armed(cleanupPrevious, removeMarker, swapped), o, i, used) == (State(), Down)
    {
      ghost var d, pc := State(), Armed(cleanupPrevious, removeMarker, swapped);
      used := i;
      assert Perform(d, pc, o, i, i) == (d, pc);
      if swapped {
        var _ := ExchangeFiles(o(used));
        used := used + 1;
      }
      assert Perform(d, pc, o, i, used) == (State(), Armed(cleanupPrevious, removeMarker, false));
      if removeMarker {
        var _ := RemoveRecovery(o(used));
        used := used + 1;
      }
      assert Perform(d, pc, o, i, used) == (State(), Armed(cleanupPrevious, false, false));
      if cleanupPrevious {
        var _ := RemovePreviousFile(o(used));
        used := used + 1;
      }
    }

    method Activate(o: nat -> Outcome) returns (recovery: Option<Recovery>, used: nat)
      modifies this
      ensures Perform(old(State()), TakeBackup, o, 0, used)
           == (State(), if recovery.Some? then ExecNew(recovery.value) else Down)
    {
      ghost var d := State();
      var cleanupPrevious, removeMarker, swapped, prepared := Prepare(o);
      used := prepared;
      var ok := false;
      if swapped {
        ghost var d' := State();
        ok, used := Complete(o, used);
        PerformOn(d, TakeBackup, o, 0, prepared, used);
        if ok {
          return Some(Recovery(ACTIVATED, false)), used;
        }
      }
      recovery := None;
      ghost var failed := used;
      used := RunDeferred(o, used, cleanupPrevious, removeMarker, swapped);
      PerformOn(d, TakeBackup, o, 0, failed, used);
    }

    method BeginStartup(running: Binary, o: nat -> Outcome) returns (result: StartResult, used: nat)
      modifies this
      ensures Perform(old(State()), Booting(running), o, 0, used) == (State(), AfterStart(running, result))
    {
      ghost var d := State();
      used := 1;
      assert Perform(d, Booting(running), o, 0, 0) == (d, Booting(running));
      assert Perform(d, Booting(running), o, 0, 1) == (d, Decide(running, d.marker));
      if marker.None? {
        return Normal, 1;
      }
      var m := marker.value;
      if running == Old && m.phase == Prepared {
        var _ := RemovePreviousFile(o(1));
        assert Perform(d, Booting(running), o, 0, 2) == (State(), DiscardMarker);
        var ok := RemoveRecovery(o(2));
        return if ok then Normal else StartError, 3;
      }
      if running == New && m.phase == Prepared {
        return RollbackRequired(Recovery(m, false)), 1;
      }
      if running == Old && m.phase == Activated {
        return RollbackRequired(Recovery(m, true)), 1;
      }
      if m.attempts >= 1 {
        return RollbackRequired(Recovery(m, false)), 1;
      }
      m := m.(attempts := m.attempts + 1);
      var ok := WriteRecovery(m, o(1));
      return if ok then Unconfirmed(Recovery(m, false)) else StartError, 2;
    }

    method ConfirmStartup(recovery: Recovery, o: nat -> Outcome) returns (ok: bool, used: nat)
      modifies this
      ensures Perform(old(State()), ClearMarker(recovery), o, 0, used)
           == (State(), if ok then Serving(New) else CheckFiles(recovery))
    {
      ghost var d := State();
      assert Perform(d, ClearMarker(recovery), o, 0, 0) == (d, ClearMarker(recovery));
      ok := RemoveRecovery(o(0));
      if !ok {
        return false, 1;
      }
      assert Perform(d, ClearMarker(recovery), o, 0, 1) == (State(), SyncCleared(recovery));
      if !o(1).Done? {
        return false, 2;
      }
      ok := RemovePreviousFile(o(2));
      if !ok {
        return false, 3;
      }
      assert Perform(d, ClearMarker(recovery), o, 0, 3) == (State(), SyncDropped(recovery));
      return o(3).Done?, 4;
    }

    method Rollback(recovery: Recovery, o: nat -> Outcome) returns (ok: bool, used: nat)
      modifies this
      ensures Perform(old(State()), CheckFiles(recovery), o, 0, used) == (State(), if ok then ExecPrevious else Down)
    {
      ghost var d := State();
      assert Perform(d, CheckFiles(recovery), o, 0, 0) == (d, CheckFiles(recovery));
      if prev.None? || !o(0).Done? {
        return false, 1;
      }
      var restoring := 1;
      if !recovery.binaryRestored {
        ok := ExchangeFiles(o(1));
        restoring := 2;
        if !ok {
          return false, 2;
        }
      }
      assert Perform(d, CheckFiles(recovery), o, 0, 1)
          == (d, if recovery.binaryRestored then RestoreData else RestoreBinary);
      assert Perform(d, CheckFiles(recovery), o, 0, restoring) == (State(), RestoreData);
      ok, used := RestoreState(o, restoring);
      PerformOn(d, CheckFiles(recovery), o, 0, restoring, used);
    }

    /** The part of a rollback after the old binary is back: its data, then the marker. */
    method RestoreState(o: nat -> Outcome, i: nat) returns (ok: bool, used: nat)
      requires prev.Some?
      modifies this
      ensures used >= i && Perform(old(State()), RestoreData, o, i, used) == (State(), if ok then ExecPrevious else Down)
    {
      ghost var d := State();
      assert Perform(d, RestoreData, o, i, i) == (d, RestoreData);
      if !o(i).Done? || backup.None? {
        // A failed restore puts the new executable back.
        assert Perform(d, RestoreData, o, i, i + 1) == (d, ReturnBinary);
        var _ := ExchangeFiles(o(i + 1));
        return false, i + 2;
      }
      data := backup.value;
      ghost var restored := State();
      assert Perform(d, RestoreData, o, i, i + 1) == (restored, RemoveMarker);
      ok, used := FinishRollback(o, i + 1);
      PerformOn(d, RestoreData, o, i, i + 1, used);
    }

    method FinishRollback(o: nat -> Outcome, i: nat) returns (ok: bool, used: nat)
      modifies this
      ensures used >= i && Perform(old(State()), RemoveMarker, o, i, used) == (State(), if ok then ExecPrevious else Down)
    {
      ghost var d := State();
      assert Perform(d, RemoveMarker, o, i, i) == (d, RemoveMarker);
      ok := RemoveRecovery(o(i));
      if !ok {
        return false, i + 1;
      }
      assert Perform(d, RemoveMarker, o, i, i + 1) == (State(), RemovePrevious);
      var _ := RemovePreviousFile(o(i + 1));
      assert Perform(d, RemoveMarker, o, i, i + 2) == (State(), SyncExecutable);
      ok, used := SyncDirectories(o, i + 2);
      PerformOn(d, RemoveMarker, o, i, i + 2, used);
    }

    method SyncDirectories(o: nat -> Outcome, i: nat) returns (ok: bool, used: nat)
      ensures used >= i && Perform(State(), SyncExecutable, o, i, used) == (State(), if ok then ExecPrevious else Down)
    {
      assert Perform(State(), SyncExecutable, o, i, i) == (State(), SyncExecutable);
      if !o(i).Done? {
        return false, i + 1;
      }
      assert Perform(State(), SyncExecutable, o, i, i + 1) == (State(), SyncMarker);
      return o(i + 1).Done?, i + 2;
    }
  }
}
