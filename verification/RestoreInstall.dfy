/** Installing an extracted backup over a stopped installation: several files are replaced by renames,
    any of which may fail, and a failure before the commit point moves everything back. */
module RestoreInstall {
  import opened Wrappers

  /** A file (or the Wispist directory as one unit) in a state directory, or the i-th replaced file kept
      in the rollback directory made beside it. */
  datatype Path = Path(dir: string, name: string) | Kept(dir: string, index: nat)

  type Content = seq<bv8>

  type Files = map<Path, Content>

  datatype Replacement = Replacement(
    target: Path, staged: Option<Path>, rollback: Option<Path>, movedOld: bool, installedNew: bool)

  datatype Report = Installed | Leftovers | Rejected | RolledBack | Incomplete

  function Planned(target: Path, staged: Option<Path>): Replacement {
    Replacement(target, staged, None, false, false)
  }

  // ---- What the steps may and may not do ----

  predicate SameAt(a: Files, b: Files, p: Path) {
    if p in a then p in b && a[p] == b[p] else p !in b
  }

  /** The plan of `prepareReplacements`: nothing done yet, staged files present, no path used twice. */
  predicate WellPlanned(plan: seq<Replacement>, orig: Files) {
    && (forall i :: 0 <= i < |plan| ==> plan[i] == Planned(plan[i].target, plan[i].staged) && plan[i].target.Path?)
    && (forall i, j :: 0 <= i < j < |plan| ==> plan[i].target != plan[j].target)
    && (forall i :: 0 <= i < |plan| && plan[i].staged.Some? ==> plan[i].staged.value in orig && plan[i].staged.value.Path?)
    && (forall i, j :: 0 <= i < j < |plan| && plan[i].staged.Some? ==> plan[i].staged != plan[j].staged)
    && (forall i, j :: 0 <= i < |plan| && 0 <= j < |plan| ==> plan[i].staged != Some(plan[j].target))
    && (forall p :: p in orig ==> p.Path?)
  }

  function Keep(p: Replacement, i: nat): Path {
    Kept(p.target.dir, i)
  }

  /** One replacement part-way, as its flags describe it. */
  predicate ItemGood(orig: Files, fs: Files, p: Replacement, r: Replacement, i: nat) {
    && r.target == p.target
    && (if r.movedOld
        then r.rollback == Some(Keep(p, i)) && p.target in orig && Keep(p, i) in fs && fs[Keep(p, i)] == orig[p.target]
        else Keep(p, i) !in fs)
    && (if r.installedNew
        then p.staged.Some? && p.staged.value in orig && r.staged.None? && p.staged.value !in fs
             && p.target in fs && fs[p.target] == orig[p.staged.value] && (p.target in orig ==> r.movedOld)
        else r.staged == p.staged && (p.staged.Some? ==> p.staged.value in orig && SameAt(orig, fs, p.staged.value))
             && if r.movedOld then p.target !in fs else SameAt(orig, fs, p.target))
  }

  predicate ItemDone(p: Replacement, r: Replacement, orig: Files) {
    (r.movedOld <==> p.target in orig) && (r.installedNew <==> p.staged.Some?)
  }

  predicate ItemInstalled(orig: Files, fs: Files, p: Replacement) {
    if p.staged.Some? then p.staged.value in orig && p.target in fs && fs[p.target] == orig[p.staged.value]
    else p.target !in fs
  }

  /** The original is still at its target or at its rollback path. */
  predicate ItemSaved(orig: Files, fs: Files, p: Replacement, i: nat) {
    p.target in orig ==>
      SameAt(orig, fs, p.target) || (Keep(p, i) in fs && fs[Keep(p, i)] == orig[p.target])
  }

  predicate AllGood(orig: Files, fs: Files, plan: seq<Replacement>, now: seq<Replacement>) {
    |now| == |plan| && forall i :: 0 <= i < |plan| ==> ItemGood(orig, fs, plan[i], now[i], i)
  }

  predicate AllInstalled(orig: Files, fs: Files, plan: seq<Replacement>) {
    forall i :: 0 <= i < |plan| ==> ItemInstalled(orig, fs, plan[i])
  }

  predicate AllSaved(orig: Files, fs: Files, plan: seq<Replacement>) {
    forall i :: 0 <= i < |plan| ==> ItemSaved(orig, fs, plan[i], i)
  }

  predicate AllOriginal(orig: Files, fs: Files, plan: seq<Replacement>) {
    forall i :: 0 <= i < |plan| ==> SameAt(orig, fs, plan[i].target)
  }

  /** Whatever a crash finds: every original is somewhere, or the restore is complete. */
  predicate Safe(orig: Files, fs: Files, plan: seq<Replacement>) {
    AllSaved(orig, fs, plan) || AllInstalled(orig, fs, plan)
  }

  predicate AllSafe(orig: Files, seen: seq<Files>, plan: seq<Replacement>) {
    forall k :: 0 <= k < |seen| ==> Safe(orig, seen[k], plan)
  }

  /** Nothing but targets, staged files and rollback paths is ever touched. */
  ghost predicate OthersSame(orig: Files, fs: Files, plan: seq<Replacement>) {
    forall p: Path :: p.Path? && !Involved(plan, p) ==> SameAt(orig, fs, p)
  }

  /** No staged file that was to be installed is left behind. */
  predicate StagedGone(fs: Files, plan: seq<Replacement>, now: seq<Replacement>) {
    |now| == |plan| && forall i :: 0 <= i < |plan| && plan[i].staged.Some? && now[i].staged.None? ==>
      plan[i].staged.value !in fs
  }

  /** No staged file of the first n replacements is left. */
  predicate GoneBelow(fs: Files, plan: seq<Replacement>, n: nat)
    requires n <= |plan|
  {
    forall i :: 0 <= i < n && plan[i].staged.Some? ==> plan[i].staged.value !in fs
  }

  predicate StagedSame(fs: Files, fs': Files, plan: seq<Replacement>) {
    forall i :: 0 <= i < |plan| && plan[i].staged.Some? ==> SameAt(fs, fs', plan[i].staged.value)
  }

  predicate Involved(plan: seq<Replacement>, p: Path) {
    exists i :: 0 <= i < |plan| && (plan[i].target == p || plan[i].staged == Some(p))
  }

  // ---- The effect of single operations ----

  lemma {:induction false} ItemFrame(orig: Files, fs: Files, fs': Files, p: Replacement, r: Replacement, i: nat)
    requires ItemGood(orig, fs, p, r, i)
    requires SameAt(fs, fs', p.target) && SameAt(fs, fs', Keep(p, i))
    requires p.staged.Some? ==> SameAt(fs, fs', p.staged.value)
    ensures ItemGood(orig, fs', p, r, i)
  {
  }

  function Renamed(fs: Files, a: Path, b: Path): Files
    requires a in fs
  {
    (fs - {a})[b := fs[a]]
  }

  /** Moving the i-th original aside. */
  lemma {:induction false} MoveKeeps(orig: Files, fs: Files, plan: seq<Replacement>, now: seq<Replacement>, i: nat)
    requires WellPlanned(plan, orig) && AllGood(orig, fs, plan, now) && i < |plan|
    requires !now[i].movedOld && !now[i].installedNew && plan[i].target in fs
    ensures var fs' := Renamed(fs, plan[i].target, Keep(plan[i], i));
            && AllGood(orig, fs', plan, now[i := now[i].(rollback := Some(Keep(plan[i], i)), movedOld := true)])
            && (OthersSame(orig, fs, plan) ==> OthersSame(orig, fs', plan))
  {
    var fs' := Renamed(fs, plan[i].target, Keep(plan[i], i));
    var now' := now[i := now[i].(rollback := Some(Keep(plan[i], i)), movedOld := true)];
    forall j | 0 <= j < |plan| ensures ItemGood(orig, fs', plan[j], now'[j], j) {
      assert ItemGood(orig, fs, plan[j], now[j], j) && ItemGood(orig, fs, plan[i], now[i], i);
      if j != i {
        ItemFrame(orig, fs, fs', plan[j], now[j], j);
      }
    }
    forall p: Path | p.Path? && !Involved(plan, p) ensures SameAt(fs, fs', p) {
    }
  }

  /** Moving the i-th staged file into place. */
  lemma {:induction false} InstallKeeps(orig: Files, fs: Files, plan: seq<Replacement>, now: seq<Replacement>, i: nat)
    requires WellPlanned(plan, orig) && AllGood(orig, fs, plan, now) && i < |plan|
    requires now[i].staged.Some? && plan[i].target !in fs
    ensures now[i].staged.value in fs && now[i].staged == plan[i].staged
    ensures var fs' := Renamed(fs, now[i].staged.value, plan[i].target);
            && AllGood(orig, fs', plan, now[i := now[i].(staged := None, installedNew := true)])
            && (OthersSame(orig, fs, plan) ==> OthersSame(orig, fs', plan))
  {
    assert ItemGood(orig, fs, plan[i], now[i], i);
    var fs' := Renamed(fs, now[i].staged.value, plan[i].target);
    var now' := now[i := now[i].(staged := None, installedNew := true)];
    forall j | 0 <= j < |plan| ensures ItemGood(orig, fs', plan[j], now'[j], j) {
      assert ItemGood(orig, fs, plan[j], now[j], j);
      if j != i {
        ItemFrame(orig, fs, fs', plan[j], now[j], j);
      }
    }
    forall p: Path | p.Path? && !Involved(plan, p) ensures SameAt(fs, fs', p) {
    }
  }

  // ---- Moving back ----

  /** A rollback that has dealt with the items from n on: each is saved, and with no failure so far undone. */
  predicate Unwinding(orig: Files, fs: Files, plan: seq<Replacement>, now: seq<Replacement>, n: nat, ok: bool) {
    && |now| == |plan| && n <= |plan|
    && (forall j :: 0 <= j < n ==> ItemGood(orig, fs, plan[j], now[j], j))
    && (forall j :: n <= j < |plan| ==> ItemSaved(orig, fs, plan[j], j))
    && (ok ==> forall j :: n <= j < |plan| ==> ItemUndone(orig, fs, plan[j], j))
  }

  predicate ItemUndone(orig: Files, fs: Files, p: Replacement, i: nat) {
    SameAt(orig, fs, p.target) && Keep(p, i) !in fs
  }

  ghost predicate OnlyTouched(fs: Files, fs': Files, a: Path, b: Path) {
    forall p: Path :: p != a && p != b ==> SameAt(fs, fs', p)
  }

  lemma {:induction false} UnwindSaved(
    orig: Files, fs: Files, plan: seq<Replacement>, now: seq<Replacement>, n: nat, ok: bool)
    requires Unwinding(orig, fs, plan, now, n, ok)
    ensures AllSaved(orig, fs, plan)
  {
    forall j | 0 <= j < |plan| ensures ItemSaved(orig, fs, plan[j], j) {
      if j < n {
        assert ItemGood(orig, fs, plan[j], now[j], j);
      }
    }
  }

  /** Touching item n only, and leaving it saved, moves the rollback past it. */
  lemma {:induction false} UnwindStep(
    orig: Files, fs: Files, fs': Files, plan: seq<Replacement>, now: seq<Replacement>, n: nat, ok: bool, ok': bool)
    requires WellPlanned(plan, orig) && n < |plan| && Unwinding(orig, fs, plan, now, n + 1, ok)
    requires OnlyTouched(fs, fs', plan[n].target, Keep(plan[n], n))
    requires ItemSaved(orig, fs', plan[n], n) && (ok' ==> ok && ItemUndone(orig, fs', plan[n], n))
    ensures Unwinding(orig, fs', plan, now, n, ok')
    ensures OthersSame(orig, fs, plan) ==> OthersSame(orig, fs', plan)
  {
    forall j | 0 <= j < n ensures ItemGood(orig, fs', plan[j], now[j], j) {
      assert ItemGood(orig, fs, plan[j], now[j], j);
      ItemFrame(orig, fs, fs', plan[j], now[j], j);
    }
    forall j | n <= j < |plan|
      ensures ItemSaved(orig, fs', plan[j], j) && (ok' ==> ItemUndone(orig, fs', plan[j], j))
    {
      if j != n {
        assert ItemSaved(orig, fs, plan[j], j) && (ok ==> ItemUndone(orig, fs, plan[j], j));
        assert SameAt(fs, fs', plan[j].target) && SameAt(fs, fs', Keep(plan[j], j));
      }
    }
    forall p: Path | p.Path? && !Involved(plan, p) ensures SameAt(fs, fs', p) {
    }
  }

  lemma {:induction false} TouchedTwice(fs: Files, fs': Files, fs'': Files, a: Path, b: Path)
    requires OnlyTouched(fs, fs', a, a) && OnlyTouched(fs', fs'', a, b)
    ensures OnlyTouched(fs, fs'', a, b)
  {
    forall p: Path | p != a && p != b ensures SameAt(fs, fs'', p) {
      assert SameAt(fs, fs', p) && SameAt(fs', fs'', p);
    }
  }

  /** Touching a staged file only. */
  lemma {:induction false} StagedFrame(orig: Files, fs: Files, fs': Files, plan: seq<Replacement>, i: nat)
    requires WellPlanned(plan, orig) && i < |plan| && plan[i].staged.Some?
    requires OnlyTouched(fs, fs', plan[i].staged.value, plan[i].staged.value)
    ensures AllSaved(orig, fs, plan) ==> AllSaved(orig, fs', plan)
    ensures AllOriginal(orig, fs, plan) ==> AllOriginal(orig, fs', plan)
    ensures AllInstalled(orig, fs, plan) ==> AllInstalled(orig, fs', plan)
    ensures OthersSame(orig, fs, plan) ==> OthersSame(orig, fs', plan)
    ensures NoKept(fs, plan) ==> NoKept(fs', plan)
  {
    forall j | 0 <= j < |plan| ensures SameAt(fs, fs', plan[j].target) && SameAt(fs, fs', Keep(plan[j], j)) {
    }
    forall p: Path | p.Path? && !Involved(plan, p) ensures SameAt(fs, fs', p) {
    }
  }

  predicate NoKept(fs: Files, plan: seq<Replacement>) {
    forall i :: 0 <= i < |plan| ==> Keep(plan[i], i) !in fs
  }

  lemma {:induction false} DoneInstalled(orig: Files, fs: Files, plan: seq<Replacement>, now: seq<Replacement>)
    requires AllGood(orig, fs, plan, now)
    requires forall i :: 0 <= i < |plan| ==> ItemDone(plan[i], now[i], orig)
    ensures AllInstalled(orig, fs, plan)
  {
    forall i | 0 <= i < |plan| ensures ItemInstalled(orig, fs, plan[i]) {
      assert ItemGood(orig, fs, plan[i], now[i], i) && ItemDone(plan[i], now[i], orig);
    }
  }

  // ---- The installation itself ----

  class Restorer {
    /** Whether the n-th I/O operation succeeds. */
    const outcome: nat -> bool
    var clock: nat
    var fs: Files
    /** Every state the disk has passed through: what a crash could find. */
    ghost var seen: seq<Files>

    constructor (outcome: nat -> bool, fs: Files)
      ensures this.fs == fs && seen == [] && clock == 0
    {
      this.outcome, this.fs, clock, seen := outcome, fs, 0, [];
    }

    /** One of the operations from the n-th up to the m-th fails. */
    ghost predicate Fails(n: nat, m: nat) {
      exists k :: n <= k < m && !outcome(k)
    }

    /** Time has passed, and `ok` says whether every operation meanwhile succeeded. */
    twostate predicate Tells(ok: bool)
      reads this
    {
      old(clock) <= clock && (ok <==> !Fails(old(clock), clock))
    }

    method Io() returns (ok: bool)
      modifies this`clock
      ensures Tells(ok)
    {
      ok := outcome(clock);
      clock := clock + 1;
    }

    method Rename(a: Path, b: Path) returns (ok: bool)
      requires a in fs
      modifies this
      ensures fs == if ok then Renamed(old(fs), a, b) else old(fs)
      ensures seen == old(seen) + [fs] && Tells(ok)
    {
      ok := Io();
      if ok {
        fs := (fs - {a})[b := fs[a]];
      }
      seen := seen + [fs];
    }

    /** A failed removal of a directory tree may have removed part of it. */
    method RemoveAll(p: Path) returns (ok: bool)
      modifies this
      ensures OnlyTouched(old(fs), fs, p, p) && (ok ==> p !in fs)
      ensures seen == old(seen) + [fs] && Tells(ok)
    {
      ok := Io();
      if ok {
        fs := fs - {p};
      } else if p in fs {
        var rest: Content := *;
        fs := fs[p := rest];
      }
      seen := seen + [fs];
    }

    method RemoveRollbackDirectory(dir: string) returns (ok: bool)
      modifies this
      ensures forall p: Path :: p.Path? ==> SameAt(old(fs), fs, p)
      ensures fs.Keys <= old(fs).Keys
      ensures ok ==> forall p :: p in fs && p.Kept? ==> p.dir != dir
      ensures seen == old(seen) + [fs] && Tells(ok)
    {
      ok := Io();
      if ok {
        fs := map p | p in fs && !(p.Kept? && p.dir == dir) :: fs[p];
      } else {
        var gone: set<Path> := *;
        fs := map p | p in fs && !(p in gone && p.Kept? && p.dir == dir) :: fs[p];
      }
      seen := seen + [fs];
    }

    method MoveAll(a: array<Replacement>, ghost orig: Files, ghost plan: seq<Replacement>) returns (ok: bool)
      requires a[..] == plan && WellPlanned(plan, orig) && AllGood(orig, fs, plan, plan)
      requires OthersSame(orig, fs, plan) && AllSafe(orig, seen, plan)
      modifies this, a
      ensures AllGood(orig, fs, plan, a[..]) && OthersSame(orig, fs, plan) && AllSafe(orig, seen, plan)
      ensures ok ==> AllInstalled(orig, fs, plan) && forall j :: 0 <= j < a.Length ==> a[j].staged.None?
      ensures Tells(ok)
    {
      for i := 0 to a.Length
        invariant Tells(true)
        invariant AllGood(orig, fs, plan, a[..]) && OthersSame(orig, fs, plan) && AllSafe(orig, seen, plan)
        invariant forall j :: i <= j < a.Length ==> a[j] == plan[j]
        invariant forall j :: 0 <= j < i ==> ItemDone(plan[j], a[j], orig)
      {
        ok := MoveOne(a, i, orig, plan);
        if !ok {
          return;
        }
      }
      DoneInstalled(orig, fs, plan, a[..]);
      assert forall j :: 0 <= j < a.Length ==> ItemGood(orig, fs, plan[j], a[..][j], j);
      ok := true;
    }

    method MoveOne(a: array<Replacement>, i: nat, ghost orig: Files, ghost plan: seq<Replacement>) returns (ok: bool)
      requires i < a.Length && WellPlanned(plan, orig) && AllGood(orig, fs, plan, a[..])
      requires a[i] == plan[i] && OthersSame(orig, fs, plan) && AllSafe(orig, seen, plan)
      modifies this, a
      ensures AllGood(orig, fs, plan, a[..]) && OthersSame(orig, fs, plan) && AllSafe(orig, seen, plan)
      ensures ok ==> ItemDone(plan[i], a[i], orig)
      ensures Tells(ok)
      ensures forall j :: 0 <= j < a.Length && j != i ==> a[j] == old(a[j])
    {
      assert ItemGood(orig, fs, plan[i], a[..][i], i);
      ok := Io();
      if ok && a[i].target in fs {
        ok := MoveAside(a, i, orig, plan);
      }
      if ok && a[i].staged.Some? {
        ok := PutInPlace(a, i, orig, plan);
      }
    }

    method MoveAside(a: array<Replacement>, i: nat, ghost orig: Files, ghost plan: seq<Replacement>) returns (ok: bool)
      requires i < a.Length && WellPlanned(plan, orig) && AllGood(orig, fs, plan, a[..]) && a[i] == plan[i]
      requires a[i].target in fs && OthersSame(orig, fs, plan) && AllSafe(orig, seen, plan)
      modifies this, a
      ensures AllGood(orig, fs, plan, a[..]) && OthersSame(orig, fs, plan) && AllSafe(orig, seen, plan)
      ensures ok ==> a[i] == plan[i].(rollback := Some(Keep(plan[i], i)), movedOld := true) && a[i].target !in fs
      ensures Tells(ok)
      ensures forall j :: 0 <= j < a.Length && j != i ==> a[j] == old(a[j])
    {
      ghost var now := a[..];
      assert ItemGood(orig, fs, plan[i], now[i], i);
      var rollback := Kept(a[i].target.dir, i);
      a[i] := a[i].(rollback := Some(rollback));
      assert now[i := a[i]] == a[..];
      assert forall j :: 0 <= j < |plan| && j != i ==> ItemGood(orig, fs, plan[j], now[j], j);
      MoveKeeps(orig, fs, plan, now, i);
      ok := Rename(a[i].target, rollback);
      if ok {
        a[i] := a[i].(movedOld := true);
        assert now[i := a[i]] == a[..];
      }
    }

    method PutInPlace(a: array<Replacement>, i: nat, ghost orig: Files, ghost plan: seq<Replacement>) returns (ok: bool)
      requires i < a.Length && WellPlanned(plan, orig) && AllGood(orig, fs, plan, a[..])
      requires a[i].staged.Some? && a[i].target !in fs && OthersSame(orig, fs, plan) && AllSafe(orig, seen, plan)
      modifies this, a
      ensures AllGood(orig, fs, plan, a[..]) && OthersSame(orig, fs, plan) && AllSafe(orig, seen, plan)
      ensures ok ==> a[i] == old(a[i]).(staged := None, installedNew := true)
      ensures Tells(ok)
      ensures forall j :: 0 <= j < a.Length && j != i ==> a[j] == old(a[j])
    {
      ghost var now := a[..];
      assert ItemGood(orig, fs, plan[i], now[i], i);
      InstallKeeps(orig, fs, plan, now, i);
      ok := Rename(a[i].staged.value, a[i].target);
      if ok {
        a[i] := a[i].(staged := None, installedNew := true);
        assert now[i := a[i]] == a[..];
      }
    }

    method RollbackReplacements(a: array<Replacement>, ghost orig: Files, ghost plan: seq<Replacement>)
      returns (ok: bool)
      requires WellPlanned(plan, orig) && AllGood(orig, fs, plan, a[..])
      requires OthersSame(orig, fs, plan) && AllSafe(orig, seen, plan)
      modifies this
      ensures AllSaved(orig, fs, plan) && OthersSame(orig, fs, plan) && AllSafe(orig, seen, plan)
      ensures ok ==> AllOriginal(orig, fs, plan) && NoKept(fs, plan)
      ensures Tells(ok) && StagedSame(old(fs), fs, plan)
    {
      ok := true;
      var index := a.Length;
      while index > 0
        invariant StagedSame(old(fs), fs, plan)
        invariant Tells(ok)
        invariant 0 <= index <= a.Length
        invariant Unwinding(orig, fs, plan, a[..], index, ok)
        invariant OthersSame(orig, fs, plan) && AllSafe(orig, seen, plan)
      {
        index := index - 1;
        var undone := UndoOne(a, index, orig, plan, ok);
        ok := ok && undone;
      }
      UnwindSaved(orig, fs, plan, a[..], 0, ok);
      assert ok ==> forall j :: 0 <= j < |plan| ==> ItemUndone(orig, fs, plan[j], j);
    }

    method UndoOne(a: array<Replacement>, i: nat, ghost orig: Files, ghost plan: seq<Replacement>, ghost ok: bool)
      returns (undone: bool)
      requires i < a.Length && WellPlanned(plan, orig) && Unwinding(orig, fs, plan, a[..], i + 1, ok)
      requires OthersSame(orig, fs, plan) && AllSafe(orig, seen, plan)
      modifies this
      ensures Unwinding(orig, fs, plan, a[..], i, ok && undone)
      ensures Tells(undone) && StagedSame(old(fs), fs, plan)
      ensures OthersSame(orig, fs, plan) && AllSafe(orig, seen, plan)
    {
      var replacement := a[i];
      ghost var start := fs;
      assert ItemGood(orig, fs, plan[i], a[..][i], i);
      if replacement.installedNew {
        undone := RemoveAll(replacement.target);
        assert SameAt(start, fs, Keep(plan[i], i));
        UnwindStep(orig, start, fs, plan, a[..], i, ok, false);
        UnwindSaved(orig, fs, plan, a[..], i, false);
        if !undone {
          return;
        }
      }
      undone := true;
      ghost var middle := fs;
      if replacement.movedOld {
        undone := Rename(replacement.rollback.value, replacement.target);
      }
      TouchedTwice(start, middle, fs, plan[i].target, Keep(plan[i], i));
      UnwindStep(orig, start, fs, plan, a[..], i, ok, ok && undone);
      UnwindSaved(orig, fs, plan, a[..], i, ok && undone);
    }

    /** Flush every directory that was touched. */
    method SyncDirectories(directories: set<string>) returns (ok: bool)
      modifies this`clock
      ensures Tells(ok)
    {
      var rest := directories;
      while rest != {}
        invariant Tells(true)
        decreases rest
      {
        var dir :| dir in rest;
        rest := rest - {dir};
        ok := Io();
        if !ok {
          return;
        }
      }
      ok := true;
    }

    /** Remove the kept originals: only once they are back in place, or no longer wanted. */
    method RemoveRollbackDirectories(directories: set<string>, ghost orig: Files, ghost plan: seq<Replacement>)
      returns (ok: bool)
      requires WellPlanned(plan, orig) && OthersSame(orig, fs, plan) && AllSafe(orig, seen, plan)
      requires AllOriginal(orig, fs, plan) || AllInstalled(orig, fs, plan)
      modifies this
      ensures OthersSame(orig, fs, plan) && AllSafe(orig, seen, plan)
      ensures AllOriginal(orig, old(fs), plan) ==> AllOriginal(orig, fs, plan)
      ensures AllInstalled(orig, old(fs), plan) ==> AllInstalled(orig, fs, plan)
      ensures ok ==> forall p :: p in fs && p.Kept? ==> p.dir !in directories
      ensures Tells(ok) && StagedSame(old(fs), fs, plan)
      ensures NoKept(old(fs), plan) ==> NoKept(fs, plan)
    {
      ok := true;
      var rest := directories;
      while rest != {}
        invariant rest <= directories && Tells(ok) && StagedSame(old(fs), fs, plan)
        invariant OthersSame(orig, fs, plan) && AllSafe(orig, seen, plan)
        invariant AllOriginal(orig, old(fs), plan) ==> AllOriginal(orig, fs, plan)
        invariant AllInstalled(orig, old(fs), plan) ==> AllInstalled(orig, fs, plan)
        invariant ok ==> forall p :: p in fs && p.Kept? && p.dir in directories ==> p.dir in rest
        invariant fs.Keys <= old(fs).Keys
        decreases rest
      {
        var dir :| dir in rest;
        var removed := RemoveRollbackDirectory(dir);
        ok := ok && removed;
        rest := rest - {dir};
      }
    }

    /** Check every target and make one rollback directory beside each. */
    method MakeRollbackDirectories(a: array<Replacement>) returns (ok: bool, directories: set<string>)
      modifies this`clock
      ensures ok ==> forall i :: 0 <= i < a.Length ==> a[i].target.dir in directories
      ensures Tells(ok)
    {
      directories := {};
      for i := 0 to a.Length
        invariant Tells(true)
        invariant forall j :: 0 <= j < i ==> a[j].target.dir in directories
      {
        ok := Io();
        if !ok {
          return;
        }
        var parent := a[i].target.dir;
        if parent !in directories {
          ok := Io();
          if !ok {
            return;
          }
          directories := directories + {parent};
        }
      }
      ok := true;
    }

    /** Move everything back, and give up the rollback directories only if that is complete. */
    method FailAfterMutation(
      a: array<Replacement>, directories: set<string>, ghost orig: Files, ghost plan: seq<Replacement>)
      returns (report: Report, ghost undone: nat)
      requires WellPlanned(plan, orig) && AllGood(orig, fs, plan, a[..])
      requires OthersSame(orig, fs, plan) && AllSafe(orig, seen, plan)
      modifies this
      ensures Reported(report, orig, fs, plan) && OthersSame(orig, fs, plan) && AllSafe(orig, seen, plan)
      ensures old(clock) <= undone <= clock && StagedSame(old(fs), fs, plan)
      ensures report == if Fails(old(clock), undone) then Incomplete else RolledBack
    {
      var ok := RollbackReplacements(a, orig, plan);
      undone := clock;
      if !ok {
        return Incomplete, undone;
      }
      var _ := RemoveRollbackDirectories(directories, orig, plan);
      return RolledBack, undone;
    }

    /** Up to the clean-up of staged files. The operations before `prepared` make ready, those before `committed`
        move and flush; if one of these fails, those before `undone` move back. */
    method Replace(a: array<Replacement>, ghost orig: Files, ghost plan: seq<Replacement>)
      returns (report: Report, ghost prepared: nat, ghost committed: nat, ghost undone: nat)
      requires a[..] == plan && WellPlanned(plan, orig) && fs == orig && seen == []
      modifies this, a
      ensures a.Length == |plan| && OthersSame(orig, fs, plan) && AllSafe(orig, seen, plan)
      ensures forall i :: 0 <= i < |plan| ==> a[i].staged == plan[i].staged || a[i].staged.None?
      ensures Reported(report, orig, fs, plan)
      ensures old(clock) <= prepared <= committed <= undone <= clock
      ensures !Fails(prepared, committed) ==> undone == committed
      ensures report == Verdict(Fails(old(clock), prepared), Fails(prepared, committed), Fails(committed, undone),
                                Fails(undone, clock))
      ensures report.Installed? || report.Leftovers? ==> forall i :: 0 <= i < a.Length ==> a[i].staged.None?
      ensures StagedGone(fs, plan, a[..])
    {
      var ok, directories := MakeRollbackDirectories(a);
      prepared, committed, undone := clock, clock, clock;
      if !ok {
        var _ := RemoveRollbackDirectories(directories, orig, plan);
        return Rejected, prepared, committed, undone;
      }
      ok := MoveAll(a, orig, plan);
      ghost var moved := a[..];
      assert forall i :: 0 <= i < |plan| ==> ItemGood(orig, fs, plan[i], moved[i], i);
      if ok {
        ok := SyncDirectories(directories);
      }
      committed, undone := clock, clock;
      if !ok {
        report, undone := FailAfterMutation(a, directories, orig, plan);
        return report, prepared, committed, undone;
      }
      ok := RemoveRollbackDirectories(directories, orig, plan);
      if !ok {
        return Leftovers, prepared, committed, undone;
      }
      ok := SyncDirectories(directories);
      report := if ok then Installed else Leftovers;
    }

    /** All or nothing, whichever operations fail. On success every target holds its staged content or is
        absent; after an error with a complete rollback, and before the first move, every target is as it
        was; after an incomplete rollback every original is at its target or in its rollback directory.
        Every state on the way, and so whatever a crash finds, has all originals or is fully restored.
        And nothing but a failure stands in the way: the report is decided by which operations fail, and if none
        does the backup is installed. */
    method InstallExtractedBackup(a: array<Replacement>)
      returns (report: Report, ghost prepared: nat, ghost committed: nat, ghost undone: nat, ghost done: nat)
      requires WellPlanned(a[..], fs) && seen == []
      modifies this, a
      ensures old(clock) <= prepared <= committed <= undone <= done <= clock
      ensures report == Verdict(Fails(old(clock), prepared), Fails(prepared, committed), Fails(committed, undone),
                                Fails(undone, done))
      ensures report.Installed? <==> !Fails(old(clock), clock)
      ensures !Fails(done, clock) ==> GoneBelow(fs, old(a[..]), a.Length)
      ensures Reported(report, old(fs), fs, old(a[..]))
      ensures OthersSame(old(fs), fs, old(a[..])) && AllSafe(old(fs), seen, old(a[..]))
    {
      ghost var orig, plan := fs, a[..];
      report, prepared, committed, undone := Replace(a, orig, plan);
      done := clock;
      assert report.Installed? ==> forall k :: old(clock) <= k < done ==>
        (k < prepared || prepared <= k < committed || undone <= k) && outcome(k);
      RemoveStaged(a, report, orig, plan);
    }

    /** Deferred: staged files that were not moved into place. Errors are discarded. */
    method RemoveStaged(a: array<Replacement>, report: Report, ghost orig: Files, ghost plan: seq<Replacement>)
      requires WellPlanned(plan, orig) && Reported(report, orig, fs, plan) && StagedGone(fs, plan, a[..])
      requires forall i :: 0 <= i < |plan| ==> a[i].staged == plan[i].staged || a[i].staged.None?
      requires OthersSame(orig, fs, plan) && AllSafe(orig, seen, plan)
      modifies this
      ensures Reported(report, orig, fs, plan) && OthersSame(orig, fs, plan) && AllSafe(orig, seen, plan)
      ensures old(clock) <= clock && ((forall i :: 0 <= i < a.Length ==> a[i].staged.None?) ==> clock == old(clock))
      ensures !Fails(old(clock), clock) ==> GoneBelow(fs, plan, |plan|)
    {
      ghost var ok := true;
      for i := 0 to a.Length
        invariant Reported(report, orig, fs, plan) && StagedGone(fs, plan, a[..]) && Tells(ok)
        invariant OthersSame(orig, fs, plan) && AllSafe(orig, seen, plan)
        invariant old(clock) <= clock && ((forall j :: 0 <= j < a.Length ==> a[j].staged.None?) ==> clock == old(clock))
        invariant ok ==> GoneBelow(fs, plan, i)
      {
        if a[i].staged.Some? {
          var removed := RemoveStagedAt(a, i, report, orig, plan);
          ok := ok && removed;
        }
      }
    }

    method RemoveStagedAt(
      a: array<Replacement>, i: nat, report: Report, ghost orig: Files, ghost plan: seq<Replacement>)
      returns (removed: bool)
      requires WellPlanned(plan, orig) && Reported(report, orig, fs, plan) && StagedGone(fs, plan, a[..])
      requires i < a.Length && a[i].staged.Some? && a[i].staged == plan[i].staged
      requires OthersSame(orig, fs, plan) && AllSafe(orig, seen, plan)
      modifies this
      ensures Reported(report, orig, fs, plan) && OthersSame(orig, fs, plan) && AllSafe(orig, seen, plan)
      ensures Tells(removed) && StagedGone(fs, plan, a[..])
      ensures removed && GoneBelow(old(fs), plan, i) ==> GoneBelow(fs, plan, i + 1)
    {
      ghost var before := fs;
      removed := RemoveAll(a[i].staged.value);
      StagedStep(report, orig, before, fs, plan, a[..], i);
    }
  }

  /** How failures in the four stretches decide the report. */
  function Verdict(preparing: bool, moving: bool, undoing: bool, cleaning: bool): Report {
    if preparing then Rejected
    else if moving then if undoing then Incomplete else RolledBack
    else if cleaning then Leftovers
    else Installed
  }

  /** What each report promises about the disk. */
  predicate Reported(report: Report, orig: Files, fs: Files, plan: seq<Replacement>) {
    match report
    case Installed => AllInstalled(orig, fs, plan) && NoKept(fs, plan)
    case Leftovers => AllInstalled(orig, fs, plan)
    case Rejected => AllOriginal(orig, fs, plan) && NoKept(fs, plan)
    case RolledBack => AllOriginal(orig, fs, plan) && NoKept(fs, plan)
    case Incomplete => AllSaved(orig, fs, plan)
  }

  lemma {:induction false} StagedStep(
    report: Report, orig: Files, fs: Files, fs': Files, plan: seq<Replacement>, now: seq<Replacement>, i: nat)
    requires WellPlanned(plan, orig) && i < |plan| && plan[i].staged.Some? && StagedGone(fs, plan, now)
    requires OnlyTouched(fs, fs', plan[i].staged.value, plan[i].staged.value)
    requires Reported(report, orig, fs, plan) && OthersSame(orig, fs, plan) && now[i].staged.Some?
    ensures Reported(report, orig, fs', plan) && OthersSame(orig, fs', plan) && Safe(orig, fs', plan)
    ensures StagedGone(fs', plan, now)
    ensures GoneBelow(fs, plan, i) && plan[i].staged.value !in fs' ==> GoneBelow(fs', plan, i + 1)
  {
    StagedFrame(orig, fs, fs', plan, i);
    forall j | 0 <= j < |plan| && j != i && plan[j].staged.Some?
      ensures SameAt(fs, fs', plan[j].staged.value)
    {
      assert plan[j].staged != plan[i].staged by {
        assert if i < j then plan[i].staged != plan[j].staged else plan[j].staged != plan[i].staged;
      }
    }
    if AllOriginal(orig, fs', plan) {
      assert forall j :: 0 <= j < |plan| ==> SameAt(orig, fs', plan[j].target);
    }
  }
}
