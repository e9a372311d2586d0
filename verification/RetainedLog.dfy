/** The trimmed change log against the untrimmed history: when it reaches back far enough, and when
    reading it could silently miss a change. */
module RetainedLog {
  import opened Wrappers
  import opened ChangeLog
  import opened DocumentTable
  import opened DocumentStore
  import opened StoreHistory

  /** The retained entries are exactly the newest |log| changes of the history. */
  predicate Contiguous(log: seq<LogEntry>, history: seq<Change>) {
    && |log| <= |history|
    && forall i :: 0 <= i < |log| ==> log[i].change == history[|history| - |log| + i]
  }

  predicate Chronological(log: seq<LogEntry>, now: int) {
    && (forall i, j :: 0 <= i < j < |log| ==> log[i].occurredAt <= log[j].occurredAt)
    && (forall i :: 0 <= i < |log| ==> log[i].occurredAt <= now)
  }

  /** The clock does not run backwards from one committed operation to the next. */
  predicate SteadyClock(ops: seq<StoreOp>) {
    forall i, j :: 0 <= i < j < |ops| ==> ops[i].Now() <= ops[j].Now()
  }

  // ---- Trimming ----

  lemma {:induction false} DropOlderConcat(a: seq<LogEntry>, b: seq<LogEntry>, cutoff: int)
    ensures DropOlder(a + b, cutoff) == DropOlder(a, cutoff) + DropOlder(b, cutoff)
  {
    if b == [] {
      assert a + b == a;
    } else {
      assert (a + b)[..|a + b| - 1] == a + b[..|b| - 1];
      DropOlderConcat(a, b[..|b| - 1], cutoff);
    }
  }

  lemma {:induction false} DropOlderBound(log: seq<LogEntry>, cutoff: int)
    ensures |DropOlder(log, cutoff)| <= |log|
    ensures forall e :: e in DropOlder(log, cutoff) ==> e in log && e.occurredAt >= cutoff
  {
    if log != [] {
      DropOlderBound(log[..|log| - 1], cutoff);
    }
  }

  lemma {:induction false} DropOlderAllYoung(log: seq<LogEntry>, cutoff: int)
    requires forall i :: 0 <= i < |log| ==> log[i].occurredAt >= cutoff
    ensures DropOlder(log, cutoff) == log
  {
    if log != [] {
      DropOlderAllYoung(log[..|log| - 1], cutoff);
    }
  }

  lemma {:induction false} DropOlderAllOld(log: seq<LogEntry>, cutoff: int)
    requires forall i :: 0 <= i < |log| ==> log[i].occurredAt < cutoff
    ensures DropOlder(log, cutoff) == []
  {
    if log != [] {
      DropOlderAllOld(log[..|log| - 1], cutoff);
    }
  }

  predicate IsSuffix(part: seq<LogEntry>, log: seq<LogEntry>) {
    |part| <= |log| && part == log[|log| - |part|..]
  }

  lemma {:induction false} DropOlderSuffix(log: seq<LogEntry>, cutoff: int, now: int)
    requires Chronological(log, now)
    ensures IsSuffix(DropOlder(log, cutoff), log)
  {
    if log != [] {
      if log[|log| - 1].occurredAt < cutoff {
        DropOlderAllOld(log, cutoff);
      } else {
        DropOlderSuffix(log[..|log| - 1], cutoff, now);
      }
    }
  }

  lemma {:induction false} TrimSteady(log: seq<LogEntry>, now: int, limits: Limits)
    requires Chronological(log, now)
    ensures IsSuffix(Trim(log, now, limits), log) && Chronological(Trim(log, now, limits), now)
    ensures |Trim(log, now, limits)| <= limits.changeRetentionEntries
  {
    DropOlderSuffix(log, now - limits.changeRetentionAge, now);
  }

  /** Exactly which entries of an ordered log are kept: those young enough and among the newest allowed. */
  lemma {:induction false} TrimExact(log: seq<LogEntry>, now: int, limits: Limits, k: nat)
    requires Chronological(log, now) && k < |log|
    ensures var kept := Trim(log, now, limits);
            IsSuffix(kept, log) && (|log| - |kept| <= k <==>
              log[k].occurredAt >= now - limits.changeRetentionAge && |log| - k <= limits.changeRetentionEntries)
  {
    var kept, cutoff := Trim(log, now, limits), now - limits.changeRetentionAge;
    TrimSteady(log, now, limits);
    if |log| - |kept| <= k {
      KeptMember(log, cutoff, limits.changeRetentionEntries);
      assert log[k] == kept[k - (|log| - |kept|)];
    }
    if log[k].occurredAt >= cutoff {
      YoungKept(log, now, cutoff, k);
    }
  }

  lemma {:induction false} YoungKept(log: seq<LogEntry>, now: int, cutoff: int, k: nat)
    requires Chronological(log, now) && k < |log| && log[k].occurredAt >= cutoff
    ensures |DropOlder(log, cutoff)| >= |log| - k
  {
    assert log == log[..k] + log[k..];
    DropOlderConcat(log[..k], log[k..], cutoff);
    DropOlderAllYoung(log[k..], cutoff);
  }

  /** Over every run under a steady clock the retained changes are an unbroken run up to the latest. */
  lemma {:induction false} LogStaysContiguous(ops: seq<StoreOp>)
    requires SteadyClock(ops)
    ensures var e := Run(ops);
            Contiguous(e.space.log, e.history) && (ops != [] ==> Chronological(e.space.log, ops[|ops| - 1].Now()))
  {
    if ops != [] {
      var init, op := ops[..|ops| - 1], ops[|ops| - 1];
      LogStaysContiguous(init);
      assert init != [] ==> init[|init| - 1] == ops[|ops| - 2];
      TableIsFoldOfHistory(init);
      LogStep(Run(init), op);
    }
  }

  lemma {:induction false} LogStep(e: Epoch, op: StoreOp)
    requires Sorted(e.space.rows, e.space.last) && UniqueKeys(e.space.rows)
    requires Contiguous(e.space.log, e.history) && Chronological(e.space.log, op.Now())
    ensures Contiguous(Step(e, op).space.log, Step(e, op).history)
    ensures Chronological(Step(e, op).space.log, op.Now())
  {
    ExecLegal(e.space, op);
    var out := Exec(e.space, op);
    if out.changes == [] {
      assert e.history + out.changes == e.history;
    }
    AppendAndTrim(e.space.log, out.changes, e.history, op.Now(), op.Bounds());
  }

  lemma {:induction false} AppendAndTrim(
    log: seq<LogEntry>, chs: seq<Change>, history: seq<Change>, now: int, limits: Limits)
    requires Contiguous(log, history) && Chronological(log, now)
    ensures var log' := Trim(log + Entries(chs, now), now, limits);
            Contiguous(log', history + chs) && Chronological(log', now)
  {
    var all := log + Entries(chs, now);
    assert Contiguous(all, history + chs);
    TrimSteady(all, now, limits);
  }

  // ---- Reading the log ----

  function Tail(history: seq<Change>, after: nat): seq<Change> {
    if after >= |history| then [] else history[after..]
  }

  lemma {:induction false} LogAfterIsWanted(
    log: seq<LogEntry>, history: seq<Change>, cs: set<string>, after: nat, hi: nat)
    requires Sequenced(history) && Contiguous(log, history) && |history| - |log| <= after && |history| <= hi
    ensures LogAfter(log, cs, after, hi) == Wanted(Tail(history, after), cs)
  {
    if log != [] {
      var log', history' := log[..|log| - 1], history[..|history| - 1];
      LogAfterIsWanted(log', history', cs, after, hi);
      if after < |history| {
        assert history[after..][..|history| - after - 1] == Tail(history', after);
      }
    }
  }

  /** Cutting the wanted changes after n of them is cutting the history at the n-th one's sequence. */
  lemma {:induction false} WantedCut(history: seq<Change>, cs: set<string>, after: nat, n: nat)
    requires Sequenced(history) && after <= |history|
    requires 0 < n <= |Wanted(history[after..], cs)|
    ensures var found := Wanted(history[after..], cs);
            var q := found[n - 1].sequence;
            after < q <= |history| && Wanted(history[after..q], cs) == found[..n]
  {
    if after < |history| {
      var history' := history[..|history| - 1];
      assert history[after..][..|history| - after - 1] == history'[after..];
      var rest := Wanted(history'[after..], cs);
      if n <= |rest| {
        WantedCut(history', cs, after, n);
        assert history'[after..rest[n - 1].sequence] == history[after..rest[n - 1].sequence];
      } else {
        assert history[after..|history|] == history[after..];
      }
    }
  }

  /** One page is exact: it holds precisely the wanted changes after the cursor it was asked for and up
      to the cursor it returns; a page that promises more makes progress, the last reaches the end. */
  ghost predicate PageExact(history: seq<Change>, cs: set<string>, after: nat, limit: nat, page: ChangesPage) {
    && after <= page.cursor.sequence <= |history|
    && page.changes == Wanted(history[after..page.cursor.sequence], cs)
    && (page.more ==> after < page.cursor.sequence && |page.changes| == limit)
    && (!page.more ==> page.cursor.sequence == |history|)
  }

  lemma {:induction false} ChangesExact(
    sp: Space, history: seq<Change>, ns: string, cs: set<string>, after: ChangeCursor, limit: nat)
    requires limit >= 1 && after.ns == ns
    requires sp.last == |history| && Sequenced(history) && Contiguous(sp.log, history)
    ensures var r := Changes(sp, ns, cs, after, limit);
            && (r == Err(InvalidCursor) <==> after.sequence > |history|)
            && (r == Err(CursorExpired) <==> after.sequence < |history| - |sp.log|)
            && (r.Ok? ==> PageExact(history, cs, after.sequence, limit, r.value))
  {
    var a := after.sequence;
    if |history| - |sp.log| <= a <= |history| {
      LogAfterIsWanted(sp.log, history, cs, a, sp.last);
      assert Tail(history, a) == history[a..];
      var found := Wanted(history[a..], cs);
      if |found| > limit {
        WantedCut(history, cs, a, limit);
      } else {
        assert history[a..|history|] == history[a..];
      }
    }
  }

  predicate Trimmed(log: seq<LogEntry>, ch: Change) {
    forall entry :: entry in log ==> entry.change != ch
  }

  lemma {:induction false} TrimmedIff(log: seq<LogEntry>, history: seq<Change>, k: nat)
    requires Sequenced(history) && Contiguous(log, history) && k < |history|
    ensures Trimmed(log, history[k]) <==> k < |history| - |log|
  {
    var trimmed := |history| - |log|;
    if k >= trimmed {
      assert log[k - trimmed] in log;
    } else {
      forall entry | entry in log ensures entry.change != history[k] {
        var i :| 0 <= i < |log| && log[i] == entry;
        assert entry.change == history[trimmed + i];
      }
    }
  }

  /** No silent gap, over every run under a steady clock: a cursor is invalid exactly beyond the end,
      expired exactly when a change after it has been trimmed, and otherwise read exactly. */
  lemma {:induction false} NoSilentGap(
    ops: seq<StoreOp>, ns: string, cs: set<string>, after: ChangeCursor, limit: nat)
    requires SteadyClock(ops) && limit >= 1 && after.ns == ns
    ensures var e := Run(ops);
            var r := Changes(e.space, ns, cs, after, limit);
            && (r == Err(InvalidCursor) <==> after.sequence > |e.history|)
            && (r == Err(CursorExpired) <==>
                  exists k :: after.sequence <= k < |e.history| && Trimmed(e.space.log, e.history[k]))
            && (r.Ok? ==> PageExact(e.history, cs, after.sequence, limit, r.value))
  {
    var e := Run(ops);
    TableIsFoldOfHistory(ops);
    LogStaysContiguous(ops);
    ChangesExact(e.space, e.history, ns, cs, after, limit);
    forall k | 0 <= k < |e.history|
      ensures Trimmed(e.space.log, e.history[k]) <==> k < |e.history| - |e.space.log|
    {
      TrimmedIff(e.space.log, e.history, k);
    }
    if after.sequence < |e.history| - |e.space.log| {
      assert Trimmed(e.space.log, e.history[after.sequence]);
    }
  }

  // ---- Without the clock assumption: exactly when trimming punches a hole ----

  /** An entry older than the cutoff that stands between retained ones. */
  predicate Stranded(log: seq<LogEntry>, cutoff: int, n: nat, j: nat)
    requires j < |log|
  {
    && log[j].occurredAt < cutoff
    && DropOlder(log[..j], cutoff) != []
    && |DropOlder(log[j + 1..], cutoff)| < n
  }

  predicate AnyStranded(log: seq<LogEntry>, cutoff: int, n: nat) {
    exists j :: 0 <= j < |log| && Stranded(log, cutoff, n, j)
  }

  lemma {:induction false} DropOlderAround(log: seq<LogEntry>, cutoff: int, j: nat)
    requires j < |log| && log[j].occurredAt < cutoff
    ensures DropOlder(log, cutoff) == DropOlder(log[..j], cutoff) + DropOlder(log[j + 1..], cutoff)
  {
    assert log == log[..j] + ([log[j]] + log[j + 1..]);
    DropOlderConcat(log[..j], [log[j]] + log[j + 1..], cutoff);
    DropOlderConcat([log[j]], log[j + 1..], cutoff);
    DropOlderAllOld([log[j]], cutoff);
  }

  lemma {:induction false} KeptMember(log: seq<LogEntry>, cutoff: int, n: nat)
    ensures forall e :: e in KeepNewest(DropOlder(log, cutoff), n) ==> e in log && e.occurredAt >= cutoff
  {
    DropOlderBound(log, cutoff);
  }

  lemma {:induction false} TrimSuffixIff(log: seq<LogEntry>, cutoff: int, n: nat)
    ensures IsSuffix(KeepNewest(DropOlder(log, cutoff), n), log) <==> !AnyStranded(log, cutoff, n)
  {
    if IsSuffix(KeepNewest(DropOlder(log, cutoff), n), log) {
      forall j | 0 <= j < |log| ensures !Stranded(log, cutoff, n, j) {
        SuffixNotStranded(log, cutoff, n, j);
      }
    }
    SuffixOrStranded(log, cutoff, n);
  }

  lemma {:induction false} SuffixNotStranded(log: seq<LogEntry>, cutoff: int, n: nat, j: nat)
    requires IsSuffix(KeepNewest(DropOlder(log, cutoff), n), log) && j < |log|
    ensures !Stranded(log, cutoff, n, j)
  {
    if log[j].occurredAt < cutoff {
      var kept := KeepNewest(DropOlder(log, cutoff), n);
      var k := |log| - |kept|;
      KeptMember(log, cutoff, n);
      assert forall x :: k <= x < |log| ==> log[x] == kept[x - k];
      assert log[j + 1..] == log[j + 1..k] + kept;
      DropOlderConcat(log[j + 1..k], kept, cutoff);
      DropOlderAllYoung(kept, cutoff);
      DropOlderAround(log, cutoff, j);
    }
  }

  lemma {:induction false} SuffixOrStranded(log: seq<LogEntry>, cutoff: int, n: nat)
    ensures IsSuffix(KeepNewest(DropOlder(log, cutoff), n), log) || AnyStranded(log, cutoff, n)
  {
    var kept := KeepNewest(DropOlder(log, cutoff), n);
    DropOlderBound(log, cutoff);
    var k := |log| - |kept|;
    if j :| k <= j < |log| && log[j].occurredAt < cutoff {
      DropOlderAround(log, cutoff, j);
      DropOlderBound(log[j + 1..], cutoff);
      assert Stranded(log, cutoff, n, j);
    } else {
      assert log == log[..k] + log[k..];
      DropOlderConcat(log[..k], log[k..], cutoff);
      DropOlderAllYoung(log[k..], cutoff);
      assert kept == log[k..];
    }
  }

  /** Some cursor is accepted although a change after it is missing from the log. */
  ghost predicate SilentGap(sp: Space, history: seq<Change>) {
    exists after: nat, c :: GapAt(sp, history, after, c)
  }

  predicate GapAt(sp: Space, history: seq<Change>, after: nat, c: string) {
    && after <= |history| && !Expired(sp, after)
    && LogAfter(sp.log, {c}, after, sp.last) != Wanted(history[after..], {c})
  }

  lemma {:induction false} LogAfterMember(log: seq<LogEntry>, cs: set<string>, lo: nat, hi: nat, ch: Change)
    requires ch in LogAfter(log, cs, lo, hi)
    ensures exists e :: e in log && e.change == ch
  {
    if log[|log| - 1].change == ch {
      assert log[|log| - 1] in log;
    } else {
      LogAfterMember(log[..|log| - 1], cs, lo, hi, ch);
    }
  }

  /** For any one trim of a contiguous log, at any clock reading: a silent gap appears if and only if
      an entry older than the cutoff stands between retained ones. */
  lemma {:induction false} GapIffStranded(sp: Space, history: seq<Change>, now: int, limits: Limits)
    requires sp.last == |history| && Sequenced(history) && Contiguous(sp.log, history)
    ensures SilentGap(sp.(log := Trim(sp.log, now, limits)), history)
       <==> AnyStranded(sp.log, now - limits.changeRetentionAge, limits.changeRetentionEntries)
  {
    var cutoff, n := now - limits.changeRetentionAge, limits.changeRetentionEntries;
    var kept := Trim(sp.log, now, limits);
    var sp' := sp.(log := kept);
    TrimSuffixIff(sp.log, cutoff, n);
    if AnyStranded(sp.log, cutoff, n) {
      var j :| 0 <= j < |sp.log| && Stranded(sp.log, cutoff, n, j);
      StrandedGap(sp', sp.log, history, cutoff, n, j);
    } else {
      NoGap(sp', history);
    }
  }

  lemma {:induction false} NoGap(sp: Space, history: seq<Change>)
    requires sp.last == |history| && Sequenced(history) && Contiguous(sp.log, history)
    ensures !SilentGap(sp, history)
  {
    forall after: nat, c ensures !GapAt(sp, history, after, c) {
      if after <= |history| && !Expired(sp, after) {
        LogAfterIsWanted(sp.log, history, {c}, after, sp.last);
        assert Tail(history, after) == history[after..];
      }
    }
  }

  /** The first retained entry stands before a stranded one. */
  lemma {:induction false} KeptBefore(log: seq<LogEntry>, cutoff: int, n: nat, j: nat)
    requires j < |log| && Stranded(log, cutoff, n, j)
    ensures KeepNewest(DropOlder(log, cutoff), n) != []
    ensures exists i :: 0 <= i < j && log[i] == KeepNewest(DropOlder(log, cutoff), n)[0]
  {
    var young, before, after := DropOlder(log, cutoff), DropOlder(log[..j], cutoff), DropOlder(log[j + 1..], cutoff);
    DropOlderAround(log, cutoff, j);
    var kept := KeepNewest(young, n);
    // More than |after| entries are kept, so the first of them comes from before j.
    assert |kept| > |after|;
    assert kept[0] == young[|young| - |kept|] == before[|young| - |kept|];
    DropOlderBound(log[..j], cutoff);
    assert kept[0] in before;
    var i :| 0 <= i < j && log[..j][i] == kept[0];
    assert log[i] == kept[0];
  }

  /** The cursor just before the first retained entry is accepted and misses the stranded change. */
  lemma {:induction false} StrandedGap(
    sp: Space, log: seq<LogEntry>, history: seq<Change>, cutoff: int, n: nat, j: nat)
    requires sp.last == |history| && Sequenced(history) && Contiguous(log, history)
    requires sp.log == KeepNewest(DropOlder(log, cutoff), n)
    requires j < |log| && Stranded(log, cutoff, n, j)
    ensures SilentGap(sp, history)
  {
    KeptBefore(log, cutoff, n, j);
    var i :| 0 <= i < j && log[i] == sp.log[0];
    var trimmed := |history| - |log|;
    var ch, after := log[j].change, trimmed + i;
    assert history[after..][j - i] == ch;
    WantedMember(history[after..], {ch.collection}, ch);
    NotRetained(log, history, cutoff, n, j);
    if ch in LogAfter(sp.log, {ch.collection}, after, sp.last) {
      LogAfterMember(sp.log, {ch.collection}, after, sp.last, ch);
    }
    assert GapAt(sp, history, after, ch.collection);
  }

  lemma {:induction false} NotRetained(log: seq<LogEntry>, history: seq<Change>, cutoff: int, n: nat, j: nat)
    requires Sequenced(history) && Contiguous(log, history) && j < |log| && log[j].occurredAt < cutoff
    ensures Trimmed(KeepNewest(DropOlder(log, cutoff), n), log[j].change)
  {
    KeptMember(log, cutoff, n);
    forall e | e in KeepNewest(DropOlder(log, cutoff), n) ensures e.change != log[j].change {
      var k :| 0 <= k < |log| && log[k] == e;
      assert e.change.sequence == |history| - |log| + k + 1;
    }
  }

  // ---- A run in which the clock steps back ----

  function Tiny(): Limits {
    Limits(10, 10, 100, 10, 10, 40, 1000)
  }

  function Add(id: string, now: int): StoreOp {
    PutOp(PutRequest("c", id, [], true, "", now, Tiny()), "r")
  }

  lemma {:induction false} AddCommits(e: Epoch, id: string, now: int)
    requires !HasRow(e.space.rows, "c", id) && |Project(e.space.rows, "c")| < 10 && TotalBytes(e.space.rows) == 0
    ensures var d := Document(id, "r", [], now, now);
            var ch := StoredChange(ChangeCreate, e.space.last + 1, "c", d);
            var e' := Step(e, Add(id, now));
            && e'.history == e.history + [ch]
            && e'.space.last == e.space.last + 1
            && e'.space.rows == e.space.rows + [Row("c", d, e.space.last + 1)]
            && e'.space.log == Trim(e.space.log + [LogEntry(ch, now)], now, Tiny())
  {
    var d := Document(id, "r", [], now, now);
    OneChange(e.space, StoredChange(ChangeCreate, e.space.last + 1, "c", d), now);
  }

  function Added(sequence: nat, id: string, now: int): Change {
    StoredChange(ChangeCreate, sequence, "c", Document(id, "r", [], now, now))
  }

  function AddedRow(sequence: nat, id: string, now: int): Row {
    Row("c", Document(id, "r", [], now, now), sequence)
  }

  lemma {:induction false} AfterOne()
    ensures var e := Run([Add("a", 100)]);
            && e.space.last == 1
            && e.space.rows == [AddedRow(1, "a", 100)]
            && e.space.log == [LogEntry(Added(1, "a", 100), 100)]
            && e.history == [Added(1, "a", 100)]
  {
    var ops := [Add("a", 100)];
    var e := Epoch(EMPTY_SPACE, []);
    assert ops[..0] == [];
    assert Run(ops) == Step(e, Add("a", 100));
    AddCommits(e, "a", 100);
    DropOlderAllYoung([LogEntry(Added(1, "a", 100), 100)], 60);
  }

  lemma {:induction false} AfterTwo(second: int)
    requires second <= 140
    ensures var e := Run([Add("a", 100)] + [Add("b", second)]);
            && e.space.last == 2
            && e.space.rows == [AddedRow(1, "a", 100), AddedRow(2, "b", second)]
            && e.space.log == [LogEntry(Added(1, "a", 100), 100), LogEntry(Added(2, "b", second), second)]
            && e.history == [Added(1, "a", 100), Added(2, "b", second)]
  {
    AfterOne();
    var e := Run([Add("a", 100)]);
    SmallTable(e.space.rows);
    AddCommits(e, "b", second);
    DropOlderAllYoung([LogEntry(Added(1, "a", 100), 100), LogEntry(Added(2, "b", second), second)], second - 40);
  }

  lemma {:induction false} AfterThree()
    ensures var e := Run([Add("a", 100), Add("b", 50), Add("d", 100)]);
            && e.space.last == 3
            && e.space.log == [LogEntry(Added(1, "a", 100), 100), LogEntry(Added(3, "d", 100), 100)]
            && e.history == [Added(1, "a", 100), Added(2, "b", 50), Added(3, "d", 100)]
  {
    AfterTwo(50);
    assert [Add("a", 100), Add("b", 50)] == [Add("a", 100)] + [Add("b", 50)];
    ThirdAdd(Run([Add("a", 100), Add("b", 50)]));
  }

  lemma {:induction false} ThirdAdd(e: Epoch)
    requires e.space.last == 2 && |e.history| == 2
    requires e.space.rows == [AddedRow(1, "a", 100), AddedRow(2, "b", 50)]
    requires e.space.log == [LogEntry(Added(1, "a", 100), 100), LogEntry(Added(2, "b", 50), 50)]
    ensures var e', third := Step(e, Add("d", 100)), Added(3, "d", 100);
            && e'.space.last == 3 && e'.history == e.history + [third]
            && e'.space.log == [LogEntry(Added(1, "a", 100), 100), LogEntry(third, 100)]
  {
    SmallTable(e.space.rows);
    AddCommits(e, "d", 100);
    HoleIn(e.space.log, Added(2, "b", 50), LogEntry(Added(3, "d", 100), 100));
  }

  /** Three creates at clock readings 100, 50 and 100 with a retention age of 40: the second change is
      trimmed from between the others, the cursor before all of them is still accepted, and a reader
      resuming from it is never told of the second document. */
  lemma {:induction false} ClockStepBackLosesChange()
    ensures var e := Run([Add("a", 100), Add("b", 50), Add("d", 100)]);
            && |e.history| == 3 && e.history[1].id == "b"
            && SilentGap(e.space, e.history)
            && var r := Changes(e.space, "n", {"c"}, ChangeCursor("n", 0), 10);
               r.Ok? && r.value.changes == [e.history[0], e.history[2]]
  {
    AfterThree();
    var e := Run([Add("a", 100), Add("b", 50), Add("d", 100)]);
    HoleRead(e.space, e.history[0], e.history[2]);
    WantedMember(e.history, {"c"}, e.history[1]);
    assert e.history[0..] == e.history;
    assert GapAt(e.space, e.history, 0, "c");
  }

  lemma {:induction false} HoleRead(sp: Space, a: Change, d: Change)
    requires sp.last == 3 && a.sequence == 1 && d.sequence == 3 && a.collection == "c" && d.collection == "c"
    requires |sp.log| == 2 && sp.log[0].change == a && sp.log[1].change == d
    ensures LogAfter(sp.log, {"c"}, 0, 3) == [a, d]
    ensures var r := Changes(sp, "n", {"c"}, ChangeCursor("n", 0), 10);
            r.Ok? && r.value.changes == [a, d]
  {
    var log := sp.log;
    assert log[..1] == [log[0]] && log[..1][..0] == [];
    assert LogAfter(log[..1], {"c"}, 0, 3) == [a];
  }

  lemma {:induction false} HoleIn(l2: seq<LogEntry>, b: Change, e: LogEntry)
    requires |l2| == 2 && l2[0].occurredAt == 100 && l2[1] == LogEntry(b, 50) && e.occurredAt == 100
    ensures Trim(l2 + [e], 100, Tiny()) == [l2[0], e]
  {
    assert l2 + [e] == [l2[0]] + ([l2[1]] + [e]);
    DropOlderConcat([l2[0]], [l2[1]] + [e], 60);
    DropOlderConcat([l2[1]], [e], 60);
    DropOlderAllYoung([l2[0]], 60);
    DropOlderAllOld([l2[1]], 60);
    DropOlderAllYoung([e], 60);
  }

  lemma {:induction false} SmallTable(rows: seq<Row>)
    requires forall i :: 0 <= i < |rows| ==> rows[i].doc.data == []
    ensures |Project(rows, "c")| <= |rows| && TotalBytes(rows) == 0
  {
    if rows != [] {
      SmallTable(rows[..|rows| - 1]);
    }
  }
}
