/** Reading the change feed page by page, while others commit and the log is trimmed between the pages. */
module PagedChanges {
  import opened Wrappers
  import opened ChangeLog
  import opened DocumentStore
  import StoreHistory
  import RetainedLog
  import opened PagedListing

  type PageLimit = n: nat | n >= 1 witness 1

  /** What the others commit before a page is read, and how long the page may be. */
  datatype Visit = Visit(writes: seq<StoreOp>, limit: PageLimit)

  datatype Reader = Reader(e: StoreHistory.Epoch, now: int, position: nat, collected: seq<Change>, expired: bool)

  function LastNow(now: int, ops: seq<StoreOp>): int {
    if ops == [] then now else ops[|ops| - 1].Now()
  }

  function Read(r: Reader, v: Visit, ns: string, cs: set<string>): Reader {
    var e := RunFrom(r.e, v.writes);
    var r' := r.(e := e, now := LastNow(r.now, v.writes));
    if r.expired then r'
    else
      match Changes(e.space, ns, cs, ChangeCursor(ns, r.position), v.limit)
      case Ok(page) => r'.(position := page.cursor.sequence, collected := r.collected + page.changes)
      case Err(_) => r'.(expired := true)
  }

  function ReadAll(r: Reader, visits: seq<Visit>, ns: string, cs: set<string>): Reader {
    if visits == [] then r else Read(ReadAll(r, visits[..|visits| - 1], ns, cs), visits[|visits| - 1], ns, cs)
  }

  /** The clock does not run backwards, from `now` on. */
  predicate SteadyFrom(now: int, ops: seq<StoreOp>) {
    ops == [] ||
    (SteadyFrom(now, ops[..|ops| - 1]) && LastNow(now, ops[..|ops| - 1]) <= ops[|ops| - 1].Now())
  }

  predicate SteadyVisits(now: int, visits: seq<Visit>, r: Reader, ns: string, cs: set<string>) {
    visits == [] ||
    (&& SteadyVisits(now, visits[..|visits| - 1], r, ns, cs)
     && SteadyFrom(ReadAll(r, visits[..|visits| - 1], ns, cs).now, visits[|visits| - 1].writes))
  }

  ghost predicate Serves(e: StoreHistory.Epoch, now: int) {
    Sound(e) && RetainedLog.Contiguous(e.space.log, e.history) && RetainedLog.Chronological(e.space.log, now)
  }

  /** Everything wanted between where the reader began and where it stands has been collected, once, in order. */
  ghost predicate Collected(r: Reader, from: nat, cs: set<string>) {
    && Serves(r.e, r.now)
    && from <= r.position <= |r.e.history|
    && r.collected == Wanted(r.e.history[from..r.position], cs)
  }

  lemma {:induction false} ServesOn(e: StoreHistory.Epoch, now: int, ops: seq<StoreOp>)
    requires Serves(e, now) && SteadyFrom(now, ops)
    ensures Serves(RunFrom(e, ops), LastNow(now, ops)) && e.history <= RunFrom(e, ops).history
  {
    if ops != [] {
      var init, op := ops[..|ops| - 1], ops[|ops| - 1];
      ServesOn(e, now, init);
      StoreHistory.FoldStep(RunFrom(e, init), op);
      RetainedLog.LogStep(RunFrom(e, init), op);
    }
  }

  /** One visit: the reader is turned away exactly when a change after its position has been trimmed. Otherwise it
      moves on by exactly what it collects, or has reached the end. */
  lemma {:induction false} ReadExact(r: Reader, v: Visit, ns: string, cs: set<string>, from: nat)
    requires Collected(r, from, cs) && SteadyFrom(r.now, v.writes)
    ensures var r' := Read(r, v, ns, cs);
            && Collected(r', from, cs)
            && (r'.expired <==> r.expired || r.position < |r'.e.history| - |r'.e.space.log|)
            && (!r'.expired ==> r.position < r'.position || r'.position == |r'.e.history|)
  {
    var e := RunFrom(r.e, v.writes);
    ServesOn(r.e, r.now, v.writes);
    assert e.history[from..r.position] == r.e.history[from..r.position];
    if !r.expired {
      RetainedLog.ChangesExact(e.space, e.history, ns, cs, ChangeCursor(ns, r.position), v.limit);
      Joined(e.history, from, r.position, Read(r, v, ns, cs).position, cs);
    }
  }

  lemma {:induction false} Joined(history: seq<Change>, from: nat, a: nat, b: nat, cs: set<string>)
    requires from <= a <= b <= |history|
    ensures Wanted(history[from..b], cs) == Wanted(history[from..a], cs) + Wanted(history[a..b], cs)
  {
    assert history[from..b] == history[from..a] + history[a..b];
    WantedConcat(history[from..a], history[a..b], cs);
  }

  /** Over every run of visits: the pages, put together, are exactly the wanted changes from the first cursor to the
      last, whatever was committed and trimmed between them, and also when the reader is turned away in the end. */
  lemma {:induction false} PagesAreExact(r: Reader, visits: seq<Visit>, ns: string, cs: set<string>, from: nat)
    requires Collected(r, from, cs) && SteadyVisits(r.now, visits, r, ns, cs)
    ensures Collected(ReadAll(r, visits, ns, cs), from, cs)
  {
    if visits != [] {
      var init := visits[..|visits| - 1];
      PagesAreExact(r, init, ns, cs, from);
      ReadExact(ReadAll(r, init, ns, cs), visits[|visits| - 1], ns, cs, from);
    }
  }

  /** Once the others pause, a reader that is not turned away has everything after as many pages as changes. */
  lemma {:induction false} PausedReaderFinishes(r: Reader, visits: seq<Visit>, ns: string, cs: set<string>, from: nat)
    requires Collected(r, from, cs) && |visits| > |r.e.history| - r.position
    requires forall i :: 0 <= i < |visits| ==> visits[i].writes == []
    ensures var r' := ReadAll(r, visits, ns, cs);
            && r'.e == r.e
            && (!r'.expired ==> r'.collected == Wanted(r.e.history[from..], cs))
  {
    Progress(r, visits, ns, cs, from);
    assert r.e.history[from..|r.e.history|] == r.e.history[from..];
  }

  lemma {:induction false} Progress(r: Reader, visits: seq<Visit>, ns: string, cs: set<string>, from: nat)
    requires Collected(r, from, cs)
    requires forall i :: 0 <= i < |visits| ==> visits[i].writes == []
    ensures var r' := ReadAll(r, visits, ns, cs);
            && r'.e == r.e && Collected(r', from, cs)
            && (!r'.expired ==> r'.position >= r.position + |visits| || (visits != [] && r'.position == |r.e.history|))
  {
    if visits != [] {
      var init := visits[..|visits| - 1];
      Progress(r, init, ns, cs, from);
      ReadExact(ReadAll(r, init, ns, cs), visits[|visits| - 1], ns, cs, from);
    }
  }
}
