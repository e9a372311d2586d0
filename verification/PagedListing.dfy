/** The pages that `List` serves, and the browser's loop that collects them while others write. */
module PagedListing {
  import opened ChangeLog
  import opened DocumentTable
  import opened DocumentStore
  import opened StoreHistory
  import opened FuzzyListing

  // ---- One page against the table ----

  lemma {:induction false} IdLessIrreflexive(id: string)
    ensures !IdLess(id, id)
  {
    if id != [] {
      IdLessIrreflexive(id[1..]);
    }
  }

  /** A cursor this store handed out in this epoch: it names the document created at its sequence. */
  predicate Honest(cursor: PageCursor, history: seq<Change>) {
    && cursor.sequence <= cursor.watermark <= |history|
    && (cursor.sequence > 0 ==> history[cursor.sequence - 1].id == cursor.id)
  }

  /** With an honest cursor the tie-break on document IDs never adds a row. */
  lemma {:induction false} ListedRange(row: Row, cursor: PageCursor, history: seq<Change>)
    requires RowBacked(row, history) && Honest(cursor, history)
    ensures Listed(row, cursor) <==>
              row.collection == cursor.collection && cursor.sequence < row.createdSequence <= cursor.watermark
  {
    IdLessIrreflexive(cursor.id);
  }

  lemma {:induction false} DocsSnoc(rows: seq<Row>, row: Row)
    ensures Docs(rows + [row]) == Docs(rows) + [row.doc]
  {
  }

  lemma {:induction false} ListRowsRange(rows: seq<Row>, cursor: PageCursor, history: seq<Change>)
    requires forall r :: r in rows ==> RowBacked(r, history)
    requires Honest(cursor, history)
    ensures Docs(ListRows(rows, cursor)) == Range(rows, cursor.collection, cursor.sequence, cursor.watermark)
    ensures forall r :: r in ListRows(rows, cursor) ==> r in rows && Listed(r, cursor)
  {
    if rows != [] {
      var init, row := rows[..|rows| - 1], rows[|rows| - 1];
      ListRowsRange(init, cursor, history);
      ListedRange(row, cursor, history);
      DocsSnoc(ListRows(init, cursor), row);
    }
  }

  /** The first n listed rows are the rows up to the n-th one's `created_sequence`. */
  lemma {:induction false} ListRowsCut(rows: seq<Row>, cursor: PageCursor, history: seq<Change>, last: nat, n: nat)
    requires Sorted(rows, last) && forall r :: r in rows ==> RowBacked(r, history)
    requires Honest(cursor, history) && 0 < n <= |ListRows(rows, cursor)|
    ensures var found := ListRows(rows, cursor);
            Docs(found[..n]) == Range(rows, cursor.collection, cursor.sequence, found[n - 1].createdSequence)
  {
    var init, row := rows[..|rows| - 1], rows[|rows| - 1];
    var found, rest := ListRows(rows, cursor), ListRows(init, cursor);
    InitRows(rows, last);
    ListRowsRange(init, cursor, history);
    if n <= |rest| {
      ListRowsCut(init, cursor, history, last, n);
      assert found[..n] == rest[..n];
      assert rest[n - 1] in rest;
    } else {
      ListedRange(row, cursor, history);
      assert found[..n] == rest + [row];
      DocsSnoc(rest, row);
      RangeBelow(init, cursor.collection, cursor.sequence, row.createdSequence, cursor.watermark, last);
    }
  }

  lemma {:induction false} RangeBelow(rows: seq<Row>, c: string, lo: nat, mid: nat, hi: nat, last: nat)
    requires Sorted(rows, last) && lo <= mid <= hi && forall r :: r in rows ==> r.createdSequence < mid
    ensures Range(rows, c, lo, hi) == Range(rows, c, lo, mid)
  {
    RangeSplit(rows, c, lo, mid, hi, last);
    RangeEmpty(rows, c, mid, hi);
    assert Range(rows, c, lo, mid) + [] == Range(rows, c, lo, mid);
  }

  /** Where a page leaves the listing: the sequence of its cursor, or the watermark after the last page. */
  function Reached(page: ListPage): nat {
    if page.after.Some? then page.after.value.sequence else page.changes.sequence
  }

  /** A page holds exactly the rows between the cursor it was asked for and the one it returns; while
      more remain, the cursor strictly advances and stays honest. */
  ghost predicate PageServed(e: Epoch, cursor: PageCursor, limit: nat, page: ListPage) {
    && page.documents == Range(e.space.rows, cursor.collection, cursor.sequence, Reached(page))
    && page.changes == ChangeCursor(cursor.ns, cursor.watermark)
    && cursor.sequence <= Reached(page) <= cursor.watermark
    && (page.after.Some? ==>
          && |page.documents| == limit
          && page.after.value == cursor.(sequence := page.after.value.sequence, id := page.after.value.id)
          && cursor.sequence < page.after.value.sequence
          && Honest(page.after.value, e.history))
    && (page.after.None? ==> Reached(page) == cursor.watermark)
  }

  lemma {:induction false} ListServes(e: Epoch, cursor: PageCursor, limit: nat)
    requires e.space.last == |e.history| && Folded(e.space.rows, e.history)
    requires Honest(cursor, e.history) && limit >= 1
    ensures var r := List(e.space, cursor.ns, cursor.collection, limit, At(cursor));
            r.Ok? && PageServed(e, cursor, limit, r.value)
  {
    var rows := e.space.rows;
    var found := ListRows(rows, cursor);
    ListRowsRange(rows, cursor, e.history);
    if |found| > limit {
      var last := found[limit - 1];
      assert last in found;
      ListRowsCut(rows, cursor, e.history, e.space.last, limit);
      ListedRange(last, cursor, e.history);
    }
  }

  /** The first page starts a cursor at the current end of the log. */
  lemma {:induction false} ListStarts(e: Epoch, ns: string, c: string, limit: nat)
    requires e.space.last == |e.history| && limit >= 1
    ensures var cursor := PageCursor(ns, c, e.space.last, 0, "");
            Honest(cursor, e.history)
            && List(e.space, ns, c, limit, NoCursor) == List(e.space, ns, c, limit, At(cursor))
  {
  }

  // ---- The state of a listing inside an epoch ----

  ghost predicate FuzzyAt(listed: seq<Document>, cursor: PageCursor, rows: seq<Row>, history: seq<Change>) {
    && Honest(cursor, history)
    && DistinctIds(listed)
    && Fuzzy(listed, cursor.watermark, cursor.sequence, rows, |history|,
             Wanted(history[cursor.watermark..], {cursor.collection}), cursor.collection)
  }

  /** A listing that is under way in epoch e. */
  ghost predicate Listing(listed: seq<Document>, cursor: PageCursor, e: Epoch) {
    FuzzyAt(listed, cursor, e.space.rows, e.history)
  }

  ghost predicate Sound(e: Epoch) {
    e.space.last == |e.history| && Folded(e.space.rows, e.history)
  }

  lemma {:induction false} WantedSnoc(chs: seq<Change>, ch: Change, c: string)
    ensures Wanted(chs + [ch], {c}) == if ch.collection == c then Wanted(chs, {c}) + [ch] else Wanted(chs, {c})
  {
    assert (chs + [ch])[..|chs + [ch]| - 1] == chs;
  }

  lemma {:induction false} FuzzyMany(
    listed: seq<Document>, cursor: PageCursor, rows: seq<Row>, history: seq<Change>, chs: seq<Change>)
    requires Folded(rows, history) && LegalFrom(rows, |history|, chs)
    requires FuzzyAt(listed, cursor, rows, history)
    ensures FuzzyAt(listed, cursor, ApplyRows(rows, chs), history + chs)
  {
    if chs == [] {
      assert history + chs == history;
    } else {
      var init, ch := chs[..|chs| - 1], chs[|chs| - 1];
      var rows', history' := ApplyRows(rows, init), history + init;
      assert history + chs == history' + [ch];
      FuzzyMany(listed, cursor, rows, history, init);
      FoldMany(rows, history, init);
      FuzzyOne(listed, cursor, rows', history', ch);
    }
  }

  lemma {:induction false} FuzzyOne(
    listed: seq<Document>, cursor: PageCursor, rows: seq<Row>, history: seq<Change>, ch: Change)
    requires Sorted(rows, |history|) && UniqueKeys(rows) && Legal(rows, ch) && ch.sequence == |history| + 1
    requires FuzzyAt(listed, cursor, rows, history)
    ensures FuzzyAt(listed, cursor, ApplyRow(rows, ch), history + [ch])
  {
    var w, s, c := cursor.watermark, cursor.sequence, cursor.collection;
    assert (history + [ch])[w..] == history[w..] + [ch];
    WantedSnoc(history[w..], ch, c);
    FuzzyChange(listed, w, s, rows, |history|, Wanted(history[w..], {c}), c, ch);
  }

  /** Any operation of any client, at any point of a listing. */
  lemma {:induction false} FuzzyStep(listed: seq<Document>, cursor: PageCursor, e: Epoch, op: StoreOp)
    requires Sound(e) && Listing(listed, cursor, e)
    ensures Sound(Step(e, op)) && Listing(listed, cursor, Step(e, op))
  {
    FoldStep(e, op);
    ExecLegal(e.space, op);
    FuzzyMany(listed, cursor, e.space.rows, e.history, Exec(e.space, op).changes);
  }

  function RunFrom(e: Epoch, ops: seq<StoreOp>): Epoch {
    if ops == [] then e
    else Step(RunFrom(e, ops[..|ops| - 1]), ops[|ops| - 1])
  }

  lemma {:induction false} FuzzyRun(listed: seq<Document>, cursor: PageCursor, e: Epoch, ops: seq<StoreOp>)
    requires Sound(e) && Listing(listed, cursor, e)
    ensures Sound(RunFrom(e, ops)) && Listing(listed, cursor, RunFrom(e, ops))
  {
    if ops != [] {
      FuzzyRun(listed, cursor, e, ops[..|ops| - 1]);
      FuzzyStep(listed, cursor, RunFrom(e, ops[..|ops| - 1]), ops[|ops| - 1]);
    }
  }

  lemma {:induction false} FuzzyBegin(e: Epoch, ns: string, c: string)
    requires Sound(e)
    ensures Listing([], PageCursor(ns, c, e.space.last, 0, ""), e)
  {
    assert e.history[|e.history|..] == [];
    FuzzyStart(e.space.rows, |e.history|, c);
  }

  lemma {:induction false} PageDistinct(
    listed: seq<Document>, cursor: PageCursor, s': nat, rows: seq<Row>, chs: seq<Change>)
    requires DistinctIds(listed) && s' <= cursor.watermark
    requires AllPending(listed, cursor.watermark, cursor.sequence, rows, chs, cursor.collection)
    requires DistinctIds(Range(rows, cursor.collection, cursor.sequence, s'))
    ensures DistinctIds(listed + Range(rows, cursor.collection, cursor.sequence, s'))
  {
    var page := Range(rows, cursor.collection, cursor.sequence, s');
    forall i, j | 0 <= i < |listed| && 0 <= j < |page| ensures listed[i].id != page[j].id {
      RangeMember(rows, cursor.collection, cursor.sequence, s', page[j]);
      assert !Has(listed, page[j].id);
    }
  }

  /** Taking in one served page: the listing advances, or is complete. */
  lemma {:induction false} FuzzyServed(listed: seq<Document>, cursor: PageCursor, limit: nat, e: Epoch)
    requires Sound(e) && Listing(listed, cursor, e) && limit >= 1
    ensures var r := List(e.space, cursor.ns, cursor.collection, limit, At(cursor));
            && r.Ok? && PageServed(e, cursor, limit, r.value)
            && (r.value.after.Some? ==> Listing(listed + r.value.documents, r.value.after.value, e))
            && DistinctIds(listed + r.value.documents)
            && (r.value.after.None? ==> InSync(listed + r.value.documents, cursor.collection, cursor.watermark, e))
  {
    ListServes(e, cursor, limit);
    var page := List(e.space, cursor.ns, cursor.collection, limit, At(cursor)).value;
    var chs := Wanted(e.history[cursor.watermark..], {cursor.collection});
    FuzzyPage(listed, cursor.watermark, cursor.sequence, Reached(page), e.space.rows, |e.history|, chs,
              cursor.collection);
    RangeDistinct(e.space.rows, cursor.collection, cursor.sequence, Reached(page));
    PageDistinct(listed, cursor, Reached(page), e.space.rows, chs);
    if page.after.None? {
      FuzzyDone(listed + page.documents, cursor.watermark, e.space.rows, |e.history|, chs, cursor.collection);
    }
  }

  /** A reader that has `documents` and has seen everything up to `position`: replaying the rest of the
      log onto its map gives the server's collection, document for document and in the same order. */
  ghost predicate InSync(documents: seq<Document>, c: string, position: nat, e: Epoch) {
    && position <= |e.history|
    && Replay(documents, Wanted(e.history[position..], {c})) == Project(e.space.rows, c)
  }

  // ---- The browser's loop ----

  /** Collect all pages. `writes(i)` is whatever the other clients commit between page i and page i + 1.
      The result replays to the collection as it stands when the last page is served; at most one page
      more than the watermark is fetched. */
  method ListState(start: Epoch, writes: nat -> seq<StoreOp>, ns: string, c: string, limit: nat)
    returns (documents: seq<Document>, changes: ChangeCursor, server: Epoch, pages: nat)
    requires Sound(start) && limit >= 1
    ensures Sound(server) && changes == ChangeCursor(ns, start.space.last)
    ensures InSync(documents, c, changes.sequence, server)
    ensures pages <= start.space.last + 1
  {
    server := start;
    documents := [];
    changes := ChangeCursor(ns, 0);
    pages := 0;
    var after := NoCursor;
    ghost var cursor := PageCursor(ns, c, start.space.last, 0, "");
    FuzzyBegin(start, ns, c);
    ListStarts(start, ns, c, limit);
    assert cursor == PageCursor(ns, c, start.space.last, 0, "");
    var more := true;
    while more
      invariant Sound(server)
      invariant more ==> Listing(documents, cursor, server) && pages <= cursor.sequence
      invariant cursor.ns == ns && cursor.collection == c && cursor.watermark == start.space.last
      invariant more ==> if pages == 0
                         then after == NoCursor && server == start && cursor.sequence == 0 && cursor.id == ""
                         else after == At(cursor)
      invariant pages > 0 ==> changes == ChangeCursor(ns, start.space.last)
      invariant !more ==> pages > 0 && InSync(documents, c, start.space.last, server)
      invariant pages <= start.space.last + 1
      decreases more, start.space.last - cursor.sequence
    {
      FuzzyServed(documents, cursor, limit, server);
      var page := List(server.space, ns, c, limit, after).value;
      if pages == 0 {
        changes := page.changes;
      }
      documents := documents + page.documents;
      if page.after.Some? {
        after := At(page.after.value);
        cursor := page.after.value;
        FuzzyRun(documents, cursor, server, writes(pages));
        server := RunFrom(server, writes(pages));
      } else {
        more := false;
      }
      pages := pages + 1;
    }
  }
}
