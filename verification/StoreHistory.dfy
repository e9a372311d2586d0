/** Whole runs of the document store in one epoch (no purge): the table against the untrimmed history. */
module StoreHistory {
  import opened Wrappers
  import opened ChangeLog
  import opened DocumentTable
  import opened DocumentStore

  /** A space together with every change committed in this epoch, including those already trimmed. */
  datatype Epoch = Epoch(space: Space, history: seq<Change>)

  function Step(e: Epoch, op: StoreOp): Epoch {
    var out := Exec(e.space, op);
    Epoch(out.space, e.history + out.changes)
  }

  function Run(ops: seq<StoreOp>): Epoch {
    if ops == [] then Epoch(EMPTY_SPACE, [])
    else Step(Run(ops[..|ops| - 1]), ops[|ops| - 1])
  }

  predicate Sequenced(history: seq<Change>) {
    forall i :: 0 <= i < |history| ==> history[i].sequence == i + 1 && WellFormed(history[i])
  }

  /** The latest change to one document, looking back from the end of the history. */
  function LastChange(history: seq<Change>, c: string, id: string): (r: Option<Change>)
    ensures r.Some? ==> r.value in history && r.value.collection == c && r.value.id == id
  {
    if history == [] then None
    else
      var ch := history[|history| - 1];
      if ch.collection == c && ch.id == id then Some(ch)
      else LastChange(history[..|history| - 1], c, id)
  }

  /** Whether the history leaves the document in existence. */
  predicate Live(history: seq<Change>, c: string, id: string) {
    LastChange(history, c, id).Some? && !LastChange(history, c, id).value.operation.ChangeDelete?
  }

  /** Every sequence number belongs to one change, and the table is the replay of all of them. */
  ghost predicate Folded(rows: seq<Row>, history: seq<Change>) {
    && Sequenced(history)
    && Sorted(rows, |history|) && UniqueKeys(rows)
    && (forall c :: Project(rows, c) == Replay([], Wanted(history, {c})))
    && (forall r :: r in rows ==> RowBacked(r, history))
    && (forall c, id :: Live(history, c, id) ==> HasRow(rows, c, id))
  }

  /** The row holds the body of the latest change, and its `created_sequence` names the create. */
  predicate RowBacked(r: Row, history: seq<Change>) {
    && Live(history, r.collection, r.doc.id)
    && LastChange(history, r.collection, r.doc.id).value.document == Some(r.doc)
    && 0 < r.createdSequence <= |history|
    && CreatedBy(r, history[r.createdSequence - 1])
  }

  predicate CreatedBy(r: Row, ch: Change) {
    ch.operation.ChangeCreate? && ch.collection == r.collection && ch.id == r.doc.id
  }

  /** Changes that may be committed one after another, numbered on from `last`. */
  predicate LegalFrom(rows: seq<Row>, last: nat, chs: seq<Change>) {
    chs == [] ||
    var init, ch := chs[..|chs| - 1], chs[|chs| - 1];
    LegalFrom(rows, last, init) && ch.sequence == last + |chs| && Legal(ApplyRows(rows, init), ch)
  }

  // ---- One committed change ----

  lemma {:induction false} FoldOne(rows: seq<Row>, history: seq<Change>, ch: Change)
    requires Folded(rows, history) && Legal(rows, ch) && ch.sequence == |history| + 1
    ensures Folded(ApplyRow(rows, ch), history + [ch])
  {
    var rows', history' := ApplyRow(rows, ch), history + [ch];
    assert history'[..|history'| - 1] == history;
    ApplyRowShape(rows, ch, |history|);
    forall c ensures Project(rows', c) == Replay([], Wanted(history', {c})) {
      ProjectApply(rows, ch, c, |history|);
      var before := Wanted(history, {c});
      assert (before + [ch])[..|before + [ch]| - 1] == before;
    }
    forall r | r in rows' ensures RowBacked(r, history') {
      RowStaysBacked(rows, history, ch, r);
    }
    forall c, id | Live(history', c, id) ensures HasRow(rows', c, id) {
      LiveStays(rows, history, ch, c, id);
    }
  }

  lemma {:induction false} RowStaysBacked(rows: seq<Row>, history: seq<Change>, ch: Change, r: Row)
    requires forall o :: o in rows ==> RowBacked(o, history)
    requires Legal(rows, ch) && ch.sequence == |history| + 1 && r in ApplyRow(rows, ch)
    ensures RowBacked(r, history + [ch])
  {
    assert (history + [ch])[..|history + [ch]| - 1] == history;
    ApplyRowMember(rows, ch, r);
  }

  lemma {:induction false} LiveStays(rows: seq<Row>, history: seq<Change>, ch: Change, c: string, id: string)
    requires Live(history, c, id) ==> HasRow(rows, c, id)
    requires Legal(rows, ch) && Live(history + [ch], c, id)
    ensures HasRow(ApplyRow(rows, ch), c, id)
  {
    assert (history + [ch])[..|history + [ch]| - 1] == history;
    var rows' := ApplyRow(rows, ch);
    if ch.operation.ChangeCreate? && ch.collection == c && ch.id == id {
      assert Keyed(rows'[|rows|], c, id);
    } else if ch.collection == c && ch.id == id {
      KeyKept(rows, ch, c, id);
    } else {
      KeyKept(rows, ch, c, id);
    }
  }

  lemma {:induction false} KeyKept(rows: seq<Row>, ch: Change, c: string, id: string)
    requires Legal(rows, ch) && HasRow(rows, c, id)
    requires !(ch.operation.ChangeDelete? && ch.collection == c && ch.id == id)
    ensures HasRow(ApplyRow(rows, ch), c, id)
  {
    var rows' := ApplyRow(rows, ch);
    var i :| 0 <= i < |rows| && Keyed(rows[i], c, id);
    match ch.operation
    case ChangeDelete =>
      RemoveRowMember(rows, ch.collection, ch.id, rows[i]);
      var j :| 0 <= j < |rows'| && rows'[j] == rows[i];
    case ChangeUpdate =>
      ReplaceRowAt(rows, ch.collection, ch.document.value);
      assert Keyed(rows'[i], c, id);
    case ChangeCreate =>
      assert rows'[i] == rows[i];
  }

  lemma {:induction false} FoldMany(rows: seq<Row>, history: seq<Change>, chs: seq<Change>)
    requires Folded(rows, history) && LegalFrom(rows, |history|, chs)
    ensures Folded(ApplyRows(rows, chs), history + chs)
  {
    if chs == [] {
      assert history + chs == history;
    } else {
      var init, ch := chs[..|chs| - 1], chs[|chs| - 1];
      var rows', history' := ApplyRows(rows, init), history + init;
      assert ApplyRows(rows, chs) == ApplyRow(rows', ch) && history + chs == history' + [ch];
      FoldMany(rows, history, init);
      FoldOne(rows', history', ch);
    }
  }

  // ---- Every operation commits legal changes ----

  lemma {:induction false} ProjectDistinct(rows: seq<Row>, c: string)
    requires UniqueKeys(rows)
    ensures forall i, j :: 0 <= i < j < |Project(rows, c)| ==> Project(rows, c)[i].id != Project(rows, c)[j].id
    ensures forall i :: 0 <= i < |Project(rows, c)| ==> HasRow(rows, c, Project(rows, c)[i].id)
  {
    if rows != [] {
      var init, row := rows[..|rows| - 1], rows[|rows| - 1];
      ProjectDistinct(init, c);
      var ds := Project(init, c);
      forall i | 0 <= i < |ds| ensures HasRow(rows, c, ds[i].id) && (row.collection == c ==> ds[i].id != row.doc.id) {
        var k :| 0 <= k < |init| && Keyed(init[k], c, ds[i].id);
        assert Keyed(rows[k], c, ds[i].id);
      }
      if row.collection == c {
        assert Keyed(rows[|rows| - 1], c, row.doc.id);
      }
    }
  }

  /** The delete changes of a cleared collection, one document at a time. */
  function Deletions(last: nat, c: string, docs: seq<Document>): seq<Change> {
    if docs == [] then []
    else
      var d := docs[|docs| - 1];
      Deletions(last, c, docs[..|docs| - 1]) + [DeletedChange(last + |docs|, c, d.id, d.revision)]
  }

  lemma {:induction false} DeletionsAreClear(last: nat, c: string, docs: seq<Document>)
    ensures |Deletions(last, c, docs)| == |docs| && Deletions(last, c, docs) == ClearChanges(last, c, docs)
  {
    if docs != [] {
      DeletionsAreClear(last, c, docs[..|docs| - 1]);
    }
  }

  /** Clearing deletes the documents front to back; after i deletions exactly the rest remain. */
  lemma {:induction false} ClearPrefix(rows: seq<Row>, last: nat, c: string, docs: seq<Document>, i: nat)
    returns (chs: seq<Change>)
    requires Sorted(rows, last) && UniqueKeys(rows) && docs == Project(rows, c) && i <= |docs|
    ensures chs == Deletions(last, c, docs[..i]) && |chs| == i
    ensures Clearing(rows, last, c, docs, chs, i)
  {
    if i == 0 {
      assert docs[..0] == [] && docs[0..] == docs;
      chs := [];
    } else {
      var init := ClearPrefix(rows, last, c, docs, i - 1);
      DeletionsNext(last, c, docs, i);
      ClearSnoc(rows, last, c, docs, init);
      chs := init + [DeletedChange(last + 1 + (i - 1), c, docs[i - 1].id, docs[i - 1].revision)];
    }
  }

  lemma {:induction false} DeletionsNext(last: nat, c: string, docs: seq<Document>, i: nat)
    requires 0 < i <= |docs|
    ensures |Deletions(last, c, docs[..i - 1])| == i - 1
    ensures Deletions(last, c, docs[..i])
         == Deletions(last, c, docs[..i - 1]) + [DeletedChange(last + i, c, docs[i - 1].id, docs[i - 1].revision)]
  {
    assert docs[..i][..i - 1] == docs[..i - 1];
    DeletionsAreClear(last, c, docs[..i - 1]);
  }

  ghost predicate Clearing(rows: seq<Row>, last: nat, c: string, docs: seq<Document>, chs: seq<Change>, i: nat)
    requires i <= |docs|
  {
    && LegalFrom(rows, last, chs)
    && Sorted(ApplyRows(rows, chs), last + i) && UniqueKeys(ApplyRows(rows, chs))
    && Project(ApplyRows(rows, chs), c) == docs[i..]
  }

  lemma {:induction false} ClearSnoc(rows: seq<Row>, last: nat, c: string, docs: seq<Document>, init: seq<Change>)
    requires |init| < |docs| && Clearing(rows, last, c, docs, init, |init|)
    ensures var i := |init|;
            var ch := DeletedChange(last + 1 + i, c, docs[i].id, docs[i].revision);
            Clearing(rows, last, c, docs, init + [ch], i + 1)
  {
    var i, left := |init|, docs[|init|..];
    assert left[1..] == docs[i + 1..];
    ClearNext(ApplyRows(rows, init), last + i, c, left);
  }

  lemma {:induction false} ClearNext(rows: seq<Row>, last: nat, c: string, docs: seq<Document>)
    requires Sorted(rows, last) && UniqueKeys(rows) && Project(rows, c) == docs && docs != []
    ensures var ch := DeletedChange(last + 1, c, docs[0].id, docs[0].revision);
            && Legal(rows, ch)
            && Sorted(ApplyRow(rows, ch), last + 1) && UniqueKeys(ApplyRow(rows, ch))
            && Project(ApplyRow(rows, ch), c) == docs[1..]
  {
    var ch := DeletedChange(last + 1, c, docs[0].id, docs[0].revision);
    ProjectDistinct(rows, c);
    ApplyRowShape(rows, ch, last);
    ProjectApply(rows, ch, c, last);
    assert docs == [docs[0]] + docs[1..];
    RemoveConcat([docs[0]], docs[1..], ch.id);
    assert [docs[0]][..0] == [];
    assert !Has(docs[1..], ch.id);
    RemoveAbsent(docs[1..], ch.id);
  }

  /** What any operation does, whatever its arguments and whether or not it succeeds. */
  lemma {:induction false} ExecLegal(sp: Space, op: StoreOp)
    requires Sorted(sp.rows, sp.last) && UniqueKeys(sp.rows)
    ensures Effect(sp, Exec(sp, op), op.Now(), op.Bounds())
  {
    match op
    case CreateOp(r, revision) => CreateLegal(sp, r, revision);
    case PutOp(r, revision) => PutLegal(sp, r, revision);
    case DeleteOp(r) => OneLegal(sp, Delete(sp, r), r.now, r.limits);
    case ClearOp(r) => ClearLegal(sp, r);
  }

  lemma {:induction false} CreateLegal(sp: Space, r: CreateRequest, revision: string)
    ensures Effect(sp, Create(sp, r, revision), r.now, r.limits)
  {
    OneLegal(sp, Create(sp, r, revision), r.now, r.limits);
  }

  lemma {:induction false} PutLegal(sp: Space, r: PutRequest, revision: string)
    ensures Effect(sp, Put(sp, r, revision), r.now, r.limits)
  {
    OneLegal(sp, Put(sp, r, revision), r.now, r.limits);
  }

  lemma {:induction false} ClearLegal(sp: Space, r: ClearRequest)
    requires Sorted(sp.rows, sp.last) && UniqueKeys(sp.rows)
    ensures Effect(sp, Clear(sp, r), r.now, r.limits)
  {
    var docs := Project(sp.rows, r.collection);
    var chs := ClearPrefix(sp.rows, sp.last, r.collection, docs, |docs|);
    assert docs[..|docs|] == docs;
    DeletionsAreClear(sp.last, r.collection, docs);
  }

  ghost predicate Effect(sp: Space, out: Outcome, now: int, limits: Limits) {
    && LegalFrom(sp.rows, sp.last, out.changes)
    && out.space.last == sp.last + |out.changes|
    && out.space.rows == ApplyRows(sp.rows, out.changes)
    && ((out.space.log == sp.log && out.changes == [])
        || out.space.log == Trim(sp.log + Entries(out.changes, now), now, limits))
  }

  lemma {:induction false} OneLegal(sp: Space, out: Outcome, now: int, limits: Limits)
    requires (out.space == sp && out.changes == [])
      || (&& |out.changes| == 1 && out.changes[0].sequence == sp.last + 1 && Legal(sp.rows, out.changes[0])
          && out.space.(records := sp.records) == Committed(sp, out.changes, now, limits))
    ensures Effect(sp, out, now, limits)
  {
    if out.changes != [] {
      var ch := out.changes[0];
      assert out.changes == [] + [ch] && ApplyRows(sp.rows, []) == sp.rows;
    }
  }

  // ---- Whole runs ----

  /** The documents table is the fold of history, over every run. */
  lemma {:induction false} TableIsFoldOfHistory(ops: seq<StoreOp>)
    ensures var e := Run(ops);
            e.space.last == |e.history| && Folded(e.space.rows, e.history)
  {
    if ops == [] {
      assert forall c :: Wanted([], {c}) == [];
    } else {
      TableIsFoldOfHistory(ops[..|ops| - 1]);
      FoldStep(Run(ops[..|ops| - 1]), ops[|ops| - 1]);
    }
  }

  lemma {:induction false} FoldStep(e: Epoch, op: StoreOp)
    requires e.space.last == |e.history| && Folded(e.space.rows, e.history)
    ensures var e' := Step(e, op);
            && e'.space.last == |e'.history| && Folded(e'.space.rows, e'.history)
            && e.history <= e'.history
  {
    ExecLegal(e.space, op);
    FoldMany(e.space.rows, e.history, Exec(e.space, op).changes);
  }

  lemma {:induction false} RowOfLive(rows: seq<Row>, history: seq<Change>, c: string, id: string)
    requires Folded(rows, history)
    ensures Find(rows, c, id).Some? <==> Live(history, c, id)
    ensures Live(history, c, id) ==>
              LastChange(history, c, id).value.document == Some(Find(rows, c, id).value.doc)
  {
  }

  /** A conditional replacement is refused exactly when the caller has not seen the latest change:
      it is not found iff the history leaves the document absent, and it conflicts iff the latest
      change carries another revision. Nothing else but capacity can refuse it. */
  lemma {:induction false} UpdateSeesLatest(ops: seq<StoreOp>, req: PutRequest, revision: string)
    requires !req.createOnly
    ensures var e := Run(ops);
            var out := Put(e.space, req, revision);
            var prev := LastChange(e.history, req.collection, req.id);
            && (out.reply == Failed(DocumentNotFound) <==> !Live(e.history, req.collection, req.id))
            && (out.reply == Failed(RevisionConflict) <==>
                  Live(e.history, req.collection, req.id) && prev.value.revision != req.expectedRevision)
            && (out.reply.Stored? ==>
                  && |out.changes| == 1 && out.changes[0].operation == ChangeUpdate
                  && out.changes[0].document == Some(out.reply.doc)
                  && prev.Some? && prev.value.document.Some?
                  && out.reply.doc.createdAt == prev.value.document.value.createdAt <= out.reply.doc.updatedAt)
  {
    TableIsFoldOfHistory(ops);
    var e := Run(ops);
    RowOfLive(e.space.rows, e.history, req.collection, req.id);
    var prev := LastChange(e.history, req.collection, req.id);
    if prev.Some? {
      var k :| 0 <= k < |e.history| && e.history[k] == prev.value;
    }
  }

  /** A delete likewise, and its change repeats the revision it removed. */
  lemma {:induction false} DeleteSeesLatest(ops: seq<StoreOp>, req: DeleteRequest)
    ensures var e := Run(ops);
            var out := Delete(e.space, req);
            var prev := LastChange(e.history, req.collection, req.id);
            && (out.reply == Failed(DocumentNotFound) <==> !Live(e.history, req.collection, req.id))
            && (out.reply == Failed(RevisionConflict) <==>
                  Live(e.history, req.collection, req.id) && prev.value.revision != req.expectedRevision)
            && (out.reply == Deleted <==>
                  Live(e.history, req.collection, req.id) && prev.value.revision == req.expectedRevision)
            && (out.reply == Deleted ==> |out.changes| == 1 && out.changes[0].revision == prev.value.revision)
  {
    TableIsFoldOfHistory(ops);
    var e := Run(ops);
    RowOfLive(e.space.rows, e.history, req.collection, req.id);
    var prev := LastChange(e.history, req.collection, req.id);
    if prev.Some? {
      var k :| 0 <= k < |e.history| && e.history[k] == prev.value;
    }
  }

  /** Creation never overwrites: it commits only where the history leaves no document. */
  lemma {:induction false} CreateOnlyWhereAbsent(ops: seq<StoreOp>, req: PutRequest, revision: string)
    requires req.createOnly
    ensures var e := Run(ops);
            var out := Put(e.space, req, revision);
            && (out.reply == Failed(RevisionConflict) <==> Live(e.history, req.collection, req.id))
            && (out.reply.Stored? ==> |out.changes| == 1 && out.changes[0].operation == ChangeCreate)
  {
    TableIsFoldOfHistory(ops);
    RowOfLive(Run(ops).space.rows, Run(ops).history, req.collection, req.id);
  }

  // ---- The committed chain, read off the history alone ----

  /** Creates fill gaps, updates and deletes follow a live change, and a delete names its revision. */
  predicate Chained(history: seq<Change>) {
    history == [] ||
    var init, ch := history[..|history| - 1], history[|history| - 1];
    && Chained(init)
    && (ch.operation.ChangeCreate? <==> !Live(init, ch.collection, ch.id))
    && (ch.operation.ChangeDelete? ==> LastChange(init, ch.collection, ch.id).value.revision == ch.revision)
  }

  lemma {:induction false} HistoryIsChained(ops: seq<StoreOp>)
    ensures Chained(Run(ops).history)
  {
    if ops != [] {
      var e, op := Run(ops[..|ops| - 1]), ops[|ops| - 1];
      HistoryIsChained(ops[..|ops| - 1]);
      TableIsFoldOfHistory(ops[..|ops| - 1]);
      var chs := Exec(e.space, op).changes;
      ExecLegal(e.space, op);
      ExecRevisions(e.space, op);
      ChainMany(e.space.rows, e.history, chs);
    }
  }

  /** Deletions in a batch carry the revision stored just before. */
  predicate RevisionsFrom(rows: seq<Row>, chs: seq<Change>) {
    chs == [] ||
    var init, ch := chs[..|chs| - 1], chs[|chs| - 1];
    && RevisionsFrom(rows, init)
    && (ch.operation.ChangeDelete? ==>
          var r := Find(ApplyRows(rows, init), ch.collection, ch.id);
          r.Some? && r.value.doc.revision == ch.revision)
  }

  lemma {:induction false} ChainMany(rows: seq<Row>, history: seq<Change>, chs: seq<Change>)
    requires Folded(rows, history) && Chained(history)
    requires LegalFrom(rows, |history|, chs) && RevisionsFrom(rows, chs)
    ensures Chained(history + chs)
  {
    if chs == [] {
      assert history + chs == history;
    } else {
      var init, ch := chs[..|chs| - 1], chs[|chs| - 1];
      var rows', history' := ApplyRows(rows, init), history + init;
      assert history + chs == history' + [ch];
      ChainMany(rows, history, init);
      FoldMany(rows, history, init);
      ChainOne(rows', history', ch);
    }
  }

  lemma {:induction false} ChainOne(rows: seq<Row>, history: seq<Change>, ch: Change)
    requires Folded(rows, history) && Chained(history) && Legal(rows, ch)
    requires ch.operation.ChangeDelete? ==>
               var r := Find(rows, ch.collection, ch.id);
               r.Some? && r.value.doc.revision == ch.revision
    ensures Chained(history + [ch])
  {
    assert (history + [ch])[..|history + [ch]| - 1] == history;
    RowOfLive(rows, history, ch.collection, ch.id);
  }

  lemma {:induction false} ExecRevisions(sp: Space, op: StoreOp)
    requires Sorted(sp.rows, sp.last) && UniqueKeys(sp.rows)
    ensures RevisionsFrom(sp.rows, Exec(sp, op).changes)
  {
    var chs := Exec(sp, op).changes;
    match op
    case ClearOp(r) =>
      var docs := Project(sp.rows, r.collection);
      ClearRevisions(sp.rows, sp.last, r.collection, |docs|);
      assert docs[..|docs|] == docs;
      DeletionsAreClear(sp.last, r.collection, docs);
    case _ =>
      if chs != [] {
        assert chs[..0] == [] && ApplyRows(sp.rows, []) == sp.rows;
      }
  }

  lemma {:induction false} ClearRevisions(rows: seq<Row>, last: nat, c: string, i: nat)
    requires Sorted(rows, last) && UniqueKeys(rows) && i <= |Project(rows, c)|
    ensures RevisionsFrom(rows, Deletions(last, c, Project(rows, c)[..i]))
  {
    if i > 0 {
      ClearRevisions(rows, last, c, i - 1);
      var docs := Project(rows, c);
      var init := ClearPrefix(rows, last, c, docs, i - 1);
      DeletionsNext(last, c, docs, i);
      RevisionsSnoc(rows, last, c, docs, init);
    }
  }

  lemma {:induction false} RevisionsSnoc(
    rows: seq<Row>, last: nat, c: string, docs: seq<Document>, init: seq<Change>)
    requires |init| < |docs| && RevisionsFrom(rows, init) && UniqueKeys(ApplyRows(rows, init))
    requires Project(ApplyRows(rows, init), c) == docs[|init|..]
    ensures var i := |init|;
            RevisionsFrom(rows, init + [DeletedChange(last + 1 + i, c, docs[i].id, docs[i].revision)])
  {
    var i := |init|;
    var ch := DeletedChange(last + 1 + i, c, docs[i].id, docs[i].revision);
    assert (init + [ch])[..|init + [ch]| - 1] == init;
    ProjectFind(ApplyRows(rows, init), c, 0);
  }

  lemma {:induction false} ProjectFind(rows: seq<Row>, c: string, i: nat)
    requires UniqueKeys(rows) && i < |Project(rows, c)|
    ensures Find(rows, c, Project(rows, c)[i].id).Some?
    ensures Find(rows, c, Project(rows, c)[i].id).value.doc == Project(rows, c)[i]
  {
    var init, row := rows[..|rows| - 1], rows[|rows| - 1];
    if i < |Project(init, c)| {
      ProjectFind(init, c, i);
      var r := Find(init, c, Project(init, c)[i].id).value;
      var k :| 0 <= k < |init| && init[k] == r;
      assert rows[k] == r;
    }
  }
}
