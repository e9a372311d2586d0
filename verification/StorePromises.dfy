/** What the store promises over whole runs besides the log: a repeated create is answered, not
    repeated, and the configured bounds are never exceeded. */
module StorePromises {
  import opened Wrappers
  import opened ChangeLog
  import opened DocumentTable
  import opened DocumentStore
  import opened StoreHistory
  import PagedListing

  // ---- Idempotent create ----

  predicate Remembers(sp: Space, key: string, record: IdempotencyRecord) {
    key in sp.records && sp.records[key] == record
  }

  lemma {:induction false} RecordSurvives(e: Epoch, ops: seq<StoreOp>, key: string, record: IdempotencyRecord)
    requires Remembers(e.space, key, record)
    requires forall i :: 0 <= i < |ops| ==> ops[i].Now() < record.expiresAt
    ensures Remembers(PagedListing.RunFrom(e, ops).space, key, record)
  {
    if ops != [] {
      RecordSurvives(e, ops[..|ops| - 1], key, record);
    }
  }

  predicate SteadyUntil(ops: seq<StoreOp>, now: int) {
    forall i :: 0 <= i < |ops| ==> ops[i].Now() <= now
  }

  /** Once a create has succeeded, every later create with its key and before its expiry changes
      nothing: it is answered with the very document first stored if the request is the same, even
      when that document has since been changed or deleted, and refused if it is another request. */
  lemma {:induction false} CreateOnce(
    e: Epoch, first: CreateRequest, revision: string, ops: seq<StoreOp>, again: CreateRequest, revision': string)
    requires Create(e.space, first, revision).reply.Stored?
    requires again.key == first.key && again.now < first.now + first.limits.idempotencyRetention
    requires SteadyUntil(ops, again.now)
    ensures var out := Create(e.space, first, revision);
            var e' := PagedListing.RunFrom(Step(e, CreateOp(first, revision)), ops);
            && |out.changes| == 1 && out.changes[0].operation == ChangeCreate
            && out.changes[0].document == Some(out.reply.doc)
            && Create(e'.space, again, revision')
               == Outcome(e'.space, [], if again.fingerprint == first.fingerprint then Replayed(out.reply.doc)
                                        else Failed(IdempotencyConflict))
  {
    var out := Create(e.space, first, revision);
    var record := out.space.records[first.key];
    RecordSurvives(Step(e, CreateOp(first, revision)), ops, first.key, record);
  }

  // ---- Bounds ----

  lemma {:induction false} RemoveLength(m: seq<Document>, id: string)
    ensures |Remove(m, id)| <= |m|
  {
    if m != [] {
      RemoveLength(m[..|m| - 1], id);
    }
  }

  lemma {:induction false} ReplaceLength(m: seq<Document>, d: Document)
    ensures |Replace(m, d)| == |m|
  {
    if m != [] {
      ReplaceLength(m[..|m| - 1], d);
    }
  }

  ghost predicate WithinBounds(sp: Space, limits: Limits) {
    && |sp.records| <= limits.maxIdempotencyRecords
    && WithinDocuments(sp.rows, limits)
  }

  ghost predicate WithinDocuments(rows: seq<Row>, limits: Limits) {
    && TotalBytes(rows) <= limits.maxNamespaceBytes
    && forall c :: |Project(rows, c)| <= limits.maxDocuments
  }

  lemma {:induction false} DeleteWithin(rows: seq<Row>, last: nat, ch: Change, limits: Limits)
    requires Sorted(rows, last) && UniqueKeys(rows) && Legal(rows, ch) && ch.sequence == last + 1
    requires ch.operation.ChangeDelete? && WithinDocuments(rows, limits)
    ensures WithinDocuments(ApplyRow(rows, ch), limits)
  {
    BytesRemove(rows, ch.collection, ch.id);
    forall c ensures |Project(ApplyRow(rows, ch), c)| <= limits.maxDocuments {
      ProjectApply(rows, ch, c, last);
      RemoveLength(Project(rows, c), ch.id);
    }
  }

  lemma {:induction false} StoreCounts(rows: seq<Row>, last: nat, ch: Change, c: string, limits: Limits)
    requires Sorted(rows, last) && UniqueKeys(rows) && Legal(rows, ch) && ch.sequence == last + 1
    requires ch.document.Some? && |Project(rows, c)| <= limits.maxDocuments
    requires ch.operation.ChangeCreate? ==> |Project(rows, ch.collection)| < limits.maxDocuments
    ensures |Project(ApplyRow(rows, ch), c)| <= limits.maxDocuments
  {
    ProjectApply(rows, ch, c, last);
    ReplaceLength(Project(rows, c), ch.document.value);
    if ch.operation.ChangeUpdate? && ch.collection == c {
      ProjectIsRange(rows, c, last);
      RangeHas(rows, c, 0, last, ch.id);
      var i :| 0 <= i < |rows| && Keyed(rows[i], c, ch.id);
      assert rows[i] in rows;
    }
  }

  lemma {:induction false} StoreWithin(rows: seq<Row>, last: nat, ch: Change, limits: Limits)
    requires Sorted(rows, last) && UniqueKeys(rows) && Legal(rows, ch) && ch.sequence == last + 1
    requires ch.document.Some? && WithinDocuments(rows, limits)
    requires ch.operation.ChangeCreate? ==> CreateFits(rows, ch.collection, |ch.document.value.data|, limits)
    requires ch.operation.ChangeUpdate? ==>
               ReplacementFits(rows, |Find(rows, ch.collection, ch.id).value.doc.data|, |ch.document.value.data|, limits)
    ensures WithinDocuments(ApplyRow(rows, ch), limits)
  {
    var d := ch.document.value;
    if ch.operation.ChangeCreate? {
      assert (rows + [Row(ch.collection, d, ch.sequence)])[..|rows|] == rows;
    } else {
      BytesReplace(rows, ch.collection, d, Find(rows, ch.collection, ch.id).value);
    }
    forall c ensures |Project(ApplyRow(rows, ch), c)| <= limits.maxDocuments {
      StoreCounts(rows, last, ch, c, limits);
    }
  }

  lemma {:induction false} LegalShape(rows: seq<Row>, last: nat, chs: seq<Change>)
    requires Sorted(rows, last) && UniqueKeys(rows) && LegalFrom(rows, last, chs)
    ensures Sorted(ApplyRows(rows, chs), last + |chs|) && UniqueKeys(ApplyRows(rows, chs))
  {
    if chs != [] {
      LegalShape(rows, last, chs[..|chs| - 1]);
      ApplyRowShape(ApplyRows(rows, chs[..|chs| - 1]), chs[|chs| - 1], last + |chs| - 1);
    }
  }

  lemma {:induction false} DeletesWithin(rows: seq<Row>, last: nat, chs: seq<Change>, limits: Limits)
    requires Sorted(rows, last) && UniqueKeys(rows) && LegalFrom(rows, last, chs) && WithinDocuments(rows, limits)
    requires forall i :: 0 <= i < |chs| ==> chs[i].operation.ChangeDelete?
    ensures WithinDocuments(ApplyRows(rows, chs), limits)
  {
    if chs != [] {
      var init, ch := chs[..|chs| - 1], chs[|chs| - 1];
      DeletesWithin(rows, last, init, limits);
      LegalShape(rows, last, init);
      DeleteWithin(ApplyRows(rows, init), last + |init|, ch, limits);
    }
  }

  lemma {:induction false} OneRows(rows: seq<Row>, ch: Change)
    ensures ApplyRows(rows, [ch]) == ApplyRow(rows, ch)
  {
    assert [ch][..0] == [] && ApplyRows(rows, []) == rows;
  }

  lemma {:induction false} PutWithin(sp: Space, req: PutRequest, revision: string)
    requires Sorted(sp.rows, sp.last) && UniqueKeys(sp.rows) && WithinBounds(sp, req.limits)
    ensures WithinBounds(Put(sp, req, revision).space, req.limits)
  {
    var out := Put(sp, req, revision);
    if out.changes != [] {
      OneRows(sp.rows, out.changes[0]);
      StoreWithin(sp.rows, sp.last, out.changes[0], req.limits);
    }
  }

  lemma {:induction false} CreateWithin(sp: Space, req: CreateRequest, revision: string)
    requires Sorted(sp.rows, sp.last) && UniqueKeys(sp.rows) && WithinBounds(sp, req.limits)
    ensures WithinBounds(Create(sp, req, revision).space, req.limits)
  {
    var out := Create(sp, req, revision);
    if out.changes != [] {
      OneRows(sp.rows, out.changes[0]);
      StoreWithin(sp.rows, sp.last, out.changes[0], req.limits);
    }
  }

  lemma {:induction false} BoundsStep(sp: Space, op: StoreOp)
    requires Sorted(sp.rows, sp.last) && UniqueKeys(sp.rows) && WithinBounds(sp, op.Bounds())
    ensures WithinBounds(Exec(sp, op).space, op.Bounds())
  {
    match op
    case CreateOp(r, revision) => CreateWithin(sp, r, revision);
    case PutOp(r, revision) => PutWithin(sp, r, revision);
    case DeleteOp(r) =>
      OneLegal(sp, Delete(sp, r), r.now, r.limits);
      DeletesWithin(sp.rows, sp.last, Delete(sp, r).changes, r.limits);
    case ClearOp(r) => ClearWithin(sp, r);
  }

  lemma {:induction false} ClearWithin(sp: Space, r: ClearRequest)
    requires Sorted(sp.rows, sp.last) && UniqueKeys(sp.rows) && WithinBounds(sp, r.limits)
    ensures WithinBounds(Clear(sp, r).space, r.limits)
  {
    ClearLegal(sp, r);
    DeletesWithin(sp.rows, sp.last, Clear(sp, r).changes, r.limits);
  }

  /** With one set of limits in force, no run ever exceeds them: idempotency records, stored bytes of
      the namespace, and documents of every collection. */
  lemma {:induction false} BoundsHold(ops: seq<StoreOp>, limits: Limits)
    requires limits.maxIdempotencyRecords >= 0 && limits.maxNamespaceBytes >= 0 && limits.maxDocuments >= 0
    requires forall i :: 0 <= i < |ops| ==> ops[i].Bounds() == limits
    ensures WithinBounds(Run(ops).space, limits)
  {
    if ops != [] {
      BoundsHold(ops[..|ops| - 1], limits);
      TableIsFoldOfHistory(ops[..|ops| - 1]);
      BoundsStep(Run(ops[..|ops| - 1]).space, ops[|ops| - 1]);
    }
  }
}
