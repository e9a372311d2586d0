/** What each request to the document store does, told by what can be looked up afterwards. */
module StoreEffects {
  import opened Wrappers
  import opened ChangeLog
  import opened DocumentTable
  import opened DocumentStore
  import StoreHistory
  import RetainedLog

  function Lookup(rows: seq<Row>, collection: string, id: string): Option<Document> {
    var row := Find(rows, collection, id);
    if row.Some? then Some(row.value.doc) else None
  }

  // ---- The table, looked up by key ----

  lemma {:induction false} LookupInit(rows: seq<Row>, c: string, id: string)
    requires rows != []
    ensures var row := rows[|rows| - 1];
            Lookup(rows, c, id) == if Keyed(row, c, id) then Some(row.doc) else Lookup(rows[..|rows| - 1], c, id)
  {
  }

  lemma {:induction false} LookupSnoc(rows: seq<Row>, row: Row, c: string, id: string)
    ensures Lookup(rows + [row], c, id) == if Keyed(row, c, id) then Some(row.doc) else Lookup(rows, c, id)
  {
    LookupInit(rows + [row], c, id);
    assert (rows + [row])[..|rows|] == rows;
  }

  lemma {:induction false} LookupReplace(rows: seq<Row>, c: string, d: Document, k: string, id: string)
    ensures Lookup(RowReplace(rows, c, d), k, id)
         == if k == c && id == d.id && Lookup(rows, k, id).Some? then Some(d) else Lookup(rows, k, id)
  {
    if rows != [] {
      var init, row := rows[..|rows| - 1], rows[|rows| - 1];
      LookupReplace(init, c, d, k, id);
      LookupInit(rows, k, id);
      LookupSnoc(RowReplace(init, c, d), if Keyed(row, c, d.id) then row.(doc := d) else row, k, id);
    }
  }

  lemma {:induction false} LookupRemove(rows: seq<Row>, c: string, gone: string, k: string, id: string)
    ensures Lookup(RowRemove(rows, c, gone), k, id) == if k == c && id == gone then None else Lookup(rows, k, id)
  {
    if rows != [] {
      var init, row := rows[..|rows| - 1], rows[|rows| - 1];
      LookupRemove(init, c, gone, k, id);
      LookupInit(rows, k, id);
      if !Keyed(row, c, gone) {
        LookupSnoc(RowRemove(init, c, gone), row, k, id);
      }
    }
  }

  /** A committed change sets its own key to what it carries, and touches no other. */
  lemma {:induction false} LookupApply(rows: seq<Row>, ch: Change, k: string, id: string)
    requires Legal(rows, ch)
    ensures Lookup(ApplyRow(rows, ch), k, id)
         == if k == ch.collection && id == ch.id then ch.document else Lookup(rows, k, id)
  {
    match ch.operation
    case ChangeDelete => LookupRemove(rows, ch.collection, ch.id, k, id);
    case ChangeUpdate => LookupReplace(rows, ch.collection, ch.document.value, k, id);
    case ChangeCreate => LookupSnoc(rows, Row(ch.collection, ch.document.value, ch.sequence), k, id);
  }

  ghost predicate SetTo(rows: seq<Row>, rows': seq<Row>, c: string, id: string, document: Option<Document>) {
    && Lookup(rows', c, id) == document
    && forall k, x :: k != c || x != id ==> Lookup(rows', k, x) == Lookup(rows, k, x)
  }

  lemma {:induction false} OneSets(rows: seq<Row>, ch: Change)
    requires Legal(rows, ch)
    ensures SetTo(rows, ApplyRows(rows, [ch]), ch.collection, ch.id, ch.document)
  {
    assert [ch][..0] == [] && ApplyRows(rows, []) == rows;
    LookupApply(rows, ch, ch.collection, ch.id);
    forall k, x | k != ch.collection || x != ch.id
      ensures Lookup(ApplyRows(rows, [ch]), k, x) == Lookup(rows, k, x)
    {
      LookupApply(rows, ch, k, x);
    }
  }

  // ---- What a commit leaves in the log ----

  /** The changes carry the next sequences and the time of the commit. The log keeps nothing it does not hold
      already besides them, nothing too old, and no more than its bound; it keeps them all if it may. */
  predicate Logged(sp: Space, out: Outcome, now: int, limits: Limits) {
    && out.space.last == sp.last + |out.changes|
    && (forall i :: 0 <= i < |out.changes| ==> out.changes[i].sequence == sp.last + i + 1)
    && (forall e :: e in out.space.log ==>
          (e in sp.log || (e.change in out.changes && e.occurredAt == now)) && e.occurredAt >= now - limits.changeRetentionAge)
    && |out.space.log| <= limits.changeRetentionEntries
    && (limits.changeRetentionAge >= 0 && |out.changes| <= limits.changeRetentionEntries ==>
          && |out.changes| <= |out.space.log|
          && out.space.log[|out.space.log| - |out.changes|..] == Entries(out.changes, now))
  }

  lemma {:induction false} TrimMembers(log: seq<LogEntry>, chs: seq<Change>, now: int, limits: Limits)
    ensures var kept := Trim(log + Entries(chs, now), now, limits);
            && |kept| <= limits.changeRetentionEntries
            && forall e :: e in kept ==>
                 (e in log || (e.change in chs && e.occurredAt == now)) && e.occurredAt >= now - limits.changeRetentionAge
  {
    var all, cutoff := log + Entries(chs, now), now - limits.changeRetentionAge;
    RetainedLog.KeptMember(all, cutoff, limits.changeRetentionEntries);
    forall e | e in all ensures e in log || (e.change in chs && e.occurredAt == now) {
      EntryOf(log, chs, now, e);
    }
  }

  lemma {:induction false} EntryOf(log: seq<LogEntry>, chs: seq<Change>, now: int, e: LogEntry)
    requires e in log + Entries(chs, now)
    ensures e in log || (e.change in chs && e.occurredAt == now)
  {
    if e !in log {
      assert e in Entries(chs, now);
      var i :| 0 <= i < |chs| && Entries(chs, now)[i] == e;
      assert chs[i] == e.change;
    }
  }

  lemma {:induction false} TailKept(older: seq<LogEntry>, newer: seq<LogEntry>, n: nat)
    requires |newer| <= n
    ensures var kept := KeepNewest(older + newer, n); |newer| <= |kept| && kept[|kept| - |newer|..] == newer
  {
  }

  lemma {:induction false} TrimTail(log: seq<LogEntry>, chs: seq<Change>, now: int, limits: Limits)
    requires limits.changeRetentionAge >= 0 && |chs| <= limits.changeRetentionEntries
    ensures var kept := Trim(log + Entries(chs, now), now, limits);
            |chs| <= |kept| && kept[|kept| - |chs|..] == Entries(chs, now)
  {
    var cutoff := now - limits.changeRetentionAge;
    RetainedLog.DropOlderConcat(log, Entries(chs, now), cutoff);
    RetainedLog.DropOlderAllYoung(Entries(chs, now), cutoff);
    TailKept(DropOlder(log, cutoff), Entries(chs, now), limits.changeRetentionEntries);
  }

  lemma {:induction false} CommitLogs(sp: Space, out: Outcome, now: int, limits: Limits)
    requires out.space.(records := sp.records) == Committed(sp, out.changes, now, limits)
    requires forall i :: 0 <= i < |out.changes| ==> out.changes[i].sequence == sp.last + i + 1
    ensures Logged(sp, out, now, limits)
  {
    TrimMembers(sp.log, out.changes, now, limits);
    if limits.changeRetentionAge >= 0 && |out.changes| <= limits.changeRetentionEntries {
      TrimTail(sp.log, out.changes, now, limits);
    }
  }

  // ---- The four mutations ----

  /** What a document stored by a request says. */
  predicate Carries(d: Document, id: string, revision: string, data: Bytes) {
    d.id == id && d.revision == revision && d.data == data
  }

  predicate Untouched(sp: Space, out: Outcome) {
    out.space == sp && out.changes == []
  }

  /** A stored document is the one that was asked for: the table holds it under its key, the change carries it, and
      nothing else has moved. Any other answer leaves the store as it was. */
  lemma {:induction false} PutStores(sp: Space, req: PutRequest, revision: string)
    ensures var out, before := Put(sp, req, revision), Lookup(sp.rows, req.collection, req.id);
            if out.reply.Stored? then
              var d := out.reply.doc;
              && Carries(d, req.id, revision, req.data)
              && d.createdAt == (if before.Some? then before.value.createdAt else req.now)
              && d.updatedAt >= req.now && d.updatedAt >= d.createdAt && d.updatedAt in {req.now, d.createdAt}
              && SetTo(sp.rows, out.space.rows, req.collection, req.id, Some(d))
              && |out.changes| == 1 && out.changes[0].collection == req.collection && out.changes[0].id == req.id
              && out.changes[0].document == Some(d) && out.changes[0].operation.ChangeCreate? == before.None?
              && Logged(sp, out, req.now, req.limits) && out.space.records == sp.records
            else Untouched(sp, out)
  {
    var out := Put(sp, req, revision);
    if out.reply.Stored? {
      OneSets(sp.rows, out.changes[0]);
      CommitLogs(sp, out, req.now, req.limits);
    }
  }

  predicate TooBig(rows: seq<Row>, oldBytes: nat, newBytes: nat, limits: Limits) {
    newBytes > limits.maxDocumentBytes || TotalBytes(rows) + newBytes - oldBytes > limits.maxNamespaceBytes
  }

  predicate NoPlace(rows: seq<Row>, collection: string, data: Bytes, limits: Limits) {
    TooBig(rows, 0, |data|, limits) || |Project(rows, collection)| >= limits.maxDocuments
  }

  /** Which answer a put gets. */
  lemma {:induction false} PutAnswers(sp: Space, req: PutRequest, revision: string)
    ensures var before := Lookup(sp.rows, req.collection, req.id);
            var reply := Put(sp, req, revision).reply;
            && (reply == Failed(DocumentNotFound) <==> before.None? && !req.createOnly)
            && (reply == Failed(RevisionConflict) <==>
                  before.Some? && (req.createOnly || before.value.revision != req.expectedRevision))
            && (reply == Failed(QuotaExceeded) <==>
                  if before.Some?
                  then !req.createOnly && before.value.revision == req.expectedRevision
                       && TooBig(sp.rows, |before.value.data|, |req.data|, req.limits)
                  else req.createOnly && NoPlace(sp.rows, req.collection, req.data, req.limits))
            && (reply.Stored? || reply.Failed?)
  {
  }

  /** The recorded answer is the stored document, until the retention runs out. */
  ghost predicate Recorded(sp: Space, out: Outcome, req: CreateRequest) {
    && out.reply.Stored? && req.key in out.space.records
    && out.space.records[req.key]
       == IdempotencyRecord(req.fingerprint, out.reply.doc, req.now, req.now + req.limits.idempotencyRetention)
    && forall key :: key != req.key ==>
         if key in sp.records && sp.records[key].expiresAt > req.now
         then key in out.space.records && out.space.records[key] == sp.records[key]
         else key !in out.space.records
  }

  lemma {:induction false} CreateStores(sp: Space, req: CreateRequest, revision: string)
    ensures var out := Create(sp, req, revision);
            if out.reply.Stored? then
              var d := out.reply.doc;
              && Carries(d, req.id, revision, req.data) && d.createdAt == d.updatedAt == req.now
              && SetTo(sp.rows, out.space.rows, req.collection, req.id, Some(d))
              && |out.changes| == 1 && out.changes[0].collection == req.collection && out.changes[0].id == req.id
              && out.changes[0].document == Some(d) && out.changes[0].operation.ChangeCreate?
              && Logged(sp, out, req.now, req.limits) && Recorded(sp, out, req)
            else Untouched(sp, out)
  {
    var out := Create(sp, req, revision);
    if out.reply.Stored? {
      OneSets(sp.rows, out.changes[0]);
      CommitLogs(sp, out, req.now, req.limits);
    }
  }

  predicate Remembered(sp: Space, req: CreateRequest) {
    req.key in sp.records && sp.records[req.key].expiresAt > req.now
  }

  function LiveRecords(records: map<string, IdempotencyRecord>, now: int): set<string> {
    set key | key in records && records[key].expiresAt > now
  }

  /** Which answer a create gets: a live record of its key decides before anything else. */
  lemma {:induction false} CreateAnswers(sp: Space, req: CreateRequest, revision: string)
    ensures var taken := Lookup(sp.rows, req.collection, req.id).Some?;
            var reply := Create(sp, req, revision).reply;
            if Remembered(sp, req) then
              reply == if sp.records[req.key].fingerprint == req.fingerprint then Replayed(sp.records[req.key].doc)
                       else Failed(IdempotencyConflict)
            else
              && (reply == Failed(RevisionConflict) <==> taken)
              && (reply == Failed(QuotaExceeded) <==>
                    !taken && (NoPlace(sp.rows, req.collection, req.data, req.limits)
                               || |LiveRecords(sp.records, req.now)| >= req.limits.maxIdempotencyRecords))
              && (reply.Stored? || reply == Failed(RevisionConflict) || reply == Failed(QuotaExceeded))
  {
    assert Unexpired(sp.records, req.now).Keys == LiveRecords(sp.records, req.now);
    assert |Unexpired(sp.records, req.now)| == |LiveRecords(sp.records, req.now)|;
  }

  lemma {:induction false} DeleteRemoves(sp: Space, req: DeleteRequest)
    ensures var out, before := Delete(sp, req), Lookup(sp.rows, req.collection, req.id);
            && (out.reply == Deleted <==> before.Some? && before.value.revision == req.expectedRevision)
            && (out.reply == Failed(DocumentNotFound) <==> before.None?)
            && (out.reply == Failed(RevisionConflict) <==> before.Some? && before.value.revision != req.expectedRevision)
            && if out.reply == Deleted then
                 && SetTo(sp.rows, out.space.rows, req.collection, req.id, None)
                 && out.changes == [Change(sp.last + 1, req.collection, ChangeDelete, req.id, before.value.revision, None)]
                 && Logged(sp, out, req.now, req.limits) && out.space.records == sp.records
               else Untouched(sp, out)
  {
    var out := Delete(sp, req);
    if out.reply == Deleted {
      OneSets(sp.rows, out.changes[0]);
      CommitLogs(sp, out, req.now, req.limits);
    }
  }

  /** Clearing empties the collection, announces each of its documents once, in order, and leaves the others. */
  lemma {:induction false} ClearEmpties(sp: Space, req: ClearRequest)
    requires Sorted(sp.rows, sp.last) && UniqueKeys(sp.rows)
    ensures var out, docs := Clear(sp, req), Project(sp.rows, req.collection);
            && out.reply == Cleared
            && Project(out.space.rows, req.collection) == []
            && (forall c :: c != req.collection ==> Project(out.space.rows, c) == Project(sp.rows, c))
            && |out.changes| == |docs|
            && (forall i :: 0 <= i < |docs| ==>
                  out.changes[i] == Change(sp.last + i + 1, req.collection, ChangeDelete, docs[i].id, docs[i].revision, None))
            && Logged(sp, out, req.now, req.limits) && out.space.records == sp.records
  {
    var out := Clear(sp, req);
    CommitLogs(sp, out, req.now, req.limits);
    RowsEmptied(sp.rows, sp.last, req.collection);
    forall c | c != req.collection ensures Project(out.space.rows, c) == Project(sp.rows, c) {
      OthersSpared(sp.rows, out.changes, req.collection, c);
    }
  }

  lemma {:induction false} RowsEmptied(rows: seq<Row>, last: nat, c: string)
    requires Sorted(rows, last) && UniqueKeys(rows)
    ensures Project(ApplyRows(rows, ClearChanges(last, c, Project(rows, c))), c) == []
  {
    var docs := Project(rows, c);
    StoreHistory.DeletionsAreClear(last, c, docs);
    var chs := StoreHistory.ClearPrefix(rows, last, c, docs, |docs|);
    assert docs[..|docs|] == docs;
  }

  lemma {:induction false} OthersSpared(rows: seq<Row>, chs: seq<Change>, c: string, other: string)
    requires other != c && forall i :: 0 <= i < |chs| ==> chs[i].operation.ChangeDelete? && chs[i].collection == c
    ensures Project(ApplyRows(rows, chs), other) == Project(rows, other)
  {
    if chs != [] {
      var init, ch := chs[..|chs| - 1], chs[|chs| - 1];
      OthersSpared(rows, init, c, other);
      ProjectSpared(ApplyRows(rows, init), c, ch.id, other);
    }
  }

  lemma {:induction false} ProjectSpared(rows: seq<Row>, c: string, id: string, other: string)
    requires other != c
    ensures Project(RowRemove(rows, c, id), other) == Project(rows, other)
  {
    if rows != [] {
      var init, row := rows[..|rows| - 1], rows[|rows| - 1];
      ProjectSpared(init, c, id, other);
      var rest := RowRemove(init, c, id);
      assert (rest + [row])[..|rest|] == rest;
    }
  }

  // ---- Which reads are refused ----

  /** A listing cursor is good for its own namespace and collection only, and not beyond the end of the log. */
  lemma {:induction false} ListRefusesIff(sp: Space, ns: string, c: string, limit: nat, after: After)
    requires limit >= 1
    ensures List(sp, ns, c, limit, after) == Err(InvalidCursor) <==>
              !(after.NoCursor? ||
                (after.At? && after.cursor.ns == ns && after.cursor.collection == c
                 && after.cursor.sequence <= after.cursor.watermark <= sp.last))
    ensures List(sp, ns, c, limit, after).Err? ==> List(sp, ns, c, limit, after).error == InvalidCursor
  {
  }

  /** A feed cursor of another namespace is invalid, whatever its sequence. */
  lemma {:induction false} ForeignFeedRefused(sp: Space, ns: string, cs: set<string>, after: ChangeCursor, limit: nat)
    requires limit >= 1
    ensures after.ns != ns || after.sequence > sp.last <==> Changes(sp, ns, cs, after, limit) == Err(InvalidCursor)
  {
  }

  // ---- Bytes ----

  /** The bytes that count against the namespace are those of the documents there are. */
  lemma {:induction false} BytesAdd(rows: seq<Row>, row: Row)
    ensures TotalBytes(rows + [row]) == TotalBytes(rows) + |row.doc.data|
  {
    assert (rows + [row])[..|rows|] == rows;
  }
}
