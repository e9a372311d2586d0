/** The SQLite document store: one transaction per operation, a sequenced change log that is trimmed
    by age and by count, idempotency records, and the two paginated reads. */
module DocumentStore {
  import opened Wrappers
  import opened ChangeLog
  import opened DocumentTable

  datatype Limits = Limits(
    maxDocuments: int, maxDocumentBytes: int, maxNamespaceBytes: int, maxIdempotencyRecords: int,
    changeRetentionEntries: nat, changeRetentionAge: int, idempotencyRetention: int)

  datatype StoreError =
    | DocumentNotFound | RevisionConflict | QuotaExceeded | IdempotencyConflict | InvalidCursor | CursorExpired

  datatype LogEntry = LogEntry(change: Change, occurredAt: int)

  datatype IdempotencyRecord = IdempotencyRecord(fingerprint: Bytes, doc: Document, createdAt: int, expiresAt: int)

  /** Everything the database holds for one namespace. */
  datatype Space = Space(last: nat, rows: seq<Row>, log: seq<LogEntry>, records: map<string, IdempotencyRecord>)

  const EMPTY_SPACE := Space(0, [], [], map[])

  datatype CreateRequest = CreateRequest(
    collection: string, id: string, data: Bytes, key: string, fingerprint: Bytes, now: int, limits: Limits)

  datatype PutRequest = PutRequest(
    collection: string, id: string, data: Bytes, createOnly: bool, expectedRevision: string, now: int, limits: Limits)

  datatype DeleteRequest = DeleteRequest(
    collection: string, id: string, expectedRevision: string, now: int, limits: Limits)

  datatype ClearRequest = ClearRequest(collection: string, now: int, limits: Limits)

  datatype Reply =
    | Stored(doc: Document)
    | Replayed(doc: Document)
    | Deleted
    | Cleared
    | Failed(error: StoreError)

  /** What a mutation leaves behind: the committed space, the changes it appended, and the caller's answer. */
  datatype Outcome = Outcome(space: Space, changes: seq<Change>, reply: Reply)

  // ---- Pieces of the mutating transactions ----

  function CreateFits(rows: seq<Row>, collection: string, bytes: nat, limits: Limits): bool {
    && bytes <= limits.maxDocumentBytes
    && |Project(rows, collection)| < limits.maxDocuments
    && ReplacementFits(rows, 0, bytes, limits)
  }

  function ReplacementFits(rows: seq<Row>, oldBytes: nat, newBytes: nat, limits: Limits): bool {
    && newBytes <= limits.maxDocumentBytes
    && TotalBytes(rows) - oldBytes + newBytes <= limits.maxNamespaceBytes
  }

  function Entries(chs: seq<Change>, now: int): seq<LogEntry> {
    seq(|chs|, i requires 0 <= i < |chs| => LogEntry(chs[i], now))
  }

  function ApplyRows(rows: seq<Row>, chs: seq<Change>): seq<Row> {
    if chs == [] then rows
    else ApplyRow(ApplyRows(rows, chs[..|chs| - 1]), chs[|chs| - 1])
  }

  function DropOlder(log: seq<LogEntry>, cutoff: int): seq<LogEntry> {
    if log == [] then []
    else
      var rest := DropOlder(log[..|log| - 1], cutoff);
      if log[|log| - 1].occurredAt < cutoff then rest else rest + [log[|log| - 1]]
  }

  function KeepNewest(log: seq<LogEntry>, n: nat): seq<LogEntry> {
    if |log| > n then log[|log| - n..] else log
  }

  function Trim(log: seq<LogEntry>, now: int, limits: Limits): seq<LogEntry> {
    KeepNewest(DropOlder(log, now - limits.changeRetentionAge), limits.changeRetentionEntries)
  }

  /** The effect shared by every committed mutation. */
  function Committed(sp: Space, chs: seq<Change>, now: int, limits: Limits): Space {
    sp.(last := sp.last + |chs|, rows := ApplyRows(sp.rows, chs), log := Trim(sp.log + Entries(chs, now), now, limits))
  }

  function Unexpired(records: map<string, IdempotencyRecord>, now: int): map<string, IdempotencyRecord> {
    map key | key in records && records[key].expiresAt > now :: records[key]
  }

  function StoredChange(op: Operation, sequence: nat, collection: string, d: Document): Change {
    Change(sequence, collection, op, d.id, d.revision, Some(d))
  }

  function DeletedChange(sequence: nat, collection: string, id: string, revision: string): Change {
    Change(sequence, collection, ChangeDelete, id, revision, None)
  }

  function Max(a: int, b: int): int { if a < b then b else a }

  // ---- The mutations as functions from a committed space to a committed space ----

  function Create(sp: Space, req: CreateRequest, revision: string): Outcome {
    var records := Unexpired(sp.records, req.now);
    if req.key in records then
      if records[req.key].fingerprint != req.fingerprint then Outcome(sp, [], Failed(IdempotencyConflict))
      else Outcome(sp, [], Replayed(records[req.key].doc))
    else if HasRow(sp.rows, req.collection, req.id) then Outcome(sp, [], Failed(RevisionConflict))
    else if !CreateFits(sp.rows, req.collection, |req.data|, req.limits) then Outcome(sp, [], Failed(QuotaExceeded))
    else if |records| >= req.limits.maxIdempotencyRecords then Outcome(sp, [], Failed(QuotaExceeded))
    else
      var d := Document(req.id, revision, req.data, req.now, req.now);
      var ch := StoredChange(ChangeCreate, sp.last + 1, req.collection, d);
      var record := IdempotencyRecord(req.fingerprint, d, req.now, req.now + req.limits.idempotencyRetention);
      Outcome(Committed(sp, [ch], req.now, req.limits).(records := records[req.key := record]), [ch], Stored(d))
  }

  function Put(sp: Space, req: PutRequest, revision: string): Outcome {
    var current := Find(sp.rows, req.collection, req.id);
    if req.createOnly && current.Some? then Outcome(sp, [], Failed(RevisionConflict))
    else if !req.createOnly && current.None? then Outcome(sp, [], Failed(DocumentNotFound))
    else if current.Some? && current.value.doc.revision != req.expectedRevision then
      Outcome(sp, [], Failed(RevisionConflict))
    else if current.None? && !CreateFits(sp.rows, req.collection, |req.data|, req.limits) then
      Outcome(sp, [], Failed(QuotaExceeded))
    else if current.Some? && !ReplacementFits(sp.rows, |current.value.doc.data|, |req.data|, req.limits) then
      Outcome(sp, [], Failed(QuotaExceeded))
    else
      var createdAt := if current.Some? then current.value.doc.createdAt else req.now;
      var d := Document(req.id, revision, req.data, createdAt, Max(req.now, createdAt));
      var op := if current.Some? then ChangeUpdate else ChangeCreate;
      var ch := StoredChange(op, sp.last + 1, req.collection, d);
      Outcome(Committed(sp, [ch], req.now, req.limits), [ch], Stored(d))
  }

  function Delete(sp: Space, req: DeleteRequest): Outcome {
    var current := Find(sp.rows, req.collection, req.id);
    if current.None? then Outcome(sp, [], Failed(DocumentNotFound))
    else if current.value.doc.revision != req.expectedRevision then Outcome(sp, [], Failed(RevisionConflict))
    else
      var ch := DeletedChange(sp.last + 1, req.collection, req.id, current.value.doc.revision);
      Outcome(Committed(sp, [ch], req.now, req.limits), [ch], Deleted)
  }

  /** One delete change per document, in table order. */
  function ClearChanges(last: nat, collection: string, docs: seq<Document>): seq<Change> {
    seq(|docs|, i requires 0 <= i < |docs| => DeletedChange(last + 1 + i, collection, docs[i].id, docs[i].revision))
  }

  function Clear(sp: Space, req: ClearRequest): Outcome {
    var chs := ClearChanges(sp.last, req.collection, Project(sp.rows, req.collection));
    Outcome(Committed(sp, chs, req.now, req.limits), chs, Cleared)
  }

  datatype StoreOp =
    | CreateOp(create: CreateRequest, revision: string)
    | PutOp(put: PutRequest, revision: string)
    | DeleteOp(delete: DeleteRequest)
    | ClearOp(clear: ClearRequest)
  {
    function Now(): int {
      match this
      case CreateOp(r, _) => r.now
      case PutOp(r, _) => r.now
      case DeleteOp(r) => r.now
      case ClearOp(r) => r.now
    }

    function Bounds(): Limits {
      match this
      case CreateOp(r, _) => r.limits
      case PutOp(r, _) => r.limits
      case DeleteOp(r) => r.limits
      case ClearOp(r) => r.limits
    }
  }

  function Exec(sp: Space, op: StoreOp): Outcome {
    match op
    case CreateOp(r, revision) => Create(sp, r, revision)
    case PutOp(r, revision) => Put(sp, r, revision)
    case DeleteOp(r) => Delete(sp, r)
    case ClearOp(r) => Clear(sp, r)
  }

  // ---- The two paginated reads ----

  datatype PageCursor = PageCursor(ns: string, collection: string, watermark: nat, sequence: nat, id: string)

  /** The `after` parameter as it arrives: absent, not decodable, or a decoded cursor. */
  datatype After = NoCursor | Malformed | At(cursor: PageCursor)

  datatype ChangeCursor = ChangeCursor(ns: string, sequence: nat)

  datatype ListPage = ListPage(documents: seq<Document>, after: Option<PageCursor>, changes: ChangeCursor)

  datatype ChangesPage = ChangesPage(changes: seq<Change>, cursor: ChangeCursor, more: bool)

  /** BINARY collation on document IDs. */
  predicate IdLess(a: string, b: string) {
    if b == [] then false
    else if a == [] then true
    else if a[0] != b[0] then a[0] < b[0]
    else IdLess(a[1..], b[1..])
  }

  predicate Listed(row: Row, cursor: PageCursor) {
    && row.collection == cursor.collection
    && row.createdSequence <= cursor.watermark
    && (row.createdSequence > cursor.sequence
        || (row.createdSequence == cursor.sequence && IdLess(cursor.id, row.doc.id)))
  }

  function ListRows(rows: seq<Row>, cursor: PageCursor): seq<Row> {
    if rows == [] then []
    else
      var rest := ListRows(rows[..|rows| - 1], cursor);
      if Listed(rows[|rows| - 1], cursor) then rest + [rows[|rows| - 1]] else rest
  }

  function Docs(rows: seq<Row>): seq<Document> {
    seq(|rows|, i requires 0 <= i < |rows| => rows[i].doc)
  }

  function StartCursor(sp: Space, ns: string, collection: string, after: After): Option<PageCursor> {
    match after
    case NoCursor => Some(PageCursor(ns, collection, sp.last, 0, ""))
    case Malformed => None
    case At(c) => if c.ns == ns && c.collection == collection then Some(c) else None
  }

  function List(sp: Space, ns: string, collection: string, limit: nat, after: After): Result<ListPage, StoreError>
    requires limit >= 1
  {
    var start := StartCursor(sp, ns, collection, after);
    if start.None? || start.value.sequence > start.value.watermark || start.value.watermark > sp.last then
      Err(InvalidCursor)
    else
      var c := start.value;
      var found := ListRows(sp.rows, c);
      var changes := ChangeCursor(ns, c.watermark);
      if |found| > limit then
        var last := found[limit - 1];
        Ok(ListPage(Docs(found[..limit]), Some(c.(sequence := last.createdSequence, id := last.doc.id)), changes))
      else
        Ok(ListPage(Docs(found), None, changes))
  }

  function LogAfter(log: seq<LogEntry>, collections: set<string>, lo: nat, hi: nat): seq<Change> {
    if log == [] then []
    else
      var rest := LogAfter(log[..|log| - 1], collections, lo, hi);
      var ch := log[|log| - 1].change;
      if ch.collection in collections && lo < ch.sequence <= hi then rest + [ch] else rest
  }

  /** Whether the retained log no longer reaches back to `after`. */
  predicate Expired(sp: Space, after: nat) {
    if sp.log != [] then after + 1 < sp.log[0].change.sequence else after < sp.last
  }

  function Changes(sp: Space, ns: string, collections: set<string>, after: ChangeCursor, limit: nat)
    : Result<ChangesPage, StoreError>
    requires limit >= 1
  {
    if after.ns != ns || after.sequence > sp.last then Err(InvalidCursor)
    else if Expired(sp, after.sequence) then Err(CursorExpired)
    else
      var found := LogAfter(sp.log, collections, after.sequence, sp.last);
      if |found| > limit then
        Ok(ChangesPage(found[..limit], ChangeCursor(ns, found[limit - 1].sequence), true))
      else
        Ok(ChangesPage(found, ChangeCursor(ns, sp.last), false))
  }

  // ---- The store itself ----

  /** The tables, keyed by namespace. A transaction works on a local copy of the rows it touches and
      assigns them back when it commits; returning early is the deferred rollback. */
  class Store {
    var spaces: map<string, Space>

    constructor ()
      ensures spaces == map[]
    {
      spaces := map[];
    }

    function SpaceOf(ns: string): Space
      reads this
    {
      if ns in spaces then spaces[ns] else EMPTY_SPACE
    }

    twostate predicate OthersKept(ns: string)
      reads this
    {
      forall other :: other != ns ==> SpaceOf(other) == old(SpaceOf(other))
    }

    method CreateDocument(ns: string, req: CreateRequest, revision: string)
      returns (reply: Reply, changes: seq<Change>)
      modifies this
      ensures Outcome(SpaceOf(ns), changes, reply) == Create(old(SpaceOf(ns)), req, revision)
      ensures OthersKept(ns)
    {
      var sp := SpaceOf(ns);
      changes := [];
      // Expired records go first; the deletion is kept only if the transaction commits.
      sp := sp.(records := Unexpired(sp.records, req.now));
      if req.key in sp.records {
        var record := sp.records[req.key];
        if record.fingerprint != req.fingerprint {
          return Failed(IdempotencyConflict), [];
        }
        return Replayed(record.doc), [];
      }
      if HasRow(sp.rows, req.collection, req.id) {
        return Failed(RevisionConflict), [];
      }
      if !CreateFits(sp.rows, req.collection, |req.data|, req.limits) {
        return Failed(QuotaExceeded), [];
      }
      if |sp.records| >= req.limits.maxIdempotencyRecords {
        return Failed(QuotaExceeded), [];
      }
      var sequence := sp.last + 1;
      var d := Document(req.id, revision, req.data, req.now, req.now);
      var ch := StoredChange(ChangeCreate, sequence, req.collection, d);
      sp := sp.(last := sequence, rows := sp.rows + [Row(req.collection, d, sequence)]);
      sp := sp.(log := sp.log + [LogEntry(ch, req.now)]);
      var expiresAt := req.now + req.limits.idempotencyRetention;
      sp := sp.(records := sp.records[req.key := IdempotencyRecord(req.fingerprint, d, req.now, expiresAt)]);
      sp := sp.(log := Trim(sp.log, req.now, req.limits));
      OneChange(SpaceOf(ns), ch, req.now);
      spaces := spaces[ns := sp];
      return Stored(d), [ch];
    }

    method PutDocument(ns: string, req: PutRequest, revision: string) returns (reply: Reply, changes: seq<Change>)
      modifies this
      ensures Outcome(SpaceOf(ns), changes, reply) == Put(old(SpaceOf(ns)), req, revision)
      ensures OthersKept(ns)
    {
      var sp := SpaceOf(ns);
      changes := [];
      var current := Find(sp.rows, req.collection, req.id);
      var found := current.Some?;
      if req.createOnly && found {
        return Failed(RevisionConflict), [];
      }
      if !req.createOnly && !found {
        return Failed(DocumentNotFound), [];
      }
      if found && current.value.doc.revision != req.expectedRevision {
        return Failed(RevisionConflict), [];
      }
      if !found {
        if !CreateFits(sp.rows, req.collection, |req.data|, req.limits) {
          return Failed(QuotaExceeded), [];
        }
      } else if !ReplacementFits(sp.rows, |current.value.doc.data|, |req.data|, req.limits) {
        return Failed(QuotaExceeded), [];
      }
      var sequence := sp.last + 1;
      var operation := ChangeCreate;
      var d := Document(req.id, revision, req.data, req.now, req.now);
      if found {
        operation := ChangeUpdate;
        d := d.(createdAt := current.value.doc.createdAt);
        if d.updatedAt < d.createdAt {
          d := d.(updatedAt := d.createdAt);
        }
        sp := sp.(rows := RowReplace(sp.rows, req.collection, d));
      } else {
        sp := sp.(rows := sp.rows + [Row(req.collection, d, sequence)]);
      }
      var ch := StoredChange(operation, sequence, req.collection, d);
      sp := sp.(last := sequence, log := Trim(sp.log + [LogEntry(ch, req.now)], req.now, req.limits));
      OneChange(SpaceOf(ns), ch, req.now);
      spaces := spaces[ns := sp];
      return Stored(d), [ch];
    }

    method DeleteDocument(ns: string, req: DeleteRequest) returns (reply: Reply, changes: seq<Change>)
      modifies this
      ensures Outcome(SpaceOf(ns), changes, reply) == Delete(old(SpaceOf(ns)), req)
      ensures OthersKept(ns)
    {
      var sp := SpaceOf(ns);
      changes := [];
      var current := Find(sp.rows, req.collection, req.id);
      if current.None? {
        return Failed(DocumentNotFound), [];
      }
      var revision := current.value.doc.revision;
      if revision != req.expectedRevision {
        return Failed(RevisionConflict), [];
      }
      var sequence := sp.last + 1;
      sp := sp.(last := sequence, rows := RowRemove(sp.rows, req.collection, req.id));
      var ch := DeletedChange(sequence, req.collection, req.id, revision);
      sp := sp.(log := Trim(sp.log + [LogEntry(ch, req.now)], req.now, req.limits));
      OneChange(SpaceOf(ns), ch, req.now);
      spaces := spaces[ns := sp];
      return Deleted, [ch];
    }

    method ClearCollection(ns: string, req: ClearRequest) returns (reply: Reply, changes: seq<Change>)
      modifies this
      ensures Outcome(SpaceOf(ns), changes, reply) == Clear(old(SpaceOf(ns)), req)
      ensures OthersKept(ns)
    {
      var sp := SpaceOf(ns);
      ghost var before := sp;
      var selected := Project(sp.rows, req.collection);
      ghost var all := ClearChanges(sp.last, req.collection, selected);
      changes := [];
      assert Entries([], req.now) == [];
      for i := 0 to |selected|
        invariant changes == all[..i]
        invariant sp == before.(last := before.last + i, rows := ApplyRows(before.rows, all[..i]),
                                log := before.log + Entries(all[..i], req.now))
      {
        var document := selected[i];
        var sequence := sp.last + 1;
        var ch := DeletedChange(sequence, req.collection, document.id, document.revision);
        assert all[..i + 1] == all[..i] + [ch] && all[..i + 1][..i] == all[..i];
        sp := sp.(last := sequence, rows := RowRemove(sp.rows, req.collection, document.id));
        assert Entries(all[..i + 1], req.now) == Entries(all[..i], req.now) + [LogEntry(ch, req.now)];
        sp := sp.(log := sp.log + [LogEntry(ch, req.now)]);
        changes := changes + [ch];
      }
      assert all[..|selected|] == all;
      sp := sp.(log := Trim(sp.log, req.now, req.limits));
      spaces := spaces[ns := sp];
      return Cleared, changes;
    }

    method PurgeNamespace(ns: string)
      modifies this
      ensures SpaceOf(ns) == EMPTY_SPACE
      ensures OthersKept(ns)
    {
      spaces := spaces - {ns};
    }

    method HighWater(ns: string) returns (cursor: ChangeCursor)
      ensures cursor == ChangeCursor(ns, SpaceOf(ns).last)
    {
      cursor := ChangeCursor(ns, if ns in spaces then spaces[ns].last else 0);
    }

    method ListDocuments(ns: string, collection: string, limit: nat, after: After)
      returns (page: Result<ListPage, StoreError>)
      requires limit >= 1
      ensures page == List(SpaceOf(ns), ns, collection, limit, after)
    {
      var sp := SpaceOf(ns);
      var cursor := PageCursor(ns, collection, sp.last, 0, "");
      if !after.NoCursor? {
        if after.Malformed? || after.cursor.ns != ns || after.cursor.collection != collection {
          return Err(InvalidCursor);
        }
        cursor := after.cursor;
      }
      if cursor.sequence > cursor.watermark || cursor.watermark > sp.last {
        return Err(InvalidCursor);
      }
      var values := QueryRows(sp.rows, cursor, limit + 1);
      ghost var found := ListRows(sp.rows, cursor);
      assert |values| <= limit ==> values == found;
      assert |values| > limit ==> |found| > limit && values[..limit] == found[..limit];
      var changes := ChangeCursor(ns, cursor.watermark);
      var rest := None;
      if |values| > limit {
        var last := values[limit - 1];
        rest := Some(PageCursor(cursor.ns, collection, cursor.watermark, last.createdSequence, last.doc.id));
        values := values[..limit];
      }
      var documents := DocsOf(values);
      return Ok(ListPage(documents, rest, changes));
    }

    /** The query with its LIMIT: stop once that many rows have been read. */
    static method QueryRows(rows: seq<Row>, cursor: PageCursor, limit: nat) returns (values: seq<Row>)
      ensures var found := ListRows(rows, cursor);
              values == if |found| > limit then found[..limit] else found
    {
      values := [];
      var next := 0;
      while next < |rows| && |values| < limit
        invariant 0 <= next <= |rows| && |values| <= limit
        invariant values == ListRows(rows[..next], cursor)
      {
        assert rows[..next + 1][..next] == rows[..next];
        if Listed(rows[next], cursor) {
          values := values + [rows[next]];
        }
        next := next + 1;
      }
      assert rows == rows[..next] + rows[next..];
      ListRowsConcat(rows[..next], rows[next..], cursor);
      assert next == |rows| ==> ListRows(rows[next..], cursor) == [];
    }

    static method DocsOf(rows: seq<Row>) returns (documents: seq<Document>)
      ensures documents == Docs(rows)
    {
      documents := [];
      for i := 0 to |rows|
        invariant documents == Docs(rows[..i])
      {
        documents := documents + [rows[i].doc];
      }
      assert rows[..|rows|] == rows;
    }

    method ReadChanges(ns: string, collections: set<string>, after: ChangeCursor, limit: nat)
      returns (page: Result<ChangesPage, StoreError>)
      requires limit >= 1
      ensures page == Changes(SpaceOf(ns), ns, collections, after, limit)
    {
      var sp := SpaceOf(ns);
      if after.ns != ns {
        return Err(InvalidCursor);
      }
      var highWater := sp.last;
      if after.sequence > highWater {
        return Err(InvalidCursor);
      }
      if |sp.log| > 0 {
        if after.sequence + 1 < sp.log[0].change.sequence {
          return Err(CursorExpired);
        }
      } else if after.sequence < highWater {
        return Err(CursorExpired);
      }
      var changes: seq<Change> := [];
      var next := 0;
      while next < |sp.log| && |changes| < limit + 1
        invariant 0 <= next <= |sp.log| && |changes| <= limit + 1
        invariant changes == LogAfter(sp.log[..next], collections, after.sequence, highWater)
      {
        assert sp.log[..next + 1][..next] == sp.log[..next];
        var ch := sp.log[next].change;
        if ch.collection in collections && after.sequence < ch.sequence <= highWater {
          changes := changes + [ch];
        }
        next := next + 1;
      }
      assert sp.log == sp.log[..next] + sp.log[next..];
      LogAfterConcat(sp.log[..next], sp.log[next..], collections, after.sequence, highWater);
      ghost var found := LogAfter(sp.log, collections, after.sequence, highWater);
      assert changes <= found && (|changes| <= limit ==> changes == found);
      if |changes| > limit {
        changes := changes[..limit];
        assert changes == found[..limit];
        return Ok(ChangesPage(changes, ChangeCursor(ns, changes[|changes| - 1].sequence), true));
      }
      return Ok(ChangesPage(changes, ChangeCursor(ns, highWater), false));
    }
  }

  lemma OneChange(sp: Space, ch: Change, now: int)
    ensures ApplyRows(sp.rows, [ch]) == ApplyRow(sp.rows, ch)
    ensures Entries([ch], now) == [LogEntry(ch, now)]
  {
    assert [ch][..0] == [];
    assert ApplyRows(sp.rows, []) == sp.rows;
  }

  lemma {:induction false} ListRowsConcat(a: seq<Row>, b: seq<Row>, cursor: PageCursor)
    ensures ListRows(a + b, cursor) == ListRows(a, cursor) + ListRows(b, cursor)
  {
    if b == [] {
      assert a + b == a;
    } else {
      assert (a + b)[..|a + b| - 1] == a + b[..|b| - 1];
      ListRowsConcat(a, b[..|b| - 1], cursor);
    }
  }

  lemma {:induction false} LogAfterConcat(a: seq<LogEntry>, b: seq<LogEntry>, cs: set<string>, lo: nat, hi: nat)
    ensures LogAfter(a + b, cs, lo, hi) == LogAfter(a, cs, lo, hi) + LogAfter(b, cs, lo, hi)
  {
    if b == [] {
      assert a + b == a;
    } else {
      assert (a + b)[..|a + b| - 1] == a + b[..|b| - 1];
      LogAfterConcat(a, b[..|b| - 1], cs, lo, hi);
    }
  }
}
