/** The `documents` table of one namespace. Rows stand in index order, that is by
    `created_sequence`, which is the order in which both `List` and the snapshot read them. */
module DocumentTable {
  import opened Wrappers
  import opened ChangeLog

  datatype Row = Row(collection: string, doc: Document, createdSequence: nat)

  predicate Keyed(row: Row, collection: string, id: string) {
    row.collection == collection && row.doc.id == id
  }

  predicate HasRow(rows: seq<Row>, collection: string, id: string) {
    exists i :: 0 <= i < |rows| && Keyed(rows[i], collection, id)
  }

  function Find(rows: seq<Row>, collection: string, id: string): (r: Option<Row>)
    ensures r.Some? <==> HasRow(rows, collection, id)
    ensures r.Some? ==> r.value in rows && Keyed(r.value, collection, id)
  {
    if rows == [] then None
    else if Keyed(rows[|rows| - 1], collection, id) then Some(rows[|rows| - 1])
    else
      assert forall i :: 0 <= i < |rows| - 1 ==> rows[i] == rows[..|rows| - 1][i];
      Find(rows[..|rows| - 1], collection, id)
  }

  function RowRemove(rows: seq<Row>, collection: string, id: string): seq<Row> {
    if rows == [] then []
    else
      var rest := RowRemove(rows[..|rows| - 1], collection, id);
      if Keyed(rows[|rows| - 1], collection, id) then rest else rest + [rows[|rows| - 1]]
  }

  /** An UPDATE keeps the row's place and its `created_sequence`. */
  function RowReplace(rows: seq<Row>, collection: string, d: Document): seq<Row> {
    if rows == [] then []
    else
      var row := rows[|rows| - 1];
      RowReplace(rows[..|rows| - 1], collection, d)
      + [if Keyed(row, collection, d.id) then row.(doc := d) else row]
  }

  /** The documents of one collection whose `created_sequence` lies in (lo, hi], in table order. */
  function Range(rows: seq<Row>, collection: string, lo: nat, hi: nat): seq<Document> {
    if rows == [] then []
    else
      var row := rows[|rows| - 1];
      var rest := Range(rows[..|rows| - 1], collection, lo, hi);
      if row.collection == collection && lo < row.createdSequence <= hi then rest + [row.doc] else rest
  }

  /** All documents of one collection, in table order. */
  function Project(rows: seq<Row>, collection: string): seq<Document> {
    if rows == [] then []
    else
      var row := rows[|rows| - 1];
      var rest := Project(rows[..|rows| - 1], collection);
      if row.collection == collection then rest + [row.doc] else rest
  }

  function TotalBytes(rows: seq<Row>): nat {
    if rows == [] then 0
    else TotalBytes(rows[..|rows| - 1]) + |rows[|rows| - 1].doc.data|
  }

  predicate Sorted(rows: seq<Row>, last: nat) {
    && (forall i, j :: 0 <= i < j < |rows| ==> rows[i].createdSequence < rows[j].createdSequence)
    && (forall i :: 0 <= i < |rows| ==> 0 < rows[i].createdSequence <= last)
  }

  predicate UniqueKeys(rows: seq<Row>) {
    forall i, j :: 0 <= i < j < |rows| ==> !Keyed(rows[j], rows[i].collection, rows[i].doc.id)
  }

  /** What the table looks like after one committed change. */
  function ApplyRow(rows: seq<Row>, ch: Change): seq<Row> {
    match ch.operation
    case ChangeDelete => RowRemove(rows, ch.collection, ch.id)
    case ChangeUpdate => if ch.document.Some? then RowReplace(rows, ch.collection, ch.document.value) else rows
    case ChangeCreate =>
      if ch.document.Some? then rows + [Row(ch.collection, ch.document.value, ch.sequence)] else rows
  }

  /** A change the store may commit against this table. */
  predicate Legal(rows: seq<Row>, ch: Change) {
    && WellFormed(ch)
    && (ch.operation.ChangeCreate? <==> !HasRow(rows, ch.collection, ch.id))
  }

  // ---- Element-wise reading of the table operations ----

  lemma {:induction false} InitRows(rows: seq<Row>, last: nat)
    requires rows != [] && Sorted(rows, last)
    ensures Sorted(rows[..|rows| - 1], last)
    ensures UniqueKeys(rows) ==> UniqueKeys(rows[..|rows| - 1])
    ensures forall r :: r in rows[..|rows| - 1] ==> r.createdSequence < rows[|rows| - 1].createdSequence
  {
  }

  lemma {:induction false} RemoveRowMember(rows: seq<Row>, c: string, id: string, r: Row)
    ensures r in RowRemove(rows, c, id) <==> r in rows && !Keyed(r, c, id)
  {
    if rows != [] {
      RemoveRowMember(rows[..|rows| - 1], c, id, r);
      assert rows == rows[..|rows| - 1] + [rows[|rows| - 1]];
    }
  }

  lemma {:induction false} RemoveRowShape(rows: seq<Row>, c: string, id: string, last: nat)
    requires Sorted(rows, last) && UniqueKeys(rows)
    ensures Sorted(RowRemove(rows, c, id), last) && UniqueKeys(RowRemove(rows, c, id))
  {
    if rows != [] {
      var init, row := rows[..|rows| - 1], rows[|rows| - 1];
      InitRows(rows, last);
      RemoveRowShape(init, c, id, last);
      var rest := RowRemove(init, c, id);
      forall r | r in rest ensures r.createdSequence < row.createdSequence && !Keyed(row, r.collection, r.doc.id) {
        RemoveRowMember(init, c, id, r);
        var i :| 0 <= i < |init| && init[i] == r;
        assert rows[i] == r && rows[|rows| - 1] == row;
      }
      SnocShape(rest, row, last);
    }
  }

  lemma {:induction false} SnocShape(rows: seq<Row>, row: Row, last: nat)
    requires Sorted(rows, last) && UniqueKeys(rows) && 0 < row.createdSequence <= last
    requires forall r :: r in rows ==> r.createdSequence < row.createdSequence && !Keyed(row, r.collection, r.doc.id)
    ensures Sorted(rows + [row], last) && UniqueKeys(rows + [row])
  {
  }

  lemma {:induction false} ReplaceRowAt(rows: seq<Row>, c: string, d: Document)
    ensures |RowReplace(rows, c, d)| == |rows|
    ensures forall i :: 0 <= i < |rows| ==>
      RowReplace(rows, c, d)[i] == if Keyed(rows[i], c, d.id) then rows[i].(doc := d) else rows[i]
  {
    if rows != [] {
      ReplaceRowAt(rows[..|rows| - 1], c, d);
    }
  }

  lemma {:induction false} ApplyRowShape(rows: seq<Row>, ch: Change, last: nat)
    requires Sorted(rows, last) && UniqueKeys(rows) && Legal(rows, ch) && ch.sequence == last + 1
    ensures Sorted(ApplyRow(rows, ch), last + 1) && UniqueKeys(ApplyRow(rows, ch))
  {
    match ch.operation
    case ChangeDelete => RemoveRowShape(rows, ch.collection, ch.id, last);
    case ChangeUpdate => ReplaceRowAt(rows, ch.collection, ch.document.value);
    case ChangeCreate =>
  }

  /** A row of the table after a change is a row from before, possibly with a new body, or the created row. */
  lemma {:induction false} ApplyRowMember(rows: seq<Row>, ch: Change, r: Row)
    requires Legal(rows, ch) && r in ApplyRow(rows, ch)
    ensures (ch.operation.ChangeCreate? && r == Row(ch.collection, ch.document.value, ch.sequence))
         || exists o :: o in rows && o.createdSequence == r.createdSequence && o.collection == r.collection
              && o.doc.id == r.doc.id
              && (Keyed(r, ch.collection, ch.id) ==> ch.operation.ChangeUpdate? && r.doc == ch.document.value)
              && (!Keyed(r, ch.collection, ch.id) ==> r == o)
  {
    match ch.operation
    case ChangeDelete =>
      RemoveRowMember(rows, ch.collection, ch.id, r);
    case ChangeUpdate =>
      ReplaceRowAt(rows, ch.collection, ch.document.value);
      var i :| 0 <= i < |rows| && RowReplace(rows, ch.collection, ch.document.value)[i] == r;
      assert rows[i] in rows;
    case ChangeCreate =>
      if r in rows {
        var i :| 0 <= i < |rows| && rows[i] == r;
        assert !Keyed(rows[i], ch.collection, ch.id);
      }
  }

  // ---- Ranges ----

  lemma {:induction false} RangeHas(rows: seq<Row>, c: string, lo: nat, hi: nat, id: string)
    ensures Has(Range(rows, c, lo, hi), id)
       <==> exists r :: r in rows && Keyed(r, c, id) && lo < r.createdSequence <= hi
  {
    if rows != [] {
      var init, row := rows[..|rows| - 1], rows[|rows| - 1];
      RangeHas(init, c, lo, hi, id);
      HasSnoc(Range(init, c, lo, hi), row.doc, id);
      assert rows == init + [row];
    }
  }

  lemma {:induction false} RangeRemove(rows: seq<Row>, c: string, id: string, k: string, lo: nat, hi: nat)
    ensures Range(RowRemove(rows, c, id), k, lo, hi)
         == if k == c then Remove(Range(rows, k, lo, hi), id) else Range(rows, k, lo, hi)
  {
    if rows != [] {
      var init, row := rows[..|rows| - 1], rows[|rows| - 1];
      RangeRemove(init, c, id, k, lo, hi);
      var rest := RowRemove(init, c, id);
      assert (rest + [row])[..|rest + [row]| - 1] == rest;
      var d := Range(init, k, lo, hi);
      assert (d + [row.doc])[..|d + [row.doc]| - 1] == d;
    }
  }

  lemma {:induction false} RangeReplace(rows: seq<Row>, c: string, d: Document, k: string, lo: nat, hi: nat)
    ensures Range(RowReplace(rows, c, d), k, lo, hi)
         == if k == c then Replace(Range(rows, k, lo, hi), d) else Range(rows, k, lo, hi)
  {
    if rows != [] {
      var init, row := rows[..|rows| - 1], rows[|rows| - 1];
      RangeReplace(init, c, d, k, lo, hi);
      var rest := RowReplace(init, c, d);
      var row' := if Keyed(row, c, d.id) then row.(doc := d) else row;
      assert (rest + [row'])[..|rest + [row']| - 1] == rest;
      var ds := Range(init, k, lo, hi);
      assert (ds + [row.doc])[..|ds + [row.doc]| - 1] == ds;
    }
  }

  lemma {:induction false} RangeAppend(rows: seq<Row>, row: Row, k: string, lo: nat, hi: nat)
    ensures Range(rows + [row], k, lo, hi)
         == Range(rows, k, lo, hi)
            + (if row.collection == k && lo < row.createdSequence <= hi then [row.doc] else [])
  {
    assert (rows + [row])[..|rows + [row]| - 1] == rows;
  }

  lemma {:induction false} RangeEmpty(rows: seq<Row>, c: string, lo: nat, hi: nat)
    requires forall r :: r in rows && r.collection == c ==> !(lo < r.createdSequence <= hi)
    ensures Range(rows, c, lo, hi) == []
  {
    if rows != [] {
      RangeEmpty(rows[..|rows| - 1], c, lo, hi);
    }
  }

  lemma {:induction false} RangeSplit(rows: seq<Row>, c: string, lo: nat, mid: nat, hi: nat, last: nat)
    requires Sorted(rows, last) && lo <= mid <= hi
    ensures Range(rows, c, lo, hi) == Range(rows, c, lo, mid) + Range(rows, c, mid, hi)
  {
    if rows != [] {
      var init, row := rows[..|rows| - 1], rows[|rows| - 1];
      InitRows(rows, last);
      RangeSplit(init, c, lo, mid, hi, last);
      if row.createdSequence <= mid {
        RangeEmpty(init, c, mid, hi);
        RangeEmpty(rows, c, mid, hi);
      }
    }
  }

  lemma {:induction false} ProjectIsRange(rows: seq<Row>, c: string, last: nat)
    requires Sorted(rows, last)
    ensures Project(rows, c) == Range(rows, c, 0, last)
  {
    if rows != [] {
      InitRows(rows, last);
      ProjectIsRange(rows[..|rows| - 1], c, last);
    }
  }

  /** On one collection, a committed change does to the table what it does to a browser's map. */
  lemma {:induction false} ProjectApply(rows: seq<Row>, ch: Change, c: string, last: nat)
    requires Sorted(rows, last) && UniqueKeys(rows) && Legal(rows, ch) && ch.sequence == last + 1
    ensures Project(ApplyRow(rows, ch), c)
         == if ch.collection == c then Apply(Project(rows, c), ch) else Project(rows, c)
  {
    ApplyRowShape(rows, ch, last);
    ProjectIsRange(rows, c, last);
    ProjectIsRange(ApplyRow(rows, ch), c, last + 1);
    RangeSplit(rows, c, 0, last, last + 1, last);
    RangeEmpty(rows, c, last, last + 1);
    assert Range(rows, c, 0, last + 1) == Range(rows, c, 0, last);
    RangeHas(rows, c, 0, last, ch.id);
    match ch.operation
    case ChangeDelete =>
      RangeRemove(rows, ch.collection, ch.id, c, 0, last + 1);
    case ChangeUpdate =>
      RangeReplace(rows, ch.collection, ch.document.value, c, 0, last + 1);
      var i :| 0 <= i < |rows| && Keyed(rows[i], ch.collection, ch.id);
      assert rows[i] in rows;
    case ChangeCreate =>
      RangeAppend(rows, Row(ch.collection, ch.document.value, ch.sequence), c, 0, last + 1);
  }

  // ---- Stored bytes ----

  lemma {:induction false} BytesReplace(rows: seq<Row>, c: string, d: Document, row: Row)
    requires UniqueKeys(rows) && row in rows && Keyed(row, c, d.id)
    ensures TotalBytes(RowReplace(rows, c, d)) == TotalBytes(rows) - |row.doc.data| + |d.data|
  {
    var init, r := rows[..|rows| - 1], rows[|rows| - 1];
    assert rows == init + [r];
    var replaced := RowReplace(init, c, d);
    assert RowReplace(rows, c, d)[..|replaced|] == replaced;
    if row in init {
      var i :| 0 <= i < |init| && init[i] == row;
      assert rows[i] == row && !Keyed(r, c, d.id);
      BytesReplace(init, c, d, row);
    } else {
      BytesReplaceAbsent(init, c, d);
    }
  }

  lemma {:induction false} BytesReplaceAbsent(rows: seq<Row>, c: string, d: Document)
    requires forall i :: 0 <= i < |rows| ==> !Keyed(rows[i], c, d.id)
    ensures RowReplace(rows, c, d) == rows
  {
    if rows != [] {
      BytesReplaceAbsent(rows[..|rows| - 1], c, d);
    }
  }

  lemma {:induction false} BytesRemove(rows: seq<Row>, c: string, id: string)
    ensures TotalBytes(RowRemove(rows, c, id)) <= TotalBytes(rows)
  {
    if rows != [] {
      var rest := RowRemove(rows[..|rows| - 1], c, id);
      BytesRemove(rows[..|rows| - 1], c, id);
      assert (rest + [rows[|rows| - 1]])[..|rest|] == rest;
    }
  }
}
