/** Listing a collection page by page while it changes, then replaying the log from the first page's
    watermark, gives exactly the collection: the same documents in the same order. */
module FuzzyListing {
  import opened Wrappers
  import opened ChangeLog
  import opened DocumentTable

  // ---- Replay that tells listed documents from later arrivals ----

  /** `base` is what is left of the listed documents, `tail` what the replay appended. */
  datatype Split = Split(base: seq<Document>, tail: seq<Document>)

  function SplitApply(p: Split, ch: Change): Split {
    if ch.operation.ChangeDelete? then Split(Remove(p.base, ch.id), Remove(p.tail, ch.id))
    else if ch.document.None? then p
    else if Has(p.base, ch.document.value.id) then Split(Replace(p.base, ch.document.value), p.tail)
    else Split(p.base, Set(p.tail, ch.document.value))
  }

  function SplitReplay(listed: seq<Document>, chs: seq<Change>): Split {
    if chs == [] then Split(listed, [])
    else SplitApply(SplitReplay(listed, chs[..|chs| - 1]), chs[|chs| - 1])
  }

  ghost predicate Disjoint(p: Split) {
    forall id :: !(Has(p.base, id) && Has(p.tail, id))
  }

  lemma {:induction false} HasSet(m: seq<Document>, d: Document, x: string)
    ensures Has(Set(m, d), x) <==> Has(m, x) || x == d.id
  {
    if Has(m, d.id) {
      HasReplace(m, d, x);
    } else {
      HasSnoc(m, d, x);
    }
  }

  lemma {:induction false} SplitApplyIsApply(p: Split, ch: Change)
    requires Disjoint(p)
    ensures Apply(p.base + p.tail, ch) == SplitApply(p, ch).base + SplitApply(p, ch).tail
    ensures Disjoint(SplitApply(p, ch))
  {
    SplitStaysDisjoint(p, ch);
    if ch.operation.ChangeDelete? {
      RemoveConcat(p.base, p.tail, ch.id);
    } else if ch.document.Some? {
      var d := ch.document.value;
      HasConcat(p.base, p.tail, d.id);
      ReplaceConcat(p.base, p.tail, d);
      if Has(p.base, d.id) {
        ReplaceAbsent(p.tail, d);
      } else {
        ReplaceAbsent(p.base, d);
      }
    }
  }

  lemma {:induction false} SplitStaysDisjoint(p: Split, ch: Change)
    requires Disjoint(p)
    ensures Disjoint(SplitApply(p, ch))
  {
    var q := SplitApply(p, ch);
    forall id ensures !(Has(q.base, id) && Has(q.tail, id)) {
      if ch.operation.ChangeDelete? {
        HasRemove(p.base, ch.id, id);
        HasRemove(p.tail, ch.id, id);
      } else if ch.document.Some? {
        HasReplace(p.base, ch.document.value, id);
        HasSet(p.tail, ch.document.value, id);
      }
    }
  }

  lemma {:induction false} SplitReplayIsReplay(listed: seq<Document>, chs: seq<Change>)
    ensures var p := SplitReplay(listed, chs);
            Replay(listed, chs) == p.base + p.tail && Disjoint(p)
  {
    if chs != [] {
      SplitReplayIsReplay(listed, chs[..|chs| - 1]);
      SplitApplyIsApply(SplitReplay(listed, chs[..|chs| - 1]), chs[|chs| - 1]);
    }
  }

  lemma {:induction false} SplitBaseListed(listed: seq<Document>, chs: seq<Change>, id: string)
    requires Has(SplitReplay(listed, chs).base, id)
    ensures Has(listed, id)
  {
    if chs != [] {
      var p, ch := SplitReplay(listed, chs[..|chs| - 1]), chs[|chs| - 1];
      HasRemove(p.base, ch.id, id);
      if ch.document.Some? {
        HasReplace(p.base, ch.document.value, id);
      }
      SplitBaseListed(listed, chs[..|chs| - 1], id);
    }
  }

  // ---- Leaving out documents that are not listed yet ----

  function Without(m: seq<Document>, hidden: seq<Document>): seq<Document> {
    if m == [] then []
    else
      var rest := Without(m[..|m| - 1], hidden);
      if Has(hidden, m[|m| - 1].id) then rest else rest + [m[|m| - 1]]
  }

  lemma {:induction false} HasWithout(m: seq<Document>, hidden: seq<Document>, x: string)
    ensures Has(Without(m, hidden), x) <==> Has(m, x) && !Has(hidden, x)
  {
    if m != [] {
      HasInit(m, x);
      HasWithout(m[..|m| - 1], hidden, x);
      HasSnoc(Without(m[..|m| - 1], hidden), m[|m| - 1], x);
    }
  }

  /** Removal commutes with hiding, also when the hidden list loses the same document. */
  lemma {:induction false} WithoutRemove(m: seq<Document>, hidden: seq<Document>, hidden': seq<Document>, id: string)
    requires forall x :: x != id ==> (Has(hidden', x) <==> Has(hidden, x))
    ensures Without(Remove(m, id), hidden') == Remove(Without(m, hidden), id)
  {
    if m != [] {
      var init, d := m[..|m| - 1], m[|m| - 1];
      WithoutRemove(init, hidden, hidden', id);
    }
  }

  lemma {:induction false} WithoutReplaceVisible(m: seq<Document>, hidden: seq<Document>, d: Document)
    requires !Has(hidden, d.id)
    ensures Without(Replace(m, d), hidden) == Replace(Without(m, hidden), d)
  {
    if m != [] {
      var init, last := m[..|m| - 1], m[|m| - 1];
      WithoutReplaceVisible(init, hidden, d);
    }
  }

  lemma {:induction false} WithoutReplaceHidden(m: seq<Document>, hidden: seq<Document>, d: Document)
    requires Has(hidden, d.id)
    ensures Without(Replace(m, d), hidden) == Without(m, hidden)
  {
    if m != [] {
      var init, last := m[..|m| - 1], m[|m| - 1];
      WithoutReplaceHidden(init, hidden, d);
    }
  }

  lemma {:induction false} WithoutSet(m: seq<Document>, hidden: seq<Document>, d: Document)
    ensures Without(Set(m, d), hidden)
         == if Has(hidden, d.id) then Without(m, hidden) else Set(Without(m, hidden), d)
  {
    HasWithout(m, hidden, d.id);
    if Has(hidden, d.id) {
      WithoutReplaceHidden(m, hidden, d);
    } else {
      WithoutReplaceVisible(m, hidden, d);
    }
  }

  lemma {:induction false} WithoutSame(m: seq<Document>, a: seq<Document>, b: seq<Document>)
    requires forall x :: Has(a, x) <==> Has(b, x)
    ensures Without(m, a) == Without(m, b)
  {
    if m != [] {
      WithoutSame(m[..|m| - 1], a, b);
    }
  }

  lemma {:induction false} WithoutTwice(m: seq<Document>, a: seq<Document>, b: seq<Document>)
    ensures Without(Without(m, a), b) == Without(m, a + b)
  {
    if m != [] {
      var init, d := m[..|m| - 1], m[|m| - 1];
      WithoutTwice(init, a, b);
      HasConcat(a, b, d.id);
    }
  }

  lemma {:induction false} WithoutNone(m: seq<Document>)
    ensures Without(m, []) == m
  {
    if m != [] {
      WithoutNone(m[..|m| - 1]);
    }
  }

  // ---- A document that is alive throughout ----

  /** The body a document has after the changes, if none of them deletes it. */
  function Settle(d: Document, chs: seq<Change>): Document {
    if chs == [] then d
    else
      var ch := chs[|chs| - 1];
      if ch.document.Some? && ch.document.value.id == d.id && !ch.operation.ChangeDelete? then ch.document.value
      else Settle(d, chs[..|chs| - 1])
  }

  predicate Spared(id: string, chs: seq<Change>) {
    forall i :: 0 <= i < |chs| && chs[i].id == id ==> !chs[i].operation.ChangeDelete?
  }

  function SettleAll(ds: seq<Document>, chs: seq<Change>): (r: seq<Document>)
    ensures |r| == |ds|
  {
    if ds == [] then [] else SettleAll(ds[..|ds| - 1], chs) + [Settle(ds[|ds| - 1], chs)]
  }

  lemma {:induction false} SettleId(d: Document, chs: seq<Change>)
    ensures Settle(d, chs).id == d.id
  {
    if chs != [] {
      SettleId(d, chs[..|chs| - 1]);
    }
  }

  lemma {:induction false} HasSettleAll(ds: seq<Document>, chs: seq<Change>, x: string)
    ensures Has(SettleAll(ds, chs), x) <==> Has(ds, x)
  {
    if ds != [] {
      var init, d := ds[..|ds| - 1], ds[|ds| - 1];
      HasSettleAll(init, chs, x);
      SettleId(d, chs);
      HasInit(ds, x);
      HasSnoc(SettleAll(init, chs), Settle(d, chs), x);
    }
  }

  lemma {:induction false} SettleAllSnoc(ds: seq<Document>, chs: seq<Change>, ch: Change)
    requires ch.document.Some? && !ch.operation.ChangeDelete?
    ensures SettleAll(ds, chs + [ch]) == Replace(SettleAll(ds, chs), ch.document.value)
  {
    if ds != [] {
      var init, d := ds[..|ds| - 1], ds[|ds| - 1];
      SettleAllSnoc(init, chs, ch);
      SettleId(d, chs);
      assert (chs + [ch])[..|chs + [ch]| - 1] == chs;
    }
  }

  lemma {:induction false} SettleAllOther(ds: seq<Document>, chs: seq<Change>, ch: Change)
    requires ch.document.None? || ch.operation.ChangeDelete?
    ensures SettleAll(ds, chs + [ch]) == SettleAll(ds, chs)
  {
    assert (chs + [ch])[..|chs + [ch]| - 1] == chs;
    if ds != [] {
      SettleAllOther(ds[..|ds| - 1], chs, ch);
    }
  }

  lemma {:induction false} SettleAllFixed(ds: seq<Document>, chs: seq<Change>)
    requires forall i :: 0 <= i < |ds| ==> Settle(ds[i], chs) == ds[i]
    ensures SettleAll(ds, chs) == ds
  {
    if ds != [] {
      SettleAllFixed(ds[..|ds| - 1], chs);
    }
  }

  // ---- Listing more documents before the same replay ----

  predicate NewToList(listed: seq<Document>, page: seq<Document>, chs: seq<Change>) {
    forall i :: 0 <= i < |page| ==> !Has(listed, page[i].id) && Spared(page[i].id, chs)
  }

  /** Listing a further page of documents that live on leaves them between the older listed ones and
      the later arrivals, with their latest bodies. */
  lemma {:induction false} SplitExtend(listed: seq<Document>, page: seq<Document>, chs: seq<Change>)
    requires NewToList(listed, page, chs)
    ensures var p, q := SplitReplay(listed, chs), SplitReplay(listed + page, chs);
            q.base == p.base + SettleAll(page, chs) && q.tail == Without(p.tail, page)
  {
    if chs == [] {
      SettleAllFixed(page, []);
    } else {
      var init, ch := chs[..|chs| - 1], chs[|chs| - 1];
      assert chs == init + [ch];
      assert NewToList(listed, page, init);
      SplitExtend(listed, page, init);
      SplitExtendStep(listed, page, init, ch);
    }
  }

  lemma {:induction false} SplitExtendStep(listed: seq<Document>, page: seq<Document>, chs: seq<Change>, ch: Change)
    requires NewToList(listed, page, chs + [ch])
    requires var p, q := SplitReplay(listed, chs), SplitReplay(listed + page, chs);
             q.base == p.base + SettleAll(page, chs) && q.tail == Without(p.tail, page)
    ensures var p, q := SplitApply(SplitReplay(listed, chs), ch), SplitApply(SplitReplay(listed + page, chs), ch);
            q.base == p.base + SettleAll(page, chs + [ch]) && q.tail == Without(p.tail, page)
  {
    var p, q := SplitReplay(listed, chs), SplitReplay(listed + page, chs);
    var settled := SettleAll(page, chs);
    if ch.operation.ChangeDelete? {
      assert !Has(page, ch.id) by {
        assert (chs + [ch])[|chs|] == ch;
      }
      RemoveConcat(p.base, settled, ch.id);
      HasSettleAll(page, chs, ch.id);
      RemoveAbsent(settled, ch.id);
      SettleAllOther(page, chs, ch);
      WithoutRemove(p.tail, page, page, ch.id);
    } else if ch.document.None? {
      SettleAllOther(page, chs, ch);
    } else {
      var d := ch.document.value;
      SettleAllSnoc(page, chs, ch);
      HasSettleAll(page, chs, d.id);
      HasConcat(p.base, settled, d.id);
      ReplaceConcat(p.base, settled, d);
      WithoutSet(p.tail, page, d);
      if Has(page, d.id) {
        BaseMissesPage(listed, page, chs, d.id);
        ReplaceAbsent(p.base, d);
      } else {
        ReplaceAbsent(settled, d);
      }
    }
  }

  lemma {:induction false} BaseMissesPage(listed: seq<Document>, page: seq<Document>, chs: seq<Change>, id: string)
    requires Has(page, id) && forall i :: 0 <= i < |page| ==> !Has(listed, page[i].id)
    ensures !Has(SplitReplay(listed, chs).base, id)
  {
    var i :| 0 <= i < |page| && page[i].id == id;
    if Has(SplitReplay(listed, chs).base, id) {
      SplitBaseListed(listed, chs, id);
    }
  }

  // ---- The state of a listing ----

  /** Documents listed so far, up to `created_sequence` s of watermark w, and the changes since w that
      concern the collection, against the table as it is now:
      - what replay leaves of the listed documents is the table up to s, in order;
      - what replay appends is the table beyond w, in order, once documents still to be listed are left out;
      - documents still to be listed were never listed, never deleted since w, and hold their latest body. */
  ghost predicate Fuzzy(
    listed: seq<Document>, w: nat, s: nat, rows: seq<Row>, last: nat, chs: seq<Change>, c: string)
  {
    && s <= w <= last
    && SplitReplay(listed, chs).base == Range(rows, c, 0, s)
    && Without(SplitReplay(listed, chs).tail, Range(rows, c, s, w)) == Range(rows, c, w, last)
    && AllPending(listed, w, s, rows, chs, c)
  }

  predicate AllPending(listed: seq<Document>, w: nat, s: nat, rows: seq<Row>, chs: seq<Change>, c: string) {
    forall r :: r in rows && r.collection == c && s < r.createdSequence <= w ==> Pending(r.doc, listed, chs)
  }

  predicate Pending(d: Document, listed: seq<Document>, chs: seq<Change>) {
    !Has(listed, d.id) && Spared(d.id, chs) && Settle(d, chs) == d
  }

  lemma {:induction false} FuzzyStart(rows: seq<Row>, last: nat, c: string)
    requires Sorted(rows, last)
    ensures Fuzzy([], last, 0, rows, last, [], c)
  {
    RangeEmpty(rows, c, 0, 0);
    RangeEmpty(rows, c, last, last);
  }

  /** Once the listing has reached its watermark, replay gives the collection. */
  lemma {:induction false} FuzzyDone(
    listed: seq<Document>, w: nat, rows: seq<Row>, last: nat, chs: seq<Change>, c: string)
    requires Sorted(rows, last) && Fuzzy(listed, w, w, rows, last, chs, c)
    ensures Replay(listed, chs) == Project(rows, c)
  {
    SplitReplayIsReplay(listed, chs);
    RangeEmpty(rows, c, w, w);
    WithoutNone(SplitReplay(listed, chs).tail);
    RangeSplit(rows, c, 0, w, last, last);
    ProjectIsRange(rows, c, last);
  }

  lemma {:induction false} RangeMember(rows: seq<Row>, c: string, lo: nat, hi: nat, d: Document)
    requires d in Range(rows, c, lo, hi)
    ensures exists r :: r in rows && r.collection == c && lo < r.createdSequence <= hi && r.doc == d
  {
    var init, row := rows[..|rows| - 1], rows[|rows| - 1];
    assert rows == init + [row];
    if d in Range(init, c, lo, hi) {
      RangeMember(init, c, lo, hi, d);
    } else {
      assert row in rows;
    }
  }

  /** Reading one more page, at whatever moment. */
  lemma {:induction false} FuzzyPage(
    listed: seq<Document>, w: nat, s: nat, s': nat, rows: seq<Row>, last: nat, chs: seq<Change>, c: string)
    requires Sorted(rows, last) && UniqueKeys(rows)
    requires Fuzzy(listed, w, s, rows, last, chs, c) && s <= s' <= w
    ensures Fuzzy(listed + Range(rows, c, s, s'), w, s', rows, last, chs, c)
  {
    var page := Range(rows, c, s, s');
    forall i | 0 <= i < |page| ensures Pending(page[i], listed, chs) {
      RangeMember(rows, c, s, s', page[i]);
    }
    SplitExtend(listed, page, chs);
    SettleAllFixed(page, chs);
    RangeSplit(rows, c, 0, s, s', last);
    RangeSplit(rows, c, s, s', w, last);
    WithoutTwice(SplitReplay(listed, chs).tail, page, Range(rows, c, s', w));
    forall r | r in rows && r.collection == c && s' < r.createdSequence <= w
      ensures Pending(r.doc, listed + page, chs)
    {
      NotInPage(rows, c, s, s', r);
      HasConcat(listed, page, r.doc.id);
    }
  }

  predicate DistinctIds(m: seq<Document>) {
    forall i, j :: 0 <= i < j < |m| ==> m[i].id != m[j].id
  }

  lemma {:induction false} RangeDistinct(rows: seq<Row>, c: string, lo: nat, hi: nat)
    requires UniqueKeys(rows)
    ensures DistinctIds(Range(rows, c, lo, hi))
  {
    if rows != [] {
      var init, row := rows[..|rows| - 1], rows[|rows| - 1];
      RangeDistinct(init, c, lo, hi);
      var ds := Range(init, c, lo, hi);
      RangeHas(init, c, lo, hi, row.doc.id);
      forall r | r in init ensures !Keyed(row, r.collection, r.doc.id) {
        var i :| 0 <= i < |init| && init[i] == r;
        assert rows[i] == r && rows[|rows| - 1] == row;
      }
      assert row.collection == c ==> !Has(ds, row.doc.id);
    }
  }

  lemma {:induction false} NotInPage(rows: seq<Row>, c: string, lo: nat, hi: nat, r: Row)
    requires UniqueKeys(rows) && r in rows && r.collection == c && !(lo < r.createdSequence <= hi)
    ensures !Has(Range(rows, c, lo, hi), r.doc.id)
  {
    RangeHas(rows, c, lo, hi, r.doc.id);
    if Has(Range(rows, c, lo, hi), r.doc.id) {
      var o :| o in rows && Keyed(o, c, r.doc.id) && lo < o.createdSequence <= hi;
      SameRow(rows, r, o);
    }
  }

  lemma {:induction false} SameRow(rows: seq<Row>, r: Row, o: Row)
    requires UniqueKeys(rows) && r in rows && o in rows && Keyed(o, r.collection, r.doc.id)
    ensures r == o
  {
    var i :| 0 <= i < |rows| && rows[i] == r;
    var j :| 0 <= j < |rows| && rows[j] == o;
  }

  // ---- A committed change in the middle of a listing ----

  lemma {:induction false} RangeTop(rows: seq<Row>, c: string, w: nat, last: nat)
    requires Sorted(rows, last) && w <= last
    ensures Range(rows, c, w, last + 1) == Range(rows, c, w, last)
  {
    RangeSplit(rows, c, w, last, last + 1, last);
    RangeEmpty(rows, c, last, last + 1);
    assert Range(rows, c, w, last) + [] == Range(rows, c, w, last);
  }

  lemma {:induction false} FuzzyOther(
    listed: seq<Document>, w: nat, s: nat, rows: seq<Row>, last: nat, chs: seq<Change>, c: string, ch: Change)
    requires Sorted(rows, last) && Legal(rows, ch) && ch.sequence == last + 1 && ch.collection != c
    requires Fuzzy(listed, w, s, rows, last, chs, c)
    ensures Fuzzy(listed, w, s, ApplyRow(rows, ch), last + 1, chs, c)
  {
    RangeTop(rows, c, w, last);
    OtherRange(rows, ch, c, 0, s);
    OtherRange(rows, ch, c, s, w);
    OtherRange(rows, ch, c, w, last + 1);
    forall r | r in ApplyRow(rows, ch) && r.collection == c && s < r.createdSequence <= w
      ensures Pending(r.doc, listed, chs)
    {
      ApplyRowMember(rows, ch, r);
    }
  }

  lemma {:induction false} OtherRange(rows: seq<Row>, ch: Change, c: string, lo: nat, hi: nat)
    requires Legal(rows, ch) && ch.collection != c
    ensures Range(ApplyRow(rows, ch), c, lo, hi) == Range(rows, c, lo, hi)
  {
    match ch.operation
    case ChangeDelete => RangeRemove(rows, ch.collection, ch.id, c, lo, hi);
    case ChangeUpdate => RangeReplace(rows, ch.collection, ch.document.value, c, lo, hi);
    case ChangeCreate => RangeAppend(rows, Row(ch.collection, ch.document.value, ch.sequence), c, lo, hi);
  }

  lemma {:induction false} FuzzyDelete(
    listed: seq<Document>, w: nat, s: nat, rows: seq<Row>, last: nat, chs: seq<Change>, c: string, ch: Change)
    requires Sorted(rows, last) && Legal(rows, ch) && ch.collection == c && ch.operation.ChangeDelete?
    requires Fuzzy(listed, w, s, rows, last, chs, c)
    ensures Fuzzy(listed, w, s, ApplyRow(rows, ch), last + 1, chs + [ch], c)
  {
    var p := SplitReplay(listed, chs);
    DeleteRanges(rows, c, s, w, last, ch.id);
    WithoutBothRemoved(p.tail, Range(rows, c, s, w), ch.id);
    PendingDelete(listed, w, s, rows, chs, c, ch);
  }

  lemma {:induction false} DeleteRanges(rows: seq<Row>, c: string, s: nat, w: nat, last: nat, id: string)
    requires Sorted(rows, last) && w <= last
    ensures Range(RowRemove(rows, c, id), c, 0, s) == Remove(Range(rows, c, 0, s), id)
    ensures Range(RowRemove(rows, c, id), c, s, w) == Remove(Range(rows, c, s, w), id)
    ensures Range(RowRemove(rows, c, id), c, w, last + 1) == Remove(Range(rows, c, w, last), id)
  {
    RangeTop(rows, c, w, last);
    RangeRemove(rows, c, id, c, 0, s);
    RangeRemove(rows, c, id, c, s, w);
    RangeRemove(rows, c, id, c, w, last + 1);
  }

  lemma {:induction false} WithoutBothRemoved(m: seq<Document>, hidden: seq<Document>, id: string)
    ensures Without(Remove(m, id), Remove(hidden, id)) == Remove(Without(m, hidden), id)
  {
    forall x ensures Has(Remove(hidden, id), x) <==> Has(hidden, x) && x != id {
      HasRemove(hidden, id, x);
    }
    WithoutRemove(m, hidden, Remove(hidden, id), id);
  }

  lemma {:induction false} PendingDelete(
    listed: seq<Document>, w: nat, s: nat, rows: seq<Row>, chs: seq<Change>, c: string, ch: Change)
    requires WellFormed(ch) && ch.collection == c && ch.operation.ChangeDelete?
    requires AllPending(listed, w, s, rows, chs, c)
    ensures AllPending(listed, w, s, RowRemove(rows, c, ch.id), chs + [ch], c)
  {
    forall r | r in RowRemove(rows, c, ch.id) && r.collection == c && s < r.createdSequence <= w
      ensures Pending(r.doc, listed, chs + [ch])
    {
      RemoveRowMember(rows, c, ch.id, r);
      PendingSnoc(r.doc, listed, chs, ch);
    }
  }

  lemma {:induction false} PendingSnoc(d: Document, listed: seq<Document>, chs: seq<Change>, ch: Change)
    requires Pending(d, listed, chs) && WellFormed(ch)
    requires ch.id == d.id ==> ch.document == Some(d)
    ensures Pending(d, listed, chs + [ch])
  {
    assert (chs + [ch])[..|chs + [ch]| - 1] == chs;
  }

  lemma {:induction false} FuzzyCreate(
    listed: seq<Document>, w: nat, s: nat, rows: seq<Row>, last: nat, chs: seq<Change>, c: string, ch: Change)
    requires Sorted(rows, last) && Legal(rows, ch) && ch.collection == c && ch.operation.ChangeCreate?
    requires ch.sequence == last + 1 && Fuzzy(listed, w, s, rows, last, chs, c)
    ensures Fuzzy(listed, w, s, ApplyRow(rows, ch), last + 1, chs + [ch], c)
  {
    var p, d := SplitReplay(listed, chs), ch.document.value;
    var row := Row(c, d, ch.sequence);
    RangeTop(rows, c, w, last);
    RangeAppend(rows, row, c, 0, s);
    RangeAppend(rows, row, c, s, w);
    RangeAppend(rows, row, c, w, last + 1);
    AbsentRange(rows, c, 0, s, d.id);
    AbsentRange(rows, c, s, w, d.id);
    AbsentRange(rows, c, w, last, d.id);
    WithoutSet(p.tail, Range(rows, c, s, w), d);
    forall r | r in rows + [row] && r.collection == c && s < r.createdSequence <= w
      ensures Pending(r.doc, listed, chs + [ch])
    {
      PendingSnoc(r.doc, listed, chs, ch);
    }
  }

  lemma {:induction false} AbsentRange(rows: seq<Row>, c: string, lo: nat, hi: nat, id: string)
    requires !HasRow(rows, c, id)
    ensures !Has(Range(rows, c, lo, hi), id)
  {
    RangeHas(rows, c, lo, hi, id);
  }

  lemma {:induction false} FuzzyUpdate(
    listed: seq<Document>, w: nat, s: nat, rows: seq<Row>, last: nat, chs: seq<Change>, c: string, ch: Change)
    requires Sorted(rows, last) && UniqueKeys(rows) && Legal(rows, ch)
    requires ch.collection == c && ch.operation.ChangeUpdate? && Fuzzy(listed, w, s, rows, last, chs, c)
    ensures Fuzzy(listed, w, s, ApplyRow(rows, ch), last + 1, chs + [ch], c)
  {
    var p, d := SplitReplay(listed, chs), ch.document.value;
    UpdateRanges(rows, c, s, w, last, d);
    UpdateWithout(rows, c, s, w, last, p, ch);
    PendingUpdate(listed, w, s, rows, chs, c, ch);
  }

  lemma {:induction false} UpdateRanges(rows: seq<Row>, c: string, s: nat, w: nat, last: nat, d: Document)
    requires Sorted(rows, last) && w <= last
    ensures Range(RowReplace(rows, c, d), c, 0, s) == Replace(Range(rows, c, 0, s), d)
    ensures Range(RowReplace(rows, c, d), c, s, w) == Replace(Range(rows, c, s, w), d)
    ensures Range(RowReplace(rows, c, d), c, w, last + 1) == Replace(Range(rows, c, w, last), d)
  {
    RangeTop(rows, c, w, last);
    RangeReplace(rows, c, d, c, 0, s);
    RangeReplace(rows, c, d, c, s, w);
    RangeReplace(rows, c, d, c, w, last + 1);
  }

  lemma {:induction false} PendingUpdate(
    listed: seq<Document>, w: nat, s: nat, rows: seq<Row>, chs: seq<Change>, c: string, ch: Change)
    requires Legal(rows, ch) && ch.collection == c && ch.operation.ChangeUpdate?
    requires AllPending(listed, w, s, rows, chs, c)
    ensures AllPending(listed, w, s, ApplyRow(rows, ch), chs + [ch], c)
  {
    assert (chs + [ch])[..|chs + [ch]| - 1] == chs;
    forall r | r in ApplyRow(rows, ch) && r.collection == c && s < r.createdSequence <= w
      ensures Pending(r.doc, listed, chs + [ch])
    {
      ApplyRowMember(rows, ch, r);
    }
  }

  lemma {:induction false} UpdateWithout(
    rows: seq<Row>, c: string, s: nat, w: nat, last: nat, p: Split, ch: Change)
    requires UniqueKeys(rows) && Sorted(rows, last) && Legal(rows, ch) && s <= w <= last
    requires ch.collection == c && ch.operation.ChangeUpdate?
    requires p.base == Range(rows, c, 0, s)
    requires Without(p.tail, Range(rows, c, s, w)) == Range(rows, c, w, last)
    ensures var q, d := SplitApply(p, ch), ch.document.value;
            && q.base == Replace(p.base, d)
            && Without(q.tail, Replace(Range(rows, c, s, w), d)) == Replace(Range(rows, c, w, last), d)
  {
    var d := ch.document.value;
    var i :| 0 <= i < |rows| && Keyed(rows[i], c, d.id);
    var r, hidden := rows[i], Range(rows, c, s, w);
    InRange(rows, c, 0, s, r);
    InRange(rows, c, s, w, r);
    InRange(rows, c, w, last, r);
    forall x ensures Has(Replace(hidden, d), x) <==> Has(hidden, x) {
      HasReplace(hidden, d, x);
    }
    WithoutSame(p.tail, hidden, Replace(hidden, d));
    WithoutSame(Set(p.tail, d), hidden, Replace(hidden, d));
    WithoutSet(p.tail, hidden, d);
    if r.createdSequence <= w {
      ReplaceAbsent(Range(rows, c, w, last), d);
    }
    if r.createdSequence > s {
      ReplaceAbsent(p.base, d);
    }
  }

  lemma {:induction false} InRange(rows: seq<Row>, c: string, lo: nat, hi: nat, r: Row)
    requires UniqueKeys(rows) && r in rows && r.collection == c
    ensures Has(Range(rows, c, lo, hi), r.doc.id) <==> lo < r.createdSequence <= hi
  {
    RangeHas(rows, c, lo, hi, r.doc.id);
    if !(lo < r.createdSequence <= hi) {
      NotInPage(rows, c, lo, hi, r);
    }
  }

  /** Any committed change, in any collection, in the middle of a listing. */
  lemma {:induction false} FuzzyChange(
    listed: seq<Document>, w: nat, s: nat, rows: seq<Row>, last: nat, chs: seq<Change>, c: string, ch: Change)
    requires Sorted(rows, last) && UniqueKeys(rows) && Legal(rows, ch) && ch.sequence == last + 1
    requires Fuzzy(listed, w, s, rows, last, chs, c)
    ensures Fuzzy(listed, w, s, ApplyRow(rows, ch), last + 1, if ch.collection == c then chs + [ch] else chs, c)
  {
    if ch.collection != c {
      FuzzyOther(listed, w, s, rows, last, chs, c, ch);
    } else {
      match ch.operation
      case ChangeDelete => FuzzyDelete(listed, w, s, rows, last, chs, c, ch);
      case ChangeUpdate => FuzzyUpdate(listed, w, s, rows, last, chs, c, ch);
      case ChangeCreate => FuzzyCreate(listed, w, s, rows, last, chs, c, ch);
    }
  }
}
