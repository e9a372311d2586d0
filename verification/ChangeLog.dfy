/** The values that travel through replication: documents, changes, and the ordered document map
    that a browser keeps. The map is a JavaScript `Map`: setting a present key keeps its place,
    setting an absent key appends, and deleting closes the gap. */
module ChangeLog {
  import opened Wrappers

  // JSON bodies are opaque; only their length is ever inspected.
  type Bytes = seq<bv8>

  // Times are milliseconds, the unit in which the tables hold them.
  datatype Document = Document(id: string, revision: string, data: Bytes, createdAt: int, updatedAt: int)

  datatype Operation = ChangeCreate | ChangeUpdate | ChangeDelete

  datatype Change = Change(
    sequence: nat, collection: string, operation: Operation,
    id: string, revision: string, document: Option<Document>)

  predicate WellFormed(ch: Change) {
    && (ch.operation.ChangeDelete? <==> ch.document.None?)
    && (ch.document.Some? ==> ch.document.value.id == ch.id && ch.document.value.revision == ch.revision)
  }

  // ---- The ordered document map ----

  predicate Has(m: seq<Document>, id: string) {
    exists i :: 0 <= i < |m| && m[i].id == id
  }

  function Remove(m: seq<Document>, id: string): seq<Document> {
    if m == [] then []
    else
      var rest := Remove(m[..|m| - 1], id);
      var d := m[|m| - 1];
      if d.id == id then rest else rest + [d]
  }

  function Replace(m: seq<Document>, d: Document): seq<Document> {
    if m == [] then []
    else
      var last := m[|m| - 1];
      Replace(m[..|m| - 1], d) + [if last.id == d.id then d else last]
  }

  function Set(m: seq<Document>, d: Document): seq<Document> {
    if Has(m, d.id) then Replace(m, d) else m + [d]
  }

  /** What one change event does to the browser's map. */
  function Apply(m: seq<Document>, ch: Change): seq<Document> {
    if ch.operation.ChangeDelete? then Remove(m, ch.id)
    else if ch.document.Some? then Set(m, ch.document.value)
    else m
  }

  function Replay(m: seq<Document>, chs: seq<Change>): seq<Document> {
    if chs == [] then m
    else Apply(Replay(m, chs[..|chs| - 1]), chs[|chs| - 1])
  }

  /** The changes a reader of `collections` is interested in, in log order. */
  function Wanted(chs: seq<Change>, collections: set<string>): seq<Change> {
    if chs == [] then []
    else
      var rest := Wanted(chs[..|chs| - 1], collections);
      var ch := chs[|chs| - 1];
      if ch.collection in collections then rest + [ch] else rest
  }

  // ---- Laws of the ordered map ----

  lemma {:induction false} HasSnoc(m: seq<Document>, d: Document, id: string)
    ensures Has(m + [d], id) <==> Has(m, id) || d.id == id
  {
    if Has(m, id) {
      var i :| 0 <= i < |m| && m[i].id == id;
      assert (m + [d])[i].id == id;
    }
    if d.id == id {
      assert (m + [d])[|m|].id == id;
    }
  }

  lemma {:induction false} HasConcat(a: seq<Document>, b: seq<Document>, id: string)
    ensures Has(a + b, id) <==> Has(a, id) || Has(b, id)
  {
    if Has(a, id) {
      var i :| 0 <= i < |a| && a[i].id == id;
      assert (a + b)[i].id == id;
    }
    if Has(b, id) {
      var i :| 0 <= i < |b| && b[i].id == id;
      assert (a + b)[|a| + i].id == id;
    }
  }

  lemma {:induction false} RemoveConcat(a: seq<Document>, b: seq<Document>, id: string)
    ensures Remove(a + b, id) == Remove(a, id) + Remove(b, id)
  {
    if b == [] {
      assert a + b == a;
    } else {
      assert (a + b)[..|a + b| - 1] == a + b[..|b| - 1];
      RemoveConcat(a, b[..|b| - 1], id);
    }
  }

  lemma {:induction false} ReplaceConcat(a: seq<Document>, b: seq<Document>, d: Document)
    ensures Replace(a + b, d) == Replace(a, d) + Replace(b, d)
  {
    if b == [] {
      assert a + b == a;
    } else {
      assert (a + b)[..|a + b| - 1] == a + b[..|b| - 1];
      ReplaceConcat(a, b[..|b| - 1], d);
    }
  }

  lemma {:induction false} HasInit(m: seq<Document>, id: string)
    requires m != []
    ensures Has(m, id) <==> Has(m[..|m| - 1], id) || m[|m| - 1].id == id
  {
    assert m == m[..|m| - 1] + [m[|m| - 1]];
    HasSnoc(m[..|m| - 1], m[|m| - 1], id);
  }

  lemma {:induction false} RemoveAbsent(m: seq<Document>, id: string)
    requires !Has(m, id)
    ensures Remove(m, id) == m
  {
    if m != [] {
      HasInit(m, id);
      RemoveAbsent(m[..|m| - 1], id);
    }
  }

  lemma {:induction false} ReplaceAbsent(m: seq<Document>, d: Document)
    requires !Has(m, d.id)
    ensures Replace(m, d) == m
  {
    if m != [] {
      HasInit(m, d.id);
      ReplaceAbsent(m[..|m| - 1], d);
    }
  }

  lemma {:induction false} HasRemove(m: seq<Document>, id: string, x: string)
    ensures Has(Remove(m, id), x) <==> Has(m, x) && x != id
  {
    if m != [] {
      HasInit(m, x);
      HasRemove(m[..|m| - 1], id, x);
      HasSnoc(Remove(m[..|m| - 1], id), m[|m| - 1], x);
    }
  }

  lemma {:induction false} HasReplace(m: seq<Document>, d: Document, x: string)
    ensures Has(Replace(m, d), x) <==> Has(m, x)
  {
    if m != [] {
      HasInit(m, x);
      HasReplace(m[..|m| - 1], d, x);
      HasSnoc(Replace(m[..|m| - 1], d), if m[|m| - 1].id == d.id then d else m[|m| - 1], x);
    }
  }

  // ---- Laws of replay and of filtering ----

  lemma {:induction false} ReplayConcat(m: seq<Document>, a: seq<Change>, b: seq<Change>)
    ensures Replay(m, a + b) == Replay(Replay(m, a), b)
  {
    if b == [] {
      assert a + b == a;
    } else {
      assert (a + b)[..|a + b| - 1] == a + b[..|b| - 1];
      ReplayConcat(m, a, b[..|b| - 1]);
    }
  }

  lemma {:induction false} WantedConcat(a: seq<Change>, b: seq<Change>, collections: set<string>)
    ensures Wanted(a + b, collections) == Wanted(a, collections) + Wanted(b, collections)
  {
    if b == [] {
      assert a + b == a;
    } else {
      assert (a + b)[..|a + b| - 1] == a + b[..|b| - 1];
      WantedConcat(a, b[..|b| - 1], collections);
    }
  }

  lemma {:induction false} WantedMember(chs: seq<Change>, collections: set<string>, ch: Change)
    ensures ch in Wanted(chs, collections) <==> ch in chs && ch.collection in collections
  {
    if chs != [] {
      WantedMember(chs[..|chs| - 1], collections, ch);
      assert chs == chs[..|chs| - 1] + [chs[|chs| - 1]];
    }
  }
}
