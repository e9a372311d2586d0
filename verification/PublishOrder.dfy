/** What publishing out of commit order does to a stream: exactly which events are lost, and a run that loses one. */
module PublishOrder {
  import opened Wrappers
  import opened ChangeLog
  import DocumentTable
  import opened DocumentStore
  import opened StoreHistory
  import RetainedLog
  import opened ChangeStream
  import Hub = ChangeHub
  import Browser = BrowserClient

  // ---- Exactly when a batch of live events is written whole ----

  /** The readable events above `last`, in order of arrival. */
  function Past(last: nat, chs: seq<Change>, denied: set<nat>): seq<Change> {
    if chs == [] then []
    else
      var rest := Past(last, chs[..|chs| - 1], denied);
      var ch := chs[|chs| - 1];
      if ch.sequence > last && ch.sequence !in denied then rest + [ch] else rest
  }

  /** No readable event above `last` arrives after one with the same or a higher sequence. */
  predicate InTurn(last: nat, chs: seq<Change>, denied: set<nat>) {
    forall i, j :: 0 <= i < j < |chs| && chs[j].sequence > last && chs[j].sequence !in denied ==>
      chs[i].sequence < chs[j].sequence
  }

  function Highest(last: nat, chs: seq<Change>): nat {
    if chs == [] then last
    else
      var rest := Highest(last, chs[..|chs| - 1]);
      if chs[|chs| - 1].sequence > rest then chs[|chs| - 1].sequence else rest
  }

  lemma {:induction false} HighestIsMax(last: nat, chs: seq<Change>)
    ensures Highest(last, chs) >= last
    ensures forall i :: 0 <= i < |chs| ==> chs[i].sequence <= Highest(last, chs)
    ensures Highest(last, chs) == last || exists i :: 0 <= i < |chs| && chs[i].sequence == Highest(last, chs)
  {
    if chs != [] {
      HighestIsMax(last, chs[..|chs| - 1]);
    }
  }

  lemma {:induction false} WriteAllHighest(s: Stream, chs: seq<Change>)
    ensures WriteAll(s, chs) == s.(written := WriteAll(s, chs).written, lastSequence := Highest(s.lastSequence, chs))
  {
    if chs != [] {
      WriteAllHighest(s, chs[..|chs| - 1]);
    }
  }

  /** Why publishing order matters. A repeat of something the backlog has covered does no harm, and neither
      does a withheld change out of turn. A readable event after a later one is dropped, and only that is. */
  lemma {:induction false} WrittenWholeIffInTurn(s: Stream, chs: seq<Change>)
    ensures WriteAll(s, chs).written == s.written + Past(s.lastSequence, chs, s.denied)
       <==> InTurn(s.lastSequence, chs, s.denied)
    ensures |WriteAll(s, chs).written| <= |s.written + Past(s.lastSequence, chs, s.denied)|
  {
    if chs == [] {
      assert s.written + [] == s.written;
    } else {
      var init, ch := chs[..|chs| - 1], chs[|chs| - 1];
      WrittenWholeIffInTurn(s, init);
      WriteAllHighest(s, init);
      HighestIsMax(s.lastSequence, init);
      InTurnSnoc(s.lastSequence, chs, s.denied);
      AppendSame(WriteAll(s, init).written, s.written + Past(s.lastSequence, init, s.denied), ch);
      assert s.written + Past(s.lastSequence, init, s.denied) + [ch]
          == s.written + (Past(s.lastSequence, init, s.denied) + [ch]);
    }
  }

  lemma {:induction false} AppendSame(a: seq<Change>, b: seq<Change>, ch: Change)
    ensures a + [ch] == b + [ch] <==> a == b
  {
    if a + [ch] == b + [ch] {
      assert a == (a + [ch])[..|a|] && b == (b + [ch])[..|b|];
    }
  }

  lemma {:induction false} InTurnSnoc(last: nat, chs: seq<Change>, denied: set<nat>)
    requires chs != []
    ensures var init, ch := chs[..|chs| - 1], chs[|chs| - 1];
            InTurn(last, chs, denied) <==>
              && InTurn(last, init, denied)
              && (ch.sequence > last && ch.sequence !in denied ==> ch.sequence > Highest(last, init))
  {
    var init, ch := chs[..|chs| - 1], chs[|chs| - 1];
    HighestIsMax(last, init);
    if InTurn(last, chs, denied) {
      forall i, j | 0 <= i < j < |init| && init[j].sequence > last && init[j].sequence !in denied
        ensures init[i].sequence < init[j].sequence
      {
        assert chs[i] == init[i] && chs[j] == init[j];
      }
      if Highest(last, init) > last {
        var i :| 0 <= i < |init| && init[i].sequence == Highest(last, init);
        assert chs[i] == init[i] && chs[|init|] == ch;
      }
    }
  }

  // ---- Exactly when live events leave a gap, in whatever order they are published ----

  /** The event arrives, and before every event with the same or a higher sequence. */
  predicate FirstOfItsRank(chs: seq<Change>, ch: Change) {
    exists j :: 0 <= j < |chs| && chs[j] == ch && forall i :: 0 <= i < j ==> chs[i].sequence < ch.sequence
  }

  function Bare(s: Stream): Stream {
    s.(written := [])
  }

  lemma {:induction false} WriteAllBare(s: Stream, chs: seq<Change>)
    ensures WriteAll(s, chs).written == s.written + WriteAll(Bare(s), chs).written
    ensures WriteAll(s, chs).lastSequence == WriteAll(Bare(s), chs).lastSequence
  {
    if chs != [] {
      WriteAllBare(s, chs[..|chs| - 1]);
      WriteAllHighest(s, chs[..|chs| - 1]);
      WriteAllHighest(Bare(s), chs[..|chs| - 1]);
    }
  }

  lemma {:induction false} FirstSnoc(chs: seq<Change>, ch: Change, last: nat)
    requires chs != [] && ch.sequence > last
    ensures var init, new' := chs[..|chs| - 1], chs[|chs| - 1];
            FirstOfItsRank(chs, ch) <==>
              FirstOfItsRank(init, ch) || (new' == ch && ch.sequence > Highest(last, init))
  {
    var init, new' := chs[..|chs| - 1], chs[|chs| - 1];
    HighestIsMax(last, init);
    assert forall i :: 0 <= i < |init| ==> chs[i] == init[i];
    if FirstOfItsRank(chs, ch) {
      var j :| 0 <= j < |chs| && chs[j] == ch && forall i :: 0 <= i < j ==> chs[i].sequence < ch.sequence;
      if j < |init| {
        assert init[j] == ch;
      }
    }
    if FirstOfItsRank(init, ch) {
      var j :| 0 <= j < |init| && init[j] == ch && forall i :: 0 <= i < j ==> init[i].sequence < ch.sequence;
      assert chs[j] == ch;
    }
    if new' == ch && ch.sequence > Highest(last, init) {
      assert chs[|init|] == ch;
    }
  }

  /** What a batch adds to the stream: the readable events above the cursor that are first of their rank. */
  lemma {:induction false} WrittenMember(s: Stream, chs: seq<Change>, ch: Change)
    ensures ch in WriteAll(Bare(s), chs).written <==>
              ch.sequence > s.lastSequence && ch.sequence !in s.denied && FirstOfItsRank(chs, ch)
  {
    if chs != [] {
      var init := chs[..|chs| - 1];
      WrittenMember(s, init, ch);
      WriteAllHighest(Bare(s), init);
      HighestIsMax(s.lastSequence, init);
      if ch.sequence > s.lastSequence {
        FirstSnoc(chs, ch, s.lastSequence);
      }
    }
  }

  predicate Rising(chs: seq<Change>) {
    forall i, j :: 0 <= i < j < |chs| ==> chs[i].sequence < chs[j].sequence
  }

  /** Two rising sequences with the same members are the same. */
  lemma {:induction false} SameMembers(a: seq<Change>, b: seq<Change>)
    requires Rising(a) && Rising(b) && forall ch :: ch in a <==> ch in b
    ensures a == b
  {
    if a != [] {
      assert a[0] in b;
    }
    if b != [] {
      assert b[0] in a;
      assert a != [];
      var x, y := a[|a| - 1], b[|b| - 1];
      assert x in b && y in a;
      assert x == y;
      var a', b' := a[..|a| - 1], b[..|b| - 1];
      forall ch ensures ch in a' <==> ch in b' {
        MemberInit(a, ch);
        MemberInit(b, ch);
      }
      SameMembers(a', b');
    }
  }

  lemma {:induction false} MemberInit(a: seq<Change>, ch: Change)
    requires a != [] && Rising(a)
    ensures ch in a[..|a| - 1] <==> ch in a && ch != a[|a| - 1]
  {
  }

  predicate Owed(s: Stream, ch: Change) {
    ch.collection in s.collections && ch.sequence !in s.denied
  }

  lemma {:induction false} ShownMember(s: Stream, history: seq<Change>, lo: nat, hi: nat, ch: Change)
    requires Sequenced(history) && lo <= hi <= |history|
    ensures ch in Shown(history[lo..hi], s.collections, s.denied) <==>
              Owed(s, ch) && lo < ch.sequence <= hi && history[ch.sequence - 1] == ch
    decreases hi
  {
    if lo < hi {
      assert history[lo..hi][..hi - 1 - lo] == history[lo..hi - 1];
      ShownMember(s, history, lo, hi - 1, ch);
    }
  }

  lemma {:induction false} ShownRising(s: Stream, history: seq<Change>, lo: nat, hi: nat)
    requires Sequenced(history) && lo <= hi <= |history|
    ensures Rising(Shown(history[lo..hi], s.collections, s.denied))
    decreases hi
  {
    if lo < hi {
      var init := Shown(history[lo..hi - 1], s.collections, s.denied);
      assert history[lo..hi][..hi - 1 - lo] == history[lo..hi - 1];
      ShownRising(s, history, lo, hi - 1);
      forall i | 0 <= i < |init| ensures init[i].sequence < hi {
        ShownMember(s, history, lo, hi - 1, init[i]);
      }
    }
  }

  /** Events are committed changes of the subscribed collections. */
  predicate FromHistory(s: Stream, chs: seq<Change>, history: seq<Change>) {
    forall i :: 0 <= i < |chs| ==>
      0 < chs[i].sequence <= |history| && history[chs[i].sequence - 1] == chs[i] && chs[i].collection in s.collections
  }

  /** Every change owed between the last sequence and the highest event arrives, before any later one. */
  predicate EachInTurn(s: Stream, chs: seq<Change>, history: seq<Change>) {
    forall k :: s.lastSequence <= k < |history| && history[k].sequence <= Highest(s.lastSequence, chs) ==>
      Owed(s, history[k]) ==> FirstOfItsRank(chs, history[k])
  }

  /** Whatever order and whatever part of the committed changes a following stream is given: there is no gap
      below its last sequence if and only if every change owed up to there arrives, before any later one. */
  lemma {:induction false} GapFreeIff(s: Stream, chs: seq<Change>, history: seq<Change>, origin: nat)
    requires Sequenced(history) && WrittenUpTo(s, history, origin) && FromHistory(s, chs, history)
    ensures WrittenUpTo(WriteAll(s, chs), history, origin) <==> EachInTurn(s, chs, history)
  {
    GapFreeAdded(s, chs, history, origin);
    if EachInTurn(s, chs, history) {
      InTurnSuffices(s, chs, history);
    }
    if WriteAll(Bare(s), chs).written == ShownTo(s, history, Highest(s.lastSequence, chs)) {
      InTurnNeeded(s, chs, history);
    }
  }

  /** What the stream owes between its last sequence and `top`. */
  function ShownTo(s: Stream, history: seq<Change>, top: nat): seq<Change>
    requires s.lastSequence <= top <= |history|
  {
    Shown(history[s.lastSequence..top], s.collections, s.denied)
  }

  lemma {:induction false} InTurnSuffices(s: Stream, chs: seq<Change>, history: seq<Change>)
    requires Sequenced(history) && FromHistory(s, chs, history) && EachInTurn(s, chs, history)
    requires s.lastSequence <= Highest(s.lastSequence, chs) <= |history|
    ensures WriteAll(Bare(s), chs).written == ShownTo(s, history, Highest(s.lastSequence, chs))
  {
    var added, owed := WriteAll(Bare(s), chs).written, ShownTo(s, history, Highest(s.lastSequence, chs));
    forall ch ensures ch in added <==> ch in owed {
      InTurnOwed(s, chs, history, ch);
    }
    WriteAllIncreasing(Bare(s), chs);
    ShownRising(s, history, s.lastSequence, Highest(s.lastSequence, chs));
    SameMembers(added, owed);
  }

  lemma {:induction false} InTurnNeeded(s: Stream, chs: seq<Change>, history: seq<Change>)
    requires Sequenced(history) && s.lastSequence <= Highest(s.lastSequence, chs) <= |history|
    requires WriteAll(Bare(s), chs).written == ShownTo(s, history, Highest(s.lastSequence, chs))
    ensures EachInTurn(s, chs, history)
  {
    var top := Highest(s.lastSequence, chs);
    forall k | s.lastSequence <= k < |history| && history[k].sequence <= top && Owed(s, history[k])
      ensures FirstOfItsRank(chs, history[k])
    {
      ShownMember(s, history, s.lastSequence, top, history[k]);
      WrittenMember(s, chs, history[k]);
    }
  }

  lemma {:induction false} GapFreeAdded(s: Stream, chs: seq<Change>, history: seq<Change>, origin: nat)
    requires Sequenced(history) && WrittenUpTo(s, history, origin) && FromHistory(s, chs, history)
    ensures s.lastSequence <= Highest(s.lastSequence, chs) <= |history|
    ensures WrittenUpTo(WriteAll(s, chs), history, origin) <==>
              WriteAll(Bare(s), chs).written == ShownTo(s, history, Highest(s.lastSequence, chs))
  {
    var top := Highest(s.lastSequence, chs);
    HighestIsMax(s.lastSequence, chs);
    WriteAllHighest(s, chs);
    WriteAllBare(s, chs);
    var a, b := history[origin..s.lastSequence], history[s.lastSequence..top];
    assert history[origin..top] == a + b;
    ShownConcat(a, b, s.collections, s.denied);
    var added, owed := WriteAll(Bare(s), chs).written, Shown(b, s.collections, s.denied);
    assert added == (s.written + added)[|s.written|..] && owed == (s.written + owed)[|s.written|..];
  }

  lemma {:induction false} InTurnOwed(s: Stream, chs: seq<Change>, history: seq<Change>, ch: Change)
    requires Sequenced(history) && FromHistory(s, chs, history) && EachInTurn(s, chs, history)
    requires s.lastSequence <= Highest(s.lastSequence, chs) <= |history|
    ensures ch in WriteAll(Bare(s), chs).written <==>
              ch in ShownTo(s, history, Highest(s.lastSequence, chs))
  {
    HighestIsMax(s.lastSequence, chs);
    WrittenMember(s, chs, ch);
    ShownMember(s, history, s.lastSequence, Highest(s.lastSequence, chs), ch);
  }

  // ---- Two commits, published the other way round ----

  function TwoWrites(): Epoch {
    Run([RetainedLog.Add("a", 100)] + [RetainedLog.Add("b", 100)])
  }

  /** A stream from the start of the feed that has read everything while the store was still empty. */
  function CaughtUp(): Stream {
    SendPage(Begin(Fresh("n", {"c"}, {}), Some(ChangeCursor("n", 0)), None, Some(EMPTY_SPACE), 10))
  }

  /** Change 2 is published before change 1, both to an open channel with room. */
  function LateChannel(first: Change, second: Change): Hub.Channel {
    Hub.Offer(Hub.Offer(Hub.Channel("n", [], false), 2, second), 2, first)
  }

  function TakeAll(conn: Connection): Connection
    decreases |conn.channel.queue|
  {
    if conn.channel.queue == [] then conn else TakeAll(TakeNext(conn))
  }

  /** What such a stream has become, after two commits in its collection, once both events are taken. */
  function Late(history: seq<Change>): Connection
    requires |history| == 2
  {
    TakeAll(Connection(CaughtUp(), LateChannel(history[0], history[1]), 0, 0, 0))
  }

  /** The stream goes on as if nothing had happened, and has written only change 2. */
  lemma {:induction false} LatePublishLosesChange()
    ensures var history := TwoWrites().history;
            && |history| == 2
            && Late(history).stream.phase == Following && Late(history).channel == Hub.Channel("n", [], false)
            && Late(history).stream.written == [history[1]] && Late(history).stream.lastSequence == 2
            && !WrittenUpTo(Late(history).stream, history, 0)
  {
    RetainedLog.AfterTwo(100);
    LateLoses(TwoWrites().history);
  }

  lemma {:induction false} LateLoses(history: seq<Change>)
    requires Sequenced(history) && |history| == 2 && history[0].collection == "c"
    ensures var conn := Late(history);
            && conn.stream.phase == Following && conn.channel == Hub.Channel("n", [], false)
            && conn.stream.written == [history[1]] && conn.stream.lastSequence == 2
            && !WrittenUpTo(conn.stream, history, 0)
  {
    CaughtUpState();
    TakenLate(CaughtUp(), history[0], history[1]);
    FirstMissing(Late(history).stream, history);
  }

  lemma {:induction false} CaughtUpState()
    ensures var s := CaughtUp();
            && s.phase == Following && s.lastSequence == 0 && s.written == []
            && s.ns == "n" && s.collections == {"c"} && s.denied == {}
  {
  }

  lemma {:induction false} FirstMissing(s: Stream, history: seq<Change>)
    requires Sequenced(history) && |history| == 2 && history[0].collection == "c"
    requires s.written == [history[1]] && s.lastSequence == 2 && s.collections == {"c"} && s.denied == {}
    ensures !WrittenUpTo(s, history, 0)
  {
    ShownMember(s, history, 0, 2, history[0]);
    assert history[0] != history[1];
  }

  lemma {:induction false} TakenLate(s: Stream, first: Change, second: Change)
    requires s.phase == Following && s.lastSequence == 0 && s.written == [] && s.denied == {}
    requires first.sequence == 1 && second.sequence == 2
    ensures var conn := TakeAll(Connection(s, LateChannel(first, second), 0, 0, 0));
            conn.channel == Hub.Channel("n", [], false) && conn.stream == s.(written := [second], lastSequence := 2)
  {
    var begun := Connection(s, LateChannel(first, second), 0, 0, 0);
    assert begun.channel.queue == [Hub.Published(second), Hub.Published(first)];
    var once := TakeNext(begun);
    assert once.channel.queue == [Hub.Published(first)];
    assert TakeAll(begun) == TakeAll(once) == TakeAll(TakeNext(once));
  }

  /** The browser at the other end is past its cursor with both changes and shows one document of two. */
  lemma {:induction false} BrowserMissesDocument()
    ensures var e := TwoWrites();
            && |e.history| == 2
            && var listed := Browser.ListingDone(Browser.Start(Browser.Idle()), [], ChangeCursor("n", 0));
               var client := Browser.OnChange(listed, Browser.ToWire(e.history[1]), Some(ChangeCursor("n", 2)));
               && client.source && client.cursor == Some(ChangeCursor("n", |e.history|))
               && |DocumentTable.Project(e.space.rows, "c")| == 2
               && client.documents == [DocumentTable.Project(e.space.rows, "c")[1]]
  {
    RetainedLog.AfterTwo(100);
    var rows := TwoWrites().space.rows;
    assert rows[..1] == [rows[0]] && rows[..1][..0] == [];
    assert DocumentTable.Project(rows[..1], "c") == [rows[0].doc];
  }
}
