/** One server-sent change stream: subscribe first, page through the stored backlog, then follow the
    hub. The handler's steps, and why what it writes has no gap and no repeat. */
module ChangeStream {
  import opened Wrappers
  import opened ChangeLog
  import opened DocumentStore
  import opened StoreHistory
  import RetainedLog
  import opened ChangeHub

  datatype Phase =
    | Opening                // subscribed to the hub, nothing read yet
    | Sending                // a backlog page is in hand
    | Reading                // the page promised more
    | Following              // the backlog is done
    | Refused                // answered with an HTTP problem
    | WasReset(reason: string)

  /** The variables of the handler. `denied` are the changes the authorizer withholds. */
  datatype Stream = Stream(
    ns: string, collections: set<string>, denied: set<nat>,
    phase: Phase, lastSequence: nat, page: ChangesPage, written: seq<Change>)

  function Fresh(ns: string, collections: set<string>, denied: set<nat>): Stream {
    Stream(ns, collections, denied, Opening, 0, ChangesPage([], ChangeCursor(ns, 0), false), [])
  }

  // ---- The steps as functions ----

  /** Offer one change to the client: at or below the last sequence it is a repeat. */
  function WriteOne(s: Stream, ch: Change): Stream {
    if ch.sequence <= s.lastSequence then s
    else if ch.sequence in s.denied then s.(lastSequence := ch.sequence)
    else s.(written := s.written + [ch], lastSequence := ch.sequence)
  }

  function WriteAll(s: Stream, chs: seq<Change>): Stream {
    if chs == [] then s
    else WriteOne(WriteAll(s, chs[..|chs| - 1]), chs[|chs| - 1])
  }

  /** Where an absent cursor starts: at the high-water mark, or at zero if there is no store. */
  function StartAt(ns: string, after: Option<ChangeCursor>, highWater: Option<nat>): ChangeCursor {
    match after
    case Some(cursor) => cursor
    case None => ChangeCursor(ns, if highWater.Some? then highWater.value else 0)
  }

  /** The first backlog read. `store` is None when the store file does not exist. */
  function Begin(
    s: Stream, after: Option<ChangeCursor>, highWater: Option<nat>, store: Option<Space>, limit: nat): Stream
    requires limit >= 1
  {
    var cursor := StartAt(s.ns, after, highWater);
    if store.None? then
      if cursor.ns != s.ns then s.(phase := Refused)
      else if cursor.sequence != 0 then s.(phase := WasReset("cursor_expired"))
      else s.(phase := Sending, lastSequence := 0, page := ChangesPage([], cursor, false))
    else
      match Changes(store.value, s.ns, s.collections, cursor, limit)
      case Err(CursorExpired) => s.(phase := WasReset("cursor_expired"))
      case Err(_) => s.(phase := Refused)
      case Ok(page) => s.(phase := Sending, lastSequence := cursor.sequence, page := page)
  }

  function SendPage(s: Stream): Stream {
    var w := WriteAll(s, s.page.changes);
    if s.page.cursor.ns != s.ns then w.(phase := WasReset("invalid_cursor"))
    else w.(
      lastSequence := if s.page.cursor.sequence > w.lastSequence then s.page.cursor.sequence else w.lastSequence,
      phase := if s.page.more then Reading else Following)
  }

  function ReadPage(s: Stream, store: Space, limit: nat): Stream
    requires limit >= 1
  {
    match Changes(store, s.ns, s.collections, s.page.cursor, limit)
    case Err(_) => s.(phase := WasReset("backlog_unavailable"))
    case Ok(page) => s.(phase := Sending, page := page)
  }

  /** One receive from the hub channel; None is a closed and drained channel. */
  function TakeEvent(s: Stream, event: Option<HubEvent>): Stream {
    match event
    case None => s.(phase := WasReset("slow_consumer"))
    case Some(ResetEvent(reason)) => s.(phase := WasReset(reason))
    case Some(Published(ch)) => WriteOne(s, ch)
  }

  // ---- The handler itself ----

  class Handler {
    const ns: string
    const collections: set<string>
    const denied: set<nat>
    var phase: Phase
    var lastSequence: nat
    var page: ChangesPage
    var written: seq<Change>

    function State(): Stream
      reads this
    {
      Stream(ns, collections, denied, phase, lastSequence, page, written)
    }

    constructor (ns: string, collections: set<string>, denied: set<nat>)
      ensures State() == Fresh(ns, collections, denied)
    {
      this.ns, this.collections, this.denied := ns, collections, denied;
      phase, lastSequence, written := Opening, 0, [];
      page := ChangesPage([], ChangeCursor(ns, 0), false);
    }

    method BeginBacklog(after: Option<ChangeCursor>, highWater: Option<nat>, store: Option<Space>, limit: nat)
      requires limit >= 1
      modifies this
      ensures State() == Begin(old(State()), after, highWater, store, limit)
    {
      var cursor := ChangeCursor(ns, 0);
      if after.Some? {
        cursor := after.value;
      } else if highWater.Some? {
        cursor := ChangeCursor(ns, highWater.value);
      }
      if store.None? {
        if cursor.ns != ns {
          phase := Refused;
          return;
        }
        if cursor.sequence != 0 {
          phase := WasReset("cursor_expired");
          return;
        }
        page := ChangesPage([], cursor, false);
      } else {
        var read := Changes(store.value, ns, collections, cursor, limit);
        if read == Err(CursorExpired) {
          phase := WasReset("cursor_expired");
          return;
        }
        if read.Err? {
          phase := Refused;
          return;
        }
        page := read.value;
      }
      lastSequence := cursor.sequence;
      phase := Sending;
    }

    method WriteBacklogPage()
      modifies this
      ensures State() == SendPage(old(State()))
    {
      ghost var s := State();
      var changes := page.changes;
      for i := 0 to |changes|
        invariant State() == WriteAll(s, changes[..i])
        invariant page == s.page && phase == s.phase
      {
        assert changes[..i + 1][..i] == changes[..i];
        WriteChange(changes[i]);
      }
      assert changes[..|changes|] == changes;
      if page.cursor.ns != ns {
        phase := WasReset("invalid_cursor");
        return;
      }
      if page.cursor.sequence > lastSequence {
        lastSequence := page.cursor.sequence;
      }
      phase := if page.more then Reading else Following;
    }

    method WriteChange(change: Change)
      modifies this`lastSequence, this`written
      ensures State() == WriteOne(old(State()), change)
    {
      if change.sequence <= lastSequence {
        return;
      }
      if change.sequence in denied {
        lastSequence := change.sequence;
        return;
      }
      written := written + [change];
      lastSequence := change.sequence;
    }

    method ReadBacklogPage(store: Space, limit: nat)
      requires limit >= 1
      modifies this`phase, this`page
      ensures State() == ReadPage(old(State()), store, limit)
    {
      var read := Changes(store, ns, collections, page.cursor, limit);
      if read.Err? {
        phase := WasReset("backlog_unavailable");
        return;
      }
      page := read.value;
      phase := Sending;
    }

    method ReceiveEvent(event: Option<HubEvent>)
      modifies this
      ensures State() == TakeEvent(old(State()), event)
    {
      if event.None? {
        phase := WasReset("slow_consumer");
        return;
      }
      if event.value.ResetEvent? {
        phase := WasReset(event.value.reason);
        return;
      }
      WriteChange(event.value.change);
    }
  }

  // ---- Strict increase, whatever the pages and events are ----

  predicate Increasing(s: Stream) {
    && (forall i, j :: 0 <= i < j < |s.written| ==> s.written[i].sequence < s.written[j].sequence)
    && (forall i :: 0 <= i < |s.written| ==> s.written[i].sequence <= s.lastSequence)
  }

  lemma {:induction false} WriteAllIncreasing(s: Stream, chs: seq<Change>)
    requires Increasing(s)
    ensures Increasing(WriteAll(s, chs)) && WriteAll(s, chs).lastSequence >= s.lastSequence
    ensures WriteAll(s, chs).denied == s.denied && WriteAll(s, chs).phase == s.phase
  {
    if chs != [] {
      WriteAllIncreasing(s, chs[..|chs| - 1]);
    }
  }

  datatype StreamInput = PageSent | PageRead(store: Space, limit: nat) | EventTaken(event: Option<HubEvent>)

  function FeedOne(s: Stream, input: StreamInput): Stream {
    match input
    case PageSent => SendPage(s)
    case PageRead(store, limit) => if limit >= 1 then ReadPage(s, store, limit) else s
    case EventTaken(event) => TakeEvent(s, event)
  }

  function Feed(s: Stream, inputs: seq<StreamInput>): Stream {
    if inputs == [] then s
    else FeedOne(Feed(s, inputs[..|inputs| - 1]), inputs[|inputs| - 1])
  }

  lemma {:induction false} FeedOneIncreasing(s: Stream, input: StreamInput)
    requires Increasing(s)
    ensures Increasing(FeedOne(s, input)) && s.lastSequence <= FeedOne(s, input).lastSequence
  {
    match input
    case PageSent => WriteAllIncreasing(s, s.page.changes);
    case PageRead(_, _) =>
    case EventTaken(_) =>
  }

  /** No change is written twice or out of order, for any pages and any events in any order: this
      needs nothing from the store, the hub, or the order of publishing. */
  lemma {:induction false} NeverRepeats(s: Stream, inputs: seq<StreamInput>)
    requires Increasing(s)
    ensures Increasing(Feed(s, inputs)) && s.lastSequence <= Feed(s, inputs).lastSequence
  {
    if inputs != [] {
      NeverRepeats(s, inputs[..|inputs| - 1]);
      FeedOneIncreasing(Feed(s, inputs[..|inputs| - 1]), inputs[|inputs| - 1]);
    }
  }

  // ---- No gap, when publishing follows commit order ----

  /** The changes a stream owes its client out of a stretch of history. */
  function Shown(chs: seq<Change>, collections: set<string>, denied: set<nat>): seq<Change> {
    if chs == [] then []
    else
      var rest := Shown(chs[..|chs| - 1], collections, denied);
      var ch := chs[|chs| - 1];
      if ch.collection in collections && ch.sequence !in denied then rest + [ch] else rest
  }

  lemma {:induction false} ShownConcat(a: seq<Change>, b: seq<Change>, cs: set<string>, denied: set<nat>)
    ensures Shown(a + b, cs, denied) == Shown(a, cs, denied) + Shown(b, cs, denied)
  {
    if b == [] {
      assert a + b == a;
    } else {
      assert (a + b)[..|a + b| - 1] == a + b[..|b| - 1];
      ShownConcat(a, b[..|b| - 1], cs, denied);
    }
  }

  lemma {:induction false} ShownAll(chs: seq<Change>, cs: set<string>)
    ensures Shown(chs, cs, {}) == Wanted(chs, cs)
  {
    if chs != [] {
      ShownAll(chs[..|chs| - 1], cs);
    }
  }

  lemma {:induction false} ShownOfNone(chs: seq<Change>, cs: set<string>, denied: set<nat>)
    requires Wanted(chs, cs) == []
    ensures Shown(chs, cs, denied) == []
  {
    if chs != [] {
      ShownOfNone(chs[..|chs| - 1], cs, denied);
    }
  }

  /** A stream with its hub channel. The last three fields are the observer's bookkeeping: where the
      client asked to start, how many changes had been published when the stream subscribed, and the
      sequence up to which the hub's events have been taken. */
  datatype Connection = Connection(stream: Stream, channel: Channel, origin: nat, since: nat, taken: nat)

  predicate ChannelGood(conn: Connection, history: seq<Change>, published: nat)
    requires conn.taken <= published <= |history|
  {
    QueueGood(conn.channel, Wanted(history[conn.taken..published], conn.stream.collections))
  }

  predicate WrittenUpTo(s: Stream, history: seq<Change>, origin: nat) {
    && origin <= s.lastSequence <= |history|
    && s.written == Shown(history[origin..s.lastSequence], s.collections, s.denied)
  }

  ghost predicate StreamGood(conn: Connection, history: seq<Change>) {
    var s := conn.stream;
    match s.phase
    case Opening => s.written == [] && conn.taken == conn.since
    case Sending =>
      && conn.taken == conn.since
      && WrittenUpTo(s, history, conn.origin)
      && s.page.cursor.ns == s.ns
      && s.lastSequence <= s.page.cursor.sequence <= |history|
      && s.page.changes == Wanted(history[s.lastSequence..s.page.cursor.sequence], s.collections)
      && (!s.page.more ==> conn.since <= s.page.cursor.sequence)
    case Reading =>
      && conn.taken == conn.since
      && WrittenUpTo(s, history, conn.origin)
      && s.page.cursor == ChangeCursor(s.ns, s.lastSequence)
    case Following =>
      && WrittenUpTo(s, history, conn.origin)
      && conn.since <= s.lastSequence
      && (s.lastSequence < conn.taken ==>
            conn.taken <= |history| && Wanted(history[s.lastSequence..conn.taken], s.collections) == [])
    case Refused => s.written == []
    case WasReset(_) =>
      s.written == [] || WrittenUpTo(s, history, conn.origin)
  }

  ghost predicate ConnectionGood(conn: Connection, history: seq<Change>, published: nat) {
    && Sequenced(history)
    && conn.since <= conn.taken <= published <= |history|
    && ChannelGood(conn, history, published)
    && StreamGood(conn, history)
  }

  /** A commit only appends to the history. */
  lemma {:induction false} CommitKeeps(conn: Connection, history: seq<Change>, published: nat, chs: seq<Change>)
    requires ConnectionGood(conn, history, published) && Sequenced(history + chs)
    ensures ConnectionGood(conn, history + chs, published)
  {
    var s, history' := conn.stream, history + chs;
    assert history'[conn.taken..published] == history[conn.taken..published];
    if conn.origin <= s.lastSequence <= |history| {
      assert history'[conn.origin..s.lastSequence] == history[conn.origin..s.lastSequence];
    }
    if s.lastSequence <= s.page.cursor.sequence <= |history| {
      assert history'[s.lastSequence..s.page.cursor.sequence] == history[s.lastSequence..s.page.cursor.sequence];
    }
    if s.lastSequence < conn.taken {
      assert history'[s.lastSequence..conn.taken] == history[s.lastSequence..conn.taken];
    }
  }

  /** What publishing the next committed change does to this connection's channel. */
  function PublishNext(conn: Connection, history: seq<Change>, published: nat, queueSize: nat): Connection
    requires published < |history|
  {
    var ch := history[published];
    if !conn.channel.closed && ch.collection in conn.stream.collections
    then conn.(channel := Offer(conn.channel, queueSize, ch)) else conn
  }

  lemma {:induction false} PublishGoodNext(conn: Connection, history: seq<Change>, published: nat, queueSize: nat)
    requires ConnectionGood(conn, history, published) && published < |history|
    ensures ConnectionGood(PublishNext(conn, history, published, queueSize), history, published + 1)
  {
    WantedLast(history, conn.stream.collections, conn.taken, published + 1);
    if history[published].collection in conn.stream.collections {
      QueueNext(conn.channel, queueSize, Wanted(history[conn.taken..published], conn.stream.collections),
                history[published]);
    }
  }

  /** A queue that holds a prefix of what was wanted, and all of it while the channel is open. */
  predicate QueueGood(channel: Channel, wanted: seq<Change>) {
    DeliveredPrefix(channel.queue, wanted) && (!channel.closed ==> |channel.queue| == |wanted|)
  }

  lemma {:induction false} QueueNext(channel: Channel, queueSize: nat, wanted: seq<Change>, ch: Change)
    requires QueueGood(channel, wanted)
    ensures QueueGood(if channel.closed then channel else Offer(channel, queueSize, ch), wanted + [ch])
  {
    var queue := channel.queue;
    assert (wanted + [ch])[..|queue|] == wanted[..|queue|];
    if !channel.closed && |queue| < queueSize {
      assert (wanted + [ch])[..|queue| + 1] == wanted + [ch] && wanted[..|queue|] == wanted;
      assert Events(wanted + [ch]) == Events(wanted) + [Published(ch)];
    }
  }

  // ---- The handler's own steps ----

  lemma {:induction false} WriteAllExact(s: Stream, chs: seq<Change>, history: seq<Change>, upto: nat)
    requires Sequenced(history) && s.lastSequence <= upto <= |history|
    requires chs == Wanted(history[s.lastSequence..upto], s.collections)
    ensures WroteUpTo(s, WriteAll(s, chs), history, upto)
    decreases upto
  {
    if upto == s.lastSequence {
      assert history[upto..upto] == [];
    } else {
      var before := Wanted(history[s.lastSequence..upto - 1], s.collections);
      WriteAllExact(s, before, history, upto - 1);
      WantedLast(history, s.collections, s.lastSequence, upto);
      WriteNext(s, before, history[upto - 1], chs);
      WroteNext(s, WriteAll(s, before), history, upto);
    }
  }

  /** Offered everything wanted up to `upto`, the stream has written exactly what it owed. */
  predicate WroteUpTo(s: Stream, w: Stream, history: seq<Change>, upto: nat)
    requires s.lastSequence <= upto <= |history|
  {
    && w.written == s.written + Shown(history[s.lastSequence..upto], s.collections, s.denied)
    && s.lastSequence <= w.lastSequence <= upto
    && w == s.(written := w.written, lastSequence := w.lastSequence)
  }

  lemma {:induction false} WroteNext(s: Stream, w: Stream, history: seq<Change>, upto: nat)
    requires s.lastSequence < upto <= |history| && history[upto - 1].sequence == upto
    requires WroteUpTo(s, w, history, upto - 1)
    ensures var ch := history[upto - 1];
            WroteUpTo(s, if ch.collection in s.collections then WriteOne(w, ch) else w, history, upto)
  {
    ShownLast(history, s.collections, s.denied, s.lastSequence, upto);
  }

  lemma {:induction false} WriteNext(s: Stream, before: seq<Change>, ch: Change, chs: seq<Change>)
    requires chs == if ch.collection in s.collections then before + [ch] else before
    ensures WriteAll(s, chs)
         == if ch.collection in s.collections then WriteOne(WriteAll(s, before), ch) else WriteAll(s, before)
  {
    if ch.collection in s.collections {
      assert chs[..|chs| - 1] == before;
    }
  }

  /** What a step wrote is exactly what was owed between the two last sequences. */
  predicate WroteExactly(s: Stream, s': Stream, history: seq<Change>) {
    && s.lastSequence <= s'.lastSequence <= |history|
    && s'.written == s.written + Shown(history[s.lastSequence..s'.lastSequence], s.collections, s.denied)
    && s'.ns == s.ns && s'.collections == s.collections && s'.denied == s.denied
  }

  lemma {:induction false} WrittenOn(s: Stream, s': Stream, history: seq<Change>, origin: nat)
    requires WrittenUpTo(s, history, origin) && WroteExactly(s, s', history)
    ensures WrittenUpTo(s', history, origin)
  {
    var a, b := history[origin..s.lastSequence], history[s.lastSequence..s'.lastSequence];
    assert history[origin..s'.lastSequence] == a + b;
    ShownConcat(a, b, s.collections, s.denied);
  }

  lemma {:induction false} SendExact(s: Stream, history: seq<Change>)
    requires Sequenced(history) && s.page.cursor.ns == s.ns
    requires s.lastSequence <= s.page.cursor.sequence <= |history|
    requires s.page.changes == Wanted(history[s.lastSequence..s.page.cursor.sequence], s.collections)
    ensures WroteExactly(s, SendPage(s), history)
    ensures SendPage(s).lastSequence == s.page.cursor.sequence && SendPage(s).page == s.page
    ensures SendPage(s).phase == if s.page.more then Reading else Following
  {
    WriteAllExact(s, s.page.changes, history, s.page.cursor.sequence);
  }

  lemma {:induction false} SendKeeps(conn: Connection, history: seq<Change>, published: nat)
    requires ConnectionGood(conn, history, published) && conn.stream.phase == Sending
    ensures ConnectionGood(conn.(stream := SendPage(conn.stream)), history, published)
    ensures WroteExactly(conn.stream, SendPage(conn.stream), history)
  {
    SendExact(conn.stream, history);
    WrittenOn(conn.stream, SendPage(conn.stream), history, conn.origin);
  }

  lemma {:induction false} ReadKeeps(conn: Connection, e: Epoch, published: nat, limit: nat)
    requires ConnectionGood(conn, e.history, published) && conn.stream.phase == Reading && limit >= 1
    requires e.space.last == |e.history| && RetainedLog.Contiguous(e.space.log, e.history)
    ensures ConnectionGood(conn.(stream := ReadPage(conn.stream, e.space, limit)), e.history, published)
  {
    var s := conn.stream;
    RetainedLog.ChangesExact(e.space, e.history, s.ns, s.collections, s.page.cursor, limit);
  }

  lemma {:induction false} BeginKeeps(
    conn: Connection, e: Epoch, published: nat, after: ChangeCursor, limit: nat)
    requires ConnectionGood(conn, e.history, published) && conn.stream.phase == Opening && limit >= 1
    requires after.ns == conn.stream.ns
    requires e.space.last == |e.history| && RetainedLog.Contiguous(e.space.log, e.history)
    ensures var s := Begin(conn.stream, Some(after), None, Some(e.space), limit);
            && ConnectionGood(conn.(stream := s, origin := after.sequence), e.history, published)
            && s.written == []
            && (s.phase == Refused <==> after.sequence > |e.history|)
            && (s.phase.WasReset? <==> after.sequence < |e.history| - |e.space.log|)
            && (s.phase == Sending ==> s.lastSequence == after.sequence)
  {
    var s := conn.stream;
    RetainedLog.ChangesExact(e.space, e.history, s.ns, s.collections, after, limit);
    if after.sequence <= |e.history| {
      assert e.history[after.sequence..after.sequence] == [];
    }
  }

  /** A stream opened without a cursor begins at the high-water mark: it has nothing to catch up on, and goes straight
      to the live events. */
  lemma {:induction false} BeginsAtHighWater(s: Stream, e: Epoch, limit: nat)
    requires s.phase == Opening && s.written == [] && limit >= 1
    requires e.space.last == |e.history| && Sequenced(e.history) && RetainedLog.Contiguous(e.space.log, e.history)
    ensures var begun := Begin(s, None, Some(e.space.last), Some(e.space), limit);
            && begun.phase == Sending && begun.lastSequence == |e.history| && begun.page.changes == []
            && SendPage(begun).phase == Following && SendPage(begun).written == []
            && SendPage(begun).lastSequence == |e.history|
  {
    RetainedLog.ChangesExact(e.space, e.history, s.ns, s.collections, ChangeCursor(s.ns, e.space.last), limit);
    assert e.history[|e.history|..|e.history|] == [];
  }

  /** Before a store exists, only the very beginning of the feed is a place to start. */
  lemma {:induction false} BeginsWithoutStore(s: Stream, after: Option<ChangeCursor>, limit: nat)
    requires s.phase == Opening && s.written == [] && limit >= 1
    ensures var begun := Begin(s, after, None, None, limit);
            if after.Some? && after.value.ns != s.ns then begun.phase == Refused
            else if after.Some? && after.value.sequence != 0 then begun.phase == WasReset("cursor_expired")
            else begun.phase == Sending && SendPage(begun).phase == Following && SendPage(begun).lastSequence == 0
  {
  }

  /** Why a stream was ended is what its reader is told. */
  lemma {:induction false} ReasonsTold(s: Stream, e: Epoch, after: ChangeCursor, limit: nat, reason: string)
    requires limit >= 1 && after.ns == s.ns && s.page.cursor.ns == s.ns
    requires e.space.last == |e.history| && Sequenced(e.history) && RetainedLog.Contiguous(e.space.log, e.history)
    ensures after.sequence < |e.history| - |e.space.log| ==>
              Begin(s, Some(after), None, Some(e.space), limit).phase == WasReset("cursor_expired")
    ensures s.page.cursor.sequence < |e.history| - |e.space.log| ==>
              ReadPage(s, e.space, limit).phase == WasReset("backlog_unavailable")
    ensures TakeEvent(s, None).phase == WasReset("slow_consumer")
    ensures TakeEvent(s, Some(ResetEvent(reason))).phase == WasReset(reason)
  {
    RetainedLog.ChangesExact(e.space, e.history, s.ns, s.collections, after, limit);
    RetainedLog.ChangesExact(e.space, e.history, s.ns, s.collections, s.page.cursor, limit);
  }

  /** The first wanted change after `taken` is the next event. */
  lemma {:induction false} FirstWanted(history: seq<Change>, cs: set<string>, taken: nat, published: nat)
    requires Sequenced(history) && taken <= published <= |history|
    requires Wanted(history[taken..published], cs) != []
    ensures var first := Wanted(history[taken..published], cs)[0];
            && taken < first.sequence <= published
            && first == history[first.sequence - 1]
            && Wanted(history[taken..first.sequence - 1], cs) == []
            && first.collection in cs
            && Wanted(history[first.sequence..published], cs) == Wanted(history[taken..published], cs)[1..]
    decreases published - taken
  {
    assert history[taken..published] != [];
    WantedFirst(history, cs, taken, published);
    var rest := Wanted(history[taken + 1..published], cs);
    if history[taken].collection in cs {
      assert history[taken..taken] == [];
      assert ([history[taken]] + rest)[1..] == rest;
    } else {
      assert [] + rest == rest;
      FirstWanted(history, cs, taken + 1, published);
      var q := rest[0].sequence;
      WantedFirst(history, cs, taken, q - 1);
    }
  }

  lemma {:induction false} WantedFirst(history: seq<Change>, cs: set<string>, lo: nat, hi: nat)
    requires lo < hi <= |history|
    ensures Wanted(history[lo..hi], cs)
         == (if history[lo].collection in cs then [history[lo]] else []) + Wanted(history[lo + 1..hi], cs)
  {
    assert history[lo..hi] == [history[lo]] + history[lo + 1..hi];
    WantedConcat([history[lo]], history[lo + 1..hi], cs);
    assert [history[lo]][..0] == [];
  }

  lemma {:induction false} WantedLast(history: seq<Change>, cs: set<string>, lo: nat, hi: nat)
    requires lo < hi <= |history|
    ensures Wanted(history[lo..hi], cs)
         == Wanted(history[lo..hi - 1], cs) + if history[hi - 1].collection in cs then [history[hi - 1]] else []
  {
    var part := history[lo..hi];
    assert part[..|part| - 1] == history[lo..hi - 1] && part[|part| - 1] == history[hi - 1];
  }

  lemma {:induction false} WantedNothingBetween(history: seq<Change>, cs: set<string>, a: nat, b: nat, hi: nat)
    requires a <= b <= hi <= |history| && Wanted(history[a..hi], cs) == []
    ensures Wanted(history[b..hi], cs) == []
  {
    assert history[a..hi] == history[a..b] + history[b..hi];
    WantedConcat(history[a..b], history[b..hi], cs);
  }

  /** Taking the next event: it is a repeat, or exactly the next change owed. */
  function TakeNext(conn: Connection): Connection
    requires conn.channel.queue != []
  {
    var event := conn.channel.queue[0];
    conn.(
      stream := TakeEvent(conn.stream, Some(event)),
      channel := conn.channel.(queue := conn.channel.queue[1..]),
      taken := if event.Published? then event.change.sequence else conn.taken)
  }

  lemma {:induction false} TakeChannel(conn: Connection, history: seq<Change>, published: nat)
    requires ConnectionGood(conn, history, published) && conn.channel.queue != []
    ensures var first := Wanted(history[conn.taken..published], conn.stream.collections);
            && first != [] && conn.channel.queue[0] == Published(first[0])
            && conn.taken < first[0].sequence <= published
            && ChannelGood(TakeNext(conn), history, published)
  {
    var cs := conn.stream.collections;
    var wanted, queue := Wanted(history[conn.taken..published], cs), conn.channel.queue;
    FirstWanted(history, cs, conn.taken, published);
    assert queue[0] == Events(wanted[..|queue|])[0] == Published(wanted[0]);
    assert wanted[1..][..|queue| - 1] == wanted[..|queue|][1..];
    assert queue[1..] == Events(wanted[1..][..|queue| - 1]);
  }

  lemma {:induction false} TakeExact(s: Stream, history: seq<Change>, taken: nat, published: nat)
    requires Sequenced(history) && taken <= published <= |history| && s.lastSequence <= |history|
    requires Wanted(history[taken..published], s.collections) != []
    requires s.lastSequence < taken ==> Wanted(history[s.lastSequence..taken], s.collections) == []
    ensures var ch := Wanted(history[taken..published], s.collections)[0];
            && WroteExactly(s, WriteOne(s, ch), history)
            && ch.sequence <= WriteOne(s, ch).lastSequence
            && WriteOne(s, ch).phase == s.phase
  {
    FirstWanted(history, s.collections, taken, published);
    var ch, last := Wanted(history[taken..published], s.collections)[0], s.lastSequence;
    if ch.sequence <= last {
      assert history[last..last] == [];
    } else {
      OwedNext(history, s.collections, s.denied, last, taken, ch.sequence);
    }
  }

  lemma {:induction false} TakeKeeps(conn: Connection, history: seq<Change>, published: nat)
    requires ConnectionGood(conn, history, published)
    requires conn.stream.phase == Following && conn.channel.queue != []
    ensures ConnectionGood(TakeNext(conn), history, published)
    ensures WroteExactly(conn.stream, TakeNext(conn).stream, history)
  {
    TakeChannel(conn, history, published);
    TakeExact(conn.stream, history, conn.taken, published);
    WrittenOn(conn.stream, TakeNext(conn).stream, history, conn.origin);
  }

  /** With nothing owed between the last written and the last taken, the next event is all that is owed up to it. */
  lemma {:induction false} OwedNext(
    history: seq<Change>, cs: set<string>, denied: set<nat>, last: nat, taken: nat, q: nat)
    requires Sequenced(history) && last < q <= |history| && taken < q
    requires Wanted(history[taken..q - 1], cs) == [] && history[q - 1].collection in cs
    requires last < taken ==> Wanted(history[last..taken], cs) == []
    ensures Shown(history[last..q], cs, denied) == if q in denied then [] else [history[q - 1]]
  {
    if last < taken {
      assert history[last..q - 1] == history[last..taken] + history[taken..q - 1];
      WantedConcat(history[last..taken], history[taken..q - 1], cs);
    } else {
      WantedNothingBetween(history, cs, taken, last, q - 1);
    }
    ShownOfNone(history[last..q - 1], cs, denied);
    ShownLast(history, cs, denied, last, q);
  }

  lemma {:induction false} ShownLast(history: seq<Change>, cs: set<string>, denied: set<nat>, last: nat, q: nat)
    requires last < q <= |history|
    ensures var before, ch := Shown(history[last..q - 1], cs, denied), history[q - 1];
            Shown(history[last..q], cs, denied) == before + if ch.collection in cs && ch.sequence !in denied then [ch] else []
  {
    var part := history[last..q];
    assert part[..|part| - 1] == history[last..q - 1] && part[|part| - 1] == history[q - 1];
  }
}
