/** The whole protocol as one state machine: clients that write, a trimming store, a publisher, one
    change stream, and a browser that lists, replays, loses its connection, reconnects and re-lists. */
module Convergence {
  import opened Wrappers
  import opened ChangeLog
  import opened DocumentTable
  import opened DocumentStore
  import opened StoreHistory
  import RetainedLog
  import opened PagedListing
  import opened ChangeStream
  import Hub = ChangeHub
  import Browser = BrowserClient

  datatype WireEvent = ChangeSent(change: Browser.WireChange, id: ChangeCursor) | ResetSent

  datatype ListingRun = NoListing | FirstPage | NextPage(documents: seq<Document>, changes: ChangeCursor, after: PageCursor)

  /** `published` changes of the history have been published. `wire` is what the stream has written and
      the browser not yet handled. `sent` is the observer's: the sequence up to which the stream has written. */
  datatype System = System(
    ns: string, collection: string, queueSize: nat,
    e: Epoch, now: int, published: nat,
    client: Browser.Client, listing: ListingRun,
    conn: Option<Connection>, wire: seq<WireEvent>, sent: nat)

  function Initial(ns: string, collection: string, queueSize: nat, now: int): System {
    System(ns, collection, queueSize, Epoch(EMPTY_SPACE, []), now, 0,
           Browser.Start(Browser.Idle()), FirstPage, None, [], 0)
  }

  datatype Event =
    | Mutate(op: StoreOp)           // any client commits, or fails to
    | PublishNextChange             // the publisher catches up by one change
    | Accept                        // the stream handler subscribes to the hub
    | BeginStream(limit: nat, missing: bool)
    | SendBacklog
    | ReadBacklog(limit: nat)
    | TakeLive
    | FindClosed                    // the hub dropped this reader and its queue is drained
    | ResetStream(reason: string)   // backlog unavailable, or the hub was reset
    | Deliver                       // the browser handles the next event
    | Opened
    | Disconnect
    | Unreadable                    // an event whose payload does not parse
    | FireTimer
    | FetchPage(limit: nat)
    | ListingFails
    | StopClient

  // ---- The steps ----

  function Sends(chs: seq<Change>, ns: string): seq<WireEvent> {
    seq(|chs|, i requires 0 <= i < |chs| => ChangeSent(Browser.ToWire(chs[i]), ChangeCursor(ns, chs[i].sequence)))
  }

  predicate Ending(phase: Phase) { phase.WasReset? }

  predicate Running(phase: Phase) { phase.Sending? || phase.Reading? || phase.Following? }

  function NewWrites(before: seq<Change>, after: seq<Change>): seq<Change> {
    if |before| <= |after| then after[|before|..] else []
  }

  /** The stream has moved on: what it wrote goes onto the wire. */
  function Emit(s: System, conn: Connection, conn': Connection): System {
    var writes := NewWrites(conn.stream.written, conn'.stream.written);
    s.(conn := Some(conn'),
       wire := s.wire + Sends(writes, s.ns) + (if Ending(conn'.stream.phase) then [ResetSent] else []),
       sent := if Running(conn'.stream.phase) then conn'.stream.lastSequence else s.sent)
  }

  function Hangup(s: System, client: Browser.Client): System {
    s.(client := client, conn := None, wire := [])
  }

  function BeginStep(s: System, conn: Connection, after: ChangeCursor, limit: nat, missing: bool): System
    requires limit >= 1
  {
    var store := if missing && s.e.history == [] then None else Some(s.e.space);
    var stream := Begin(conn.stream, Some(after), None, store, limit);
    if stream.phase.Refused? then Hangup(s, Browser.OnError(s.client))
    else Emit(s, conn, conn.(stream := stream, origin := after.sequence))
  }

  function StreamStep(s: System, conn: Connection, event: Event): System {
    match event
    case BeginStream(limit, missing) =>
      if conn.stream.phase.Opening? && limit >= 1 && s.client.cursor.Some?
      then BeginStep(s, conn, s.client.cursor.value, limit, missing) else s
    case SendBacklog =>
      if conn.stream.phase.Sending? then Emit(s, conn, conn.(stream := SendPage(conn.stream))) else s
    case ReadBacklog(limit) =>
      if conn.stream.phase.Reading? && limit >= 1
      then Emit(s, conn, conn.(stream := ReadPage(conn.stream, s.e.space, limit))) else s
    case TakeLive =>
      if conn.stream.phase.Following? && conn.channel.queue != [] then Emit(s, conn, TakeNext(conn)) else s
    case FindClosed =>
      if conn.stream.phase.Following? && conn.channel.queue == [] && conn.channel.closed
      then Emit(s, conn, conn.(stream := TakeEvent(conn.stream, None))) else s
    case ResetStream(reason) =>
      if conn.stream.phase.Reading? || conn.stream.phase.Following?
      then Emit(s, conn, conn.(stream := TakeEvent(conn.stream, Some(Hub.ResetEvent(reason))))) else s
    case _ => s
  }

  function DeliverStep(s: System): System
    requires s.wire != []
  {
    match s.wire[0]
    case ChangeSent(change, id) =>
      s.(client := Browser.OnChange(s.client, change, Some(id)), wire := s.wire[1..])
    case ResetSent => Hangup(s, Browser.OnReset(s.client))
  }

  function TakePage(s: System, documents: seq<Document>, changes: ChangeCursor, page: ListPage): System {
    if page.after.Some? then s.(listing := NextPage(documents + page.documents, changes, page.after.value))
    else s.(listing := NoListing, client := Browser.ListingDone(s.client, documents + page.documents, changes))
  }

  function FetchStep(s: System, limit: nat): System
    requires limit >= 1
  {
    match s.listing
    case NoListing => s
    case FirstPage =>
      (match List(s.e.space, s.ns, s.collection, limit, NoCursor)
       case Ok(page) => TakePage(s, [], page.changes, page)
       case Err(_) => s.(listing := NoListing, client := Browser.ListFailed(s.client)))
    case NextPage(documents, changes, after) =>
      (match List(s.e.space, s.ns, s.collection, limit, At(after))
       case Ok(page) => TakePage(s, documents, changes, page)
       case Err(_) => s.(listing := NoListing, client := Browser.ListFailed(s.client)))
  }

  function ClientStep(s: System, event: Event): System {
    match event
    case Deliver => if s.client.source && s.wire != [] then DeliverStep(s) else s
    case Opened => if s.client.source then s.(client := Browser.OnOpen(s.client)) else s
    case Disconnect => if s.client.source then Hangup(s, Browser.OnError(s.client)) else s
    case Unreadable => if s.client.source then Hangup(s, Browser.OnReset(s.client)) else s
    case FireTimer =>
      if s.client.timer.Armed? then
        var client := Browser.OnTimer(s.client);
        s.(client := client, listing := if client.listing then FirstPage else NoListing)
      else s
    case FetchPage(limit) => if s.client.listing && limit >= 1 then FetchStep(s, limit) else s
    case ListingFails =>
      if s.client.listing then s.(listing := NoListing, client := Browser.ListFailed(s.client)) else s
    case StopClient => Hangup(s, Browser.Stop(s.client)).(listing := NoListing)
    case _ => s
  }

  /** Two environment assumptions are built in: the clock of committed operations does not run
      backwards, and changes are published in commit order. */
  function ServerStep(s: System, event: Event): System {
    match event
    case Mutate(op) => if op.Now() < s.now then s else s.(e := Step(s.e, op), now := op.Now())
    case PublishNextChange =>
      if s.published < |s.e.history| then
        var conn := if s.conn.None? then None
                    else Some(PublishNext(s.conn.value, s.e.history, s.published, s.queueSize));
        s.(published := s.published + 1, conn := conn)
      else s
    case Accept =>
      if s.client.source && s.conn.None? && s.client.cursor.Some? then
        var start := s.client.cursor.value.sequence;
        var stream := Fresh(s.ns, {s.collection}, {});
        s.(conn := Some(Connection(stream, Hub.Channel(s.ns, [], false), start, s.published, s.published)),
           sent := start)
      else s
    case _ => if s.conn.Some? then StreamStep(s, s.conn.value, event) else s
  }

  function SystemStep(s: System, event: Event): System {
    match event
    case Deliver => ClientStep(s, event)
    case Opened => ClientStep(s, event)
    case Disconnect => ClientStep(s, event)
    case Unreadable => ClientStep(s, event)
    case FireTimer => ClientStep(s, event)
    case FetchPage(_) => ClientStep(s, event)
    case ListingFails => ClientStep(s, event)
    case StopClient => ClientStep(s, event)
    case _ => ServerStep(s, event)
  }

  function Reach(s: System, events: seq<Event>): System {
    if events == [] then s
    else SystemStep(Reach(s, events[..|events| - 1]), events[|events| - 1])
  }

  // ---- What every step keeps ----

  ghost predicate ServerGood(e: Epoch, now: int, published: nat) {
    && Sound(e)
    && RetainedLog.Contiguous(e.space.log, e.history)
    && RetainedLog.Chronological(e.space.log, now)
    && published <= |e.history|
  }

  ghost predicate ClientGood(client: Browser.Client, ns: string, c: string, e: Epoch) {
    && Browser.ClientInv(client)
    && (client.cursor.Some? ==>
          && client.cursor.value.ns == ns
          && InSync(client.documents, c, client.cursor.value.sequence, e))
  }

  ghost predicate ListingGood(listed: bool, listing: ListingRun, ns: string, c: string, e: Epoch) {
    && (listed <==> listing != NoListing)
    && (listing.NextPage? ==>
          && Listing(listing.documents, listing.after, e)
          && listing.after.ns == ns && listing.after.collection == c
          && listing.changes == ChangeCursor(ns, listing.after.watermark))
  }

  ghost predicate WireGood(s: System, conn: Connection, position: nat) {
    && ConnectionGood(conn, s.e.history, s.published)
    && conn.stream.ns == s.ns && conn.stream.collections == {s.collection} && conn.stream.denied == {}
    && position <= s.sent <= |s.e.history|
    && s.wire == Sends(Wanted(s.e.history[position..s.sent], {s.collection}), s.ns)
                 + (if Ending(conn.stream.phase) then [ResetSent] else [])
    && (conn.stream.phase.Opening? ==> s.sent == position)
    && (Running(conn.stream.phase) ==> s.sent == conn.stream.lastSequence)
    && !conn.stream.phase.Refused?
  }

  ghost predicate StreamGoodAt(s: System) {
    && (s.conn.None? ==> s.wire == [])
    && (s.conn.Some? ==>
          && s.client.source && s.client.cursor.Some?
          && WireGood(s, s.conn.value, s.client.cursor.value.sequence))
  }

  ghost predicate SystemInv(s: System) {
    && ServerGood(s.e, s.now, s.published)
    && ClientGood(s.client, s.ns, s.collection, s.e)
    && ListingGood(s.client.listing, s.listing, s.ns, s.collection, s.e)
    && StreamGoodAt(s)
  }

  // ---- Staying in sync ----

  lemma {:induction false} InSyncMany(
    docs: seq<Document>, rows: seq<Row>, history: seq<Change>, chs: seq<Change>, c: string, position: nat)
    requires Folded(rows, history) && LegalFrom(rows, |history|, chs) && position <= |history|
    requires Replay(docs, Wanted(history[position..], {c})) == Project(rows, c)
    ensures Replay(docs, Wanted((history + chs)[position..], {c})) == Project(ApplyRows(rows, chs), c)
  {
    if chs == [] {
      assert history + chs == history;
    } else {
      var init, ch := chs[..|chs| - 1], chs[|chs| - 1];
      var rows', history' := ApplyRows(rows, init), history + init;
      InSyncMany(docs, rows, history, init, c, position);
      FoldMany(rows, history, init);
      assert history + chs == history' + [ch] && ApplyRows(rows, chs) == ApplyRow(rows', ch);
      InSyncOne(docs, rows', history', ch, c, position);
    }
  }

  lemma {:induction false} InSyncOne(
    docs: seq<Document>, rows: seq<Row>, history: seq<Change>, ch: Change, c: string, position: nat)
    requires Sorted(rows, |history|) && UniqueKeys(rows) && Legal(rows, ch) && ch.sequence == |history| + 1
    requires position <= |history|
    requires Replay(docs, Wanted(history[position..], {c})) == Project(rows, c)
    ensures Replay(docs, Wanted((history + [ch])[position..], {c})) == Project(ApplyRow(rows, ch), c)
  {
    assert (history + [ch])[position..] == history[position..] + [ch];
    WantedSnoc(history[position..], ch, c);
    ProjectApply(rows, ch, c, |history|);
  }

  lemma {:induction false} InSyncStep(docs: seq<Document>, c: string, position: nat, e: Epoch, op: StoreOp)
    requires Sound(e) && InSync(docs, c, position, e)
    ensures InSync(docs, c, position, Step(e, op))
  {
    ExecLegal(e.space, op);
    InSyncMany(docs, e.space.rows, e.history, Exec(e.space, op).changes, c, position);
  }

  /** Handling the next wanted change moves a synced reader to that change. */
  lemma {:induction false} InSyncNext(docs: seq<Document>, c: string, position: nat, upto: nat, e: Epoch)
    requires Sequenced(e.history) && position <= upto <= |e.history|
    requires Wanted(e.history[position..upto], {c}) != []
    requires InSync(docs, c, position, e)
    ensures var wanted := Wanted(e.history[position..upto], {c});
            var q := wanted[0].sequence;
            && position < q <= upto && WellFormed(wanted[0])
            && Wanted(e.history[q..upto], {c}) == wanted[1..]
            && InSync(Apply(docs, wanted[0]), c, q, e)
  {
    FirstWanted(e.history, {c}, position, upto);
    var first := Wanted(e.history[position..upto], {c})[0];
    WantedHead(e.history, c, position, first.sequence);
    var rest := Wanted(e.history[first.sequence..], {c});
    ReplayConcat(docs, [first], rest);
    assert [first][..0] == [] && Replay(docs, [first]) == Apply(docs, first);
  }

  /** With nothing wanted before it, a wanted change comes first. */
  lemma {:induction false} WantedHead(history: seq<Change>, c: string, position: nat, q: nat)
    requires position < q <= |history| && history[q - 1].collection == c
    requires Wanted(history[position..q - 1], {c}) == []
    ensures Wanted(history[position..], {c}) == [history[q - 1]] + Wanted(history[q..], {c})
  {
    var before, first, rest := history[position..q - 1], history[q - 1], history[q..];
    assert history[position..] == before + ([first] + rest);
    WantedConcat(before, [first] + rest, {c});
    WantedConcat([first], rest, {c});
    assert [first][..0] == [] && Wanted([first], {c}) == [first];
  }

  // ---- The wire ----

  /** What the stream step wrote extends the wire by exactly the changes up to its new position. */
  lemma {:induction false} EmitWire(s: System, s': Stream, stream: Stream, position: nat, c: string)
    requires WroteExactly(stream, s', s.e.history) && stream.collections == {c} && stream.denied == {}
    requires position <= stream.lastSequence
    requires s.wire == Sends(Wanted(s.e.history[position..stream.lastSequence], {c}), s.ns)
    ensures s.wire + Sends(NewWrites(stream.written, s'.written), s.ns)
         == Sends(Wanted(s.e.history[position..s'.lastSequence], {c}), s.ns)
  {
    var a, b := s.e.history[position..stream.lastSequence], s.e.history[stream.lastSequence..s'.lastSequence];
    assert s.e.history[position..s'.lastSequence] == a + b;
    ShownAll(b, {c});
    assert NewWrites(stream.written, s'.written) == Wanted(b, {c});
    WantedConcat(a, b, {c});
  }

  lemma {:induction false} EmitKeeps(s: System, conn: Connection, conn': Connection, position: nat)
    requires WireGood(s, conn, position) && Running(conn.stream.phase)
    requires ConnectionGood(conn', s.e.history, s.published)
    requires WroteExactly(conn.stream, conn'.stream, s.e.history) && Running(conn'.stream.phase)
    ensures WireGood(Emit(s, conn, conn'), conn', position)
  {
    EmitWire(s, conn'.stream, conn.stream, position, s.collection);
    assert s.wire + Sends(NewWrites(conn.stream.written, conn'.stream.written), s.ns) + []
        == s.wire + Sends(NewWrites(conn.stream.written, conn'.stream.written), s.ns);
  }

  /** A step that wrote nothing and ends the stream puts only the reset on the wire. */
  lemma {:induction false} EndKeeps(s: System, conn: Connection, conn': Connection, position: nat)
    requires WireGood(s, conn, position) && !Ending(conn.stream.phase)
    requires ConnectionGood(conn', s.e.history, s.published) && Ending(conn'.stream.phase)
    requires conn'.stream.written == conn.stream.written
    requires conn'.stream.(phase := conn.stream.phase, page := conn.stream.page) == conn.stream
    ensures WireGood(Emit(s, conn, conn'), conn', position)
  {
    assert NewWrites(conn.stream.written, conn'.stream.written) == [];
    assert s.wire + [] + [ResetSent] == s.wire + [ResetSent];
  }

  // ---- Stream steps ----

  /** Beginning from the browser's cursor: nothing is written, and the request is never refused. */
  lemma {:induction false} BeginStreamGood(s: System, conn: Connection, after: ChangeCursor, limit: nat, missing: bool)
    requires ServerGood(s.e, s.now, s.published) && WireGood(s, conn, after.sequence) && conn.stream.phase.Opening? && limit >= 1
    requires after.ns == s.ns
    ensures var store := if missing && s.e.history == [] then None else Some(s.e.space);
            var stream := Begin(conn.stream, Some(after), None, store, limit);
            && ConnectionGood(conn.(stream := stream, origin := after.sequence), s.e.history, s.published)
            && stream.written == [] && (stream.phase == Sending || Ending(stream.phase))
            && (stream.phase == Sending ==> stream.lastSequence == after.sequence)
            && stream.ns == s.ns && stream.collections == {s.collection} && stream.denied == {}
  {
    if !(missing && s.e.history == []) {
      BeginKeeps(conn, s.e, s.published, after, limit);
    }
  }

  lemma {:induction false} BeginGood(s: System, conn: Connection, after: ChangeCursor, limit: nat, missing: bool)
    requires ServerGood(s.e, s.now, s.published) && WireGood(s, conn, after.sequence) && conn.stream.phase.Opening? && limit >= 1
    requires after.ns == s.ns
    ensures StreamMoved(s, BeginStep(s, conn, after, limit, missing), after.sequence)
  {
    BeginStreamGood(s, conn, after, limit, missing);
    assert s.e.history[after.sequence..after.sequence] == [];
    assert NewWrites([], []) == [];
  }

  /** A step of the stream handler touches nothing but the stream. */
  ghost predicate StreamMoved(s: System, s': System, position: nat) {
    && s'.(conn := s.conn, wire := s.wire, sent := s.sent) == s
    && s'.conn.Some?
    && WireGood(s', s'.conn.value, position)
  }

  /** One step of the stream handler, whichever it is. */
  lemma {:induction false} StreamStepGood(s: System, conn: Connection, event: Event, after: ChangeCursor)
    requires ServerGood(s.e, s.now, s.published) && s.conn == Some(conn) && WireGood(s, conn, after.sequence)
    requires s.client.cursor == Some(after) && after.ns == s.ns
    ensures StreamMoved(s, StreamStep(s, conn, event), after.sequence)
  {
    match event
    case BeginStream(limit, missing) =>
      if conn.stream.phase.Opening? && limit >= 1 {
        BeginGood(s, conn, after, limit, missing);
      }
    case SendBacklog => SendGood(s, conn, after.sequence);
    case ReadBacklog(limit) => ReadGood(s, conn, limit, after.sequence);
    case TakeLive => TakeGood(s, conn, after.sequence);
    case FindClosed => ResetGood(s, conn, event, after.sequence);
    case ResetStream(reason) => ResetGood(s, conn, event, after.sequence);
    case _ =>
  }

  lemma {:induction false} ResetGood(s: System, conn: Connection, event: Event, position: nat)
    requires s.conn == Some(conn) && WireGood(s, conn, position) && (event.FindClosed? || event.ResetStream?)
    ensures StreamMoved(s, StreamStep(s, conn, event), position)
  {
    if conn.stream.phase.Reading? || conn.stream.phase.Following? {
      var received := if event.FindClosed? then None else Some(Hub.ResetEvent(event.reason));
      EndKeeps(s, conn, conn.(stream := TakeEvent(conn.stream, received)), position);
    }
  }

  lemma {:induction false} SendGood(s: System, conn: Connection, position: nat)
    requires s.conn == Some(conn) && WireGood(s, conn, position)
    ensures StreamMoved(s, StreamStep(s, conn, SendBacklog), position)
  {
    if conn.stream.phase.Sending? {
      SendKeeps(conn, s.e.history, s.published);
      SendExact(conn.stream, s.e.history);
      EmitKeeps(s, conn, conn.(stream := SendPage(conn.stream)), position);
    }
  }

  lemma {:induction false} ReadGood(s: System, conn: Connection, limit: nat, position: nat)
    requires ServerGood(s.e, s.now, s.published) && s.conn == Some(conn) && WireGood(s, conn, position)
    ensures StreamMoved(s, StreamStep(s, conn, ReadBacklog(limit)), position)
  {
    if conn.stream.phase.Reading? && limit >= 1 {
      var conn' := conn.(stream := ReadPage(conn.stream, s.e.space, limit));
      ReadKeeps(conn, s.e, s.published, limit);
      if Ending(conn'.stream.phase) {
        EndKeeps(s, conn, conn', position);
      } else {
        assert s.e.history[conn.stream.lastSequence..conn.stream.lastSequence] == [];
        EmitKeeps(s, conn, conn', position);
      }
    }
  }

  lemma {:induction false} TakeGood(s: System, conn: Connection, position: nat)
    requires s.conn == Some(conn) && WireGood(s, conn, position)
    ensures StreamMoved(s, StreamStep(s, conn, TakeLive), position)
  {
    if conn.stream.phase.Following? && conn.channel.queue != [] {
      TakeKeeps(conn, s.e.history, s.published);
      TakeChannel(conn, s.e.history, s.published);
      EmitKeeps(s, conn, TakeNext(conn), position);
    }
  }

  // ---- Every step keeps the invariant ----

  lemma {:induction false} MutateKeeps(s: System, op: StoreOp)
    requires SystemInv(s) && op.Now() >= s.now
    ensures SystemInv(s.(e := Step(s.e, op), now := op.Now()))
  {
    var e' := Step(s.e, op);
    FoldStep(s.e, op);
    RetainedLog.LogStep(s.e, op);
    assert s.e.history <= e'.history;
    if s.client.cursor.Some? {
      InSyncStep(s.client.documents, s.collection, s.client.cursor.value.sequence, s.e, op);
    }
    if s.listing.NextPage? {
      FuzzyStep(s.listing.documents, s.listing.after, s.e, op);
    }
    if s.conn.Some? {
      CommitWire(s, s.conn.value, s.client.cursor.value.sequence, op);
    }
  }

  lemma {:induction false} CommitWire(s: System, conn: Connection, position: nat, op: StoreOp)
    requires ServerGood(s.e, s.now, s.published) && WireGood(s, conn, position) && Sequenced(Step(s.e, op).history)
    ensures WireGood(s.(e := Step(s.e, op), now := op.Now()), conn, position)
  {
    var chs := Exec(s.e.space, op).changes;
    CommitKeeps(conn, s.e.history, s.published, chs);
    assert (s.e.history + chs)[position..s.sent] == s.e.history[position..s.sent];
  }

  lemma {:induction false} ServerKeeps(s: System, event: Event)
    requires SystemInv(s)
    ensures SystemInv(ServerStep(s, event))
  {
    match event
    case Mutate(op) =>
      if op.Now() >= s.now {
        MutateKeeps(s, op);
      }
    case PublishNextChange =>
      PublishKeeps(s);
    case Accept =>
    case _ =>
      if s.conn.Some? {
        StreamStepGood(s, s.conn.value, event, s.client.cursor.value);
      }
  }

  lemma {:induction false} PublishKeeps(s: System)
    requires SystemInv(s)
    ensures SystemInv(ServerStep(s, PublishNextChange))
  {
    if s.published < |s.e.history| && s.conn.Some? {
      PublishWire(s, s.conn.value, s.client.cursor.value.sequence);
    }
  }

  lemma {:induction false} PublishWire(s: System, conn: Connection, position: nat)
    requires WireGood(s, conn, position) && s.published < |s.e.history|
    ensures var conn' := PublishNext(conn, s.e.history, s.published, s.queueSize);
            WireGood(s.(published := s.published + 1, conn := Some(conn')), conn', position)
  {
    PublishGoodNext(conn, s.e.history, s.published, s.queueSize);
  }

  lemma {:induction false} DeliverKeeps(s: System)
    requires SystemInv(s) && s.client.source && s.wire != []
    ensures SystemInv(DeliverStep(s))
  {
    var conn, position := s.conn.value, s.client.cursor.value.sequence;
    var wanted := Wanted(s.e.history[position..s.sent], {s.collection});
    if wanted != [] {
      DeliverWire(s, conn, position);
      InSyncNext(s.client.documents, s.collection, position, s.sent, s.e);
      Browser.WireIsChange(s.client.documents, wanted[0]);
    }
  }

  /** The first event on the wire is the next wanted change, and the rest follow it. */
  lemma {:induction false} DeliverWire(s: System, conn: Connection, position: nat)
    requires WireGood(s, conn, position) && s.wire != []
    requires Wanted(s.e.history[position..s.sent], {s.collection}) != []
    ensures var next := Wanted(s.e.history[position..s.sent], {s.collection})[0];
            && s.wire[0] == ChangeSent(Browser.ToWire(next), ChangeCursor(s.ns, next.sequence))
            && (forall client :: WireGood(s.(client := client, wire := s.wire[1..]), conn, next.sequence))
  {
    var wanted := Wanted(s.e.history[position..s.sent], {s.collection});
    FirstWanted(s.e.history, {s.collection}, position, s.sent);
    assert s.wire[0] == Sends(wanted, s.ns)[0];
    assert s.wire[1..] == Sends(wanted[1..], s.ns) + (if Ending(conn.stream.phase) then [ResetSent] else []);
  }

  lemma {:induction false} TakePageKeeps(
    s: System, documents: seq<Document>, cursor: PageCursor, changes: ChangeCursor, limit: nat)
    requires SystemInv(s) && s.client.listing && limit >= 1
    requires cursor.ns == s.ns && cursor.collection == s.collection && Listing(documents, cursor, s.e)
    requires changes == ChangeCursor(s.ns, cursor.watermark)
    ensures var r := List(s.e.space, s.ns, s.collection, limit, At(cursor));
            r.Ok? && r.value.changes == changes && SystemInv(TakePage(s, documents, changes, r.value))
  {
    FuzzyServed(documents, cursor, limit, s.e);
    var page := List(s.e.space, s.ns, s.collection, limit, At(cursor)).value;
    if page.after.None? {
      Browser.MapOfDistinct(documents + page.documents);
    }
  }

  lemma {:induction false} FetchKeeps(s: System, limit: nat)
    requires SystemInv(s) && s.client.listing && limit >= 1
    ensures SystemInv(FetchStep(s, limit))
  {
    match s.listing
    case NoListing =>
    case FirstPage =>
      var cursor := PageCursor(s.ns, s.collection, s.e.space.last, 0, "");
      FuzzyBegin(s.e, s.ns, s.collection);
      ListStarts(s.e, s.ns, s.collection, limit);
      TakePageKeeps(s, [], cursor, ChangeCursor(s.ns, cursor.watermark), limit);
    case NextPage(documents, changes, after) =>
      TakePageKeeps(s, documents, after, changes, limit);
  }

  lemma {:induction false} ClientKeeps(s: System, event: Event)
    requires SystemInv(s)
    ensures SystemInv(ClientStep(s, event))
  {
    match event
    case Deliver =>
      if s.client.source && s.wire != [] {
        DeliverKeeps(s);
      }
    case FetchPage(limit) =>
      if s.client.listing && limit >= 1 {
        FetchKeeps(s, limit);
      }
    case _ =>
  }

  lemma {:induction false} StepKeeps(s: System, event: Event)
    requires SystemInv(s)
    ensures SystemInv(SystemStep(s, event))
  {
    ClientKeeps(s, event);
    ServerKeeps(s, event);
  }

  lemma {:induction false} InitialGood(ns: string, collection: string, queueSize: nat, now: int)
    ensures SystemInv(Initial(ns, collection, queueSize, now))
  {
    TableIsFoldOfHistory([]);
  }

  lemma {:induction false} ReachGood(s: System, events: seq<Event>)
    requires SystemInv(s)
    ensures SystemInv(Reach(s, events))
  {
    if events != [] {
      ReachGood(s, events[..|events| - 1]);
      StepKeeps(Reach(s, events[..|events| - 1]), events[|events| - 1]);
    }
  }

  // ---- The results ----

  /** Nothing is on its way: everything committed is published, and the stream and the wire are drained. */
  predicate Quiet(s: System) {
    && s.published == |s.e.history|
    && s.wire == []
    && s.conn.Some?
    && s.conn.value.stream.phase.Following?
    && s.conn.value.channel.queue == [] && !s.conn.value.channel.closed
  }

  /** Convergence: after any run, a browser past its first listing holds a map from which the changes
      after its cursor lead to exactly the server's collection, in the server's order. */
  lemma {:induction false} Converges(ns: string, c: string, queueSize: nat, now: int, events: seq<Event>)
    ensures var s := Reach(Initial(ns, c, queueSize, now), events);
            s.client.cursor.Some? ==>
              var position := s.client.cursor.value.sequence;
              && position <= |s.e.history|
              && Replay(s.client.documents, Wanted(s.e.history[position..], {c})) == Project(s.e.space.rows, c)
              && (Wanted(s.e.history[position..], {c}) == [] ==> s.client.documents == Project(s.e.space.rows, c))
  {
    InitialGood(ns, c, queueSize, now);
    ReachGood(Initial(ns, c, queueSize, now), events);
    FixedNames(Initial(ns, c, queueSize, now), events);
  }

  /** When nothing is on its way the browser shows exactly the server's collection: no change was lost
      between the listing, the backlog and the live events, whatever happened before. */
  lemma {:induction false} QuietMeansEqual(ns: string, c: string, queueSize: nat, now: int, events: seq<Event>)
    requires Quiet(Reach(Initial(ns, c, queueSize, now), events))
    ensures var s := Reach(Initial(ns, c, queueSize, now), events);
            s.client.documents == Project(s.e.space.rows, c)
  {
    var s := Reach(Initial(ns, c, queueSize, now), events);
    InitialGood(ns, c, queueSize, now);
    ReachGood(Initial(ns, c, queueSize, now), events);
    FixedNames(Initial(ns, c, queueSize, now), events);
    NothingLeft(s, s.conn.value, s.client.cursor.value.sequence);
  }

  lemma {:induction false} NothingLeft(s: System, conn: Connection, position: nat)
    requires WireGood(s, conn, position) && s.conn == Some(conn) && Quiet(s)
    ensures Wanted(s.e.history[position..], {s.collection}) == []
  {
    var history, cs, last := s.e.history, {s.collection}, conn.stream.lastSequence;
    assert |Sends(Wanted(history[position..last], cs), s.ns)| == 0;
    assert Wanted(history[conn.taken..s.published], cs) == [];
    NothingWanted(history, cs, position, last, conn.taken);
  }

  lemma {:induction false} NothingWanted(history: seq<Change>, cs: set<string>, position: nat, last: nat, taken: nat)
    requires position <= last <= |history| && taken <= |history|
    requires Wanted(history[position..last], cs) == [] && Wanted(history[taken..|history|], cs) == []
    requires last < taken ==> Wanted(history[last..taken], cs) == []
    ensures Wanted(history[position..], cs) == []
  {
    assert history[taken..|history|] == history[taken..];
    WantedSplit(history, cs, position, last);
    if last < taken {
      WantedSplit(history, cs, last, taken);
    } else {
      WantedSplit(history, cs, taken, last);
    }
  }

  lemma {:induction false} WantedSplit(history: seq<Change>, cs: set<string>, a: nat, b: nat)
    requires a <= b <= |history|
    ensures Wanted(history[a..], cs) == Wanted(history[a..b], cs) + Wanted(history[b..], cs)
  {
    assert history[a..] == history[a..b] + history[b..];
    WantedConcat(history[a..b], history[b..], cs);
  }

  lemma {:induction false} FixedNames(s: System, events: seq<Event>)
    ensures Reach(s, events).ns == s.ns && Reach(s, events).collection == s.collection
  {
    if events != [] {
      FixedNames(s, events[..|events| - 1]);
      StepNames(Reach(s, events[..|events| - 1]), events[|events| - 1]);
    }
  }

  lemma {:induction false} StepNames(s: System, event: Event)
    ensures SystemStep(s, event).ns == s.ns && SystemStep(s, event).collection == s.collection
  {
  }

  /** No gap and no repeat: what an open stream has written is exactly the subscribed changes after the
      cursor it was opened at, up to its last sequence, across backlog pages and live events. */
  lemma {:induction false} StreamIsGapFree(ns: string, c: string, queueSize: nat, now: int, events: seq<Event>)
    ensures var s := Reach(Initial(ns, c, queueSize, now), events);
            s.conn.Some? && Running(s.conn.value.stream.phase) ==>
              var conn := s.conn.value;
              && conn.origin <= conn.stream.lastSequence <= |s.e.history|
              && conn.stream.written == Wanted(s.e.history[conn.origin..conn.stream.lastSequence], {c})
  {
    var s := Reach(Initial(ns, c, queueSize, now), events);
    InitialGood(ns, c, queueSize, now);
    ReachGood(Initial(ns, c, queueSize, now), events);
    FixedNames(Initial(ns, c, queueSize, now), events);
    if s.conn.Some? && Running(s.conn.value.stream.phase) {
      var conn := s.conn.value;
      assert WrittenUpTo(conn.stream, s.e.history, conn.origin);
      ShownAll(s.e.history[conn.origin..conn.stream.lastSequence], {c});
    }
  }
}
