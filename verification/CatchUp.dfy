/** Nothing is left undone: without further writes and failures, whatever order the steps are taken in, the
    machine of `Convergence` comes to rest after a bounded number of steps, with browser and server equal. */
module CatchUp {
  import opened Wrappers
  import opened ChangeLog
  import DocumentTable
  import opened DocumentStore
  import StoreHistory
  import RetainedLog
  import PagedListing
  import opened ChangeStream
  import opened Convergence
  import Hub = ChangeHub
  import Browser = BrowserClient

  predicate InPhase(s: System, phase: Phase) {
    s.conn.Some? && s.conn.value.stream.phase == phase
  }

  /** The events that are part of the program's own work and have something to work on. */
  predicate Works(s: System, event: Event) {
    match event
    case PublishNextChange => s.published < |s.e.history|
    case Accept => s.client.source && s.conn.None?
    case BeginStream(limit, _) => InPhase(s, Opening) && limit >= 1
    case SendBacklog => InPhase(s, Sending)
    case ReadBacklog(limit) => InPhase(s, Reading) && limit >= 1
    case TakeLive => InPhase(s, Following) && s.conn.value.channel.queue != []
    case FindClosed => InPhase(s, Following) && s.conn.value.channel == Hub.Channel(s.conn.value.channel.home, [], true)
    case Deliver => s.client.source && s.wire != []
    case FireTimer => s.client.timer.Armed?
    case FetchPage(limit) => s.client.listing && limit >= 1
    case _ => false
  }

  // ---- The measure ----

  predicate Retained(e: StoreHistory.Epoch, position: nat) {
    |e.history| <= |e.space.log| + position
  }

  predicate StaleCursor(client: Browser.Client, e: StoreHistory.Epoch) {
    client.cursor.Some? && !Retained(e, client.cursor.value.sequence)
  }

  predicate Dropped(conn: Option<Connection>) {
    conn.Some? && (conn.value.channel.closed || Ending(conn.value.stream.phase))
  }

  /** The browser is on a course that may end in another listing. */
  predicate Stale(s: System) {
    if s.client.listing then s.listing.NextPage? && !Retained(s.e, s.listing.changes.sequence)
    else s.client.timer == Browser.Armed(true) || StaleCursor(s.client, s.e) || Dropped(s.conn)
  }

  function Stage(s: System): nat {
    if s.client.listing then 7
    else if s.client.timer == Browser.Armed(false) then 6
    else if s.client.timer == Browser.Armed(true) then 1
    else if s.conn.None? then 5
    else if s.conn.value.stream.phase.Opening? then 4
    else if Running(s.conn.value.stream.phase) then 3
    else 2
  }

  /** What is left of a backlog from sequence `at` on. */
  function Backlog(s: Stream, n: nat): int {
    match s.phase
    case Reading => 2 * (n - s.lastSequence) + 2
    case Sending => if s.page.more then 2 * (n - s.page.cursor.sequence) + 3 else 1
    case _ => 0
  }

  function Streaming(conn: Connection, position: nat, n: nat): int {
    (n - position) + (if Running(conn.stream.phase) then n - conn.taken + Backlog(conn.stream, n) else 0)
  }

  function Work(s: System): int {
    var n := |s.e.history|;
    if s.client.listing then
      if s.listing.NextPage? then s.listing.after.watermark - s.listing.after.sequence else n + 1
    else if s.conn.Some? && s.client.cursor.Some? then Streaming(s.conn.value, s.client.cursor.value.sequence, n)
    else 0
  }

  datatype Measure = Measure(unpublished: int, stale: bool, stage: nat, work: int)

  function MeasureOf(s: System): Measure {
    Measure(|s.e.history| - s.published, Stale(s), Stage(s), Work(s))
  }

  /** Lexicographic order. */
  predicate Less(a: Measure, b: Measure) {
    if a.unpublished != b.unpublished then a.unpublished < b.unpublished
    else if a.stale != b.stale then b.stale
    else if a.stage != b.stage then a.stage < b.stage
    else a.work < b.work
  }

  // ---- Every working step lowers it ----

  /** A browser that is streaming, with the connection that serves it. */
  predicate Streams(s: System, conn: Connection, position: nat) {
    && s.conn == Some(conn)
    && s.client.cursor.Some? && s.client.cursor.value.sequence == position
    && !s.client.listing && s.client.timer == Browser.NoTimer
  }

  function ConnMeasure(conn: Connection, e: StoreHistory.Epoch, published: nat, position: nat): Measure {
    var stage := if conn.stream.phase.Opening? then 4 else if Running(conn.stream.phase) then 3 else 2;
    Measure(|e.history| - published, !Retained(e, position) || Dropped(Some(conn)), stage,
            Streaming(conn, position, |e.history|))
  }

  lemma {:induction false} StreamsInv(s: System) returns (conn: Connection, after: ChangeCursor)
    requires SystemInv(s) && s.conn.Some?
    ensures s.client.cursor == Some(after) && after.ns == s.ns && Streams(s, conn, after.sequence)
    ensures ServerGood(s.e, s.now, s.published) && WireGood(s, conn, after.sequence)
    ensures MeasureOf(s) == ConnMeasure(conn, s.e, s.published, after.sequence)
  {
    conn, after := s.conn.value, s.client.cursor.value;
  }

  lemma {:induction false} EmitLess(s: System, conn: Connection, conn': Connection, position: nat)
    requires Streams(s, conn, position)
    requires Less(ConnMeasure(conn', s.e, s.published, position), ConnMeasure(conn, s.e, s.published, position))
    ensures Less(MeasureOf(Emit(s, conn, conn')), MeasureOf(s))
  {
  }

  /** A stream opened at a retained position gets its first page; at any other it ends. */
  lemma {:induction false} BeginMoves(s: System, conn: Connection, after: ChangeCursor, limit: nat, missing: bool)
    returns (stream: Stream)
    requires ServerGood(s.e, s.now, s.published) && WireGood(s, conn, after.sequence)
    requires conn.stream.phase.Opening? && limit >= 1 && after.ns == s.ns
    ensures BeginStep(s, conn, after, limit, missing) == Emit(s, conn, conn.(stream := stream, origin := after.sequence))
    ensures if Retained(s.e, after.sequence) then stream.phase == Sending else Ending(stream.phase)
  {
    var store := if missing && s.e.history == [] then None else Some(s.e.space);
    stream := Begin(conn.stream, Some(after), None, store, limit);
    BeginStreamGood(s, conn, after, limit, missing);
    if store.Some? {
      BeginKeeps(conn, s.e, s.published, after, limit);
    }
  }

  lemma {:induction false} BeginLess(s: System, limit: nat, missing: bool)
    requires SystemInv(s) && Works(s, BeginStream(limit, missing))
    ensures Less(MeasureOf(SystemStep(s, BeginStream(limit, missing))), MeasureOf(s))
  {
    var conn, after := StreamsInv(s);
    var stream := BeginMoves(s, conn, after, limit, missing);
    EmitLess(s, conn, conn.(stream := stream, origin := after.sequence), after.sequence);
  }

  lemma {:induction false} SendLess(s: System)
    requires SystemInv(s) && Works(s, SendBacklog)
    ensures Less(MeasureOf(SystemStep(s, SendBacklog)), MeasureOf(s))
  {
    var conn, after := StreamsInv(s);
    SendExact(conn.stream, s.e.history);
    EmitLess(s, conn, conn.(stream := SendPage(conn.stream)), after.sequence);
  }

  /** Reading on from a retained position makes progress; from any other it ends the stream. */
  lemma {:induction false} ReadMoves(stream: Stream, e: StoreHistory.Epoch, limit: nat) returns (stream': Stream)
    requires stream.phase == Reading && stream.page.cursor == ChangeCursor(stream.ns, stream.lastSequence)
    requires e.space.last == |e.history| && StoreHistory.Sequenced(e.history) && RetainedLog.Contiguous(e.space.log, e.history)
    requires stream.lastSequence <= |e.history| && limit >= 1
    ensures stream' == ReadPage(stream, e.space, limit) && stream'.lastSequence == stream.lastSequence
    ensures if Retained(e, stream.lastSequence)
            then stream'.phase == Sending && Backlog(stream', |e.history|) < Backlog(stream, |e.history|)
            else Ending(stream'.phase)
  {
    stream' := ReadPage(stream, e.space, limit);
    RetainedLog.ChangesExact(e.space, e.history, stream.ns, stream.collections, stream.page.cursor, limit);
  }

  lemma {:induction false} ReadLess(s: System, limit: nat)
    requires SystemInv(s) && Works(s, ReadBacklog(limit))
    ensures Less(MeasureOf(SystemStep(s, ReadBacklog(limit))), MeasureOf(s))
  {
    var conn, after := StreamsInv(s);
    var stream' := ReadMoves(conn.stream, s.e, limit);
    EmitLess(s, conn, conn.(stream := stream'), after.sequence);
  }

  lemma {:induction false} TakeLess(s: System)
    requires SystemInv(s) && Works(s, TakeLive)
    ensures Less(MeasureOf(SystemStep(s, TakeLive)), MeasureOf(s))
  {
    var conn, after := StreamsInv(s);
    TakeChannel(conn, s.e.history, s.published);
    EmitLess(s, conn, TakeNext(conn), after.sequence);
  }

  lemma {:induction false} FindClosedLess(s: System)
    requires SystemInv(s) && Works(s, FindClosed)
    ensures Less(MeasureOf(SystemStep(s, FindClosed)), MeasureOf(s))
  {
    var conn, after := StreamsInv(s);
    EmitLess(s, conn, conn.(stream := TakeEvent(conn.stream, None)), after.sequence);
  }

  /** Handling a change moves the cursor on. */
  lemma {:induction false} ChangeLess(s: System, conn: Connection, after: ChangeCursor)
    requires Streams(s, conn, after.sequence) && WireGood(s, conn, after.sequence) && s.wire != [] && s.client.source
    requires Wanted(s.e.history[after.sequence..s.sent], {s.collection}) != []
    ensures Less(MeasureOf(SystemStep(s, Deliver)), ConnMeasure(conn, s.e, s.published, after.sequence))
  {
    DeliverWire(s, conn, after.sequence);
    FirstWanted(s.e.history, {s.collection}, after.sequence, s.sent);
    var next := Wanted(s.e.history[after.sequence..s.sent], {s.collection})[0].sequence;
    var s' := SystemStep(s, Deliver);
    assert Streams(s', conn, next);
    assert MeasureOf(s') == ConnMeasure(conn, s.e, s.published, next);
  }

  /** Handling a reset leaves only the timer. */
  lemma {:induction false} ResetLess(s: System, conn: Connection, position: nat)
    requires Streams(s, conn, position) && Ending(conn.stream.phase) && s.wire == [ResetSent] && s.client.source
    requires !s.client.stopped
    ensures Less(MeasureOf(SystemStep(s, Deliver)), ConnMeasure(conn, s.e, s.published, position))
  {
  }

  lemma {:induction false} DeliverLess(s: System)
    requires SystemInv(s) && Works(s, Deliver)
    ensures Less(MeasureOf(SystemStep(s, Deliver)), MeasureOf(s))
  {
    var conn, after := StreamsInv(s);
    if Wanted(s.e.history[after.sequence..s.sent], {s.collection}) != [] {
      ChangeLess(s, conn, after);
    } else {
      assert s.wire == [ResetSent];
      ResetLess(s, conn, after.sequence);
    }
  }

  lemma {:induction false} PageLess(s: System, documents: seq<Document>, cursor: PageCursor, page: ListPage)
    requires s.client.listing && !s.client.stopped && s.client.timer == Browser.NoTimer && s.conn.None?
    requires PagedListing.Honest(cursor, s.e.history) && s.listing != NoListing
    requires s.listing.NextPage? ==> s.listing.after == cursor && s.listing.changes.sequence == cursor.watermark
    requires s.listing.FirstPage? ==> cursor.watermark == |s.e.history|
    requires exists limit: nat :: PagedListing.PageServed(s.e, cursor, limit, page)
    ensures Less(MeasureOf(TakePage(s, documents, ChangeCursor(s.ns, cursor.watermark), page)), MeasureOf(s))
  {
  }

  lemma {:induction false} FetchLess(s: System, limit: nat)
    requires SystemInv(s) && Works(s, FetchPage(limit))
    ensures Less(MeasureOf(SystemStep(s, FetchPage(limit))), MeasureOf(s))
  {
    var cursor := if s.listing.FirstPage? then PageCursor(s.ns, s.collection, s.e.space.last, 0, "") else s.listing.after;
    PagedListing.ListStarts(s.e, s.ns, s.collection, limit);
    PagedListing.ListServes(s.e, cursor, limit);
    var page := List(s.e.space, s.ns, s.collection, limit, DocumentStore.At(cursor)).value;
    PageLess(s, if s.listing.FirstPage? then [] else s.listing.documents, cursor, page);
  }

  lemma {:induction false} AloneLess(s: System, event: Event)
    requires SystemInv(s) && Works(s, event) && (event.PublishNextChange? || event.Accept? || event.FireTimer?)
    ensures Less(MeasureOf(SystemStep(s, event)), MeasureOf(s))
  {
  }

  lemma {:induction false} WorkLess(s: System, event: Event)
    requires SystemInv(s) && Works(s, event)
    ensures Less(MeasureOf(SystemStep(s, event)), MeasureOf(s))
  {
    match event
    case BeginStream(limit, missing) => BeginLess(s, limit, missing);
    case SendBacklog => SendLess(s);
    case ReadBacklog(limit) => ReadLess(s, limit);
    case TakeLive => TakeLess(s);
    case FindClosed => FindClosedLess(s);
    case Deliver => DeliverLess(s);
    case FetchPage(limit) => FetchLess(s, limit);
    case _ => AloneLess(s, event);
  }

  // ---- How long that can go on ----

  /** A measure within the bounds that n committed changes set. */
  predicate Bounded(m: Measure, n: nat) {
    0 <= m.unpublished <= n && m.stage < 8 && 0 <= m.work < 4 * (n + 1)
  }

  lemma {:induction false} MeasureBounds(s: System)
    requires SystemInv(s)
    ensures Bounded(MeasureOf(s), |s.e.history|)
  {
    if s.conn.Some? {
      var conn, after := StreamsInv(s);
    }
  }

  function Coarse(m: Measure): int {
    (m.unpublished * 2 + if m.stale then 1 else 0) * 8 + m.stage
  }

  function Rank(m: Measure, n: nat): int {
    Coarse(m) * (4 * (n + 1)) + m.work
  }

  lemma {:induction false} Multiply(x: int, y: int, span: int)
    requires x < y && span > 0
    ensures x * span + span <= y * span
  {
    assert (x + 1) * span <= y * span;
  }

  lemma {:induction false} RankLess(a: Measure, b: Measure, n: nat)
    requires Less(a, b) && Bounded(a, n) && Bounded(b, n)
    ensures Rank(a, n) < Rank(b, n)
  {
    if Coarse(a) != Coarse(b) {
      Multiply(Coarse(a), Coarse(b), 4 * (n + 1));
    }
  }

  lemma {:induction false} RankBounds(m: Measure, n: nat)
    requires Bounded(m, n)
    ensures 0 <= Rank(m, n) < 64 * ((n + 1) * (n + 1))
  {
    var span := 4 * (n + 1);
    Multiply(-1, Coarse(m), span);
    Multiply(Coarse(m), 16 * (n + 1), span);
  }

  /** A schedule in which every event has something to work on. */
  predicate AllWork(s: System, more: seq<Event>) {
    more == [] ||
    (AllWork(s, more[..|more| - 1]) && Works(Reach(s, more[..|more| - 1]), more[|more| - 1]))
  }

  lemma {:induction false} WorkRanks(s: System, more: seq<Event>)
    requires SystemInv(s) && AllWork(s, more)
    ensures var s', n := Reach(s, more), |s.e.history|;
            SystemInv(s') && s'.e == s.e && |more| + Rank(MeasureOf(s'), n) <= Rank(MeasureOf(s), n)
  {
    if more != [] {
      var init, event := more[..|more| - 1], more[|more| - 1];
      WorkRanks(s, init);
      WorkRanksNext(Reach(s, init), event);
    }
  }

  lemma {:induction false} WorkSpares(s: System, event: Event)
    requires Works(s, event)
    ensures SystemStep(s, event).e == s.e
  {
  }

  lemma {:induction false} WorkRanksNext(s: System, event: Event)
    requires SystemInv(s) && Works(s, event)
    ensures var s' := SystemStep(s, event);
            && SystemInv(s') && s'.e == s.e
            && Rank(MeasureOf(s'), |s.e.history|) < Rank(MeasureOf(s), |s.e.history|)
  {
    StepKeeps(s, event);
    WorkLess(s, event);
    WorkSpares(s, event);
    MeasureBounds(s);
    MeasureBounds(SystemStep(s, event));
    RankLess(MeasureOf(SystemStep(s, event)), MeasureOf(s), |s.e.history|);
  }

  ghost predicate AtRest(s: System) {
    forall event :: !Works(s, event)
  }

  lemma {:induction false} RestMeans(s: System)
    requires AtRest(s)
    ensures s.published >= |s.e.history| && !s.client.timer.Armed? && !s.client.listing
    ensures s.client.source ==> s.conn.Some? && s.wire == []
    ensures s.conn.Some? ==>
              var conn := s.conn.value;
              && !conn.stream.phase.Opening? && !conn.stream.phase.Sending? && !conn.stream.phase.Reading?
              && (conn.stream.phase.Following? ==> conn.channel.queue == [] && !conn.channel.closed)
  {
    assert !Works(s, PublishNextChange) && !Works(s, FireTimer) && !Works(s, FetchPage(1)) && !Works(s, Accept);
    assert !Works(s, Deliver);
    if s.conn.Some? {
      assert !Works(s, BeginStream(1, false)) && !Works(s, SendBacklog) && !Works(s, ReadBacklog(1));
      assert !Works(s, TakeLive) && !Works(s, FindClosed);
    }
  }

  /** When no step has anything left to work on, nothing is on its way. */
  lemma {:induction false} RestIsQuiet(s: System)
    requires SystemInv(s) && !s.client.stopped && AtRest(s)
    ensures Quiet(s)
  {
    RestMeans(s);
    var conn, after := StreamsInv(s);
  }

  /** After any run whatever, once writes and failures pause, the remaining steps in any order are fewer than
      64 (n + 1) squared for n committed changes, and when none is left a browser that still subscribes
      shows exactly the server's collection. */
  lemma {:induction false} AlwaysCatchesUp(
    ns: string, c: string, queueSize: nat, now: int, events: seq<Event>, more: seq<Event>)
    requires AllWork(Reach(Initial(ns, c, queueSize, now), events), more)
    ensures var s := Reach(Initial(ns, c, queueSize, now), events);
            var s', n := Reach(s, more), |s.e.history|;
            && |more| < 64 * ((n + 1) * (n + 1))
            && s'.e == s.e
            && (!s'.client.stopped && AtRest(s') ==> s'.client.documents == DocumentTable.Project(s'.e.space.rows, c))
  {
    var first := Initial(ns, c, queueSize, now);
    InitialGood(ns, c, queueSize, now);
    ReachGood(first, events);
    FixedNames(first, events);
    SettlesFrom(Reach(first, events), more);
  }

  lemma {:induction false} SettlesFrom(s: System, more: seq<Event>)
    requires SystemInv(s) && AllWork(s, more)
    ensures var s', n := Reach(s, more), |s.e.history|;
            && |more| < 64 * ((n + 1) * (n + 1))
            && s'.e == s.e
            && (!s'.client.stopped && AtRest(s') ==> s'.client.documents == DocumentTable.Project(s'.e.space.rows, s.collection))
  {
    WorkRanks(s, more);
    MeasureBounds(s);
    MeasureBounds(Reach(s, more));
    RankBounds(MeasureOf(s), |s.e.history|);
    RankBounds(MeasureOf(Reach(s, more)), |s.e.history|);
    FixedNames(s, more);
    if !Reach(s, more).client.stopped && AtRest(Reach(s, more)) {
      RestIsQuiet(Reach(s, more));
      QuietIsEqual(Reach(s, more));
    }
  }

  lemma {:induction false} QuietIsEqual(s: System)
    requires SystemInv(s) && Quiet(s)
    ensures s.client.documents == DocumentTable.Project(s.e.space.rows, s.collection)
  {
    var conn, after := StreamsInv(s);
    NothingLeft(s, conn, after.sequence);
  }

  // ---- What is written arrives, and what fails is noticed ----

  /** Whatever a client writes after any run is, once the remaining steps are taken in any order, what a browser that
      still subscribes shows. */
  lemma {:induction false} WritesArrive(
    ns: string, c: string, queueSize: nat, now: int, events: seq<Event>, op: StoreOp, more: seq<Event>)
    requires op.Now() >= Reach(Initial(ns, c, queueSize, now), events).now
    requires AllWork(Reach(Initial(ns, c, queueSize, now), events + [Mutate(op)]), more)
    ensures var s := Reach(Initial(ns, c, queueSize, now), events);
            var s' := Reach(Reach(Initial(ns, c, queueSize, now), events + [Mutate(op)]), more);
            !s'.client.stopped && AtRest(s') ==>
              s'.client.documents == DocumentTable.Project(Exec(s.e.space, op).space.rows, c)
  {
    var first := Initial(ns, c, queueSize, now);
    assert (events + [Mutate(op)])[..|events + [Mutate(op)]| - 1] == events;
    Written(Reach(first, events), op);
    AlwaysCatchesUp(ns, c, queueSize, now, events + [Mutate(op)], more);
  }

  lemma {:induction false} Written(s: System, op: StoreOp)
    requires op.Now() >= s.now
    ensures SystemStep(s, Mutate(op)).e.space == Exec(s.e.space, op).space
    ensures SystemStep(s, Mutate(op)).e.history == s.e.history + Exec(s.e.space, op).changes
  {
  }

  /** A lost connection loses what was still on its way, and the browser knows. */
  lemma {:induction false} LossIsNoticed(s: System)
    requires s.client.source
    ensures var s' := SystemStep(s, Disconnect);
            s' == s.(client := Browser.Handle(s.client, Browser.ErrorEvent), conn := None, wire := [])
    ensures var s' := SystemStep(s, Unreadable);
            s' == s.(client := Browser.Handle(s.client, Browser.UnreadableEvent), conn := None, wire := [])
    ensures SystemStep(s, Opened) == s.(client := Browser.Handle(s.client, Browser.OpenEvent))
  {
  }

  /** So with a listing that fails and a subscription that is stopped. */
  lemma {:induction false} EndIsNoticed(s: System)
    ensures s.client.listing ==>
              SystemStep(s, ListingFails) == s.(client := Browser.Handle(s.client, Browser.ListFailedEvent), listing := NoListing)
    ensures SystemStep(s, StopClient)
         == s.(client := Browser.Handle(s.client, Browser.StopEvent), conn := None, wire := [], listing := NoListing)
  {
  }

  /** A stream that follows and is reset says so to the browser, after everything it has written. */
  lemma {:induction false} ResetIsSent(s: System, reason: string)
    requires s.conn.Some? && s.conn.value.stream.phase.Following?
    ensures var s' := SystemStep(s, ResetStream(reason));
            && s'.conn.Some? && s'.conn.value.stream.phase == WasReset(reason)
            && s'.wire == s.wire + [ResetSent] && s'.client == s.client && s'.e == s.e
  {
  }
}
