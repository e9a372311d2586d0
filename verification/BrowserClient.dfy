/** The browser's live collection: its document map, its cursor, and how it reconnects and re-lists. */
module BrowserClient {
  import opened Wrappers
  import opened ChangeLog
  import opened DocumentStore
  import FuzzyListing

  /** A change as the stream sends it: the ID travels inside the document unless there is none. */
  datatype WireChange = WireChange(operation: Operation, document: Option<Document>, id: string, revision: string)

  function ToWire(ch: Change): WireChange {
    if ch.document.Some? then WireChange(ch.operation, ch.document, "", "")
    else WireChange(ch.operation, None, ch.id, ch.revision)
  }

  datatype Timer = NoTimer | Armed(relist: bool)

  /** The variables captured by `subscribe`. `source` is whether an event source is open. */
  datatype Client = Client(
    documents: seq<Document>, cursor: Option<ChangeCursor>, source: bool, listing: bool,
    timer: Timer, backoff: int, stopped: bool)

  const FIRST_BACKOFF := 500
  const MAX_BACKOFF := 30000

  function Idle(): Client {
    Client([], None, false, false, NoTimer, FIRST_BACKOFF, false)
  }

  // ---- The handlers as functions ----

  function MapOf(docs: seq<Document>): seq<Document> {
    if docs == [] then [] else Set(MapOf(docs[..|docs| - 1]), docs[|docs| - 1])
  }

  function ApplyWire(m: seq<Document>, w: WireChange): seq<Document> {
    if w.operation.ChangeDelete? then Remove(m, w.id)
    else if w.document.Some? then Set(m, w.document.value)
    else m
  }

  function Schedule(c: Client, relist: bool): Client {
    if c.stopped || c.timer.Armed? then c
    else c.(timer := Armed(relist), backoff := if c.backoff * 2 < MAX_BACKOFF then c.backoff * 2 else MAX_BACKOFF)
  }

  function Open(c: Client): Client {
    if c.stopped || c.cursor.None? then c else c.(source := true)
  }

  function Start(c: Client): Client {
    if c.stopped then c else c.(source := false, listing := true)
  }

  function ListingDone(c: Client, docs: seq<Document>, changes: ChangeCursor): Client {
    if c.stopped then c.(listing := false)
    else Open(c.(documents := MapOf(docs), cursor := Some(changes), backoff := FIRST_BACKOFF, listing := false))
  }

  function ListFailed(c: Client): Client {
    Schedule(c.(listing := false), true)
  }

  function OnOpen(c: Client): Client {
    c.(backoff := FIRST_BACKOFF)
  }

  function OnChange(c: Client, w: WireChange, lastEventId: Option<ChangeCursor>): Client {
    c.(documents := ApplyWire(c.documents, w), cursor := if lastEventId.Some? then lastEventId else c.cursor)
  }

  /** A reset, or an event that could not be read: list again. */
  function OnReset(c: Client): Client {
    Schedule(c.(source := false), true)
  }

  function OnError(c: Client): Client {
    Schedule(c.(source := false), false)
  }

  function OnTimer(c: Client): Client {
    match c.timer
    case NoTimer => c
    case Armed(relist) =>
      var c' := c.(timer := NoTimer);
      if relist then Start(c') else Open(c')
  }

  function Stop(c: Client): Client {
    c.(stopped := true, source := false, listing := false, timer := NoTimer)
  }

  // ---- The subscription object ----

  class LiveCollection {
    var documents: seq<Document>
    var cursor: Option<ChangeCursor>
    var source: bool
    var listing: bool
    var timer: Timer
    var backoff: int
    var stopped: bool

    function State(): Client
      reads this
    {
      Client(documents, cursor, source, listing, timer, backoff, stopped)
    }

    constructor ()
      ensures State() == Start(Idle())
    {
      documents, cursor, source, timer, backoff, stopped := [], None, false, NoTimer, FIRST_BACKOFF, false;
      listing := true;
    }

    method SetTimer(relist: bool)
      modifies this`timer, this`backoff
      ensures State() == Schedule(old(State()), relist)
    {
      if stopped || timer != NoTimer {
        return;
      }
      backoff := backoff * 2;
      if backoff > MAX_BACKOFF {
        backoff := MAX_BACKOFF;
      }
      timer := Armed(relist);
    }

    method OpenSource()
      modifies this`source
      ensures State() == Open(old(State()))
    {
      if stopped || cursor.None? {
        return;
      }
      source := true;
    }

    method StartListing()
      modifies this
      ensures State() == Start(old(State()))
    {
      if stopped {
        return;
      }
      source := false;
      listing := true;
    }

    method FinishListing(docs: seq<Document>, changes: ChangeCursor)
      modifies this
      ensures State() == ListingDone(old(State()), docs, changes)
    {
      listing := false;
      if stopped {
        return;
      }
      documents := [];
      for i := 0 to |docs|
        invariant State() == old(State()).(documents := MapOf(docs[..i]), listing := false)
      {
        assert docs[..i + 1][..i] == docs[..i];
        documents := Set(documents, docs[i]);
      }
      assert docs[..|docs|] == docs;
      cursor := Some(changes);
      backoff := FIRST_BACKOFF;
      OpenSource();
    }

    method FailListing()
      modifies this
      ensures State() == ListFailed(old(State()))
    {
      listing := false;
      SetTimer(true);
    }

    method HandleOpen()
      modifies this
      ensures State() == OnOpen(old(State()))
    {
      backoff := FIRST_BACKOFF;
    }

    method HandleChange(change: WireChange, lastEventId: Option<ChangeCursor>)
      modifies this
      ensures State() == OnChange(old(State()), change, lastEventId)
    {
      if change.operation.ChangeDelete? {
        documents := Remove(documents, change.id);
      } else if change.document.Some? {
        documents := Set(documents, change.document.value);
      }
      if lastEventId.Some? {
        cursor := lastEventId;
      }
    }

    method HandleReset()
      modifies this
      ensures State() == OnReset(old(State()))
    {
      source := false;
      SetTimer(true);
    }

    method HandleError()
      modifies this
      ensures State() == OnError(old(State()))
    {
      source := false;
      SetTimer(false);
    }

    method FireTimer()
      modifies this
      ensures State() == OnTimer(old(State()))
    {
      if timer == NoTimer {
        return;
      }
      var relist := timer.relist;
      timer := NoTimer;
      if relist {
        StartListing();
      } else {
        OpenSource();
      }
    }

    method Unsubscribe()
      modifies this
      ensures State() == Stop(old(State()))
    {
      stopped, source, listing, timer := true, false, false, NoTimer;
    }
  }

  // ---- One activity at a time ----

  /** Until it is stopped, a subscription is doing exactly one thing: listing, streaming, or waiting for
      one timer; it streams or plans to only with a cursor in hand, and the back-off stays in bounds. */
  predicate ClientInv(c: Client) {
    && FIRST_BACKOFF <= c.backoff <= MAX_BACKOFF
    && (c.stopped ==> !c.source && !c.listing && c.timer == NoTimer)
    && (!c.stopped ==> if c.listing then !c.source && c.timer == NoTimer else c.source <==> c.timer == NoTimer)
    && ((c.source || c.timer == Armed(false)) ==> c.cursor.Some?)
  }

  datatype ClientEvent =
    | ListedEvent(docs: seq<Document>, changes: ChangeCursor) | ListFailedEvent
    | OpenEvent | ChangeEvent(change: WireChange, lastEventId: Option<ChangeCursor>)
    | UnreadableEvent | ResetEvent | ErrorEvent | TimerEvent | StopEvent

  /** A closed source, an aborted listing and a cleared timer deliver nothing. */
  function Handle(c: Client, event: ClientEvent): Client {
    match event
    case ListedEvent(docs, changes) => if c.listing then ListingDone(c, docs, changes) else c
    case ListFailedEvent => if c.listing then ListFailed(c) else c
    case OpenEvent => if c.source then OnOpen(c) else c
    case ChangeEvent(change, id) => if c.source then OnChange(c, change, id) else c
    case UnreadableEvent => if c.source then OnReset(c) else c
    case ResetEvent => if c.source then OnReset(c) else c
    case ErrorEvent => if c.source then OnError(c) else c
    case TimerEvent => OnTimer(c)
    case StopEvent => Stop(c)
  }

  function HandleAll(c: Client, events: seq<ClientEvent>): Client {
    if events == [] then c
    else Handle(HandleAll(c, events[..|events| - 1]), events[|events| - 1])
  }

  lemma {:induction false} OneActivityAtATime(events: seq<ClientEvent>)
    ensures ClientInv(HandleAll(Start(Idle()), events))
  {
    if events != [] {
      OneActivityAtATime(events[..|events| - 1]);
    }
  }

  // ---- Laws ----

  /** Distinct documents come through the map unchanged and in order. */
  lemma {:induction false} MapOfDistinct(docs: seq<Document>)
    requires FuzzyListing.DistinctIds(docs)
    ensures MapOf(docs) == docs
  {
    if docs != [] {
      var init, d := docs[..|docs| - 1], docs[|docs| - 1];
      MapOfDistinct(init);
      assert !Has(init, d.id);
      assert docs == init + [d];
    }
  }

  /** The wire form loses nothing that the client uses. */
  lemma {:induction false} WireIsChange(m: seq<Document>, ch: Change)
    requires WellFormed(ch)
    ensures ApplyWire(m, ToWire(ch)) == Apply(m, ch)
  {
  }

  // ---- Reconnecting and listing again ----

  function Doubled(n: nat): int { if n == 0 then FIRST_BACKOFF else 2 * Doubled(n - 1) }

  function Min(a: int, b: int): int { if a < b then a else b }

  /** n lost connections in a row, each followed by its timer. */
  function Losing(c: Client, n: nat): Client {
    if n == 0 then c else Handle(Handle(Losing(c, n - 1), ErrorEvent), TimerEvent)
  }

  predicate Streaming(c: Client) {
    ClientInv(c) && !c.stopped && c.source
  }

  /** A lost connection is taken up again at the same cursor, with the same documents, after a wait that doubles from
      half a second up to half a minute. */
  lemma {:induction false} LossesBackOff(c: Client, n: nat)
    requires Streaming(c) && c.backoff == FIRST_BACKOFF
    ensures Losing(c, n) == c.(backoff := Min(Doubled(n), MAX_BACKOFF))
    ensures Doubled(n) > 0
  {
    if n > 0 {
      LossesBackOff(c, n - 1);
    }
  }

  /** Once a connection opens the waits start over. */
  lemma {:induction false} OpeningCalms(c: Client)
    requires Streaming(c)
    ensures Handle(c, OpenEvent) == c.(backoff := FIRST_BACKOFF)
  {
  }

  /** A reset, like an event that cannot be read, leads to a new listing; so does a listing that failed. Until that
      arrives, documents and cursor stay as they are. */
  lemma {:induction false} ResetsRelist(c: Client, event: ClientEvent)
    requires ClientInv(c) && !c.stopped
    requires (c.source && (event.ResetEvent? || event.UnreadableEvent?)) || (c.listing && event.ListFailedEvent?)
    ensures var waiting := Handle(c, event);
            && waiting == c.(source := false, listing := false, timer := Armed(true),
                             backoff := Min(2 * c.backoff, MAX_BACKOFF))
            && Handle(waiting, TimerEvent) == waiting.(timer := NoTimer, listing := true)
  {
  }

  /** A listing that arrives replaces documents and cursor at once, and the stream is opened from there. */
  lemma {:induction false} ListingReplaces(c: Client, docs: seq<Document>, changes: ChangeCursor)
    requires ClientInv(c) && !c.stopped && c.listing && FuzzyListing.DistinctIds(docs)
    ensures Handle(c, ListedEvent(docs, changes))
         == Client(docs, Some(changes), true, false, NoTimer, FIRST_BACKOFF, false)
  {
    MapOfDistinct(docs);
  }

  /** After the subscription is stopped, nothing that still arrives has any effect. */
  lemma {:induction false} StoppedIsDeaf(c: Client, events: seq<ClientEvent>)
    requires ClientInv(c)
    ensures var end := HandleAll(Handle(c, StopEvent), events);
            end == c.(stopped := true, source := false, listing := false, timer := NoTimer)
  {
    if events != [] {
      StoppedIsDeaf(c, events[..|events| - 1]);
    }
  }
}
