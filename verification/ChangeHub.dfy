/** The in-memory fan-out of committed changes: one bounded queue per subscription. */
module ChangeHub {
  import opened ChangeLog

  datatype HubEvent = Published(change: Change) | ResetEvent(reason: string)

  /** A Go channel: buffered events stay readable after it is closed. `home` is the namespace it was made for. */
  datatype Channel = Channel(home: string, queue: seq<HubEvent>, closed: bool)

  datatype Subscription = Subscription(id: nat, collections: set<string>)

  /** `channels` holds every channel ever made, by subscription ID: hub and reader share it. */
  datatype HubState = HubState(
    nextID: nat, byNamespace: map<string, map<nat, Subscription>>, channels: map<nat, Channel>, queueSize: nat)

  function Subscribers(h: HubState, ns: string): map<nat, Subscription> {
    if ns in h.byNamespace then h.byNamespace[ns] else map[]
  }

  predicate Live(h: HubState, ns: string, id: nat) {
    id in Subscribers(h, ns)
  }

  /** What holds between operations: no empty namespace entry, every registered channel is open and
      registered where it was made, every queue within its bound, every ID handed out once. */
  ghost predicate HubInv(h: HubState) {
    && h.queueSize >= 1
    && (forall ns :: ns in h.byNamespace ==> h.byNamespace[ns] != map[])
    && (forall ns, id :: Live(h, ns, id) ==> Registered(h, ns, id))
    && (forall id :: id in h.channels ==> 0 < id <= h.nextID && |h.channels[id].queue| <= h.queueSize)
  }

  predicate Registered(h: HubState, ns: string, id: nat)
    requires Live(h, ns, id)
  {
    && id in h.channels && !h.channels[id].closed && h.channels[id].home == ns
    && Subscribers(h, ns)[id].id == id
  }

  // ---- The operations as functions ----

  function WithSubscribers(h: HubState, ns: string, values: map<nat, Subscription>): HubState {
    h.(byNamespace := if values == map[] then h.byNamespace - {ns} else h.byNamespace[ns := values])
  }

  function Subscribe(h: HubState, ns: string, collections: set<string>): HubState {
    var id := h.nextID + 1;
    WithSubscribers(
      h.(nextID := id, channels := h.channels[id := Channel(ns, [], false)]),
      ns, Subscribers(h, ns)[id := Subscription(id, collections)])
  }

  function Unsubscribe(h: HubState, ns: string, id: nat): HubState {
    if !Live(h, ns, id) || id !in h.channels then h
    else WithSubscribers(
      h.(channels := h.channels[id := h.channels[id].(closed := true)]), ns, Subscribers(h, ns) - {id})
  }

  predicate Wants(values: map<nat, Subscription>, id: nat, change: Change) {
    id in values && change.collection in values[id].collections
  }

  predicate Full(channels: map<nat, Channel>, id: nat, queueSize: nat) {
    id in channels && |channels[id].queue| >= queueSize
  }

  /** Offer a change to one channel: it is queued, or the channel is closed because its queue is full. */
  function Offer(channel: Channel, queueSize: nat, change: Change): Channel {
    if |channel.queue| < queueSize then channel.(queue := channel.queue + [Published(change)])
    else channel.(closed := true)
  }

  function OfferAll(
    channels: map<nat, Channel>, values: map<nat, Subscription>, queueSize: nat, change: Change): map<nat, Channel>
  {
    map id | id in channels :: if Wants(values, id, change) then Offer(channels[id], queueSize, change) else channels[id]
  }

  /** The subscribers that are left: those offered the change with no room for it are dropped. */
  function Keeping(
    channels: map<nat, Channel>, values: map<nat, Subscription>, queueSize: nat, change: Change)
    : map<nat, Subscription>
  {
    map id | id in values && !(Wants(values, id, change) && Full(channels, id, queueSize)) :: values[id]
  }

  function Publish(h: HubState, ns: string, change: Change): HubState {
    var values := Subscribers(h, ns);
    WithSubscribers(
      h.(channels := OfferAll(h.channels, values, h.queueSize, change)),
      ns, Keeping(h.channels, values, h.queueSize, change))
  }

  function ResetAll(
    channels: map<nat, Channel>, values: map<nat, Subscription>, reason: string): map<nat, Channel>
  {
    map id | id in channels ::
      if id in values then channels[id].(queue := [ResetEvent(reason)], closed := true) else channels[id]
  }

  function Reset(h: HubState, ns: string, reason: string): HubState {
    WithSubscribers(h.(channels := ResetAll(h.channels, Subscribers(h, ns), reason)), ns, map[])
  }

  /** The reader takes the oldest event, if there is one. */
  function Receive(h: HubState, id: nat): HubState {
    if id in h.channels && h.channels[id].queue != [] then
      h.(channels := h.channels[id := h.channels[id].(queue := h.channels[id].queue[1..])])
    else h
  }

  datatype HubOp =
    | SubscribeOp(ns: string, collections: set<string>)
    | UnsubscribeOp(ns: string, id: nat)
    | PublishOp(ns: string, change: Change)
    | ResetOp(ns: string, reason: string)
    | ReceiveOp(id: nat)

  function HubStep(h: HubState, op: HubOp): HubState {
    match op
    case SubscribeOp(ns, collections) => Subscribe(h, ns, collections)
    case UnsubscribeOp(ns, id) => Unsubscribe(h, ns, id)
    case PublishOp(ns, change) => Publish(h, ns, change)
    case ResetOp(ns, reason) => Reset(h, ns, reason)
    case ReceiveOp(id) => Receive(h, id)
  }

  // ---- Every operation keeps the invariant ----

  /** Replacing one namespace's subscribers by a well-registered set keeps the invariant. */
  lemma {:induction false} WithKeeps(h: HubState, ns: string, values: map<nat, Subscription>)
    requires h.queueSize >= 1
    requires forall other :: other in h.byNamespace && other != ns ==> h.byNamespace[other] != map[]
    requires forall other, id :: other != ns && Live(h, other, id) ==> Registered(h, other, id)
    requires forall id :: id in values ==>
      id in h.channels && !h.channels[id].closed && h.channels[id].home == ns && values[id].id == id
    requires forall id :: id in h.channels ==> 0 < id <= h.nextID && |h.channels[id].queue| <= h.queueSize
    ensures HubInv(WithSubscribers(h, ns, values))
  {
    var h' := WithSubscribers(h, ns, values);
    forall other, id | Live(h', other, id) ensures Registered(h', other, id) {
      if other != ns {
        assert Live(h, other, id);
      }
    }
  }

  lemma {:induction false} SubscribeKeeps(h: HubState, ns: string, collections: set<string>)
    requires HubInv(h)
    ensures HubInv(Subscribe(h, ns, collections))
  {
    var id := h.nextID + 1;
    var h' := h.(nextID := id, channels := h.channels[id := Channel(ns, [], false)]);
    forall other, k | Live(h', other, k) ensures Registered(h', other, k) {
      assert Live(h, other, k);
    }
    forall k | k in Subscribers(h, ns) ensures Registered(h, ns, k) {
      assert Live(h, ns, k);
    }
    WithKeeps(h', ns, Subscribers(h, ns)[id := Subscription(id, collections)]);
  }

  lemma {:induction false} UnsubscribeKeeps(h: HubState, ns: string, id: nat)
    requires HubInv(h)
    ensures HubInv(Unsubscribe(h, ns, id))
  {
    if Live(h, ns, id) {
      var h' := h.(channels := h.channels[id := h.channels[id].(closed := true)]);
      forall other, k | other != ns && Live(h', other, k) ensures Registered(h', other, k) {
        assert Live(h, other, k);
      }
      forall k | k in Subscribers(h, ns) - {id} ensures Registered(h, ns, k) {
        assert Live(h, ns, k);
      }
      WithKeeps(h', ns, Subscribers(h, ns) - {id});
    }
  }

  lemma {:induction false} PublishKeeps(h: HubState, ns: string, change: Change)
    requires HubInv(h)
    ensures HubInv(Publish(h, ns, change))
  {
    var values := Subscribers(h, ns);
    var h' := h.(channels := OfferAll(h.channels, values, h.queueSize, change));
    forall other, k | other != ns && Live(h', other, k) ensures Registered(h', other, k) {
      assert Live(h, other, k) && !Live(h, ns, k);
    }
    var left := Keeping(h.channels, values, h.queueSize, change);
    forall k | k in left
      ensures k in h'.channels && !h'.channels[k].closed && h'.channels[k].home == ns && left[k].id == k
    {
      assert Live(h, ns, k);
    }
    WithKeeps(h', ns, left);
  }

  lemma {:induction false} ResetKeeps(h: HubState, ns: string, reason: string)
    requires HubInv(h)
    ensures HubInv(Reset(h, ns, reason))
  {
    var h' := h.(channels := ResetAll(h.channels, Subscribers(h, ns), reason));
    forall other, k | other != ns && Live(h', other, k) ensures Registered(h', other, k) {
      assert Live(h, other, k) && !Live(h, ns, k);
    }
    WithKeeps(h', ns, map[]);
  }

  lemma {:induction false} ReceiveKeeps(h: HubState, id: nat)
    requires HubInv(h)
    ensures HubInv(Receive(h, id))
  {
    var h' := Receive(h, id);
    forall ns, k | Live(h', ns, k) ensures Registered(h', ns, k) {
      assert Live(h, ns, k);
    }
  }

  lemma {:induction false} HubStepKeeps(h: HubState, op: HubOp)
    requires HubInv(h)
    ensures HubInv(HubStep(h, op))
  {
    match op
    case SubscribeOp(ns, collections) => SubscribeKeeps(h, ns, collections);
    case UnsubscribeOp(ns, id) => UnsubscribeKeeps(h, ns, id);
    case PublishOp(ns, change) => PublishKeeps(h, ns, change);
    case ResetOp(ns, reason) => ResetKeeps(h, ns, reason);
    case ReceiveOp(id) => ReceiveKeeps(h, id);
  }

  // ---- What each operation does, and to whom ----

  /** Everything else stays as it is: the other channels, and the subscribers of the other namespaces. */
  ghost predicate Elsewhere(h: HubState, h': HubState, ns: string, ids: iset<nat>) {
    && h'.queueSize == h.queueSize
    && (forall id :: id in h.channels && id !in ids ==> id in h'.channels && h'.channels[id] == h.channels[id])
    && (forall other :: other != ns ==> Subscribers(h', other) == Subscribers(h, other))
    && (forall id :: id !in ids ==> (Live(h', ns, id) <==> Live(h, ns, id)))
  }

  predicate Dropped(h: HubState, id: nat, queue: seq<HubEvent>) {
    id in h.channels && h.channels[id].closed && h.channels[id].queue == queue
  }

  /** A new subscriber gets an open, empty channel of its own and hears of its collections. */
  lemma {:induction false} SubscribeOpens(h: HubState, ns: string, collections: set<string>)
    requires HubInv(h)
    ensures var h', id := Subscribe(h, ns, collections), h.nextID + 1;
            && id !in h.channels && h'.nextID == id
            && h'.channels.Keys == h.channels.Keys + {id} && h'.channels[id] == Channel(ns, [], false)
            && Live(h', ns, id) && Subscribers(h', ns)[id].collections == collections
            && Elsewhere(h, h', ns, iset{id})
  {
  }

  /** An unsubscribed channel is closed with what it still holds, and its ID is live nowhere. A second time does nothing. */
  lemma {:induction false} UnsubscribeCloses(h: HubState, ns: string, id: nat)
    requires HubInv(h)
    ensures var h' := Unsubscribe(h, ns, id);
            if Live(h, ns, id) then
              && Dropped(h', id, h.channels[id].queue)
              && (forall other :: !Live(h', other, id))
              && Elsewhere(h, h', ns, iset{id}) && h'.channels.Keys == h.channels.Keys && h'.nextID == h.nextID
            else h' == h
  {
    if Live(h, ns, id) {
      assert Registered(h, ns, id);
      NowhereElse(h, Unsubscribe(h, ns, id).channels, ns, Subscribers(h, ns) - {id}, id);
    }
  }

  /** An ID is live in one namespace at most; once that has let go of it, it is live nowhere. */
  lemma {:induction false} NowhereElse(
    h: HubState, channels: map<nat, Channel>, ns: string, values: map<nat, Subscription>, id: nat)
    requires HubInv(h) && Live(h, ns, id) && id !in values
    ensures forall other :: !Live(WithSubscribers(h.(channels := channels), ns, values), other, id)
  {
    forall other | Live(h, other, id) ensures other == ns {
      assert Registered(h, other, id) && Registered(h, ns, id);
    }
    var h' := WithSubscribers(h.(channels := channels), ns, values);
    forall other ensures !Live(h', other, id) {
      assert Subscribers(h', other) == if other == ns then values else Subscribers(h, other);
      assert other != ns ==> !Live(h, other, id);
    }
  }

  /** A published change is queued for every live subscriber that wants it and has room. One that has none is
      dropped with its queue as it is. Nobody else notices. */
  lemma {:induction false} PublishReaches(h: HubState, ns: string, change: Change, id: nat)
    requires HubInv(h) && Live(h, ns, id)
    ensures id in h.channels
    ensures var h', before := Publish(h, ns, change), h.channels[id];
            if change.collection !in Subscribers(h, ns)[id].collections then
              Live(h', ns, id) && id in h'.channels && h'.channels[id] == before
            else if |before.queue| < h.queueSize then
              && Live(h', ns, id) && id in h'.channels
              && h'.channels[id] == before.(queue := before.queue + [Published(change)])
            else Dropped(h', id, before.queue) && forall other :: !Live(h', other, id)
    ensures Publish(h, ns, change).channels.Keys == h.channels.Keys && Publish(h, ns, change).nextID == h.nextID
  {
    assert Registered(h, ns, id);
    var values := Subscribers(h, ns);
    var left := Keeping(h.channels, values, h.queueSize, change);
    if id !in left {
      NowhereElse(h, OfferAll(h.channels, values, h.queueSize, change), ns, left, id);
    }
  }

  lemma {:induction false} PublishSpares(h: HubState, ns: string, change: Change)
    ensures Elsewhere(h, Publish(h, ns, change), ns, iset id | Live(h, ns, id))
  {
  }

  /** A reset leaves each subscriber of the namespace exactly the reset event and a closed channel, and no entry. */
  lemma {:induction false} ResetTells(h: HubState, ns: string, reason: string)
    requires HubInv(h)
    ensures var h' := Reset(h, ns, reason);
            && (forall id :: Live(h, ns, id) ==>
                  Dropped(h', id, [ResetEvent(reason)]) && forall other :: !Live(h', other, id))
            && ns !in h'.byNamespace
            && Elsewhere(h, h', ns, iset id | Live(h, ns, id))
            && h'.channels.Keys == h.channels.Keys && h'.nextID == h.nextID
  {
    forall id | Live(h, ns, id)
      ensures Dropped(Reset(h, ns, reason), id, [ResetEvent(reason)])
      ensures forall other :: !Live(Reset(h, ns, reason), other, id)
    {
      assert Registered(h, ns, id);
      NowhereElse(h, ResetAll(h.channels, Subscribers(h, ns), reason), ns, map[], id);
    }
  }

  // ---- The hub object ----

  class Hub {
    var nextID: nat
    var byNamespace: map<string, map<nat, Subscription>>
    var channels: map<nat, Channel>
    const queueSize: nat

    ghost predicate Valid()
      reads this
    {
      HubInv(State())
    }

    function State(): HubState
      reads this
    {
      HubState(nextID, byNamespace, channels, queueSize)
    }

    constructor (queueSize: nat)
      requires queueSize >= 1
      ensures Valid() && State() == HubState(0, map[], map[], queueSize)
    {
      this.queueSize := queueSize;
      nextID, byNamespace, channels := 0, map[], map[];
    }

    /** Sending on a closed channel panics, and so does sending with no room outside a select. */
    method Send(id: nat, event: HubEvent)
      requires id in channels && !channels[id].closed && |channels[id].queue| < queueSize
      modifies this`channels
      ensures channels == old(channels)[id := old(channels)[id].(queue := old(channels)[id].queue + [event])]
    {
      channels := channels[id := channels[id].(queue := channels[id].queue + [event])];
    }

    /** Closing a closed channel panics. */
    method CloseChannel(id: nat)
      requires id in channels && !channels[id].closed
      modifies this`channels
      ensures channels == old(channels)[id := old(channels)[id].(closed := true)]
    {
      channels := channels[id := channels[id].(closed := true)];
    }

    method SubscribeTo(ns: string, collections: seq<string>) returns (id: nat)
      requires Valid()
      modifies this
      ensures Valid() && State() == Subscribe(old(State()), ns, set c | c in collections)
      ensures id == old(nextID) + 1
    {
      ghost var h := State();
      nextID := nextID + 1;
      id := nextID;
      var names := NameSet(collections);
      var values: map<nat, Subscription> := map[];
      if ns in byNamespace {
        values := byNamespace[ns];
      }
      channels := channels[id := Channel(ns, [], false)];
      values := values[id := Subscription(id, names)];
      assert id in values;
      byNamespace := byNamespace[ns := values];
      SubscribeKeeps(h, ns, names);
    }

    static method NameSet(collections: seq<string>) returns (names: set<string>)
      ensures names == set c | c in collections
    {
      names := {};
      for i := 0 to |collections|
        invariant names == set c | c in collections[..i]
      {
        names := names + {collections[i]};
      }
      assert collections[..|collections|] == collections;
    }

    method UnsubscribeFrom(ns: string, id: nat)
      requires Valid()
      modifies this
      ensures Valid() && State() == Unsubscribe(old(State()), ns, id)
    {
      ghost var h := State();
      UnsubscribeKeeps(h, ns, id);
      var values: map<nat, Subscription> := map[];
      if ns in byNamespace {
        values := byNamespace[ns];
      }
      if id !in values {
        return;
      }
      assert Live(h, ns, id);
      CloseChannel(id);
      SetSubscribers(ns, values - {id});
    }

    /** Store what is left of a namespace's subscribers; an empty entry is deleted. */
    method SetSubscribers(ns: string, values: map<nat, Subscription>)
      modifies this`byNamespace
      ensures State() == WithSubscribers(old(State()), ns, values)
    {
      if |values| == 0 {
        byNamespace := byNamespace - {ns};
      } else {
        byNamespace := byNamespace[ns := values];
      }
    }

    method PublishChange(ns: string, change: Change)
      requires Valid()
      modifies this
      ensures Valid() && State() == Publish(old(State()), ns, change)
    {
      ghost var h := State();
      PublishKeeps(h, ns, change);
      var values: map<nat, Subscription> := map[];
      if ns in byNamespace {
        values := byNamespace[ns];
      }
      assert forall id :: id in values ==> Live(h, ns, id);
      var left := OfferEach(values, change);
      SetSubscribers(ns, left);
    }

    /** The fan-out loop of a publish. Go visits map entries in no particular order. */
    method OfferEach(values: map<nat, Subscription>, change: Change) returns (left: map<nat, Subscription>)
      requires forall id :: id in values ==> id in channels && !channels[id].closed
      modifies this`channels
      ensures channels == OfferAll(old(channels), values, queueSize, change)
      ensures left == Keeping(old(channels), values, queueSize, change)
    {
      left := values;
      var pending := values.Keys;
      while pending != {}
        invariant pending <= values.Keys && pending <= left.Keys
        invariant channels.Keys == old(channels).Keys
        invariant forall id :: id in channels ==>
          channels[id] == if Wants(values, id, change) && id !in pending then Offer(old(channels)[id], queueSize, change)
                          else old(channels)[id]
        invariant forall id :: id in left <==>
          id in values && (id in pending || !(Wants(values, id, change) && Full(old(channels), id, queueSize)))
        invariant forall id :: id in left ==> left[id] == values[id]
        decreases pending
      {
        var id :| id in pending;
        pending := pending - {id};
        if change.collection in values[id].collections {
          if |channels[id].queue| < queueSize {
            Send(id, Published(change));
          } else {
            left := left - {id};
            CloseChannel(id);
          }
        }
      }
    }

    method ResetNamespace(ns: string, reason: string)
      requires Valid()
      modifies this
      ensures Valid() && State() == Reset(old(State()), ns, reason)
    {
      ghost var h := State();
      ResetKeeps(h, ns, reason);
      var values: map<nat, Subscription> := map[];
      if ns in byNamespace {
        values := byNamespace[ns];
      }
      assert forall id :: id in values ==> Live(h, ns, id);
      ResetEach(values, reason);
      SetSubscribers(ns, map[]);
    }

    /** The loop of a reset: drain each queue, deliver the one event that must not be lost, close. */
    method ResetEach(values: map<nat, Subscription>, reason: string)
      requires queueSize >= 1
      requires forall id :: id in values ==> id in channels && !channels[id].closed
      modifies this`channels
      ensures channels == ResetAll(old(channels), values, reason)
    {
      var pending := values.Keys;
      while pending != {}
        invariant pending <= values.Keys
        invariant channels.Keys == old(channels).Keys
        invariant forall id :: id in channels ==>
          channels[id] == if id in values && id !in pending
                          then old(channels)[id].(queue := [ResetEvent(reason)], closed := true)
                          else old(channels)[id]
        decreases pending
      {
        var id :| id in pending;
        Drain(id);
        Send(id, ResetEvent(reason));
        CloseChannel(id);
        pending := pending - {id};
      }
    }

    method Drain(id: nat)
      requires id in channels
      modifies this`channels
      ensures channels == old(channels)[id := old(channels)[id].(queue := [])]
    {
      while |channels[id].queue| > 0
        invariant id in channels
        invariant channels == old(channels)[id := old(channels)[id].(queue := channels[id].queue)]
        decreases |channels[id].queue|
      {
        channels := channels[id := channels[id].(queue := channels[id].queue[1..])];
      }
    }
  }

  // ---- Delivery over whole runs ----

  /** What the environment knows about one subscription: the changes published to it since it
      subscribed, and the events its reader has taken. */
  datatype Account = Account(ns: string, collections: set<string>, wanted: seq<Change>, received: seq<HubEvent>)

  datatype Tracked = Tracked(hub: HubState, accounts: map<nat, Account>)

  function TrackStep(t: Tracked, op: HubOp): Tracked {
    var accounts := match op
      case SubscribeOp(ns, collections) => t.accounts[t.hub.nextID + 1 := Account(ns, collections, [], [])]
      case UnsubscribeOp(_, _) => t.accounts
      case PublishOp(ns, change) =>
        map id | id in t.accounts ::
          if t.accounts[id].ns == ns && change.collection in t.accounts[id].collections
          then t.accounts[id].(wanted := t.accounts[id].wanted + [change]) else t.accounts[id]
      case ResetOp(_, _) => t.accounts
      case ReceiveOp(id) =>
        if id in t.accounts && id in t.hub.channels && t.hub.channels[id].queue != []
        then t.accounts[id := t.accounts[id].(received := t.accounts[id].received + [t.hub.channels[id].queue[0]])]
        else t.accounts;
    Tracked(HubStep(t.hub, op), accounts)
  }

  function Events(chs: seq<Change>): seq<HubEvent> {
    seq(|chs|, i requires 0 <= i < |chs| => Published(chs[i]))
  }

  /** Everything that has reached the reader's side: taken or queued. */
  function Delivered(t: Tracked, id: nat): seq<HubEvent>
    requires id in t.accounts && id in t.hub.channels
  {
    t.accounts[id].received + t.hub.channels[id].queue
  }

  predicate DeliveredPrefix(events: seq<HubEvent>, wanted: seq<Change>) {
    |events| <= |wanted| && events == Events(wanted[..|events|])
  }

  /** A live subscription has been delivered exactly what was published to it. A dropped one is closed
      and holds a prefix of that, followed by at most the one reset event. */
  predicate AccountGood(t: Tracked, id: nat)
    requires id in t.accounts && id in t.hub.channels
  {
    var a, events := t.accounts[id], Delivered(t, id);
    if Live(t.hub, a.ns, id) then
      Subscribers(t.hub, a.ns)[id].collections == a.collections && events == Events(a.wanted)
    else
      && t.hub.channels[id].closed
      && (DeliveredPrefix(events, a.wanted)
          || (events != [] && events[|events| - 1].ResetEvent? && DeliveredPrefix(events[..|events| - 1], a.wanted)))
  }

  ghost predicate TrackedInv(t: Tracked) {
    && HubInv(t.hub)
    && t.accounts.Keys == t.hub.channels.Keys
    && (forall id :: id in t.accounts ==> t.hub.channels[id].home == t.accounts[id].ns)
    && (forall id :: id in t.accounts ==> AccountGood(t, id))
  }

  lemma {:induction false} PublishGood(t: Tracked, ns: string, change: Change, id: nat)
    requires id in t.accounts && id in t.hub.channels && AccountGood(t, id)
    requires Live(t.hub, ns, id) ==> ns == t.accounts[id].ns
    ensures AccountGood(TrackStep(t, PublishOp(ns, change)), id)
  {
    var t' := TrackStep(t, PublishOp(ns, change));
    var a := t.accounts[id];
    if a.ns == ns && change.collection in a.collections && !Full(t.hub.channels, id, t.hub.queueSize) {
      assert Live(t.hub, a.ns, id) ==> Delivered(t', id) == Delivered(t, id) + [Published(change)];
      assert Events(a.wanted + [change]) == Events(a.wanted) + [Published(change)];
    }
  }

  lemma {:induction false} ResetGood(t: Tracked, ns: string, reason: string, id: nat)
    requires id in t.accounts && id in t.hub.channels && AccountGood(t, id)
    requires Live(t.hub, ns, id) ==> ns == t.accounts[id].ns
    ensures AccountGood(TrackStep(t, ResetOp(ns, reason)), id)
  {
    var t' := TrackStep(t, ResetOp(ns, reason));
    var a := t.accounts[id];
    if Live(t.hub, ns, id) {
      var events := Delivered(t', id);
      assert events == a.received + [ResetEvent(reason)];
      assert a.received == Delivered(t, id)[..|a.received|];
      assert events[..|events| - 1] == a.received;
    } else {
      assert Delivered(t', id) == Delivered(t, id);
    }
  }

  lemma {:induction false} ReceiveGood(t: Tracked, taken: nat, id: nat)
    requires id in t.accounts && id in t.hub.channels && AccountGood(t, id)
    ensures AccountGood(TrackStep(t, ReceiveOp(taken)), id)
  {
    var t' := TrackStep(t, ReceiveOp(taken));
    if id == taken && t.hub.channels[id].queue != [] {
      var queue := t.hub.channels[id].queue;
      assert queue == [queue[0]] + queue[1..];
      assert Delivered(t', id) == Delivered(t, id);
    }
  }

  lemma {:induction false} StepGood(t: Tracked, op: HubOp, id: nat)
    requires id in t.accounts && id in t.hub.channels && AccountGood(t, id) && id <= t.hub.nextID
    requires forall ns :: Live(t.hub, ns, id) ==> ns == t.accounts[id].ns
    ensures AccountGood(TrackStep(t, op), id)
  {
    match op
    case SubscribeOp(ns, collections) =>
    case UnsubscribeOp(ns, gone) =>
    case PublishOp(ns, change) => PublishGood(t, ns, change, id);
    case ResetOp(ns, reason) => ResetGood(t, ns, reason, id);
    case ReceiveOp(taken) => ReceiveGood(t, taken, id);
  }

  lemma {:induction false} AccountsMatch(t: Tracked, op: HubOp)
    requires t.accounts.Keys == t.hub.channels.Keys
    requires forall id :: id in t.accounts ==> t.hub.channels[id].home == t.accounts[id].ns
    requires forall ns, id :: Live(t.hub, ns, id) ==> id in t.accounts && t.accounts[id].ns == ns
    ensures var t' := TrackStep(t, op);
            && t'.accounts.Keys == t'.hub.channels.Keys
            && (forall id :: id in t'.accounts ==> t'.hub.channels[id].home == t'.accounts[id].ns)
            && (forall id :: id in t'.accounts && id !in t.accounts ==> op.SubscribeOp? && id == t.hub.nextID + 1)
  {
  }

  lemma {:induction false} TrackStepKeeps(t: Tracked, op: HubOp)
    requires TrackedInv(t)
    ensures TrackedInv(TrackStep(t, op))
  {
    var t' := TrackStep(t, op);
    HubStepKeeps(t.hub, op);
    forall ns, id | Live(t.hub, ns, id) ensures id in t.accounts && t.accounts[id].ns == ns {
      assert Registered(t.hub, ns, id);
    }
    AccountsMatch(t, op);
    forall id | id in t'.accounts ensures AccountGood(t', id) {
      if id in t.accounts {
        StepGood(t, op, id);
      }
    }
  }

  function RunHub(ops: seq<HubOp>, queueSize: nat): (t: Tracked)
    requires queueSize >= 1
    ensures TrackedInv(t)
  {
    if ops == [] then Tracked(HubState(0, map[], map[], queueSize), map[])
    else
      var t := RunHub(ops[..|ops| - 1], queueSize);
      TrackStepKeeps(t, ops[|ops| - 1]);
      TrackStep(t, ops[|ops| - 1])
  }

  ghost predicate Shape(a: Account, channel: Channel, live: bool) {
    var events := a.received + channel.queue;
    if live then !channel.closed && events == Events(a.wanted)
    else
      && channel.closed
      && exists n :: 0 <= n <= |a.wanted| && n <= |events| <= n + 1
           && events[..n] == Events(a.wanted[..n]) && (|events| > n ==> events[n].ResetEvent?)
  }

  lemma {:induction false} GoodShape(t: Tracked, id: nat)
    requires id in t.accounts && id in t.hub.channels && AccountGood(t, id)
    requires Live(t.hub, t.accounts[id].ns, id) ==> !t.hub.channels[id].closed
    ensures Shape(t.accounts[id], t.hub.channels[id], Live(t.hub, t.accounts[id].ns, id))
  {
    var a := t.accounts[id];
    var events := Delivered(t, id);
    if !Live(t.hub, a.ns, id) {
      var n := if DeliveredPrefix(events, a.wanted) then |events| else |events| - 1;
      assert events[..n] == Events(a.wanted[..n]);
    }
  }

  /** Over every run: a live subscriber is owed nothing and given nothing extra; a dropped one finds a
      prefix and then the end of its channel, with at most one reset event, in last place. No queue
      outgrows its bound and no namespace keeps an empty entry. */
  lemma {:induction false} HubDelivers(ops: seq<HubOp>, queueSize: nat, id: nat)
    requires queueSize >= 1
    ensures var t := RunHub(ops, queueSize);
            id in t.accounts ==>
              && Shape(t.accounts[id], t.hub.channels[id], Live(t.hub, t.accounts[id].ns, id))
              && |t.hub.channels[id].queue| <= t.hub.queueSize
    ensures forall ns :: ns in RunHub(ops, queueSize).hub.byNamespace ==>
              RunHub(ops, queueSize).hub.byNamespace[ns] != map[]
  {
    var t := RunHub(ops, queueSize);
    if id in t.accounts {
      if Live(t.hub, t.accounts[id].ns, id) {
        assert Registered(t.hub, t.accounts[id].ns, id);
      }
      GoodShape(t, id);
    }
  }
}
