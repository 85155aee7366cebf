/**
  The publish/subscribe broker as a transition system. Validator threads, the
  event loop, the subscribe handlers and the clients interleave atomically:
  a step names who moves, and every sequence of steps is a run (a step that
  is not enabled leaves the world as it is).
 */
module Broker {
  import opened Wrappers
  import opened Protocol
  import opened FanOut

  datatype Config = Config(accountBuffer: nat, subscriberBuffer: nat, ignoreStartup: bool)

  datatype AddedEvent = AddedEvent(id: Uuid, filter: Filter)
  datatype ClosedEvent = ClosedEvent(kind: Kind, id: Uuid)

  /** A subscription's stream: its request, the header it was answered with, and
      whether its drop has fired the one-shot signal and the close task has run. */
  datatype Stream = Stream(filter: Filter, header: Option<nat>, signalled: bool, notified: bool)

  datatype World = World(
    cfg: Config,
    startupDone: bool,
    highest: nat,
    // past fetch_max, not yet offered to the account channel
    inFlight: multiset<TimestampedAccountUpdate>,
    accountQ: seq<TimestampedAccountUpdate>,
    addedQ: seq<AddedEvent>,
    closedQ: seq<ClosedEvent>,
    subs: Subs,
    bufs: Bufs,
    streams: map<Uuid, Stream>)

  datatype Step =
    | EndOfStartup
    | Raise(update: TimestampedAccountUpdate)
    | Enqueue(update: TimestampedAccountUpdate)
    | Subscribe(id: Uuid, filter: Filter)
    | Reply(id: Uuid)
    | Poll(id: Uuid)
    | Signal(id: Uuid)
    | CloseReceiver(id: Uuid)
    | Notify(id: Uuid)
    | TurnAdded
    | TurnClosed
    | TurnAccount
    | Turn(event: Event)

  function Init(cfg: Config): World {
    World(cfg, false, 0, multiset{}, [], [], [], map[], map[], map[])
  }

  // ----- the validator side

  predicate WellSized(t: TimestampedAccountUpdate) {
    t.accountUpdate.Some? && |t.accountUpdate.value.pubkey| == PUBKEY_BYTES
    && |t.accountUpdate.value.owner| == PUBKEY_BYTES
  }

  /** update_account up to and including fetch_max. */
  function RaiseHighWater(w: World, t: TimestampedAccountUpdate): World
    requires t.accountUpdate.Some?
  {
    if w.cfg.ignoreStartup && !w.startupDone then w
    else if !WellSized(t) then w
    else w.(highest := Max(w.highest, t.accountUpdate.value.slot), inFlight := w.inFlight + multiset{t})
  }

  /** Its try_send: a full account channel drops the update silently. */
  function EnqueueUpdate(w: World, t: TimestampedAccountUpdate): World {
    var rest := w.(inFlight := w.inFlight - multiset{t});
    if |w.accountQ| < w.cfg.accountBuffer then rest.(accountQ := w.accountQ + [t]) else rest
  }

  // ----- the subscribe handlers

  predicate ValidFilter(f: Filter) {
    match f
    case Accounts(keys) => forall k :: k in keys ==> |k| == PUBKEY_BYTES
    case Programs(keys) => forall k :: k in keys ==> |k| == PUBKEY_BYTES
    case _ => true
  }

  /** Sends the added event, or refuses a key of the wrong length. */
  function AddSubscription(w: World, id: Uuid, f: Filter): World {
    if !ValidFilter(f) then w
    else w.(addedQ := w.addedQ + [AddedEvent(id, f)],
            bufs := w.bufs[id := Buf([], w.cfg.subscriberBuffer, false)],
            streams := w.streams[id := Stream(f, None, false, false)])
  }

  // ----- the event loop

  /** A close event removes the subscription from the table of its kind only. */
  function CloseSub(subs: Subs, c: ClosedEvent): Subs {
    if c.id in subs && KindOf(subs[c.id]) == c.kind then subs - {c.id} else subs
  }

  function HandleAdded(w: World): World
    requires w.addedQ != []
  {
    w.(addedQ := w.addedQ[1..], subs := w.subs[w.addedQ[0].id := w.addedQ[0].filter])
  }

  function HandleClosed(w: World): World
    requires w.closedQ != []
  {
    w.(closedQ := w.closedQ[1..], subs := CloseSub(w.subs, w.closedQ[0]))
  }

  function FanOutEvent(w: World, e: Event): World
    requires HasPayload(e)
  {
    w.(subs := Survivors(w.subs, w.bufs, e), bufs := SendAll(w.subs, w.bufs, e))
  }

  // ----- steps

  /** The event a loop turn fans out. */
  function TurnEvent(w: World, s: Step): Option<Event> {
    match s
    case TurnAccount => if w.accountQ == [] then None else Some(AccountEvent(w.accountQ[0]))
    case Turn(e) => if e.AccountEvent? then None else Some(e)
    case _ => None
  }

  predicate Enabled(w: World, s: Step) {
    match s
    case EndOfStartup => true
    case Raise(t) => t.accountUpdate.Some?
    case Enqueue(t) => t in w.inFlight
    case Subscribe(id, _) => id !in w.bufs && id !in w.streams
    case Reply(id) => id in w.streams && w.streams[id].header.None?
    case Poll(id) =>
      && id in w.streams && w.streams[id].header.Some? && !w.streams[id].signalled
      && id in w.bufs && w.bufs[id].queue != []
    case Signal(id) => id in w.streams && w.streams[id].header.Some? && !w.streams[id].signalled
    case CloseReceiver(id) =>
      id in w.streams && w.streams[id].signalled && id in w.bufs && !w.bufs[id].closed
    case Notify(id) => id in w.streams && w.streams[id].signalled && !w.streams[id].notified
    case TurnAdded => w.addedQ != []
    case TurnClosed => w.closedQ != []
    case TurnAccount => w.accountQ != [] && w.accountQ[0].accountUpdate.Some?
    case Turn(e) => !e.AccountEvent?
  }

  function Apply(w: World, s: Step): World
    requires Enabled(w, s)
  {
    match s
    case EndOfStartup => w.(startupDone := true)
    case Raise(t) => RaiseHighWater(w, t)
    case Enqueue(t) => EnqueueUpdate(w, t)
    case Subscribe(id, f) => AddSubscription(w, id, f)
    case Reply(id) => w.(streams := w.streams[id := w.streams[id].(header := Some(w.highest))])
    case Poll(id) => w.(bufs := w.bufs[id := w.bufs[id].(queue := w.bufs[id].queue[1..])])
    case Signal(id) => w.(streams := w.streams[id := w.streams[id].(signalled := true)])
    case CloseReceiver(id) => w.(bufs := w.bufs[id := w.bufs[id].(queue := [], closed := true)])
    case Notify(id) =>
      w.(streams := w.streams[id := w.streams[id].(notified := true)],
         closedQ := w.closedQ + [ClosedEvent(KindOf(w.streams[id].filter), id)])
    case TurnAdded => HandleAdded(w)
    case TurnClosed => HandleClosed(w)
    case TurnAccount => FanOutEvent(w.(accountQ := w.accountQ[1..]), AccountEvent(w.accountQ[0]))
    case Turn(e) => FanOutEvent(w, e)
  }

  function Next(w: World, s: Step): World {
    if Enabled(w, s) then Apply(w, s) else w
  }

  function Exec(w: World, steps: seq<Step>): World {
    if steps == [] then w else Next(Exec(w, steps[..|steps| - 1]), steps[|steps| - 1])
  }

  lemma {:induction false} ExecConcat(w: World, a: seq<Step>, b: seq<Step>)
    ensures Exec(w, a + b) == Exec(Exec(w, a), b)
  {
    if b == [] {
      assert a + b == a;
    } else {
      var n := |b| - 1;
      assert (a + b)[..|a + b| - 1] == a + b[..n];
      ExecConcat(w, a, b[..n]);
    }
  }

  // ----- the invariant of all reachable worlds

  /** A message that belongs on a stream: right shape for the request, matching
      it, decodable, and no slot above the high-water mark. */
  predicate Fits(f: Filter, m: Msg, highest: nat) {
    match f
    case Accounts(keys) =>
      && m.FullMsg? && WellSized(m.update) && m.update.accountUpdate.value.slot <= highest
      && m.update.accountUpdate.value.pubkey in keys
    case Programs(owners) =>
      && m.FullMsg? && WellSized(m.update) && m.update.accountUpdate.value.slot <= highest
      && m.update.accountUpdate.value.owner in owners
    case Partials(skip) =>
      && m.PartialMsg? && m.payload.Some?
      && (m.payload.value.Update? ==>
            var p := m.payload.value.update;
            && |p.pubkey| == PUBKEY_BYTES && |p.owner| == PUBKEY_BYTES && p.slot <= highest
            && !(skip && p.owner == VOTE_PROGRAM_ID))
    case Slots => m.SlotMsg?
    case Entries => m.EntryMsg?
    case Transactions => m.TransactionMsg?
    case Blocks => m.BlockMsg?
  }

  predicate BelowMark(t: TimestampedAccountUpdate, highest: nat) {
    WellSized(t) && t.accountUpdate.value.slot <= highest
  }

  predicate AllFit(f: Filter, queue: seq<Msg>, highest: nat) {
    forall i :: 0 <= i < |queue| ==> Fits(f, queue[i], highest)
  }

  predicate AllBelowMark(queue: seq<TimestampedAccountUpdate>, highest: nat) {
    forall i :: 0 <= i < |queue| ==> BelowMark(queue[i], highest)
  }

  type Streams = map<Uuid, Stream>

  /** Registered subscriptions keep the filter of their request. */
  ghost predicate Registered(subs: Subs, streams: Streams) {
    forall id :: id in subs ==> id in streams && streams[id].filter == subs[id]
  }

  ghost predicate Accepted(streams: Streams) {
    forall id :: id in streams ==> ValidFilter(streams[id].filter)
  }

  /** Added events are of known subscriptions that are not registered yet. */
  ghost predicate AddsKnown(q: seq<AddedEvent>, subs: Subs, streams: Streams) {
    forall i :: 0 <= i < |q| ==> q[i].id in streams && streams[q[i].id].filter == q[i].filter && q[i].id !in subs
  }

  ghost predicate AddsDistinct(q: seq<AddedEvent>) {
    forall i, j :: 0 <= i < j < |q| ==> q[i].id != q[j].id
  }

  /** Closed events are of dropped streams and name the right table. */
  ghost predicate ClosesKnown(q: seq<ClosedEvent>, streams: Streams) {
    forall i :: 0 <= i < |q| ==>
      q[i].id in streams && streams[q[i].id].notified && q[i].kind == KindOf(streams[q[i].id].filter)
  }

  ghost predicate ClosesDistinct(q: seq<ClosedEvent>) {
    forall i, j :: 0 <= i < j < |q| ==> q[i].id != q[j].id
  }

  /** Reply, signal and notification happen in that order, the receiver goes
      away after the signal, and its buffer with it. */
  ghost predicate InOrder(streams: Streams, bufs: Bufs, highest: nat) {
    && streams.Keys == bufs.Keys
    && forall id :: id in streams ==>
      && (streams[id].header.Some? ==> streams[id].header.value <= highest)
      && (streams[id].signalled ==> streams[id].header.Some?)
      && (streams[id].notified ==> streams[id].signalled)
      && (bufs[id].closed ==> streams[id].signalled && bufs[id].queue == [])
  }

  ghost predicate MessagesFit(streams: Streams, bufs: Bufs, highest: nat) {
    forall id :: id in streams && id in bufs ==> AllFit(streams[id].filter, bufs[id].queue, highest)
  }

  ghost predicate Bounded(bufs: Bufs, capacity: nat) {
    forall id :: id in bufs ==> |bufs[id].queue| <= bufs[id].capacity == capacity
  }

  ghost predicate UpdatesBelowMark(w: World) {
    && (forall t :: t in w.inFlight ==> BelowMark(t, w.highest))
    && AllBelowMark(w.accountQ, w.highest)
    && |w.accountQ| <= w.cfg.accountBuffer
  }

  ghost predicate Inv(w: World) {
    && Registered(w.subs, w.streams) && Accepted(w.streams)
    && AddsKnown(w.addedQ, w.subs, w.streams) && AddsDistinct(w.addedQ)
    && ClosesKnown(w.closedQ, w.streams) && ClosesDistinct(w.closedQ)
    && InOrder(w.streams, w.bufs, w.highest)
    && MessagesFit(w.streams, w.bufs, w.highest)
    && Bounded(w.bufs, w.cfg.subscriberBuffer)
    && UpdatesBelowMark(w)
  }

  lemma OfferFits(f: Filter, e: Event, highest: nat)
    requires HasPayload(e) && (e.AccountEvent? ==> BelowMark(e.update, highest))
    requires Offer(f, e).Some?
    ensures Fits(f, Offer(f, e).value, highest)
  {
  }

  lemma DeliverFits(f: Filter, b: Buf, e: Event, highest: nat)
    requires HasPayload(e) && (e.AccountEvent? ==> BelowMark(e.update, highest))
    requires AllFit(f, b.queue, highest)
    ensures AllFit(f, Deliver(b, Offer(f, e)).queue, highest)
  {
    hide Fits, Offer;
    if Offer(f, e).Some? {
      OfferFits(f, e, highest);
    }
  }

  lemma FanOutKeepsMessages(subs: Subs, streams: Streams, bufs: Bufs, e: Event, highest: nat)
    requires Registered(subs, streams) && MessagesFit(streams, bufs, highest)
    requires HasPayload(e) && (e.AccountEvent? ==> BelowMark(e.update, highest))
    ensures MessagesFit(streams, SendAll(subs, bufs, e), highest)
  {
    hide Fits, Offer, AllFit;
    forall id | id in streams && id in bufs
      ensures AllFit(streams[id].filter, SendAll(subs, bufs, e)[id].queue, highest)
    {
      if id in subs {
        DeliverFits(subs[id], bufs[id], e, highest);
      }
    }
  }

  lemma FanOutKeepsBuffers(subs: Subs, streams: Streams, bufs: Bufs, e: Event, highest: nat, capacity: nat)
    requires InOrder(streams, bufs, highest) && Bounded(bufs, capacity) && HasPayload(e)
    ensures InOrder(streams, SendAll(subs, bufs, e), highest) && Bounded(SendAll(subs, bufs, e), capacity)
  {
    hide Offer;
  }

  lemma FanOutKeepsInv(w: World, e: Event)
    requires Inv(w) && HasPayload(e) && (e.AccountEvent? ==> BelowMark(e.update, w.highest))
    ensures Inv(FanOutEvent(w, e))
  {
    hide MessagesFit, Failed, SendAll, Accepted, AddsDistinct, ClosesKnown, ClosesDistinct, AllBelowMark;
    hide InOrder, Bounded;
    FanOutKeepsMessages(w.subs, w.streams, w.bufs, e, w.highest);
    FanOutKeepsBuffers(w.subs, w.streams, w.bufs, e, w.highest, w.cfg.subscriberBuffer);
  }

  lemma DequeueKeepsInv(w: World)
    requires Inv(w) && w.accountQ != []
    ensures Inv(w.(accountQ := w.accountQ[1..])) && BelowMark(w.accountQ[0], w.highest)
  {
    hide MessagesFit, Registered, Accepted, AddsKnown, AddsDistinct, ClosesKnown, ClosesDistinct, InOrder, Bounded;
  }

  lemma RaisedMessagesFit(streams: Streams, bufs: Bufs, low: nat, high: nat)
    requires low <= high && MessagesFit(streams, bufs, low)
    ensures MessagesFit(streams, bufs, high)
  {
    forall id | id in streams && id in bufs ensures AllFit(streams[id].filter, bufs[id].queue, high) {
      assert AllFit(streams[id].filter, bufs[id].queue, low);
    }
  }

  lemma RaiseKeepsInv(w: World, t: TimestampedAccountUpdate)
    requires Inv(w) && t.accountUpdate.Some?
    ensures Inv(RaiseHighWater(w, t))
  {
    hide MessagesFit, Registered, Accepted, AddsKnown, AddsDistinct, ClosesKnown, ClosesDistinct, Bounded;
    RaisedMessagesFit(w.streams, w.bufs, w.highest, RaiseHighWater(w, t).highest);
  }

  lemma EnqueueKeepsInv(w: World, t: TimestampedAccountUpdate)
    requires Inv(w) && t in w.inFlight
    ensures Inv(EnqueueUpdate(w, t))
  {
    hide MessagesFit, Registered, Accepted, AddsKnown, AddsDistinct, ClosesKnown, ClosesDistinct, InOrder, Bounded;
    assert BelowMark(t, w.highest);
  }

  lemma SubscribeFits(streams: Streams, bufs: Bufs, highest: nat, id: Uuid, st: Stream, b: Buf)
    requires MessagesFit(streams, bufs, highest) && b.queue == []
    ensures MessagesFit(streams[id := st], bufs[id := b], highest)
  {
    hide Fits;
  }

  lemma AddKnown(q: seq<AddedEvent>, subs: Subs, streams: Streams, id: Uuid, f: Filter)
    requires AddsKnown(q, subs, streams) && AddsDistinct(q) && Registered(subs, streams) && id !in streams
    ensures AddsKnown(q + [AddedEvent(id, f)], subs, streams[id := Stream(f, None, false, false)])
    ensures AddsDistinct(q + [AddedEvent(id, f)])
  {
  }

  lemma NewStreamKeepsOthers(w: World, id: Uuid, f: Filter)
    requires Registered(w.subs, w.streams) && Accepted(w.streams) && ClosesKnown(w.closedQ, w.streams)
    requires InOrder(w.streams, w.bufs, w.highest) && Bounded(w.bufs, w.cfg.subscriberBuffer)
    requires ValidFilter(f) && id !in w.bufs && id !in w.streams
    ensures var streams := w.streams[id := Stream(f, None, false, false)];
      var bufs := w.bufs[id := Buf([], w.cfg.subscriberBuffer, false)];
      && Registered(w.subs, streams) && Accepted(streams) && ClosesKnown(w.closedQ, streams)
      && InOrder(streams, bufs, w.highest) && Bounded(bufs, w.cfg.subscriberBuffer)
  {
    hide ValidFilter;
  }

  lemma SubscribeKeepsInv(w: World, id: Uuid, f: Filter)
    requires Inv(w) && id !in w.bufs && id !in w.streams
    ensures Inv(AddSubscription(w, id, f))
  {
    hide MessagesFit, AllBelowMark, AddsKnown, AddsDistinct, ClosesDistinct, ClosesKnown;
    hide Registered, Accepted, InOrder, Bounded, ValidFilter;
    if ValidFilter(f) {
      NewStreamKeepsOthers(w, id, f);
    }
    AddKnown(w.addedQ, w.subs, w.streams, id, f);
    var st, b := Stream(f, None, false, false), Buf([], w.cfg.subscriberBuffer, false);
    SubscribeFits(w.streams, w.bufs, w.highest, id, st, b);
  }

  /** A stream moves on without changing its request. */
  lemma StreamMoveKeepsInv(w: World, id: Uuid, st: Stream)
    requires Inv(w) && id in w.streams && st.filter == w.streams[id].filter
    requires st.header.Some? ==> st.header.value <= w.highest
    requires (st.signalled ==> st.header.Some?) && (st.notified ==> st.signalled)
    requires (w.streams[id].signalled ==> st.signalled) && (w.streams[id].notified ==> st.notified)
    ensures Inv(w.(streams := w.streams[id := st]))
  {
    hide AllFit, AllBelowMark, AddsDistinct, ClosesDistinct, Bounded;
  }

  /** A client takes items out of its own buffer, or gives it up. */
  lemma BufferMoveKeepsInv(w: World, id: Uuid, b: Buf)
    requires Inv(w) && id in w.bufs && b.capacity == w.bufs[id].capacity
    requires |b.queue| <= |w.bufs[id].queue| && forall m :: m in b.queue ==> m in w.bufs[id].queue
    requires b.closed ==> b.queue == [] && w.streams[id].signalled
    ensures Inv(w.(bufs := w.bufs[id := b]))
  {
    hide Registered, Accepted, AddsKnown, AddsDistinct, ClosesKnown, ClosesDistinct, AllBelowMark, Fits;
    assert AllFit(w.streams[id].filter, b.queue, w.highest) by {
      assert AllFit(w.streams[id].filter, w.bufs[id].queue, w.highest);
      assert forall i :: 0 <= i < |b.queue| ==> b.queue[i] in w.bufs[id].queue;
    }
  }

  lemma NotifyKeepsInv(w: World, id: Uuid)
    requires Inv(w) && Enabled(w, Notify(id))
    ensures Inv(Apply(w, Notify(id)))
  {
    hide MessagesFit, Registered, Accepted, AddsKnown, AddsDistinct, ClosesKnown, ClosesDistinct, Bounded, AllBelowMark;
    var st := w.streams[id].(notified := true);
    StreamMoveKeepsInv(w, id, st);
    NotifyKeepsCloses(w.closedQ, w.streams, id);
  }

  lemma NotifyKeepsCloses(q: seq<ClosedEvent>, streams: Streams, id: Uuid)
    requires ClosesKnown(q, streams) && ClosesDistinct(q) && id in streams && !streams[id].notified
    ensures var c := q + [ClosedEvent(KindOf(streams[id].filter), id)];
      ClosesKnown(c, streams[id := streams[id].(notified := true)]) && ClosesDistinct(c)
  {
  }

  lemma RegistrationKeepsInv(w: World, s: Step)
    requires Inv(w) && Enabled(w, s) && (s.TurnAdded? || s.TurnClosed?)
    ensures Inv(Apply(w, s))
  {
    hide MessagesFit, Accepted, InOrder, Bounded, AllBelowMark;
  }

  lemma StepKeepsInv(w: World, s: Step)
    requires Inv(w)
    ensures Inv(Next(w, s))
  {
    hide MessagesFit, Registered, Accepted, AddsKnown, AddsDistinct, ClosesKnown, ClosesDistinct, Bounded, AllBelowMark;
    if Enabled(w, s) {
      match s
      case EndOfStartup =>
      case Raise(t) => RaiseKeepsInv(w, t);
      case Enqueue(t) => EnqueueKeepsInv(w, t);
      case Subscribe(id, f) => SubscribeKeepsInv(w, id, f);
      case Reply(id) => StreamMoveKeepsInv(w, id, w.streams[id].(header := Some(w.highest)));
      case Poll(id) => BufferMoveKeepsInv(w, id, w.bufs[id].(queue := w.bufs[id].queue[1..]));
      case Signal(id) => StreamMoveKeepsInv(w, id, w.streams[id].(signalled := true));
      case CloseReceiver(id) => BufferMoveKeepsInv(w, id, w.bufs[id].(queue := [], closed := true));
      case Notify(id) => NotifyKeepsInv(w, id);
      case TurnAdded => RegistrationKeepsInv(w, s);
      case TurnClosed => RegistrationKeepsInv(w, s);
      case TurnAccount =>
        DequeueKeepsInv(w);
        FanOutKeepsInv(w.(accountQ := w.accountQ[1..]), AccountEvent(w.accountQ[0]));
      case Turn(e) => FanOutKeepsInv(w, e);
    }
  }

  lemma {:induction false} ReachableInv(cfg: Config, steps: seq<Step>)
    ensures Inv(Exec(Init(cfg), steps))
  {
    RunKeepsInv(Init(cfg), steps);
  }

  lemma {:induction false} RunKeepsInv(w: World, steps: seq<Step>)
    requires Inv(w)
    ensures Inv(Exec(w, steps))
  {
    hide Next, Inv;
    if steps != [] {
      RunKeepsInv(w, steps[..|steps| - 1]);
      StepKeepsInv(Exec(w, steps[..|steps| - 1]), steps[|steps| - 1]);
    }
  }

  // ----- the keys of accepted requests

  ghost predicate KeysOf32(f: Filter) {
    && (f.Accounts? ==> forall k :: k in f.accounts ==> |k| == 32)
    && (f.Programs? ==> forall k :: k in f.programs ==> |k| == 32)
  }

  /** A request is valid exactly when no key in it has another length than 32. */
  lemma ValidFilterIff(f: Filter)
    ensures ValidFilter(f) <==> KeysOf32(f)
  {
  }

  /** In every reachable world, so is every key of a subscription that is
      registered, on its way to the loop, or held by a client. */
  lemma AcceptedKeysHave32Bytes(cfg: Config, steps: seq<Step>)
    ensures var w := Exec(Init(cfg), steps);
      && (forall id :: id in w.subs ==> KeysOf32(w.subs[id]))
      && (forall i :: 0 <= i < |w.addedQ| ==> KeysOf32(w.addedQ[i].filter))
      && (forall id :: id in w.streams ==> KeysOf32(w.streams[id].filter))
  {
    hide Exec, MessagesFit, AddsDistinct, ClosesKnown, ClosesDistinct, InOrder, Bounded, UpdatesBelowMark;
    ReachableInv(cfg, steps);
    var w := Exec(Init(cfg), steps);
    forall id | id in w.streams ensures KeysOf32(w.streams[id].filter) {
      ValidFilterIff(w.streams[id].filter);
    }
  }
}
