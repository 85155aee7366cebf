/**
  The event loop object inside the broker: one pass of its select, on whichever
  channel it picks, is the loop turn of Broker on the world the object is part of,
  and the moves of everyone else leave it part of the world.
 */
module LoopTurns {
  import opened Wrappers
  import opened Protocol
  import opened FanOut
  import opened Broker
  import opened Registry
  import opened EventLoop
  import opened CloseRace
  import S = Service

  /** The object holds the registrations of w, its channels are those of w, and
      the added event of each has been handled. */
  ghost predicate Mirrors(loop: EventLoop, w: World)
    reads loop, loop.Wires()
  {
    loop.Valid() && loop.subs == w.subs && PartOf(loop.Bufs(), w.bufs) && Handled(loop.wires.Keys, w)
  }

  ghost predicate Handled(ids: set<Uuid>, w: World) {
    forall id :: id in ids ==> id in w.streams && !AddPending(w, id)
  }

  lemma HandledStep(ids: set<Uuid>, w: World, s: Step)
    requires Handled(ids, w)
    ensures Handled(ids, Next(w, s))
  {
    hide AddPending, Next;
    forall id | id in ids ensures id in Next(w, s).streams && !AddPending(Next(w, s), id) {
      NotPendingStep(w, s, id);
    }
  }

  ghost predicate PartOf(part: Bufs, whole: Bufs) {
    part.Keys <= whole.Keys && forall id :: id in part ==> part[id] == whole[id]
  }

  /** What the select takes from the channel it picks; None from one that is disconnected. */
  datatype Taken =
    | TakenTick
    | TakenAdded(added: Option<(AddedEvent, Wire)>)
    | TakenClosed(closed: Option<ClosedEvent>)
    | TakenAccount(account: Option<TimestampedAccountUpdate>)
    | TakenSlot(slot: Option<nat>)
    | TakenEntry(entry: Option<nat>)
    | TakenTransaction(transaction: Option<nat>)
    | TakenBlock(block: Option<nat>)

  predicate Disconnected(t: Taken) {
    match t
    case TakenTick => false
    case TakenAdded(x) => x.None?
    case TakenClosed(x) => x.None?
    case TakenAccount(x) => x.None?
    case TakenSlot(x) => x.None?
    case TakenEntry(x) => x.None?
    case TakenTransaction(x) => x.None?
    case TakenBlock(x) => x.None?
  }

  function TurnOf(t: Taken): Step
    requires !Disconnected(t)
  {
    match t
    case TakenTick => Turn(Heartbeat)
    case TakenAdded(_) => TurnAdded
    case TakenClosed(_) => TurnClosed
    case TakenAccount(_) => TurnAccount
    case TakenSlot(x) => Turn(SlotEvent(x.value))
    case TakenEntry(x) => Turn(EntryEvent(x.value))
    case TakenTransaction(x) => Turn(TransactionEvent(x.value))
    case TakenBlock(x) => Turn(BlockEvent(x.value))
  }

  /** An item taken from a queue of w is its head; a new subscription comes with
      the sending half of its channel. */
  ghost predicate TakenFrom(t: Taken, w: World)
    reads if t.TakenAdded? && t.added.Some? then {t.added.value.1} else {}
  {
    match t
    case TakenAdded(Some((a, tx))) =>
      && w.addedQ != [] && w.addedQ[0] == a && tx.owner == a.id
      && (a.id in w.bufs ==> tx.View() == w.bufs[a.id])
    case TakenClosed(Some(c)) => w.closedQ != [] && w.closedQ[0] == c
    case TakenAccount(Some(u)) => w.accountQ != [] && w.accountQ[0] == u && u.accountUpdate.Some?
    case _ => true
  }

  lemma FanOutMirrors(subs: Subs, part: Bufs, w: World, s: Step, e: Event)
    requires Enabled(w, s) && TurnEvent(w, s) == Some(e) && w.subs == subs
    requires PartOf(part, w.bufs) && subs.Keys <= part.Keys
    ensures Next(w, s).subs == Survivors(subs, part, e)
    ensures PartOf(SendAll(subs, part, e), Next(w, s).bufs)
  {
    hide Survivors, SendAll;
    FanOutIsLocal(subs, part, w.bufs, e);
  }

  /** The subscription being added is not in the object yet; afterwards its
      added event has been handled too. */
  lemma AddedIsNew(w: World, ids: set<Uuid>)
    requires Inv(w) && w.addedQ != [] && Handled(ids, w)
    ensures var id := w.addedQ[0].id;
      id !in ids && id in w.bufs && Handled(ids + {id}, Next(w, TurnAdded))
  {
    hide MessagesFit, Registered, Accepted, ClosesKnown, ClosesDistinct, Bounded, UpdatesBelowMark;
    var id := w.addedQ[0].id;
    assert AddPending(w, id);
    HandledStep(ids, w, TurnAdded);
  }

  method SelectAdded(loop: EventLoop, x: Option<(AddedEvent, Wire)>, ghost w: World) returns (running: bool)
    requires Mirrors(loop, w) && Inv(w) && TakenFrom(TakenAdded(x), w)
    modifies loop
    ensures running <==> x.Some?
    ensures Mirrors(loop, if running then Next(w, TurnAdded) else w)
  {
    hide AllHold, OwnWires, Handled, Inv;
    if x.Some? {
      AddedIsNew(w, loop.wires.Keys);
    }
    running := loop.OnAdded(x);
    if x.Some? {
      assert loop.wires.Keys == old(loop.wires).Keys + {x.value.0.id};
    }
  }

  method SelectClosed(loop: EventLoop, x: Option<ClosedEvent>, ghost w: World) returns (running: bool)
    requires Mirrors(loop, w) && TakenFrom(TakenClosed(x), w)
    modifies loop
    ensures running <==> x.Some?
    ensures Mirrors(loop, if running then Next(w, TurnClosed) else w)
  {
    hide AllHold, OwnWires, CloseSub, Handled;
    if x.Some? {
      HandledStep(loop.wires.Keys, w, TurnClosed);
    }
    running := loop.OnClosed(x);
  }

  /** One pass of the loop, handler and drops. It stops, with nothing changed,
      exactly when the channel it picked is disconnected. */
  method Select(loop: EventLoop, t: Taken, ghost w: World) returns (running: bool)
    requires Mirrors(loop, w) && Inv(w) && TakenFrom(t, w)
    modifies loop, loop.Wires()
    ensures running <==> !Disconnected(t)
    ensures Mirrors(loop, if running then Next(w, TurnOf(t)) else w)
  {
    hide Survivors, SendAll, OwnWires, AllHold, Next, Handled, Inv;
    ghost var part := loop.Bufs();
    running := true;
    if !Disconnected(t) && TurnEvent(w, TurnOf(t)).Some? {
      HandledStep(loop.wires.Keys, w, TurnOf(t));
      FanOutMirrors(loop.subs, part, w, TurnOf(t), TurnEvent(w, TurnOf(t)).value);
    }
    match t {
      case TakenTick => loop.OnHeartbeat();
      case TakenAdded(x) => running := SelectAdded(loop, x, w);
      case TakenClosed(x) => running := SelectClosed(loop, x, w);
      case TakenAccount(x) => running := loop.OnAccountUpdate(x);
      case TakenSlot(x) => running := loop.OnSlotUpdate(x);
      case TakenEntry(x) => running := loop.OnSlotEntryUpdate(x);
      case TakenTransaction(x) => running := loop.OnTransactionUpdate(x);
      case TakenBlock(x) => running := loop.OnBlockUpdate(x);
    }
  }

  // ----- everyone else's moves

  /** Moves of the validator, and of the others as far as no channel is touched. */
  predicate Quiet(s: Step) {
    s.EndOfStartup? || s.Raise? || s.Enqueue? || s.Subscribe? || s.Reply? || s.Signal? || s.Notify?
  }

  lemma QuietMovesKeepMirror(loop: EventLoop, w: World, s: Step)
    requires Mirrors(loop, w) && Quiet(s)
    ensures Mirrors(loop, Next(w, s))
  {
    hide AllHold, OwnWires, Handled, Next;
    HandledStep(loop.wires.Keys, w, s);
    QuietMovesKeepChannels(loop.wires.Keys, w, s);
  }

  lemma SubscribeKeepsChannels(w: World, id: Uuid, f: Filter)
    ensures Next(w, Subscribe(id, f)).subs == w.subs
    ensures forall x :: x in w.bufs ==>
      x in Next(w, Subscribe(id, f)).bufs && Next(w, Subscribe(id, f)).bufs[x] == w.bufs[x]
  {
    hide ValidFilter;
  }

  predicate SameChannels(v: World, w: World) {
    v.subs == w.subs && v.bufs == w.bufs
  }

  lemma ValidatorKeepsChannels(w: World, t: TimestampedAccountUpdate)
    ensures SameChannels(Next(w, EndOfStartup), w)
    ensures SameChannels(Next(w, Raise(t)), w)
    ensures SameChannels(Next(w, Enqueue(t)), w)
  {
  }

  lemma StreamKeepsChannels(w: World, id: Uuid)
    ensures SameChannels(Next(w, Reply(id)), w)
    ensures SameChannels(Next(w, Signal(id)), w)
    ensures SameChannels(Next(w, Notify(id)), w)
  {
  }

  lemma OtherQuietMovesKeepChannels(w: World, s: Step)
    requires Quiet(s) && !s.Subscribe?
    ensures SameChannels(Next(w, s), w)
  {
    hide Next, SameChannels;
    match s
    case EndOfStartup =>
      var anything := TimestampedAccountUpdate(None, None);
      ValidatorKeepsChannels(w, anything);
    case Raise(t) => ValidatorKeepsChannels(w, t);
    case Enqueue(t) => ValidatorKeepsChannels(w, t);
    case Reply(id) => StreamKeepsChannels(w, id);
    case Signal(id) => StreamKeepsChannels(w, id);
    case Notify(id) => StreamKeepsChannels(w, id);
  }

  lemma QuietMovesKeepChannels(ids: set<Uuid>, w: World, s: Step)
    requires Quiet(s) && ids <= w.bufs.Keys
    ensures Next(w, s).subs == w.subs
    ensures forall id :: id in ids ==> id in Next(w, s).bufs && Next(w, s).bufs[id] == w.bufs[id]
  {
    hide Next;
    if s.Subscribe? {
      SubscribeKeepsChannels(w, s.id, s.filter);
    } else {
      OtherQuietMovesKeepChannels(w, s);
    }
  }

  /** The stream's receiving half belongs to the channel the object sends on. */
  ghost predicate Joined(loop: EventLoop, stream: S.SubscriptionStream)
    reads loop, stream, stream.task
  {
    && stream.receiver.owner == stream.Id()
    && (stream.Id() in loop.wires ==> loop.wires[stream.Id()] == stream.receiver)
  }

  /** A client reads from a stream of this world. */
  method ClientReads(loop: EventLoop, stream: S.SubscriptionStream, ghost w: World) returns (m: Option<Msg>)
    requires Mirrors(loop, w) && stream.In(w) && stream.signal.Some? && Joined(loop, stream)
    modifies stream.receiver
    ensures Mirrors(loop, Next(w, Poll(stream.Id()))) && stream.In(Next(w, Poll(stream.Id())))
  {
    hide AllHold, Handled;
    HandledStep(loop.wires.Keys, w, Poll(stream.Id()));
    m := stream.Poll(w);
  }

  /** A client drops a stream of this world. */
  method ClientLeaves(loop: EventLoop, stream: S.SubscriptionStream, ghost w: World)
    requires Mirrors(loop, w) && stream.In(w) && stream.Live() && Joined(loop, stream)
    modifies stream`signal, stream.task.rx, stream.receiver
    ensures var v := Next(Next(w, Signal(stream.Id())), CloseReceiver(stream.Id()));
      Mirrors(loop, v) && stream.In(v)
  {
    hide AllHold, Handled;
    HandledStep(loop.wires.Keys, w, Signal(stream.Id()));
    HandledStep(loop.wires.Keys, Next(w, Signal(stream.Id())), CloseReceiver(stream.Id()));
    stream.Drop(w);
  }

  /** In every reachable world the seven tables of the object are, entry for
      entry, the tables computed along the run. */
  lemma TablesOfTheRun(loop: EventLoop, cfg: Config, steps: seq<Step>)
    requires Mirrors(loop, Exec(Init(cfg), steps))
    ensures loop.Tables() == Tables(cfg, steps)
  {
    loop.ValidAgrees();
    SevenTablesAgree(cfg, steps);
    AgreeingRegistriesAreEqual(loop.Tables(), Tables(cfg, steps), loop.subs);
  }
}
