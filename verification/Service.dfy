/**
  The ends of the broker that mutate shared state: the validator callbacks of
  the plugin, the subscribe handlers, and the stream a subscriber holds with its
  close task. Each is proved to make the moves of Broker that it stands for.
 */
module Service {
  import opened Wrappers
  import opened Protocol
  import opened Broker
  import EventLoop

  class AtomicU64 {
    var value: nat

    constructor ()
      ensures value == 0
    {
      value := 0;
    }

    method FetchMax(v: nat)
      modifies this
      ensures value == if old(value) < v then v else old(value)
    {
      if value < v {
        value := v;
      }
    }
  }

  /** The bounded channel from the validator to the event loop. */
  class UpdateChannel {
    const capacity: nat
    var queue: seq<TimestampedAccountUpdate>
    var disconnected: bool

    constructor (capacity: nat)
      ensures queue == [] && !disconnected && this.capacity == capacity
    {
      this.capacity := capacity;
      queue, disconnected := [], false;
    }

    method TrySend(t: TimestampedAccountUpdate) returns (r: SendOutcome)
      modifies this`queue
      ensures r == if disconnected then SendOutcome.Closed else if |old(queue)| < capacity then Sent else Full
      ensures queue == if r.Sent? then old(queue) + [t] else old(queue)
    {
      if disconnected {
        r := SendOutcome.Closed;
      } else if |queue| < capacity {
        queue := queue + [t];
        r := Sent;
      } else {
        r := Full;
      }
    }
  }

  datatype ReplicaAccount = ReplicaAccount(
    pubkey: Bytes, lamports: nat, owner: Bytes, executable: bool, rentEpoch: nat, data: Bytes,
    writeVersion: nat, txnSignature: Option<string>)

  datatype ReplicaAccountInfoVersions =
    | V1(account: ReplicaAccount)
    | V2(account: ReplicaAccount)
    | V3(account: ReplicaAccount)

  /** The message built for an account notification. Version 3 notifications
      are labelled 2 as well; version 1 has no signature. */
  function Message(info: ReplicaAccountInfoVersions, slot: nat, isStartup: bool, now: nat)
    : (t: TimestampedAccountUpdate)
    ensures t.accountUpdate.Some?
  {
    var a := info.account;
    TimestampedAccountUpdate(Some(now), Some(AccountUpdate(
      slot, a.pubkey, a.lamports, a.owner, a.executable, a.rentEpoch, a.data, a.writeVersion, isStartup,
      if info.V1? then None else a.txnSignature, if info.V1? then 1 else 2)))
  }

  /** The message repeats the notification, field by field; a version 1
      notification has no signature to repeat. */
  lemma MessageRepeats(info: ReplicaAccountInfoVersions, slot: nat, isStartup: bool, now: nat)
    ensures Message(info, slot, isStartup, now).ts == Some(now)
    ensures var u, a := Message(info, slot, isStartup, now).accountUpdate.value, info.account;
      && u.slot == slot && u.isStartup == isStartup && u.seqNo == a.writeVersion
      && u.pubkey == a.pubkey && u.owner == a.owner && u.lamports == a.lamports && u.data == a.data
      && u.isExecutable == a.executable && u.rentEpoch == a.rentEpoch
      && u.txSignature == if info.V1? then None else a.txnSignature
  {
  }

  /** The version a notification came in. */
  function VersionOf(info: ReplicaAccountInfoVersions): nat {
    match info
    case V1(_) => 1
    case V2(_) => 2
    case V3(_) => 3
  }

  /** The label of a message is the version of its notification exactly when
      that is not version 3. */
  lemma LabelIsVersionIff(info: ReplicaAccountInfoVersions, slot: nat, isStartup: bool, now: nat)
    ensures Message(info, slot, isStartup, now).accountUpdate.value.replicaVersion == VersionOf(info) <==> !info.V3?
    ensures info.V3? ==> Message(info, slot, isStartup, now).accountUpdate.value.replicaVersion == 2
  {
  }

  /** The raise move and the enqueue move of one notification, from a world with
      nothing in flight. */
  lemma NotificationMoves(w: World, t: TimestampedAccountUpdate)
    requires t.accountUpdate.Some? && w.inFlight == multiset{}
    ensures var u, raised := t.accountUpdate.value, Next(w, Raise(t));
      if (w.cfg.ignoreStartup && !w.startupDone) || |u.pubkey| != 32 || |u.owner| != 32
      then raised == w && Next(raised, Enqueue(t)) == w
      else
        && raised == w.(highest := Max(w.highest, u.slot), inFlight := multiset{t})
        && Next(raised, Enqueue(t)) == w.(
             highest := Max(w.highest, u.slot),
             accountQ := if |w.accountQ| < w.cfg.accountBuffer then w.accountQ + [t] else w.accountQ)
  {
  }

  datatype PluginError = AccountsUpdateError(msg: string)

  class PluginData {
    const accountUpdates: UpdateChannel
    const highestWriteSlot: AtomicU64
    const ignoreStartupUpdates: bool
    var isStartupCompleted: bool

    constructor (buffer: nat, ignoreStartupUpdates: bool)
      ensures fresh(accountUpdates) && fresh(highestWriteSlot)
      ensures View() == Init(Config(buffer, 0, ignoreStartupUpdates)) && !accountUpdates.disconnected
    {
      accountUpdates := new UpdateChannel(buffer);
      highestWriteSlot := new AtomicU64();
      this.ignoreStartupUpdates := ignoreStartupUpdates;
      isStartupCompleted := false;
    }

    /** The plugin's part of the world. */
    ghost function View(): World
      reads this, accountUpdates, highestWriteSlot
    {
      Init(Config(accountUpdates.capacity, 0, ignoreStartupUpdates)).(
        startupDone := isStartupCompleted, highest := highestWriteSlot.value, accountQ := accountUpdates.queue)
    }

    method NotifyEndOfStartup()
      modifies this
      ensures isStartupCompleted && View() == Next(old(View()), EndOfStartup)
    {
      isStartupCompleted := true;
    }

    /** The notification gets past the startup gate and has keys of 32 bytes. */
    predicate Admits(info: ReplicaAccountInfoVersions)
      reads this
    {
      (ignoreStartupUpdates ==> isStartupCompleted) && |info.account.pubkey| == 32 && |info.account.owner| == 32
    }

    /** One notification is the raise of the mark followed by the offer to the
        channel; only a disconnected channel is an error, and it still raises. */
    method UpdateAccount(info: ReplicaAccountInfoVersions, slot: nat, isStartup: bool, now: nat)
      returns (r: Result<(), PluginError>)
      modifies accountUpdates`queue, highestWriteSlot
      ensures !Admits(info) ==>
        && r == Ok(()) && accountUpdates.queue == old(accountUpdates.queue)
        && highestWriteSlot.value == old(highestWriteSlot.value)
      ensures Admits(info) ==>
        highestWriteSlot.value == if old(highestWriteSlot.value) < slot then slot else old(highestWriteSlot.value)
      ensures Admits(info) ==> (r.Err? <==> accountUpdates.disconnected)
      ensures
        var queue := old(accountUpdates.queue);
        var room := !accountUpdates.disconnected && |queue| < accountUpdates.capacity;
        && (Admits(info) && room ==> accountUpdates.queue == queue + [Message(info, slot, isStartup, now)])
        && (Admits(info) && !room ==> accountUpdates.queue == queue)
      ensures var t := Message(info, slot, isStartup, now);
        var raised := Next(old(View()), Raise(t));
        && (!accountUpdates.disconnected ==> r.Ok? && View() == Next(raised, Enqueue(t)))
        && (accountUpdates.disconnected ==>
              (r.Err? <==> t in raised.inFlight) && View() == raised.(inFlight := multiset{}))
    {
      hide Next;
      NotificationMoves(View(), Message(info, slot, isStartup, now));
      if ignoreStartupUpdates && !isStartupCompleted {
        return Ok(());
      }
      var t := Message(info, slot, isStartup, now);
      var update := t.accountUpdate.value;
      if |update.pubkey| != 32 {
        return Ok(());
      }
      if |update.owner| != 32 {
        return Ok(());
      }
      highestWriteSlot.FetchMax(slot);
      var outcome := accountUpdates.TrySend(t);
      match outcome
      case Sent => r := Ok(());
      case Full => r := Ok(());
      case Closed => r := Err(AccountsUpdateError("account_update channel disconnected, exiting"));
    }
  }

  /** The unbounded channels into the event loop, whose receiving halves go away
      when it stops. */
  class LoopInbox {
    var added: seq<(AddedEvent, EventLoop.Wire)>
    var closed: seq<ClosedEvent>
    var loopGone: bool

    constructor ()
      ensures added == [] && closed == [] && !loopGone
    {
      added, closed, loopGone := [], [], false;
    }

    method SendAdded(a: AddedEvent, tx: EventLoop.Wire) returns (ok: bool)
      modifies this`added
      ensures ok == !loopGone
      ensures added == if ok then old(added) + [(a, tx)] else old(added)
    {
      ok := !loopGone;
      if ok {
        added := added + [(a, tx)];
      }
    }

    method SendClosed(c: ClosedEvent) returns (ok: bool)
      modifies this`closed
      ensures ok == !loopGone
      ensures closed == if ok then old(closed) + [c] else old(closed)
    {
      ok := !loopGone;
      if ok {
        closed := closed + [c];
      }
    }
  }

  ghost function EventsOf(added: seq<(AddedEvent, EventLoop.Wire)>): (events: seq<AddedEvent>)
    ensures |events| == |added| && forall i :: 0 <= i < |added| ==> events[i] == added[i].0
  {
    seq(|added|, i requires 0 <= i < |added| => added[i].0)
  }

  lemma EventsOfAppend(added: seq<(AddedEvent, EventLoop.Wire)>, a: AddedEvent, tx: EventLoop.Wire)
    ensures EventsOf(added + [(a, tx)]) == EventsOf(added) + [a]
  {
  }

  lemma SubscribeMove(w: World, id: Uuid, f: Filter)
    requires ValidFilter(f) && id !in w.bufs && id !in w.streams
    ensures Next(w, Step.Subscribe(id, f)) ==
      w.(addedQ := w.addedQ + [AddedEvent(id, f)], bufs := w.bufs[id := Buf([], w.cfg.subscriberBuffer, false)],
         streams := w.streams[id := Stream(f, None, false, false)])
  {
  }

  datatype Status = InvalidArgument(msg: string) | Internal(msg: string)

  class GeyserService {
    const highestWriteSlot: AtomicU64
    const subscriberBufferSize: nat
    const inbox: LoopInbox

    /** The subscriptions made so far and their channels. */
    ghost var streams: Streams
    ghost var wires: map<Uuid, EventLoop.Wire>

    constructor (highestWriteSlot: AtomicU64, subscriberBufferSize: nat, inbox: LoopInbox)
      ensures this.highestWriteSlot == highestWriteSlot && this.subscriberBufferSize == subscriberBufferSize
      ensures this.inbox == inbox && streams == map[] && wires == map[]
    {
      this.highestWriteSlot := highestWriteSlot;
      this.subscriberBufferSize := subscriberBufferSize;
      this.inbox := inbox;
      streams, wires := map[], map[];
    }

    /** The handlers' part of the world. */
    ghost function View(): World
      reads this, inbox, highestWriteSlot, EventLoop.ValuesOf(wires)
    {
      Init(Config(0, subscriberBufferSize, false)).(
        highest := highestWriteSlot.value, addedQ := EventsOf(inbox.added), closedQ := inbox.closed,
        bufs := EventLoop.BufsOf(wires), streams := streams)
    }

    /** Sends the added event with the sending half of a new channel. A stopped
        loop is an internal error. */
    method AddSubscription(id: Uuid, f: Filter) returns (r: Result<EventLoop.Wire, Status>)
      requires id !in streams && id !in wires
      modifies this`wires, this`streams, inbox`added
      ensures r.Ok? <==> !inbox.loopGone
      ensures r.Err? ==> r.error.Internal? && inbox.added == old(inbox.added)
      ensures r.Err? ==> wires == old(wires) && streams == old(streams)
      ensures r.Ok? ==> fresh(r.value) && r.value.View() == Buf([], subscriberBufferSize, false)
      ensures r.Ok? ==> inbox.added == old(inbox.added) + [(AddedEvent(id, f), r.value)]
      ensures r.Ok? ==> wires == old(wires)[id := r.value]
      ensures r.Ok? ==> streams == old(streams)[id := Stream(f, None, false, false)]
    {
      var wire := new EventLoop.Wire(subscriberBufferSize, id);
      var ok := inbox.SendAdded(AddedEvent(id, f), wire);
      if !ok {
        return Err(Internal("error adding subscription"));
      }
      wires, streams := wires[id := wire], streams[id := Stream(f, None, false, false)];
      r := Ok(wire);
    }

    /** That is the subscribe move of Broker. */
    method Admit(id: Uuid, f: Filter) returns (r: Result<EventLoop.Wire, Status>)
      requires ValidFilter(f) && id !in streams && id !in wires
      modifies this`wires, this`streams, inbox`added
      ensures r.Ok? <==> !inbox.loopGone
      ensures r.Err? ==> r.error.Internal? && View() == old(View())
      ensures r.Ok? ==> View() == Next(old(View()), Step.Subscribe(id, f))
      ensures r.Ok? ==> fresh(r.value) && inbox.added == old(inbox.added) + [(AddedEvent(id, f), r.value)]
      ensures r.Ok? ==> wires == old(wires)[id := r.value] && !r.value.closed
      ensures r.Ok? ==> streams == old(streams)[id := Stream(f, None, false, false)]
    {
      hide ValidFilter, Next, EventsOf;
      SubscribeMove(View(), id, f);
      r := AddSubscription(id, f);
      if r.Ok? {
        EventLoop.BufsOfInsert(old(wires), id, r.value);
        EventsOfAppend(old(inbox.added), AddedEvent(id, f), r.value);
      }
    }

    /** Reads the header a new stream is answered with: the reply move of Broker,
        possible only once the subscription has been made. */
    method Answer(id: Uuid) returns (header: nat)
      requires id in streams && streams[id].header.None?
      modifies this`streams
      ensures View() == Next(old(View()), Reply(id))
      ensures header == highestWriteSlot.value
      ensures streams == old(streams)[id := old(streams)[id].(header := Some(header))]
    {
      header := highestWriteSlot.value;
      streams := streams[id := streams[id].(header := Some(header))];
    }

    /** A subscribe handler. A request with a key that is not 32 bytes is refused
        and changes nothing; any other is the subscribe move followed by the
        reply move, unless the loop has stopped. */
    method Subscribe(id: Uuid, f: Filter) returns (r: Result<(SubscriptionStream, nat), Status>)
      requires id !in streams && id !in wires
      modifies this`wires, this`streams, inbox`added
      ensures r.Ok? <==> ValidFilter(f) && !inbox.loopGone
      ensures r.Err? ==> View() == old(View()) && (r.error.InvalidArgument? <==> !ValidFilter(f))
      ensures r.Err? && r.error.InvalidArgument? <==>
        || (f.Accounts? && exists k :: k in f.accounts && |k| != 32)
        || (f.Programs? && exists k :: k in f.programs && |k| != 32)
      ensures r.Ok? ==> View() == Next(Next(old(View()), Step.Subscribe(id, f)), Reply(id))
      ensures r.Ok? ==>
        var (stream, header) := r.value;
        && stream.Live() && stream.task.event == ClosedEvent(KindOf(f), id) && stream.task.inbox == inbox
        && stream.In(View())
        && inbox.added == old(inbox.added) + [(AddedEvent(id, f), stream.receiver)]
        && header == highestWriteSlot.value
    {
      hide Next, EventsOf, KindOf;
      if !ValidFilter(f) {
        return Err(InvalidArgument("a pubkey with length != 32 was provided"));
      }
      var added := Admit(id, f);
      if added.Err? {
        return Err(added.error);
      }
      ghost var subscribed := View();
      var stream := new SubscriptionStream(added.value, ClosedEvent(KindOf(f), id), inbox);
      assert View() == subscribed;
      var header := Answer(id);
      assert stream.Live() && stream.receiver == added.value;
      assert View().bufs[id] == stream.receiver.View();
      r := Ok((stream, header));
    }
  }

  /** What has become of the sending half of a one-shot signal. */
  datatype Signal = Held | Fired | Dropped

  class Oneshot {
    var sender: Signal

    constructor ()
      ensures sender == Held
    {
      sender := Held;
    }
  }

  /** The task spawned with a stream, waiting on the stream's own signal. */
  class CloseTask {
    const rx: Oneshot
    const event: ClosedEvent
    const inbox: LoopInbox
    var done: bool

    constructor (rx: Oneshot, event: ClosedEvent, inbox: LoopInbox)
      ensures this.rx == rx && this.event == event && this.inbox == inbox && !done
    {
      this.rx := rx;
      this.event := event;
      this.inbox := inbox;
      done := false;
    }

    /** The task is the one of its stream in w. */
    ghost predicate In(w: World)
      reads this, rx, inbox
    {
      && event.id in w.streams && KindOf(w.streams[event.id].filter) == event.kind
      && (w.streams[event.id].signalled <==> rx.sender == Fired)
      && (w.streams[event.id].notified <==> done)
      && w.closedQ == inbox.closed
    }

    /** The wait is over once the signal's sender has fired or is gone; the task
        then sends its close event, the one time it gets there: the notify move
        of Broker, while the loop runs. */
    method Resume(ghost w: World)
      modifies this`done, inbox`closed
      ensures done <==> old(done) || rx.sender != Held
      ensures inbox.closed ==
        if !old(done) && rx.sender != Held && !inbox.loopGone then old(inbox.closed) + [event] else old(inbox.closed)
      ensures old(In(w)) && rx.sender != Dropped && !inbox.loopGone ==> In(Next(w, Notify(event.id)))
    {
      if done || rx.sender == Held {
        return;
      }
      done := true;
      var _ := inbox.SendClosed(event);
    }
  }

  class SubscriptionStream {
    const receiver: EventLoop.Wire
    const task: CloseTask
    var signal: Option<Oneshot>

    ghost function Id(): Uuid
      reads this, task
    {
      task.event.id
    }

    /** The stream is the one of its subscription in w, answered already. */
    ghost predicate In(w: World)
      reads this, receiver, task, task.rx, task.inbox
    {
      && task.In(w) && w.streams[Id()].header.Some?
      && Id() in w.bufs && w.bufs[Id()] == receiver.View() && (receiver.closed ==> signal.None?)
      && (if signal.Some? then signal == Some(task.rx) && task.rx.sender == Held else task.rx.sender == Fired)
    }

    /** Held by a client: the signal its task waits on is there to be taken by the drop. */
    ghost predicate Live()
      reads this, task, task.rx
    {
      signal == Some(task.rx) && task.rx.sender == Held && !task.done
    }

    constructor (receiver: EventLoop.Wire, event: ClosedEvent, inbox: LoopInbox)
      ensures this.receiver == receiver && task.event == event && task.inbox == inbox
      ensures Live() && fresh(task) && fresh(task.rx)
    {
      var oneshot := new Oneshot();
      this.receiver := receiver;
      task := new CloseTask(oneshot, event, inbox);
      signal := Some(oneshot);
    }

    /** A client takes the next item of its stream: the poll move of Broker, which
        is not enabled while there is none. */
    method Poll(ghost w: World) returns (m: Option<Msg>)
      modifies receiver
      ensures old(In(w)) && signal.Some? ==> In(Next(w, Step.Poll(Id())))
      ensures old(receiver.queue) == [] ==> m == None && receiver.View() == old(receiver.View())
      ensures old(receiver.queue) != [] ==>
        m == Some(old(receiver.queue)[0]) && receiver.View() == old(receiver.View()).(queue := old(receiver.queue)[1..])
    {
      if receiver.queue == [] {
        return None;
      }
      m := Some(receiver.queue[0]);
      receiver.queue := receiver.queue[1..];
    }

    /** Dropping the stream takes the signal out and fires it, and then the
        receiving half goes away: the signal move of Broker and its close of the
        receiver, which is enabled only after it. */
    method Drop(ghost w: World)
      requires Live()
      modifies this`signal, task.rx, receiver
      ensures old(In(w)) ==> In(Next(Next(w, Step.Signal(Id())), CloseReceiver(Id())))
      ensures signal.None? && task.rx.sender == Fired && !task.done
      ensures receiver.View() == old(receiver.View()).(queue := [], closed := true)
    {
      var taken := signal.value;
      signal := None;
      taken.sender := Fired;
      receiver.queue, receiver.closed := [], true;
    }
  }
}
