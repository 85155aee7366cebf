/**
  Messages of the geyser service, what each kind of subscription is sent for
  an event, and the bounded buffer (tokio mpsc channel) behind a subscription.
 */
module Protocol {
  import opened Wrappers
  import B = Bytes

  type Byte = B.Byte
  type Bytes = B.Bytes
  type Uuid = nat

  const PUBKEY_BYTES := 32

  /** Vote program id: base58 "Vote" followed by 39 digits "1". */
  const VOTE_PROGRAM_ID: Bytes := [
    7, 97, 72, 29, 53, 116, 116, 187, 124, 77, 118, 36, 235, 211, 189, 179,
    216, 53, 94, 115, 209, 16, 67, 252, 13, 163, 83, 128, 0, 0, 0, 0]

  datatype AccountUpdate = AccountUpdate(
    slot: nat, pubkey: Bytes, lamports: nat, owner: Bytes, isExecutable: bool, rentEpoch: nat,
    data: Bytes, seqNo: nat, isStartup: bool, txSignature: Option<string>, replicaVersion: nat)

  datatype TimestampedAccountUpdate = TimestampedAccountUpdate(
    ts: Option<nat>, accountUpdate: Option<AccountUpdate>)

  datatype PartialAccountUpdate = PartialAccountUpdate(
    slot: nat, pubkey: Bytes, owner: Bytes, isStartup: bool, seqNo: nat,
    txSignature: Option<string>, replicaVersion: nat)

  datatype PartialPayload = Update(update: PartialAccountUpdate) | Hb

  /** One item of a subscriber's stream: a payload, or an error status. */
  datatype Msg =
    | FullMsg(update: TimestampedAccountUpdate)
    | PartialMsg(payload: Option<PartialPayload>)
    | SlotMsg(slot: nat)
    | EntryMsg(entry: nat)
    | TransactionMsg(transaction: nat)
    | BlockMsg(block: nat)
    | BrokenConnection

  const HEARTBEAT: Msg := PartialMsg(Some(Hb))

  /** What the event loop takes from one of its channels for fan-out. Payloads
      of the four unfiltered kinds are opaque identifiers. */
  datatype Event =
    | Heartbeat
    | AccountEvent(update: TimestampedAccountUpdate)
    | SlotEvent(slot: nat)
    | EntryEvent(entry: nat)
    | TransactionEvent(transaction: nat)
    | BlockEvent(block: nat)

  datatype Kind = KAccounts | KPrograms | KPartials | KSlots | KEntries | KTransactions | KBlocks

  datatype Filter =
    | Accounts(accounts: set<Bytes>)
    | Programs(programs: set<Bytes>)
    | Partials(skipVotes: bool)
    | Slots | Entries | Transactions | Blocks

  function KindOf(f: Filter): Kind {
    match f
    case Accounts(_) => KAccounts
    case Programs(_) => KPrograms
    case Partials(_) => KPartials
    case Slots => KSlots
    case Entries => KEntries
    case Transactions => KTransactions
    case Blocks => KBlocks
  }

  /** Subscription tables an event is fanned out over. */
  predicate Targets(e: Event, k: Kind) {
    match e
    case Heartbeat => k == KPartials
    case AccountEvent(_) => k == KAccounts || k == KPartials || k == KPrograms
    case SlotEvent(_) => k == KSlots
    case EntryEvent(_) => k == KEntries
    case TransactionEvent(_) => k == KTransactions
    case BlockEvent(_) => k == KBlocks
  }

  function Partial(u: AccountUpdate): PartialAccountUpdate {
    PartialAccountUpdate(u.slot, u.pubkey, u.owner, u.isStartup, u.seqNo, u.txSignature, u.replicaVersion)
  }

  /** An event that the loop can fan out without hitting the unwrap of its payload. */
  predicate HasPayload(e: Event) {
    e.AccountEvent? ==> e.update.accountUpdate.Some?
  }

  /** The message a subscription with filter f is sent for event e, if any. */
  function Offer(f: Filter, e: Event): Option<Msg>
    requires HasPayload(e)
  {
    match e
    case Heartbeat => if f.Partials? then Some(HEARTBEAT) else None
    case AccountEvent(t) => OfferAccount(f, t)
    case SlotEvent(n) => if f.Slots? then Some(SlotMsg(n)) else None
    case EntryEvent(n) => if f.Entries? then Some(EntryMsg(n)) else None
    case TransactionEvent(n) => if f.Transactions? then Some(TransactionMsg(n)) else None
    case BlockEvent(n) => if f.Blocks? then Some(BlockMsg(n)) else None
  }

  function OfferAccount(f: Filter, t: TimestampedAccountUpdate): Option<Msg>
    requires t.accountUpdate.Some?
  {
    var u := t.accountUpdate.value;
    match f
    case Accounts(keys) => if u.pubkey in keys then Some(FullMsg(t)) else None
    case Programs(owners) => if u.owner in owners then Some(FullMsg(t)) else None
    case Partials(skip) =>
      if skip && u.owner == VOTE_PROGRAM_ID then None else Some(PartialMsg(Some(Update(Partial(u)))))
    case _ => None
  }

  /** State of a bounded tokio channel: undelivered items, and whether the
      receiving half is gone. */
  datatype Buf = Buf(queue: seq<Msg>, capacity: nat, closed: bool)

  datatype SendOutcome = Sent | Full | Closed

  /** A send on a channel whose receiver is gone reports Closed even when the
      channel is also full. */
  function Outcome(b: Buf): SendOutcome {
    if b.closed then Closed
    else if |b.queue| >= b.capacity then Full
    else Sent
  }

  function TrySend(b: Buf, m: Msg): Buf {
    if Outcome(b).Sent? then b.(queue := b.queue + [m]) else b
  }

  function Deliver(b: Buf, offer: Option<Msg>): Buf {
    if offer.Some? then TrySend(b, offer.value) else b
  }
}
