/**
  The client's own update types and their construction from the wire messages.
  The unwraps of the conversions are failures here, not preconditions.
 */
module ClientTypes {
  import opened Wrappers
  import B = Bytes
  import P = Protocol
  import W = WriteSeqs

  datatype ClientError =
    | ConsumerChannelDisconnected
    | GrpcError
    | MissedHeartbeat
    | StaleAccountUpdate(updateSlot: nat, rootedSlot: nat)
    | OutOfOrderSeqAccountUpdate(slot: nat, rootedSlotReported: nat, actualGlobalSeq: nat, expectedGlobalSeq: nat)
    | StreamClosed
    | Panic

  datatype AccountUpdate = AccountUpdate(
    pubkey: P.Bytes, owner: P.Bytes, data: P.Bytes, txSignature: Option<string>, slot: nat, lamports: nat,
    rentEpoch: nat, seqNo: nat, replicaVersion: nat, isExecutable: bool, isStartup: bool)

  datatype PartialAccountUpdate = PartialAccountUpdate(
    pubkey: P.Bytes, txSignature: Option<string>, slot: nat, seqNo: nat, isStartup: bool)

  /** The two notifications that process_update is generic over. */
  datatype Update = FullUpdate(account: AccountUpdate) | PartialUpdate(part: PartialAccountUpdate)
  {
    function Notice(): W.Notice {
      if FullUpdate? then W.Notice(account.slot, account.pubkey, account.seqNo)
      else W.Notice(part.slot, part.pubkey, part.seqNo)
    }

    function SetSeq(n: nat): Update {
      if FullUpdate? then FullUpdate(account.(seqNo := n)) else PartialUpdate(part.(seqNo := n))
    }
  }

  function FromAccount(p: P.AccountUpdate): Result<Update, ClientError> {
    var pubkey, owner := B.PubkeyFrom(p.pubkey), B.PubkeyFrom(p.owner);
    if pubkey.None? || owner.None? then Err(Panic)
    else Ok(FullUpdate(AccountUpdate(
      pubkey.value, owner.value, p.data, p.txSignature, p.slot, p.lamports, p.rentEpoch, p.seqNo,
      p.replicaVersion, p.isExecutable, p.isStartup)))
  }

  function FromPartial(p: P.PartialAccountUpdate): Result<Update, ClientError> {
    var pubkey := B.PubkeyFrom(p.pubkey);
    if pubkey.None? then Err(Panic)
    else Ok(PartialUpdate(PartialAccountUpdate(pubkey.value, p.txSignature, p.slot, p.seqNo, p.isStartup)))
  }

  /** What a stream yields: an item, its end, or a transport error. */
  datatype StreamItem = Item(msg: P.Msg) | End | TransportError

  datatype Decoded = Data(update: Update) | Beat | Fail(error: ClientError)

  function AsDecoded(r: Result<Update, ClientError>): Decoded {
    if r.Ok? then Data(r.value) else Fail(r.error)
  }

  /** An item of an account stream; an error status is a grpc error. The stream
      type has no other messages. */
  function DecodeAccount(item: StreamItem): Decoded {
    match item
    case End => Fail(StreamClosed)
    case TransportError => Fail(GrpcError)
    case Item(FullMsg(t)) =>
      if t.accountUpdate.None? then Fail(Panic) else AsDecoded(FromAccount(t.accountUpdate.value))
    case Item(BrokenConnection) => Fail(GrpcError)
    case Item(_) => Fail(Panic)
  }

  /** An item of a partial account stream. */
  function DecodePartial(item: StreamItem): Decoded {
    match item
    case End => Fail(StreamClosed)
    case TransportError => Fail(GrpcError)
    case Item(PartialMsg(None)) => Fail(Panic)
    case Item(PartialMsg(Some(Hb))) => Beat
    case Item(PartialMsg(Some(Update(p)))) => AsDecoded(FromPartial(p))
    case Item(BrokenConnection) => Fail(GrpcError)
    case Item(_) => Fail(Panic)
  }
}
