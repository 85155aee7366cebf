/** Conversion of whole blocks to protobuf and back. */
module ConvertBlock {
  import opened ConvertMessage
  import opened ConvertMeta
  import opened Lists
  import opened Wrappers
  import L = Ledger
  import P = BlockProto

  // ----- a transaction with its metadata

  function EncodeVersioned(lib: Library, t: L.VersionedTransactionWithMeta): P.ConfirmedTransaction {
    P.ConfirmedTransaction(Some(EncodeTransaction(t.transaction)), Some(EncodeMeta(lib, t.meta)))
  }

  function EncodeConfirmed(lib: Library, t: L.TransactionWithMeta): P.ConfirmedTransaction {
    match t
    case MissingMetadata(transaction) => P.ConfirmedTransaction(Some(EncodeLegacyTransaction(transaction)), None)
    case Complete(complete) => EncodeVersioned(lib, complete)
  }

  /** The metadata is decoded first. A versioned transaction without metadata panics. */
  function DecodeConfirmed(lib: Library, p: P.ConfirmedTransaction): Result<L.TransactionWithMeta, Failure> {
    var meta :=
      if p.meta.None? then Ok(None)
      else match DecodeMeta(lib, p.meta.value)
        case Ok(m) => Ok(Some(m))
        case Err(e) => Err(e);
    if meta.Err? then Err(meta.error)
    else if p.transaction.None? then Err(Panicked)
    else match DecodeTransaction(p.transaction.value)
      case Err(e) => Err(e)
      case Ok(transaction) =>
        match meta.value
        case Some(m) => Ok(L.Complete(L.VersionedTransactionWithMeta(transaction, m)))
        case None =>
          match L.IntoLegacyTransaction(transaction)
          case Some(legacy) => Ok(L.MissingMetadata(legacy))
          case None => Err(Panicked)
  }

  function NormalVersioned(lib: Library, t: L.VersionedTransactionWithMeta): L.TransactionWithMeta {
    L.Complete(t.(meta := NormalMeta(lib, t.meta)))
  }

  function NormalConfirmed(lib: Library, t: L.TransactionWithMeta): L.TransactionWithMeta {
    match t
    case MissingMetadata(_) => t
    case Complete(complete) => NormalVersioned(lib, complete)
  }

  lemma ConfirmedRoundTrip(lib: Library, t: L.TransactionWithMeta)
    requires Faithful(lib)
    ensures DecodeConfirmed(lib, EncodeConfirmed(lib, t)) == Ok(NormalConfirmed(lib, t))
  {
    hide DecodeMeta, EncodeMeta, NormalMeta, DecodeTransaction, EncodeTransaction, EncodeLegacyTransaction;
    match t
    case MissingMetadata(transaction) =>
      LegacyTransactionRoundTrip(transaction);
    case Complete(complete) =>
      TransactionRoundTrip(complete.transaction);
      MetaRoundTrip(lib, complete.meta);
  }

  /** Exactly which transactions decode; an undecodable status or loaded address
      is an error, everything else wrong with one is a panic. */
  ghost predicate Readable(lib: Library, p: P.ConfirmedTransaction) {
    && (p.meta.Some? ==> ReadableMeta(lib, p.meta.value) && ReadableReturnData(p.meta.value))
    && p.transaction.Some? && WellFormedTransaction(p.transaction.value)
    && (p.meta.None? ==> !p.transaction.value.message.value.versioned)
  }

  lemma ConfirmedDecodesIff(lib: Library, p: P.ConfirmedTransaction)
    ensures DecodeConfirmed(lib, p).Ok? <==> Readable(lib, p)
    ensures DecodeConfirmed(lib, p) == Err(BincodeError) <==> p.meta.Some? && !ReadableMeta(lib, p.meta.value)
    ensures DecodeConfirmed(lib, p).Ok? ==> (DecodeConfirmed(lib, p).value.Complete? <==> p.meta.Some?)
  {
    hide DecodeMeta, DecodeMessage, ReadableMeta, ReadableReturnData, WellFormedMessage;
    if p.meta.Some? {
      MetaDecodesIff(lib, p.meta.value);
    }
    if p.transaction.Some? {
      TransactionDecodesIff(p.transaction.value);
      if p.transaction.value.message.Some? {
        MessageDecodesIff(p.transaction.value.message.value);
      }
    }
  }

  lemma ConfirmedDecodeEncodeDecode(lib: Library, p: P.ConfirmedTransaction)
    requires Faithful(lib) && DecodeConfirmed(lib, p).Ok?
    ensures DecodeConfirmed(lib, EncodeConfirmed(lib, DecodeConfirmed(lib, p).value)) == DecodeConfirmed(lib, p)
  {
    hide DecodeMeta, EncodeMeta, NormalMeta, DecodeTransaction, EncodeTransaction, EncodeLegacyTransaction;
    hide EncodeConfirmed;
    var t := DecodeConfirmed(lib, p).value;
    ConfirmedRoundTrip(lib, t);
    if t.Complete? {
      var meta := p.meta.value;
      MetaDecodeEncodeDecode(lib, meta);
      MetaRoundTrip(lib, t.complete.meta);
    }
  }

  // ----- blocks

  function EncodeBlock(lib: Library, b: L.VersionedConfirmedBlock): P.ConfirmedBlock {
    P.ConfirmedBlock(b.previousBlockhash, b.blockhash, b.parentSlot,
      Map((t: L.VersionedTransactionWithMeta) => EncodeVersioned(lib, t), b.transactions),
      Map(EncodeReward, b.rewards), b.numPartitions, b.blockTime, b.blockHeight)
  }

  function DecodeTransactions(lib: Library, ps: seq<P.ConfirmedTransaction>)
    : Result<seq<L.TransactionWithMeta>, Failure>
  {
    Collect((p: P.ConfirmedTransaction) => DecodeConfirmed(lib, p), ps)
  }

  function DecodeBlock(lib: Library, p: P.ConfirmedBlock): Result<L.ConfirmedBlock, Failure> {
    match DecodeTransactions(lib, p.transactions)
    case Err(e) => Err(e)
    case Ok(transactions) =>
      Ok(L.Block(p.previousBlockhash, p.blockhash, p.parentSlot, transactions, Map(DecodeReward, p.rewards),
        p.numPartitions, p.blockTime, p.blockHeight))
  }

  function NormalBlock(lib: Library, b: L.VersionedConfirmedBlock): L.ConfirmedBlock {
    L.Block(b.previousBlockhash, b.blockhash, b.parentSlot,
      Map((t: L.VersionedTransactionWithMeta) => NormalVersioned(lib, t), b.transactions),
      b.rewards, b.numPartitions, b.blockTime, b.blockHeight)
  }

  /** A block decodes exactly when each of its transactions does; the failure is
      that of the first one that does not. */
  lemma BlockDecodesIff(lib: Library, p: P.ConfirmedBlock)
    ensures DecodeBlock(lib, p).Ok? <==> forall i :: 0 <= i < |p.transactions| ==> Readable(lib, p.transactions[i])
    ensures DecodeBlock(lib, p).Err? ==> (exists i ::
      && 0 <= i < |p.transactions|
      && DecodeConfirmed(lib, p.transactions[i]) == Err(DecodeBlock(lib, p).error)
      && (forall j :: 0 <= j < i ==> Readable(lib, p.transactions[j])))
  {
    hide Collect, Map, DecodeConfirmed, Readable;
    var ps := p.transactions;
    forall i | 0 <= i < |ps| ensures DecodeConfirmed(lib, ps[i]).Ok? <==> Readable(lib, ps[i]) {
      ConfirmedDecodesIff(lib, ps[i]);
    }
  }

  /** An encoded block always decodes, to its normal form. */
  lemma BlockRoundTrip(lib: Library, b: L.VersionedConfirmedBlock)
    requires Faithful(lib)
    ensures DecodeBlock(lib, EncodeBlock(lib, b)) == Ok(NormalBlock(lib, b))
  {
    hide Collect, Map, DecodeConfirmed, EncodeVersioned, NormalVersioned, EncodeReward, DecodeReward;
    RewardsRoundTrip(b.rewards);
    var p := EncodeBlock(lib, b).transactions;
    forall i | 0 <= i < |p|
      ensures DecodeConfirmed(lib, p[i]) == Ok(NormalVersioned(lib, b.transactions[i]))
    {
      ConfirmedRoundTrip(lib, L.Complete(b.transactions[i]));
    }
    assert DecodeTransactions(lib, p).Ok?;
    assert DecodeTransactions(lib, p).value == NormalBlock(lib, b).transactions;
  }

  /** The block to encode that a decoded block amounts to, where no metadata is
      missing: what a caller has to build, as the encoder takes no other block. */
  function Versioned(b: L.ConfirmedBlock): Option<L.VersionedConfirmedBlock> {
    if forall i :: 0 <= i < |b.transactions| ==> b.transactions[i].Complete? then
      Some(L.Block(b.previousBlockhash, b.blockhash, b.parentSlot,
        seq(|b.transactions|, i requires 0 <= i < |b.transactions| => b.transactions[i].complete),
        b.rewards, b.numPartitions, b.blockTime, b.blockHeight))
    else None
  }

  /** A decoded block can be encoded again exactly when the message had metadata
      for every transaction, and then decodes to the same block. */
  lemma BlockDecodeEncodeDecode(lib: Library, p: P.ConfirmedBlock)
    requires Faithful(lib) && DecodeBlock(lib, p).Ok?
    ensures Versioned(DecodeBlock(lib, p).value).Some?
      <==> forall i :: 0 <= i < |p.transactions| ==> p.transactions[i].meta.Some?
    ensures Versioned(DecodeBlock(lib, p).value).Some? ==>
      DecodeBlock(lib, EncodeBlock(lib, Versioned(DecodeBlock(lib, p).value).value)) == DecodeBlock(lib, p)
  {
    hide Collect, Map, DecodeConfirmed, NormalVersioned, EncodeBlock;
    var b := DecodeBlock(lib, p).value;
    forall i | 0 <= i < |p.transactions|
      ensures b.transactions[i].Complete? <==> p.transactions[i].meta.Some?
    {
      ConfirmedDecodesIff(lib, p.transactions[i]);
    }
    if Versioned(b).Some? {
      var v := Versioned(b).value;
      BlockRoundTrip(lib, v);
      forall i | 0 <= i < |b.transactions| ensures NormalVersioned(lib, v.transactions[i]) == b.transactions[i] {
        ConfirmedDecodeEncodeDecode(lib, p.transactions[i]);
        ConfirmedRoundTrip(lib, b.transactions[i]);
      }
      assert NormalBlock(lib, v).transactions == b.transactions;
    }
  }

  // ----- what corresponds to what on the wire

  /** An encoded transaction has its own parts on the wire. */
  lemma EncodedConfirmedIsSame(lib: Library, t: L.TransactionWithMeta)
    requires Faithful(lib)
    ensures var p := EncodeConfirmed(lib, t);
      && p.transaction.Some? && (p.meta.Some? <==> t.Complete?)
      && (t.Complete? ==>
            && SameTransaction(t.complete.transaction, p.transaction.value)
            && SameMeta(lib, t.complete.meta, p.meta.value))
      && (t.MissingMetadata? ==>
            SameTransaction(L.VersionedTransaction(t.transaction.signatures, L.Legacy(t.transaction.message)),
                            p.transaction.value))
  {
    hide SameMeta, SameMessage, EncodeMeta;
    match t
    case MissingMetadata(transaction) =>
      EncodedTransactionIsSame(L.VersionedTransaction(transaction.signatures, L.Legacy(transaction.message)));
    case Complete(complete) =>
      EncodedTransactionIsSame(complete.transaction);
      EncodedMetaIsSame(lib, complete.meta);
  }

  /** A decoded transaction has the parts it had on the wire. */
  lemma DecodedConfirmedIsSame(lib: Library, p: P.ConfirmedTransaction)
    requires DecodeConfirmed(lib, p).Ok?
    ensures p.transaction.Some?
    ensures match DecodeConfirmed(lib, p).value
      case Complete(complete) =>
        && p.meta.Some? && SameTransaction(complete.transaction, p.transaction.value)
        && SameMeta(lib, complete.meta, p.meta.value)
      case MissingMetadata(t) =>
        && p.meta.None?
        && SameTransaction(L.VersionedTransaction(t.signatures, L.Legacy(t.message)), p.transaction.value)
  {
    hide SameMeta, SameMessage, DecodeMeta, DecodeTransaction;
    DecodedTransactionIsSame(p.transaction.value);
    if p.meta.Some? {
      DecodedMetaIsSame(lib, p.meta.value);
    }
  }

  /** The fields of a block keep their places in both directions. */
  lemma BlockFieldsKeepPlaces(lib: Library, b: L.VersionedConfirmedBlock, q: P.ConfirmedBlock)
    ensures var p := EncodeBlock(lib, b);
      && p.previousBlockhash == b.previousBlockhash && p.blockhash == b.blockhash && p.parentSlot == b.parentSlot
      && p.numPartitions == b.numPartitions && p.blockTime == b.blockTime && p.blockHeight == b.blockHeight
      && |p.transactions| == |b.transactions| && p.rewards == Map(EncodeReward, b.rewards)
      && forall i :: 0 <= i < |p.transactions| ==> p.transactions[i] == EncodeVersioned(lib, b.transactions[i])
    ensures DecodeBlock(lib, q).Ok? ==>
      var d := DecodeBlock(lib, q).value;
      && d.previousBlockhash == q.previousBlockhash && d.blockhash == q.blockhash && d.parentSlot == q.parentSlot
      && d.numPartitions == q.numPartitions && d.blockTime == q.blockTime && d.blockHeight == q.blockHeight
      && |d.transactions| == |q.transactions| && d.rewards == Map(DecodeReward, q.rewards)
      && forall i :: 0 <= i < |q.transactions| ==> DecodeConfirmed(lib, q.transactions[i]) == Ok(d.transactions[i])
  {
    hide Collect, DecodeConfirmed, EncodeVersioned, EncodeReward, DecodeReward;
  }
}
