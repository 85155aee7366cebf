/**
  Conversion of transactions and their messages to protobuf and back. Decoding
  panics on a missing part or a byte string of the wrong length; a panic is an
  error value here.
 */
module ConvertMessage {
  import opened Bytes
  import opened Lists
  import opened Wrappers
  import L = Ledger
  import P = BlockProto

  datatype Failure = Panicked | BincodeError

  function OrPanic<T>(x: Option<T>): Result<T, Failure> {
    match x
    case Some(value) => Ok(value)
    case None => Err(Panicked)
  }

  function PubkeyOrPanic(b: Bytes): Result<Pubkey, Failure> { OrPanic(PubkeyFrom(b)) }

  function SignatureOrPanic(b: Bytes): Result<Signature, Failure> { OrPanic(SignatureFrom(b)) }

  function DecodeKeys(keys: seq<Bytes>): Result<seq<Pubkey>, Failure> { Collect(PubkeyOrPanic, keys) }

  function DecodeSignatures(signatures: seq<Bytes>): Result<seq<Signature>, Failure> {
    Collect(SignatureOrPanic, signatures)
  }

  // ----- leaves

  function EncodeHeader(h: L.MessageHeader): P.MessageHeader {
    P.MessageHeader(h.requiredSignatures, h.readonlySigned, h.readonlyUnsigned)
  }

  function DecodeHeader(h: P.MessageHeader): L.MessageHeader {
    L.MessageHeader(AsByte(h.requiredSignatures), AsByte(h.readonlySigned), AsByte(h.readonlyUnsigned))
  }

  function EncodeInstruction(ix: L.Instruction): P.Instruction {
    P.Instruction(ix.programIdIndex, ix.accounts, ix.data)
  }

  function DecodeInstruction(ix: P.Instruction): L.Instruction {
    L.Instruction(AsByte(ix.programIdIndex), ix.accounts, ix.data)
  }

  function EncodeLookup(t: L.TableLookup): P.TableLookup {
    P.TableLookup(t.accountKey, t.writable, t.readonly)
  }

  function DecodeLookup(t: P.TableLookup): Result<L.TableLookup, Failure> {
    match PubkeyOrPanic(t.accountKey)
    case Err(e) => Err(e)
    case Ok(key) => Ok(L.TableLookup(key, t.writable, t.readonly))
  }

  // ----- messages

  function EncodeLegacyMessage(m: L.LegacyMessage): P.Message {
    P.Message(Some(EncodeHeader(m.header)), m.accountKeys, m.recentBlockhash,
      Map(EncodeInstruction, m.instructions), false, [])
  }

  function EncodeMessage(m: L.VersionedMessage): P.Message {
    match m
    case Legacy(message) => EncodeLegacyMessage(message)
    case V0(header, accountKeys, recentBlockhash, instructions, lookups) =>
      P.Message(Some(EncodeHeader(header)), accountKeys, recentBlockhash,
        Map(EncodeInstruction, instructions), true, Map(EncodeLookup, lookups))
  }

  /** The lookups are converted, and may panic, even where the message turns out legacy. */
  function DecodeMessage(m: P.Message): Result<L.VersionedMessage, Failure> {
    if m.header.None? then Err(Panicked)
    else
      var header := DecodeHeader(m.header.value);
      var keys := DecodeKeys(m.accountKeys);
      var hash := HashFrom(m.recentBlockhash);
      var instructions := Map(DecodeInstruction, m.instructions);
      var lookups := Collect(DecodeLookup, m.lookups);
      if keys.Err? || hash.None? || lookups.Err? then Err(Panicked)
      else if !m.versioned then
        Ok(L.Legacy(L.LegacyMessage(header, keys.value, hash.value, instructions)))
      else Ok(L.V0(header, keys.value, hash.value, instructions, lookups.value))
  }

  // ----- transactions

  function EncodeLegacyTransaction(t: L.Transaction): P.Transaction {
    P.Transaction(t.signatures, Some(EncodeLegacyMessage(t.message)))
  }

  function EncodeTransaction(t: L.VersionedTransaction): P.Transaction {
    P.Transaction(t.signatures, Some(EncodeMessage(t.message)))
  }

  function DecodeTransaction(t: P.Transaction): Result<L.VersionedTransaction, Failure> {
    var signatures := DecodeSignatures(t.signatures);
    if signatures.Err? || t.message.None? then Err(Panicked)
    else match DecodeMessage(t.message.value)
      case Err(e) => Err(e)
      case Ok(message) => Ok(L.VersionedTransaction(signatures.value, message))
  }

  // ----- what decodes

  ghost predicate WellFormedMessage(m: P.Message) {
    && m.header.Some?
    && (forall i :: 0 <= i < |m.accountKeys| ==> |m.accountKeys[i]| == 32)
    && |m.recentBlockhash| == 32
    && (forall i :: 0 <= i < |m.lookups| ==> |m.lookups[i].accountKey| == 32)
  }

  ghost predicate WellFormedTransaction(t: P.Transaction) {
    && (forall i :: 0 <= i < |t.signatures| ==> |t.signatures[i]| == 64)
    && t.message.Some? && WellFormedMessage(t.message.value)
  }

  lemma TransactionDecodesIff(t: P.Transaction)
    ensures DecodeTransaction(t).Ok? <==> WellFormedTransaction(t)
    ensures DecodeTransaction(t).Err? ==> DecodeTransaction(t) == Err(Panicked)
  {
    hide Collect, Map;
    if t.message.Some? {
      MessageDecodesIff(t.message.value);
    }
  }

  lemma MessageDecodesIff(m: P.Message)
    ensures DecodeMessage(m).Ok? <==> WellFormedMessage(m)
    ensures DecodeMessage(m).Ok? ==> (DecodeMessage(m).value.V0? <==> m.versioned)
    ensures DecodeMessage(m).Err? ==> DecodeMessage(m) == Err(Panicked)
  {
    hide Collect, Map;
  }

  // ----- round trips

  lemma InstructionsRoundTrip(xs: seq<L.Instruction>)
    ensures Map(DecodeInstruction, Map(EncodeInstruction, xs)) == xs
  {
    MapIsIdentity(DecodeInstruction, EncodeInstruction, xs);
  }

  lemma KeysRoundTrip(keys: seq<Pubkey>)
    ensures DecodeKeys(keys) == Ok(keys)
  {
    hide Collect;
    var bytes: seq<Bytes> := keys;
    assert forall i :: 0 <= i < |bytes| ==> PubkeyOrPanic(bytes[i]).Ok?;
    assert DecodeKeys(bytes).Ok? && DecodeKeys(bytes).value == keys;
  }

  lemma SignaturesRoundTrip(signatures: seq<Signature>)
    ensures DecodeSignatures(signatures) == Ok(signatures)
  {
    hide Collect;
    var bytes: seq<Bytes> := signatures;
    assert forall i :: 0 <= i < |bytes| ==> SignatureOrPanic(bytes[i]).Ok?;
    assert DecodeSignatures(bytes).Ok? && DecodeSignatures(bytes).value == signatures;
  }

  lemma LookupsRoundTrip(lookups: seq<L.TableLookup>)
    ensures Collect(DecodeLookup, Map(EncodeLookup, lookups)) == Ok(lookups)
  {
    hide Collect, Map;
    var r := Collect(DecodeLookup, Map(EncodeLookup, lookups));
    assert forall i :: 0 <= i < |lookups| ==> DecodeLookup(Map(EncodeLookup, lookups)[i]) == Ok(lookups[i]);
    assert r.Ok? && r.value == lookups;
  }

  /** Legacy and V0 messages come back exactly. */
  lemma MessageRoundTrip(m: L.VersionedMessage)
    ensures DecodeMessage(EncodeMessage(m)) == Ok(m)
  {
    hide Collect, Map;
    match m
    case Legacy(message) =>
      KeysRoundTrip(message.accountKeys);
      InstructionsRoundTrip(message.instructions);
      LookupsRoundTrip([]);
      assert Map(EncodeLookup, []) == [];
    case V0(_, accountKeys, _, instructions, lookups) =>
      KeysRoundTrip(accountKeys);
      InstructionsRoundTrip(instructions);
      LookupsRoundTrip(lookups);
  }

  lemma TransactionRoundTrip(t: L.VersionedTransaction)
    ensures DecodeTransaction(EncodeTransaction(t)) == Ok(t)
  {
    SignaturesRoundTrip(t.signatures);
    MessageRoundTrip(t.message);
  }

  lemma LegacyTransactionRoundTrip(t: L.Transaction)
    ensures DecodeTransaction(EncodeLegacyTransaction(t)) ==
      Ok(L.VersionedTransaction(t.signatures, L.Legacy(t.message)))
  {
    TransactionRoundTrip(L.VersionedTransaction(t.signatures, L.Legacy(t.message)));
  }

  // ----- encoding what was decoded

  /** A message the encoder could have produced: indexes that fit a byte, and no
      lookups on a message that is not versioned. */
  ghost predicate TidyMessage(m: P.Message) {
    && m.header.Some?
    && m.header.value.requiredSignatures < 256 && m.header.value.readonlySigned < 256
    && m.header.value.readonlyUnsigned < 256
    && (forall i :: 0 <= i < |m.instructions| ==> m.instructions[i].programIdIndex < 256)
    && (!m.versioned ==> m.lookups == [])
  }

  /** Re-encoding a decoded message gives the same bytes exactly when it is tidy. */
  lemma ReencodedMessageIff(m: P.Message)
    requires DecodeMessage(m).Ok?
    ensures EncodeMessage(DecodeMessage(m).value) == m <==> TidyMessage(m)
  {
    hide Collect, Map;
    var d := DecodeMessage(m).value;
    var keys := DecodeKeys(m.accountKeys).value;
    var instructions := Map(DecodeInstruction, m.instructions);
    var lookups := Collect(DecodeLookup, m.lookups).value;
    assert keys == m.accountKeys;
    assert Map(EncodeLookup, lookups) == m.lookups;
    ReencodedInstructionsIff(m.instructions);
  }

  lemma ReencodedInstructionsIff(xs: seq<P.Instruction>)
    ensures Map(EncodeInstruction, Map(DecodeInstruction, xs)) == xs
      <==> forall i :: 0 <= i < |xs| ==> xs[i].programIdIndex < 256
  {
    hide Collect, Map;
    var back := Map(EncodeInstruction, Map(DecodeInstruction, xs));
    assert forall i :: 0 <= i < |xs| ==> back[i] == EncodeInstruction(DecodeInstruction(xs[i]));
    assert forall i :: 0 <= i < |xs| ==> (back[i] == xs[i] <==> xs[i].programIdIndex < 256);
  }

  // ----- what corresponds to what on the wire

  predicate SameHeader(h: L.MessageHeader, p: P.MessageHeader) {
    && h.requiredSignatures == p.requiredSignatures % 256 && h.readonlySigned == p.readonlySigned % 256
    && h.readonlyUnsigned == p.readonlyUnsigned % 256
  }

  predicate SameInstruction(ix: L.Instruction, p: P.Instruction) {
    ix.programIdIndex == p.programIdIndex % 256 && ix.accounts == p.accounts && ix.data == p.data
  }

  predicate SameLookup(t: L.TableLookup, p: P.TableLookup) {
    t.accountKey == p.accountKey && t.writable == p.writable && t.readonly == p.readonly
  }

  ghost predicate SameInstructions(xs: seq<L.Instruction>, ps: seq<P.Instruction>) {
    |xs| == |ps| && forall i :: 0 <= i < |xs| ==> SameInstruction(xs[i], ps[i])
  }

  ghost predicate SameLookups(ts: seq<L.TableLookup>, ps: seq<P.TableLookup>) {
    |ts| == |ps| && forall i :: 0 <= i < |ts| ==> SameLookup(ts[i], ps[i])
  }

  /** Part by part; a message that is not versioned has no lookups to compare. */
  ghost predicate SameMessage(m: L.VersionedMessage, p: P.Message) {
    && p.header.Some? && (m.V0? <==> p.versioned)
    && match m
       case Legacy(l) =>
         && SameHeader(l.header, p.header.value) && l.accountKeys == p.accountKeys
         && l.recentBlockhash == p.recentBlockhash && SameInstructions(l.instructions, p.instructions)
       case V0(header, accountKeys, recentBlockhash, instructions, lookups) =>
         && SameHeader(header, p.header.value) && accountKeys == p.accountKeys
         && recentBlockhash == p.recentBlockhash && SameInstructions(instructions, p.instructions)
         && SameLookups(lookups, p.lookups)
  }

  /** An encoded message says the same, part by part, and is tidy. */
  lemma EncodedMessageIsSame(m: L.VersionedMessage)
    ensures SameMessage(m, EncodeMessage(m)) && TidyMessage(EncodeMessage(m))
  {
    hide Collect, Map;
  }

  /** So does a decoded one. */
  lemma DecodedMessageIsSame(p: P.Message)
    requires DecodeMessage(p).Ok?
    ensures SameMessage(DecodeMessage(p).value, p)
  {
    hide Collect, Map;
    KeysAreSame(p.accountKeys);
    assert forall i :: 0 <= i < |p.lookups| ==> DecodeLookup(p.lookups[i]).Ok?;
  }

  lemma KeysAreSame(keys: seq<Bytes>)
    requires DecodeKeys(keys).Ok?
    ensures DecodeKeys(keys).value == keys
  {
    hide Collect;
    assert forall i :: 0 <= i < |keys| ==> PubkeyOrPanic(keys[i]) == Ok(DecodeKeys(keys).value[i]);
  }

  lemma SignaturesAreSame(signatures: seq<Bytes>)
    requires DecodeSignatures(signatures).Ok?
    ensures DecodeSignatures(signatures).value == signatures
  {
    hide Collect;
    assert forall i :: 0 <= i < |signatures| ==>
      SignatureOrPanic(signatures[i]) == Ok(DecodeSignatures(signatures).value[i]);
  }

  ghost predicate SameTransaction(t: L.VersionedTransaction, p: P.Transaction) {
    t.signatures == p.signatures && p.message.Some? && SameMessage(t.message, p.message.value)
  }

  lemma EncodedTransactionIsSame(t: L.VersionedTransaction)
    ensures SameTransaction(t, EncodeTransaction(t))
  {
    EncodedMessageIsSame(t.message);
  }

  lemma DecodedTransactionIsSame(p: P.Transaction)
    requires DecodeTransaction(p).Ok?
    ensures SameTransaction(DecodeTransaction(p).value, p)
  {
    hide SameMessage, DecodeMessage;
    SignaturesAreSame(p.signatures);
    DecodedMessageIsSame(p.message.value);
  }
}
