/**
  Conversion of transaction status metadata to protobuf and back. The wire has
  no place for "absent" on some lists, so they come back in a normal form.
 */
module ConvertMeta {
  import opened Bytes
  import opened ConvertMessage
  import opened Decimals
  import opened Lists
  import opened Wrappers
  import E = TransactionErrors
  import L = Ledger
  import P = BlockProto

  const U64_MAX := 0xFFFF_FFFF_FFFF_FFFF

  /** f64::EPSILON, two to the power -52. */
  const EPSILON: real := 1.0 / 4503599627370496.0

  /** Functions of other crates: bincode on transaction errors, and the decimal
      text of a token amount. */
  datatype Library = Library(
    serialize: E.TransactionError -> Bytes,
    deserialize: Bytes -> Option<E.TransactionError>,
    trimmed: (nat, Byte) -> string)

  /** Bincode undoes itself on transaction errors. */
  ghost predicate Faithful(lib: Library) {
    forall e :: lib.deserialize(lib.serialize(e)) == Some(e)
  }

  // ----- rewards

  function EncodeReward(r: L.Reward): P.Reward {
    P.Reward(r.pubkey, r.lamports, r.postBalance,
      match r.rewardType
      case None => 0
      case Some(Fee) => 1
      case Some(Rent) => 2
      case Some(Staking) => 3
      case Some(Voting) => 4,
      match r.commission
      case Some(c) => Digits(c)
      case None => "")
  }

  function DecodeReward(r: P.Reward): L.Reward {
    var commission := ParseUnsigned(r.commission, 255);
    L.Reward(r.pubkey, r.lamports, r.postBalance,
      match r.rewardType
      case 1 => Some(L.Fee)
      case 2 => Some(L.Rent)
      case 3 => Some(L.Staking)
      case 4 => Some(L.Voting)
      case _ => None,
      if commission.Some? then Some(commission.value) else None)
  }

  lemma RewardRoundTrip(r: L.Reward)
    ensures DecodeReward(EncodeReward(r)) == r
  {
    if r.commission.Some? {
      ParsePrinted(r.commission.value, 255);
    } else {
      assert ParseUnsigned("", 255) == None;
    }
  }

  lemma RewardsRoundTrip(rs: seq<L.Reward>)
    ensures Map(DecodeReward, Map(EncodeReward, rs)) == rs
  {
    forall i | 0 <= i < |rs| ensures DecodeReward(EncodeReward(rs[i])) == rs[i] {
      RewardRoundTrip(rs[i]);
    }
    MapIsIdentity(DecodeReward, EncodeReward, rs);
  }

  function EncodeRewards(r: L.RewardsAndNumPartitions): P.Rewards {
    P.Rewards(Map(EncodeReward, r.rewards), r.numPartitions)
  }

  function DecodeRewards(r: P.Rewards): (seq<L.Reward>, Option<nat>) {
    (Map(DecodeReward, r.rewards), r.numPartitions)
  }

  lemma RewardsAndPartitionsRoundTrip(r: L.RewardsAndNumPartitions)
    ensures DecodeRewards(EncodeRewards(r)) == (r.rewards, r.numPartitions)
  {
    RewardsRoundTrip(r.rewards);
  }

  // ----- token balances

  const ZERO: L.F64 := L.Finite(0.0)

  /** Further than EPSILON from zero; false of a NaN. */
  predicate FarFromZero(x: L.F64) {
    match x
    case NotANumber => false
    case Infinity(_) => true
    case Finite(v) => v > EPSILON || v < -EPSILON
  }

  function AmountString(lib: Library, amount: string, decimals: Byte): string {
    var parsed := ParseUnsigned(amount, U64_MAX);
    lib.trimmed(if parsed.Some? then parsed.value else 0, decimals)
  }

  function EncodeTokenBalance(b: L.TokenBalance): P.TokenBalance {
    var u := b.uiTokenAmount;
    P.TokenBalance(b.accountIndex, b.mint,
      Some(P.UiTokenAmount(
        if u.uiAmount.Some? then u.uiAmount.value else ZERO, u.decimals, u.amount, u.uiAmountString)),
      b.owner, b.programId)
  }

  function DecodeTokenBalance(lib: Library, b: P.TokenBalance): L.TokenBalance {
    var u := if b.uiTokenAmount.Some? then b.uiTokenAmount.value else P.UiTokenAmount(ZERO, 0, "", "");
    L.TokenBalance(AsByte(b.accountIndex), b.mint,
      L.UiTokenAmount(
        if FarFromZero(u.uiAmount) then Some(u.uiAmount) else None,
        AsByte(u.decimals),
        u.amount,
        if u.uiAmountString != "" then u.uiAmountString else AmountString(lib, u.amount, AsByte(u.decimals))),
      b.owner, b.programId)
  }

  function DecodeTokenBalances(lib: Library, bs: seq<P.TokenBalance>): seq<L.TokenBalance> {
    Map((b: P.TokenBalance) => DecodeTokenBalance(lib, b), bs)
  }

  /** An amount near zero is forgotten, a missing text is recomputed. */
  function NormalTokenBalance(lib: Library, b: L.TokenBalance): L.TokenBalance {
    var u := b.uiTokenAmount;
    b.(uiTokenAmount := u.(
      uiAmount := if u.uiAmount.Some? && FarFromZero(u.uiAmount.value) then u.uiAmount else None,
      uiAmountString := if u.uiAmountString != "" then u.uiAmountString else AmountString(lib, u.amount, u.decimals)))
  }

  function NormalTokenBalances(lib: Library, bs: Option<seq<L.TokenBalance>>): seq<L.TokenBalance> {
    if bs.Some? then Map((b: L.TokenBalance) => NormalTokenBalance(lib, b), bs.value) else []
  }

  lemma TokenBalanceRoundTrip(lib: Library, b: L.TokenBalance)
    ensures DecodeTokenBalance(lib, EncodeTokenBalance(b)) == NormalTokenBalance(lib, b)
  {
  }

  function OrEmpty<T>(xs: Option<seq<T>>): seq<T> {
    if xs.Some? then xs.value else []
  }

  lemma TokenBalancesRoundTrip(lib: Library, bs: Option<seq<L.TokenBalance>>)
    ensures DecodeTokenBalances(lib, Map(EncodeTokenBalance, OrEmpty(bs))) == NormalTokenBalances(lib, bs)
  {
    hide DecodeTokenBalance, NormalTokenBalance, EncodeTokenBalance, Map;
    var there := Map(EncodeTokenBalance, OrEmpty(bs));
    forall i | 0 <= i < |there|
      ensures DecodeTokenBalances(lib, there)[i] == NormalTokenBalances(lib, bs)[i]
    {
      TokenBalanceRoundTrip(lib, OrEmpty(bs)[i]);
    }
  }

  // ----- inner instructions and return data

  function EncodeInnerInstruction(ix: L.InnerInstruction): P.InnerInstruction {
    P.InnerInstruction(ix.instruction.programIdIndex, ix.instruction.accounts, ix.instruction.data, ix.stackHeight)
  }

  function DecodeInnerInstruction(ix: P.InnerInstruction): L.InnerInstruction {
    L.InnerInstruction(L.Instruction(AsByte(ix.programIdIndex), ix.accounts, ix.data), ix.stackHeight)
  }

  function EncodeInner(ii: L.InnerInstructions): P.InnerInstructions {
    P.InnerInstructions(ii.index, Map(EncodeInnerInstruction, ii.instructions))
  }

  function DecodeInner(ii: P.InnerInstructions): L.InnerInstructions {
    L.InnerInstructions(AsByte(ii.index), Map(DecodeInnerInstruction, ii.instructions))
  }

  lemma InnerRoundTrip(iis: seq<L.InnerInstructions>)
    ensures Map(DecodeInner, Map(EncodeInner, iis)) == iis
  {
    forall i | 0 <= i < |iis| ensures DecodeInner(EncodeInner(iis[i])) == iis[i] {
      MapIsIdentity(DecodeInnerInstruction, EncodeInnerInstruction, iis[i].instructions);
    }
    MapIsIdentity(DecodeInner, EncodeInner, iis);
  }

  function EncodeReturnData(r: L.ReturnData): P.ReturnData { P.ReturnData(r.programId, r.data) }

  function DecodeReturnData(r: P.ReturnData): Result<L.ReturnData, Failure> {
    match PubkeyOrPanic(r.programId)
    case Ok(id) => Ok(L.ReturnData(id, r.data))
    case Err(e) => Err(e)
  }

  // ----- metadata

  function EncodeMeta(lib: Library, m: L.StatusMeta): P.StatusMeta {
    P.StatusMeta(
      match m.status
      case Succeeded => None
      case Failed(e) => Some(lib.serialize(e)),
      m.fee, m.preBalances, m.postBalances,
      Map(EncodeInner, OrEmpty(m.innerInstructions)), m.innerInstructions.None?,
      OrEmpty(m.logMessages), m.logMessages.None?,
      Map(EncodeTokenBalance, OrEmpty(m.preTokenBalances)), Map(EncodeTokenBalance, OrEmpty(m.postTokenBalances)),
      Map(EncodeReward, OrEmpty(m.rewards)),
      m.loadedAddresses.writable, m.loadedAddresses.readonly,
      match m.returnData
      case Some(r) => Some(EncodeReturnData(r))
      case None => None,
      m.returnData.None?, m.computeUnitsConsumed)
  }

  function DecodeStatus(lib: Library, err: Option<Bytes>): Result<L.Status, Failure> {
    if err.None? then Ok(L.Succeeded)
    else match lib.deserialize(err.value)
      case Some(e) => Ok(L.Failed(e))
      case None => Err(BincodeError)
  }

  /** Status and loaded addresses are refused with an error, and before the
      return data gets to panic. */
  function DecodeMeta(lib: Library, m: P.StatusMeta): Result<L.StatusMeta, Failure> {
    var status := DecodeStatus(lib, m.err);
    var writable, readonly := DecodeKeys(m.loadedWritable), DecodeKeys(m.loadedReadonly);
    var returnData :=
      if m.returnDataNone || m.returnData.None? then Ok(None)
      else match DecodeReturnData(m.returnData.value)
        case Ok(r) => Ok(Some(r))
        case Err(e) => Err(e);
    if status.Err? then Err(status.error)
    else if writable.Err? || readonly.Err? then Err(BincodeError)
    else if returnData.Err? then Err(returnData.error)
    else Ok(L.StatusMeta(
      status.value, m.fee, m.preBalances, m.postBalances,
      if m.innerInstructionsNone then None else Some(Map(DecodeInner, m.innerInstructions)),
      if m.logMessagesNone then None else Some(m.logMessages),
      Some(DecodeTokenBalances(lib, m.preTokenBalances)), Some(DecodeTokenBalances(lib, m.postTokenBalances)),
      Some(Map(DecodeReward, m.rewards)),
      L.LoadedAddresses(writable.value, readonly.value), returnData.value, m.computeUnitsConsumed))
  }

  // ----- what decodes

  ghost predicate AllKeys(keys: seq<Bytes>) {
    forall i :: 0 <= i < |keys| ==> |keys[i]| == 32
  }

  ghost predicate ReadableMeta(lib: Library, m: P.StatusMeta) {
    && (m.err.Some? ==> lib.deserialize(m.err.value).Some?)
    && AllKeys(m.loadedWritable) && AllKeys(m.loadedReadonly)
  }

  ghost predicate ReadableReturnData(m: P.StatusMeta) {
    !m.returnDataNone && m.returnData.Some? ==> |m.returnData.value.programId| == 32
  }

  /** Exactly which metadata decodes, which is refused, and which panics. */
  lemma MetaDecodesIff(lib: Library, m: P.StatusMeta)
    ensures DecodeMeta(lib, m).Ok? <==> ReadableMeta(lib, m) && ReadableReturnData(m)
    ensures DecodeMeta(lib, m) == Err(BincodeError) <==> !ReadableMeta(lib, m)
    ensures DecodeMeta(lib, m) == Err(Panicked) <==> ReadableMeta(lib, m) && !ReadableReturnData(m)
  {
    hide Map, Collect, DecodeTokenBalances;
    KeysDecodeIff(m.loadedWritable);
    KeysDecodeIff(m.loadedReadonly);
  }

  lemma KeysDecodeIff(keys: seq<Bytes>)
    ensures DecodeKeys(keys).Ok? <==> AllKeys(keys)
  {
    hide Collect;
    assert forall i :: 0 <= i < |keys| ==> (PubkeyOrPanic(keys[i]).Ok? <==> |keys[i]| == 32);
  }

  // ----- normal form

  /** What of some metadata survives the wire: absent token balances and rewards
      become empty lists, and balances are normalised. */
  function NormalMeta(lib: Library, m: L.StatusMeta): L.StatusMeta {
    m.(preTokenBalances := Some(NormalTokenBalances(lib, m.preTokenBalances)),
       postTokenBalances := Some(NormalTokenBalances(lib, m.postTokenBalances)),
       rewards := Some(OrEmpty(m.rewards)))
  }

  lemma MetaRoundTrip(lib: Library, m: L.StatusMeta)
    requires Faithful(lib)
    ensures DecodeMeta(lib, EncodeMeta(lib, m)) == Ok(NormalMeta(lib, m))
  {
    hide Map, Collect, DecodeTokenBalances, NormalTokenBalances;
    KeysRoundTrip(m.loadedAddresses.writable);
    KeysRoundTrip(m.loadedAddresses.readonly);
    InnerRoundTrip(OrEmpty(m.innerInstructions));
    TokenBalancesRoundTrip(lib, m.preTokenBalances);
    TokenBalancesRoundTrip(lib, m.postTokenBalances);
    RewardsRoundTrip(OrEmpty(m.rewards));
  }

  predicate IsNormalTokenBalance(lib: Library, b: L.TokenBalance) {
    var u := b.uiTokenAmount;
    && (u.uiAmount.Some? ==> FarFromZero(u.uiAmount.value))
    && (u.uiAmountString == "" ==> AmountString(lib, u.amount, u.decimals) == "")
  }

  ghost predicate AreNormalTokenBalances(lib: Library, bs: Option<seq<L.TokenBalance>>) {
    bs.Some? && forall i :: 0 <= i < |bs.value| ==> IsNormalTokenBalance(lib, bs.value[i])
  }

  ghost predicate IsNormalMeta(lib: Library, m: L.StatusMeta) {
    AreNormalTokenBalances(lib, m.preTokenBalances) && AreNormalTokenBalances(lib, m.postTokenBalances)
    && m.rewards.Some?
  }

  lemma NormalTokenBalancesIff(lib: Library, bs: Option<seq<L.TokenBalance>>)
    ensures bs == Some(NormalTokenBalances(lib, bs)) <==> AreNormalTokenBalances(lib, bs)
  {
    hide Map;
    if bs.Some? {
      var normal := NormalTokenBalances(lib, bs);
      assert forall i :: 0 <= i < |normal| ==> normal[i] == NormalTokenBalance(lib, bs.value[i]);
      assert forall i :: 0 <= i < |normal| ==>
        (normal[i] == bs.value[i] <==> IsNormalTokenBalance(lib, bs.value[i]));
      if AreNormalTokenBalances(lib, bs) {
        assert normal == bs.value;
      }
    }
  }

  /** Metadata comes back unchanged exactly when it is in normal form. */
  lemma MetaUnchangedIff(lib: Library, m: L.StatusMeta)
    requires Faithful(lib)
    ensures DecodeMeta(lib, EncodeMeta(lib, m)) == Ok(m) <==> IsNormalMeta(lib, m)
  {
    hide Map, DecodeMeta, EncodeMeta, NormalTokenBalances, AreNormalTokenBalances;
    MetaRoundTrip(lib, m);
    NormalTokenBalancesIff(lib, m.preTokenBalances);
    NormalTokenBalancesIff(lib, m.postTokenBalances);
  }

  lemma DecodedMetaIsNormal(lib: Library, p: P.StatusMeta)
    requires DecodeMeta(lib, p).Ok?
    ensures IsNormalMeta(lib, DecodeMeta(lib, p).value)
  {
    hide Map, Collect;
  }

  /** Whatever metadata decodes is encoded to metadata that decodes to the same. */
  lemma MetaDecodeEncodeDecode(lib: Library, p: P.StatusMeta)
    requires Faithful(lib) && DecodeMeta(lib, p).Ok?
    ensures DecodeMeta(lib, EncodeMeta(lib, DecodeMeta(lib, p).value)) == DecodeMeta(lib, p)
  {
    hide DecodeMeta, EncodeMeta, IsNormalMeta;
    DecodedMetaIsNormal(lib, p);
    MetaUnchangedIff(lib, DecodeMeta(lib, p).value);
  }

  // ----- what corresponds to what on the wire

  /** The numbers of the wire's reward types, and its text of a commission. */
  lemma RewardOnTheWire(r: L.Reward)
    ensures var p := EncodeReward(r);
      && p.pubkey == r.pubkey && p.lamports == r.lamports && p.postBalance == r.postBalance
      && (p.rewardType == 0 <==> r.rewardType == None) && (p.rewardType == 1 <==> r.rewardType == Some(L.Fee))
      && (p.rewardType == 2 <==> r.rewardType == Some(L.Rent))
      && (p.rewardType == 3 <==> r.rewardType == Some(L.Staking))
      && (p.rewardType == 4 <==> r.rewardType == Some(L.Voting))
      && (r.commission.None? ==> p.commission == "")
      && (r.commission.Some? ==> ParseUnsigned(p.commission, 255) == Some(r.commission.value))
  {
    if r.commission.Some? {
      ParsePrinted(r.commission.value, 255);
    }
  }

  /** An unknown reward type reads as none, and so does a commission that is no
      number up to 255. */
  lemma RewardFromTheWire(p: P.Reward)
    ensures var r := DecodeReward(p);
      && r.pubkey == p.pubkey && r.lamports == p.lamports && r.postBalance == p.postBalance
      && (r.rewardType == Some(L.Fee) <==> p.rewardType == 1) && (r.rewardType == Some(L.Rent) <==> p.rewardType == 2)
      && (r.rewardType == Some(L.Staking) <==> p.rewardType == 3)
      && (r.rewardType == Some(L.Voting) <==> p.rewardType == 4)
      && (forall c: Byte :: r.commission == Some(c) <==> ParseUnsigned(p.commission, 255) == Some(c))
  {
  }

  /** Far from zero is beyond two to the power -52 either way, infinite included. */
  lemma FarFromZeroIff(x: L.F64)
    ensures FarFromZero(x) <==>
      x.Infinity? || (x.Finite? && (x.value * 4503599627370496.0 > 1.0 || x.value * 4503599627370496.0 < -1.0))
  {
  }

  /** The text recomputed for an amount is that of the amount's own number, or of
      zero if it is not the text of a 64-bit number. */
  lemma AmountStringMeans(lib: Library, amount: string, decimals: Byte)
    ensures forall n: nat :: n <= 0xFFFF_FFFF_FFFF_FFFF && amount == Digits(n) ==>
      AmountString(lib, amount, decimals) == lib.trimmed(n, decimals)
    ensures ParseUnsigned(amount, 0xFFFF_FFFF_FFFF_FFFF).None? ==>
      AmountString(lib, amount, decimals) == lib.trimmed(0, decimals)
    ensures ParseUnsigned(amount, 0xFFFF_FFFF_FFFF_FFFF).Some? ==>
      AmountString(lib, amount, decimals)
      == lib.trimmed(ParseUnsigned(amount, 0xFFFF_FFFF_FFFF_FFFF).value, decimals)
  {
    forall n: nat | n <= 0xFFFF_FFFF_FFFF_FFFF && amount == Digits(n)
      ensures AmountString(lib, amount, decimals) == lib.trimmed(n, decimals)
    {
      ParsePrinted(n, 0xFFFF_FFFF_FFFF_FFFF);
    }
  }

  lemma TokenBalanceOnTheWire(b: L.TokenBalance)
    ensures var p := EncodeTokenBalance(b);
      && p.accountIndex == b.accountIndex && p.mint == b.mint && p.owner == b.owner && p.programId == b.programId
      && p.uiTokenAmount.Some?
      && var u, v := b.uiTokenAmount, p.uiTokenAmount.value;
         && v.decimals == u.decimals && v.amount == u.amount && v.uiAmountString == u.uiAmountString
         && v.uiAmount == if u.uiAmount.Some? then u.uiAmount.value else L.Finite(0.0)
  {
  }

  /** A balance from the wire; a missing text of an amount n is recomputed from n. */
  lemma TokenBalanceFromTheWire(lib: Library, p: P.TokenBalance)
    requires p.uiTokenAmount.Some?
    ensures var b := DecodeTokenBalance(lib, p);
      && b.accountIndex == p.accountIndex % 256
      && b.mint == p.mint && b.owner == p.owner && b.programId == p.programId
      && var u, v := b.uiTokenAmount, p.uiTokenAmount.value;
         && u.decimals == v.decimals % 256 && u.amount == v.amount
         && (u.uiAmount.Some? <==> FarFromZero(v.uiAmount)) && (u.uiAmount.Some? ==> u.uiAmount.value == v.uiAmount)
         && (v.uiAmountString != "" ==> u.uiAmountString == v.uiAmountString)
         && (v.uiAmountString == "" ==>
               forall n: nat :: n <= 0xFFFF_FFFF_FFFF_FFFF && v.amount == Digits(n) ==>
                 u.uiAmountString == lib.trimmed(n, u.decimals))
  {
    hide AmountString;
    AmountStringMeans(lib, p.uiTokenAmount.value.amount, AsByte(p.uiTokenAmount.value.decimals));
  }

  predicate SameInnerInstruction(ix: L.InnerInstruction, p: P.InnerInstruction) {
    && ix.instruction.programIdIndex == p.programIdIndex % 256 && ix.instruction.accounts == p.accounts
    && ix.instruction.data == p.data && ix.stackHeight == p.stackHeight
  }

  ghost predicate SameInner(ii: L.InnerInstructions, p: P.InnerInstructions) {
    && ii.index == p.index % 256 && |ii.instructions| == |p.instructions|
    && forall i :: 0 <= i < |ii.instructions| ==> SameInnerInstruction(ii.instructions[i], p.instructions[i])
  }

  /** All of the metadata but its token balances and rewards, which have their
      own lemmas: absence is a flag on the wire, where there is one. */
  ghost predicate SameMeta(lib: Library, m: L.StatusMeta, p: P.StatusMeta) {
    && m.fee == p.fee && m.preBalances == p.preBalances && m.postBalances == p.postBalances
    && m.loadedAddresses.writable == p.loadedWritable && m.loadedAddresses.readonly == p.loadedReadonly
    && m.computeUnitsConsumed == p.computeUnitsConsumed
    && (m.status.Succeeded? <==> p.err.None?)
    && (m.status.Failed? ==> lib.deserialize(p.err.value) == Some(m.status.error))
    && (m.logMessages.None? <==> p.logMessagesNone) && (m.logMessages.Some? ==> m.logMessages.value == p.logMessages)
    && (m.innerInstructions.None? <==> p.innerInstructionsNone)
    && (m.innerInstructions.Some? ==>
          && |m.innerInstructions.value| == |p.innerInstructions|
          && forall i :: 0 <= i < |p.innerInstructions| ==>
               SameInner(m.innerInstructions.value[i], p.innerInstructions[i]))
    && (m.returnData.Some? <==> !p.returnDataNone && p.returnData.Some?)
    && (m.returnData.Some? ==>
          && m.returnData.value.programId == p.returnData.value.programId
          && m.returnData.value.data == p.returnData.value.data)
  }

  lemma EncodedMetaIsSame(lib: Library, m: L.StatusMeta)
    requires Faithful(lib)
    ensures SameMeta(lib, m, EncodeMeta(lib, m))
    ensures var p := EncodeMeta(lib, m);
      && p.preTokenBalances == Map(EncodeTokenBalance, OrEmpty(m.preTokenBalances))
      && p.postTokenBalances == Map(EncodeTokenBalance, OrEmpty(m.postTokenBalances))
      && p.rewards == Map(EncodeReward, OrEmpty(m.rewards))
      && (m.innerInstructions.None? ==> p.innerInstructions == []) && (m.logMessages.None? ==> p.logMessages == [])
      && (m.returnData.None? <==> p.returnDataNone) && (m.returnData.None? <==> p.returnData.None?)
  {
    hide Map, EncodeTokenBalance, EncodeReward;
  }

  lemma DecodedMetaIsSame(lib: Library, p: P.StatusMeta)
    requires DecodeMeta(lib, p).Ok?
    ensures SameMeta(lib, DecodeMeta(lib, p).value, p)
    ensures var m := DecodeMeta(lib, p).value;
      && m.preTokenBalances == Some(DecodeTokenBalances(lib, p.preTokenBalances))
      && m.postTokenBalances == Some(DecodeTokenBalances(lib, p.postTokenBalances))
      && m.rewards == Some(Map(DecodeReward, p.rewards))
  {
    hide Map, DecodeTokenBalances, DecodeReward, Collect;
    KeysAreSame(p.loadedWritable);
    KeysAreSame(p.loadedReadonly);
  }
}
