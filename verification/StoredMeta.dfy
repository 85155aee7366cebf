/**
  The metadata form of the bincode store, which has no loaded addresses and no
  absent or textual token amounts, and its conversions.
 */
module StoredMeta {
  import opened Bytes
  import opened ConvertMessage
  import opened ConvertMeta
  import opened Decimals
  import opened Lists
  import opened Wrappers
  import L = Ledger
  import P = BlockProto

  datatype TokenAmount = TokenAmount(uiAmount: L.F64, decimals: Byte, amount: string)

  datatype TokenBalance = TokenBalance(
    accountIndex: Byte, mint: string, uiTokenAmount: TokenAmount, owner: string, programId: string)

  datatype ExtendedReward = ExtendedReward(
    pubkey: string, lamports: int, postBalance: nat, rewardType: Option<L.RewardType>, commission: Option<Byte>)

  datatype StatusMeta = StatusMeta(
    status: L.Status, fee: nat, preBalances: seq<nat>, postBalances: seq<nat>,
    innerInstructions: Option<seq<L.InnerInstructions>>, logMessages: Option<seq<string>>,
    preTokenBalances: Option<seq<TokenBalance>>, postTokenBalances: Option<seq<TokenBalance>>,
    rewards: Option<seq<ExtendedReward>>, returnData: Option<L.ReturnData>, computeUnitsConsumed: Option<nat>)

  // ----- parts

  function FromReward(r: L.Reward): ExtendedReward {
    ExtendedReward(r.pubkey, r.lamports, r.postBalance, r.rewardType, r.commission)
  }

  function ToReward(r: ExtendedReward): L.Reward {
    L.Reward(r.pubkey, r.lamports, r.postBalance, r.rewardType, r.commission)
  }

  function FromTokenBalance(b: L.TokenBalance): TokenBalance {
    var u := b.uiTokenAmount;
    TokenBalance(b.accountIndex, b.mint,
      TokenAmount(if u.uiAmount.Some? then u.uiAmount.value else ZERO, u.decimals, u.amount), b.owner, b.programId)
  }

  function ToTokenBalance(lib: Library, b: TokenBalance): L.TokenBalance {
    var u := b.uiTokenAmount;
    L.TokenBalance(b.accountIndex, b.mint,
      L.UiTokenAmount(Some(u.uiAmount), u.decimals, u.amount, AmountString(lib, u.amount, u.decimals)),
      b.owner, b.programId)
  }

  function MapOption<A, B>(f: A -> B, xs: Option<seq<A>>): Option<seq<B>> {
    if xs.Some? then Some(Map(f, xs.value)) else None
  }

  function ToTokenBalances(lib: Library, bs: Option<seq<TokenBalance>>): Option<seq<L.TokenBalance>> {
    MapOption((b: TokenBalance) => ToTokenBalance(lib, b), bs)
  }

  /** Rewards go to the wire, and come from it, by way of the in-memory form. */
  function EncodeStoredRewards(rs: seq<ExtendedReward>): P.Rewards {
    P.Rewards(Map((r: ExtendedReward) => EncodeReward(ToReward(r)), rs), None)
  }

  function DecodeStoredRewards(p: P.Rewards): seq<ExtendedReward> {
    Map((r: P.Reward) => FromReward(DecodeReward(r)), p.rewards)
  }

  lemma StoredRewardsRoundTrip(rs: seq<ExtendedReward>)
    ensures DecodeStoredRewards(EncodeStoredRewards(rs)) == rs
    ensures EncodeStoredRewards(rs).numPartitions == None
  {
    hide Map, EncodeReward, DecodeReward;
    var back := DecodeStoredRewards(EncodeStoredRewards(rs));
    forall i | 0 <= i < |rs| ensures back[i] == rs[i] {
      RewardRoundTrip(ToReward(rs[i]));
    }
  }

  // ----- metadata

  function ToMeta(lib: Library, s: StatusMeta): L.StatusMeta {
    L.StatusMeta(
      s.status, s.fee, s.preBalances, s.postBalances, s.innerInstructions, s.logMessages,
      ToTokenBalances(lib, s.preTokenBalances), ToTokenBalances(lib, s.postTokenBalances),
      MapOption(ToReward, s.rewards), L.LoadedAddresses([], []), s.returnData, s.computeUnitsConsumed)
  }

  function FromMeta(m: L.StatusMeta): Result<StatusMeta, Failure> {
    if m.loadedAddresses.writable != [] || m.loadedAddresses.readonly != [] then Err(BincodeError)
    else Ok(StatusMeta(
      m.status, m.fee, m.preBalances, m.postBalances, m.innerInstructions, m.logMessages,
      MapOption(FromTokenBalance, m.preTokenBalances), MapOption(FromTokenBalance, m.postTokenBalances),
      MapOption(FromReward, m.rewards), m.returnData, m.computeUnitsConsumed))
  }

  /** Stored metadata goes to the wire by way of the in-memory form. */
  function Encode(lib: Library, s: StatusMeta): P.StatusMeta { EncodeMeta(lib, ToMeta(lib, s)) }

  // ----- stored to memory and back

  lemma TokenBalancesBack(lib: Library, bs: Option<seq<TokenBalance>>)
    ensures MapOption(FromTokenBalance, ToTokenBalances(lib, bs)) == bs
  {
    hide Map;
    if bs.Some? {
      var back := MapOption(FromTokenBalance, ToTokenBalances(lib, bs)).value;
      assert forall i :: 0 <= i < |back| ==> back[i] == FromTokenBalance(ToTokenBalance(lib, bs.value[i]));
      assert back == bs.value;
    }
  }

  lemma RewardsBack(rs: Option<seq<ExtendedReward>>)
    ensures MapOption(FromReward, MapOption(ToReward, rs)) == rs
  {
    if rs.Some? {
      MapIsIdentity(FromReward, ToReward, rs.value);
    }
  }

  /** Stored to memory and back always succeeds and changes nothing. */
  lemma StoredRoundTrip(lib: Library, s: StatusMeta)
    ensures FromMeta(ToMeta(lib, s)) == Ok(s)
  {
    hide Map, ToTokenBalances, MapOption;
    TokenBalancesBack(lib, s.preTokenBalances);
    TokenBalancesBack(lib, s.postTokenBalances);
    RewardsBack(s.rewards);
  }

  // ----- memory to stored and back

  /** An absent amount has become zero, and every text is recomputed. */
  function Restored(lib: Library, b: L.TokenBalance): L.TokenBalance {
    var u := b.uiTokenAmount;
    b.(uiTokenAmount := u.(
      uiAmount := Some(if u.uiAmount.Some? then u.uiAmount.value else ZERO),
      uiAmountString := AmountString(lib, u.amount, u.decimals)))
  }

  ghost predicate RestoredUnchanged(lib: Library, bs: Option<seq<L.TokenBalance>>) {
    bs.Some? ==> forall i :: 0 <= i < |bs.value| ==>
      var u := bs.value[i].uiTokenAmount;
      u.uiAmount.Some? && u.uiAmountString == AmountString(lib, u.amount, u.decimals)
  }

  lemma TokenBalancesRestored(lib: Library, bs: Option<seq<L.TokenBalance>>)
    ensures ToTokenBalances(lib, MapOption(FromTokenBalance, bs)) == bs <==> RestoredUnchanged(lib, bs)
  {
    hide Map;
    if bs.Some? {
      var back := ToTokenBalances(lib, MapOption(FromTokenBalance, bs)).value;
      assert forall i :: 0 <= i < |back| ==> back[i] == Restored(lib, bs.value[i]);
      assert RestoredUnchanged(lib, bs) ==> back == bs.value;
    }
  }

  lemma RewardsRestored(rs: Option<seq<L.Reward>>)
    ensures MapOption(ToReward, MapOption(FromReward, rs)) == rs
  {
    if rs.Some? {
      MapIsIdentity(ToReward, FromReward, rs.value);
    }
  }

  /** Storing fails exactly when there are loaded addresses; metadata comes back
      from the store unchanged exactly when all its token amounts are present
      with the text that would be computed for them. */
  lemma StoringIff(lib: Library, m: L.StatusMeta)
    ensures FromMeta(m).Ok? <==> m.loadedAddresses == L.LoadedAddresses([], [])
    ensures FromMeta(m).Err? ==> FromMeta(m) == Err(BincodeError)
    ensures FromMeta(m).Ok? ==> (
      ToMeta(lib, FromMeta(m).value) == m <==>
      (RestoredUnchanged(lib, m.preTokenBalances) && RestoredUnchanged(lib, m.postTokenBalances)))
  {
    hide Map, ToTokenBalances, MapOption, RestoredUnchanged;
    TokenBalancesRestored(lib, m.preTokenBalances);
    TokenBalancesRestored(lib, m.postTokenBalances);
    RewardsRestored(m.rewards);
  }

  // ----- stored to the wire

  /** Stored metadata sent over the wire arrives in normal form, and can be
      stored again. */
  lemma StoredOverTheWire(lib: Library, s: StatusMeta)
    requires Faithful(lib)
    ensures DecodeMeta(lib, Encode(lib, s)) == Ok(NormalMeta(lib, ToMeta(lib, s)))
    ensures FromMeta(NormalMeta(lib, ToMeta(lib, s))).Ok?
  {
    hide DecodeMeta, EncodeMeta;
    MetaRoundTrip(lib, ToMeta(lib, s));
  }

  ghost predicate NearZeroIsZero(bs: Option<seq<TokenBalance>>) {
    bs.Some? && forall i :: 0 <= i < |bs.value| ==>
      var u := bs.value[i].uiTokenAmount.uiAmount;
      FarFromZero(u) || u == ZERO
  }

  /** What arrives is stored as what was sent exactly when the lists were present
      and every amount near zero was zero. */
  lemma StoredWireStoredIff(lib: Library, s: StatusMeta)
    requires Faithful(lib)
    ensures DecodeMeta(lib, Encode(lib, s)).Ok?
    ensures FromMeta(DecodeMeta(lib, Encode(lib, s)).value) == Ok(s)
      <==> NearZeroIsZero(s.preTokenBalances) && NearZeroIsZero(s.postTokenBalances) && s.rewards.Some?
  {
    hide DecodeMeta, Encode, Map, MapOption, ToTokenBalances, NormalTokenBalances, NearZeroIsZero;
    StoredOverTheWire(lib, s);
    WireTokenBalances(lib, s.preTokenBalances);
    WireTokenBalances(lib, s.postTokenBalances);
    WireRewards(s.rewards);
  }

  lemma WireRewards(rs: Option<seq<ExtendedReward>>)
    ensures MapOption(FromReward, Some(OrEmpty(MapOption(ToReward, rs)))) == rs <==> rs.Some?
  {
    RewardsBack(rs);
  }

  lemma WireTokenBalances(lib: Library, bs: Option<seq<TokenBalance>>)
    ensures MapOption(FromTokenBalance, Some(NormalTokenBalances(lib, ToTokenBalances(lib, bs)))) == bs
      <==> NearZeroIsZero(bs)
  {
    hide Map;
    if bs.Some? {
      var back := MapOption(FromTokenBalance, Some(NormalTokenBalances(lib, ToTokenBalances(lib, bs)))).value;
      assert forall i :: 0 <= i < |back| ==>
        back[i] == FromTokenBalance(NormalTokenBalance(lib, ToTokenBalance(lib, bs.value[i])));
      assert NearZeroIsZero(bs) ==> back == bs.value;
    }
  }

  // ----- field by field

  predicate SameStoredBalance(s: TokenBalance, b: L.TokenBalance) {
    && s.accountIndex == b.accountIndex && s.mint == b.mint && s.owner == b.owner && s.programId == b.programId
    && s.uiTokenAmount.decimals == b.uiTokenAmount.decimals && s.uiTokenAmount.amount == b.uiTokenAmount.amount
  }

  /** A stored balance in memory: its amount is present, and the text of an amount
      n is that of n, or of zero if the amount is no 64-bit number. */
  lemma StoredBalanceInMemory(lib: Library, s: TokenBalance)
    ensures var b := ToTokenBalance(lib, s);
      && SameStoredBalance(s, b) && b.uiTokenAmount.uiAmount == Some(s.uiTokenAmount.uiAmount)
      && (forall n: nat :: n <= 0xFFFF_FFFF_FFFF_FFFF && s.uiTokenAmount.amount == Digits(n) ==>
            b.uiTokenAmount.uiAmountString == lib.trimmed(n, s.uiTokenAmount.decimals))
      && (ParseUnsigned(s.uiTokenAmount.amount, 0xFFFF_FFFF_FFFF_FFFF).None? ==>
            b.uiTokenAmount.uiAmountString == lib.trimmed(0, s.uiTokenAmount.decimals))
  {
    hide AmountString;
    AmountStringMeans(lib, s.uiTokenAmount.amount, s.uiTokenAmount.decimals);
  }

  lemma MemoryBalanceStored(b: L.TokenBalance)
    ensures SameStoredBalance(FromTokenBalance(b), b)
    ensures FromTokenBalance(b).uiTokenAmount.uiAmount ==
      if b.uiTokenAmount.uiAmount.Some? then b.uiTokenAmount.uiAmount.value else L.Finite(0.0)
  {
  }

  predicate SameReward(s: ExtendedReward, r: L.Reward) {
    && s.pubkey == r.pubkey && s.lamports == r.lamports && s.postBalance == r.postBalance
    && s.rewardType == r.rewardType && s.commission == r.commission
  }

  lemma RewardsAreSame(s: ExtendedReward, r: L.Reward)
    ensures SameReward(s, ToReward(s)) && SameReward(FromReward(r), r)
  {
  }

  ghost predicate SameStored(s: StatusMeta, m: L.StatusMeta) {
    && s.status == m.status && s.fee == m.fee && s.preBalances == m.preBalances && s.postBalances == m.postBalances
    && s.innerInstructions == m.innerInstructions && s.logMessages == m.logMessages
    && s.returnData == m.returnData && s.computeUnitsConsumed == m.computeUnitsConsumed
    && (s.preTokenBalances.Some? <==> m.preTokenBalances.Some?)
    && (s.postTokenBalances.Some? <==> m.postTokenBalances.Some?) && (s.rewards.Some? <==> m.rewards.Some?)
  }

  /** The other fields of stored metadata are those of the in-memory form. */
  lemma StoredIsSame(lib: Library, s: StatusMeta, m: L.StatusMeta)
    ensures SameStored(s, ToMeta(lib, s))
    ensures FromMeta(m).Ok? ==> SameStored(FromMeta(m).value, m)
    ensures s.preTokenBalances.Some? ==>
      ToMeta(lib, s).preTokenBalances == ToTokenBalances(lib, s.preTokenBalances)
    ensures s.postTokenBalances.Some? ==>
      ToMeta(lib, s).postTokenBalances == ToTokenBalances(lib, s.postTokenBalances)
  {
  }
}
