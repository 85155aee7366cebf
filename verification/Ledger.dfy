/**
  Blocks, transactions and their metadata as the validator's own types have
  them. 64-bit integers that are only carried along are unbounded here.
 */
module Ledger {
  import opened Bytes
  import opened Wrappers
  import E = TransactionErrors

  datatype MessageHeader = MessageHeader(
    requiredSignatures: Byte, readonlySigned: Byte, readonlyUnsigned: Byte)

  datatype Instruction = Instruction(programIdIndex: Byte, accounts: Bytes, data: Bytes)

  datatype TableLookup = TableLookup(accountKey: Pubkey, writable: Bytes, readonly: Bytes)

  datatype LegacyMessage = LegacyMessage(
    header: MessageHeader, accountKeys: seq<Pubkey>, recentBlockhash: Hash, instructions: seq<Instruction>)

  datatype VersionedMessage =
    | Legacy(message: LegacyMessage)
    | V0(header: MessageHeader, accountKeys: seq<Pubkey>, recentBlockhash: Hash,
         instructions: seq<Instruction>, lookups: seq<TableLookup>)

  datatype Transaction = Transaction(signatures: seq<Signature>, message: LegacyMessage)

  datatype VersionedTransaction = VersionedTransaction(signatures: seq<Signature>, message: VersionedMessage)

  datatype InnerInstruction = InnerInstruction(instruction: Instruction, stackHeight: Option<U32>)

  datatype InnerInstructions = InnerInstructions(index: Byte, instructions: seq<InnerInstruction>)

  /** A double, up to the sign of zero and the payload of a NaN. */
  datatype F64 = NotANumber | Infinity(negative: bool) | Finite(value: real)

  datatype UiTokenAmount = UiTokenAmount(
    uiAmount: Option<F64>, decimals: Byte, amount: string, uiAmountString: string)

  datatype TokenBalance = TokenBalance(
    accountIndex: Byte, mint: string, uiTokenAmount: UiTokenAmount, owner: string, programId: string)

  datatype RewardType = Fee | Rent | Staking | Voting

  datatype Reward = Reward(
    pubkey: string, lamports: int, postBalance: nat, rewardType: Option<RewardType>, commission: Option<Byte>)

  datatype RewardsAndNumPartitions = RewardsAndNumPartitions(rewards: seq<Reward>, numPartitions: Option<nat>)

  datatype LoadedAddresses = LoadedAddresses(writable: seq<Pubkey>, readonly: seq<Pubkey>)

  datatype ReturnData = ReturnData(programId: Pubkey, data: Bytes)

  datatype Status = Succeeded | Failed(error: E.TransactionError)

  datatype StatusMeta = StatusMeta(
    status: Status, fee: nat, preBalances: seq<nat>, postBalances: seq<nat>,
    innerInstructions: Option<seq<InnerInstructions>>, logMessages: Option<seq<string>>,
    preTokenBalances: Option<seq<TokenBalance>>, postTokenBalances: Option<seq<TokenBalance>>,
    rewards: Option<seq<Reward>>, loadedAddresses: LoadedAddresses, returnData: Option<ReturnData>,
    computeUnitsConsumed: Option<nat>)

  datatype VersionedTransactionWithMeta = VersionedTransactionWithMeta(
    transaction: VersionedTransaction, meta: StatusMeta)

  datatype TransactionWithMeta =
    | MissingMetadata(transaction: Transaction)
    | Complete(complete: VersionedTransactionWithMeta)

  datatype Block<Tx> = Block(
    previousBlockhash: string, blockhash: string, parentSlot: nat, transactions: seq<Tx>, rewards: seq<Reward>,
    numPartitions: Option<nat>, blockTime: Option<int>, blockHeight: Option<nat>)

  /** What a decoded block is, and what a block to encode is. */
  type ConfirmedBlock = Block<TransactionWithMeta>
  type VersionedConfirmedBlock = Block<VersionedTransactionWithMeta>

  function IntoLegacyTransaction(t: VersionedTransaction): Option<Transaction> {
    match t.message
    case Legacy(message) => Some(Transaction(t.signatures, message))
    case V0(_, _, _, _, _) => None
  }
}
