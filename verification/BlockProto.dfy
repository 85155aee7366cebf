/** The protobuf messages of a confirmed block. A sub-message may be absent. */
module BlockProto {
  import opened Bytes
  import opened Wrappers
  import L = Ledger

  datatype MessageHeader = MessageHeader(requiredSignatures: U32, readonlySigned: U32, readonlyUnsigned: U32)

  datatype Instruction = Instruction(programIdIndex: U32, accounts: Bytes, data: Bytes)

  datatype TableLookup = TableLookup(accountKey: Bytes, writable: Bytes, readonly: Bytes)

  datatype Message = Message(
    header: Option<MessageHeader>, accountKeys: seq<Bytes>, recentBlockhash: Bytes,
    instructions: seq<Instruction>, versioned: bool, lookups: seq<TableLookup>)

  datatype Transaction = Transaction(signatures: seq<Bytes>, message: Option<Message>)

  datatype InnerInstruction = InnerInstruction(
    programIdIndex: U32, accounts: Bytes, data: Bytes, stackHeight: Option<U32>)

  datatype InnerInstructions = InnerInstructions(index: U32, instructions: seq<InnerInstruction>)

  datatype UiTokenAmount = UiTokenAmount(uiAmount: L.F64, decimals: U32, amount: string, uiAmountString: string)

  datatype TokenBalance = TokenBalance(
    accountIndex: U32, mint: string, uiTokenAmount: Option<UiTokenAmount>, owner: string, programId: string)

  datatype Reward = Reward(
    pubkey: string, lamports: int, postBalance: nat, rewardType: I32, commission: string)

  datatype Rewards = Rewards(rewards: seq<Reward>, numPartitions: Option<nat>)

  datatype ReturnData = ReturnData(programId: Bytes, data: Bytes)

  /** err is the bincode form of a transaction error. */
  datatype StatusMeta = StatusMeta(
    err: Option<Bytes>, fee: nat, preBalances: seq<nat>, postBalances: seq<nat>,
    innerInstructions: seq<InnerInstructions>, innerInstructionsNone: bool,
    logMessages: seq<string>, logMessagesNone: bool,
    preTokenBalances: seq<TokenBalance>, postTokenBalances: seq<TokenBalance>, rewards: seq<Reward>,
    loadedWritable: seq<Bytes>, loadedReadonly: seq<Bytes>,
    returnData: Option<ReturnData>, returnDataNone: bool, computeUnitsConsumed: Option<nat>)

  datatype ConfirmedTransaction = ConfirmedTransaction(
    transaction: Option<Transaction>, meta: Option<StatusMeta>)

  datatype ConfirmedBlock = ConfirmedBlock(
    previousBlockhash: string, blockhash: string, parentSlot: nat, transactions: seq<ConfirmedTransaction>,
    rewards: seq<Reward>, numPartitions: Option<nat>, blockTime: Option<int>, blockHeight: Option<nat>)
}
