/**
  Transaction errors as the client library has them, as the wire has them, and
  the conversions between the two. The wire keeps a numeric code, an optional
  instruction error and optional details; the text of a Borsh error is lost.
 */
module TransactionErrors {
  import opened Wrappers
  import opened Bytes

  datatype InstructionError =
    | GenericError | InvalidArgument | InvalidInstructionData | InvalidAccountData | AccountDataTooSmall
    | InsufficientFunds | IncorrectProgramId | MissingRequiredSignature | AccountAlreadyInitialized
    | UninitializedAccount | UnbalancedInstruction | ModifiedProgramId | ExternalAccountLamportSpend
    | ExternalAccountDataModified | ReadonlyLamportChange | ReadonlyDataModified | DuplicateAccountIndex
    | ExecutableModified | RentEpochModified | NotEnoughAccountKeys | AccountDataSizeChanged
    | AccountNotExecutable | AccountBorrowFailed | AccountBorrowOutstanding | DuplicateAccountOutOfSync
    | Custom(code: U32) | InvalidError | ExecutableDataModified | ExecutableLamportChange
    | ExecutableAccountNotRentExempt | UnsupportedProgramId | CallDepth | MissingAccount
    | ReentrancyNotAllowed | MaxSeedLengthExceeded | InvalidSeeds | InvalidRealloc
    | ComputationalBudgetExceeded | PrivilegeEscalation | ProgramEnvironmentSetupFailure
    | ProgramFailedToComplete | ProgramFailedToCompile | Immutable | IncorrectAuthority
    | BorshIoError(text: string) | AccountNotRentExempt | InvalidAccountOwner | ArithmeticOverflow
    | UnsupportedSysvar | IllegalOwner | MaxAccountsDataAllocationsExceeded | MaxAccountsExceeded
    | MaxInstructionTraceLengthExceeded | BuiltinProgramsMustConsumeComputeUnits

  datatype TransactionError =
    | AccountInUse | AccountLoadedTwice | AccountNotFound | ProgramAccountNotFound | InsufficientFundsForFee
    | InvalidAccountForFee | AlreadyProcessed | BlockhashNotFound
    | InstructionError(index: Byte, error: InstructionError) | CallChainTooDeep | MissingSignatureForFee
    | InvalidAccountIndex | SignatureFailure | InvalidProgramForExecution | SanitizeFailure
    | ClusterMaintenance | AccountBorrowOutstanding | WouldExceedMaxBlockCostLimit | UnsupportedVersion
    | InvalidWritableAccount | WouldExceedMaxAccountCostLimit | WouldExceedAccountDataBlockLimit
    | TooManyAccountLocks | AddressLookupTableNotFound | InvalidAddressLookupTableOwner
    | InvalidAddressLookupTableData | InvalidAddressLookupTableIndex | InvalidRentPayingAccount
    | WouldExceedMaxVoteCostLimit | WouldExceedAccountDataTotalLimit
    | DuplicateInstruction(instruction: Byte) | InsufficientFundsForRent(accountIndex: Byte)
    | MaxLoadedAccountsDataSizeExceeded | InvalidLoadedAccountsDataSizeLimit | ResanitizationNeeded
    | ProgramExecutionTemporarilyRestricted(accountIndex: Byte) | UnbalancedTransaction
    | ProgramCacheHitMaxLimit | CommitCancelled

  // ----- on the wire

  datatype ProtoInstructionError = ProtoInstructionError(index: U32, error: I32, custom: Option<U32>)

  /** The details message holds a single index. */
  datatype ProtoError = ProtoError(
    code: I32, instructionError: Option<ProtoInstructionError>, details: Option<U32>)

  datatype DecodeError = InvalidInstructionError | InvalidTransactionError | InvalidSignature

  // ----- encoding

  function InstructionErrorCode(e: InstructionError): I32 {
    match e
    case GenericError => 0
    case InvalidArgument => 1
    case InvalidInstructionData => 2
    case InvalidAccountData => 3
    case AccountDataTooSmall => 4
    case InsufficientFunds => 5
    case IncorrectProgramId => 6
    case MissingRequiredSignature => 7
    case AccountAlreadyInitialized => 8
    case UninitializedAccount => 9
    case UnbalancedInstruction => 10
    case ModifiedProgramId => 11
    case ExternalAccountLamportSpend => 12
    case ExternalAccountDataModified => 13
    case ReadonlyLamportChange => 14
    case ReadonlyDataModified => 15
    case DuplicateAccountIndex => 16
    case ExecutableModified => 17
    case RentEpochModified => 18
    case NotEnoughAccountKeys => 19
    case AccountDataSizeChanged => 20
    case AccountNotExecutable => 21
    case AccountBorrowFailed => 22
    case AccountBorrowOutstanding => 23
    case DuplicateAccountOutOfSync => 24
    case Custom(_) => 25
    case InvalidError => 26
    case ExecutableDataModified => 27
    case ExecutableLamportChange => 28
    case ExecutableAccountNotRentExempt => 29
    case UnsupportedProgramId => 30
    case CallDepth => 31
    case MissingAccount => 32
    case ReentrancyNotAllowed => 33
    case MaxSeedLengthExceeded => 34
    case InvalidSeeds => 35
    case InvalidRealloc => 36
    case ComputationalBudgetExceeded => 37
    case PrivilegeEscalation => 38
    case ProgramEnvironmentSetupFailure => 39
    case ProgramFailedToComplete => 40
    case ProgramFailedToCompile => 41
    case Immutable => 42
    case IncorrectAuthority => 43
    case BorshIoError(_) => 44
    case AccountNotRentExempt => 45
    case InvalidAccountOwner => 46
    case ArithmeticOverflow => 47
    case UnsupportedSysvar => 48
    case IllegalOwner => 49
    case MaxAccountsDataAllocationsExceeded => 50
    case MaxAccountsExceeded => 51
    case MaxInstructionTraceLengthExceeded => 52
    case BuiltinProgramsMustConsumeComputeUnits => 53
  }

  function TransactionErrorCode(e: TransactionError): I32 {
    match e
    case AccountInUse => 0
    case AccountLoadedTwice => 1
    case AccountNotFound => 2
    case ProgramAccountNotFound => 3
    case InsufficientFundsForFee => 4
    case InvalidAccountForFee => 5
    case AlreadyProcessed => 6
    case BlockhashNotFound => 7
    case InstructionError(_, _) => 8
    case CallChainTooDeep => 9
    case MissingSignatureForFee => 10
    case InvalidAccountIndex => 11
    case SignatureFailure => 12
    case InvalidProgramForExecution => 13
    case SanitizeFailure => 14
    case ClusterMaintenance => 15
    case AccountBorrowOutstanding => 16
    case WouldExceedMaxBlockCostLimit => 17
    case UnsupportedVersion => 18
    case InvalidWritableAccount => 19
    case WouldExceedMaxAccountCostLimit => 20
    case WouldExceedAccountDataBlockLimit => 21
    case TooManyAccountLocks => 22
    case AddressLookupTableNotFound => 23
    case InvalidAddressLookupTableOwner => 24
    case InvalidAddressLookupTableData => 25
    case InvalidAddressLookupTableIndex => 26
    case InvalidRentPayingAccount => 27
    case WouldExceedMaxVoteCostLimit => 28
    case WouldExceedAccountDataTotalLimit => 29
    case DuplicateInstruction(_) => 30
    case InsufficientFundsForRent(_) => 31
    case MaxLoadedAccountsDataSizeExceeded => 32
    case InvalidLoadedAccountsDataSizeLimit => 33
    case ResanitizationNeeded => 34
    case ProgramExecutionTemporarilyRestricted(_) => 35
    case UnbalancedTransaction => 36
    case ProgramCacheHitMaxLimit => 37
    case CommitCancelled => 38
  }

  function EncodeInstructionError(index: Byte, e: InstructionError): ProtoInstructionError {
    ProtoInstructionError(index, InstructionErrorCode(e), if e.Custom? then Some(e.code) else None)
  }

  function Encode(e: TransactionError): ProtoError {
    ProtoError(
      TransactionErrorCode(e),
      if e.InstructionError? then Some(EncodeInstructionError(e.index, e.error)) else None,
      match e
      case DuplicateInstruction(index) => Some(index)
      case InsufficientFundsForRent(index) => Some(index)
      case ProgramExecutionTemporarilyRestricted(index) => Some(index)
      case _ => None)
  }

  // ----- decoding

  /** The codes without a payload; a Borsh error comes back with an empty text. */
  function InstructionErrorOf(code: I32): Option<InstructionError> {
    match code
    case 0 => Some(InstructionError.GenericError)
    case 1 => Some(InstructionError.InvalidArgument)
    case 2 => Some(InstructionError.InvalidInstructionData)
    case 3 => Some(InstructionError.InvalidAccountData)
    case 4 => Some(InstructionError.AccountDataTooSmall)
    case 5 => Some(InstructionError.InsufficientFunds)
    case 6 => Some(InstructionError.IncorrectProgramId)
    case 7 => Some(InstructionError.MissingRequiredSignature)
    case 8 => Some(InstructionError.AccountAlreadyInitialized)
    case 9 => Some(InstructionError.UninitializedAccount)
    case 10 => Some(InstructionError.UnbalancedInstruction)
    case 11 => Some(InstructionError.ModifiedProgramId)
    case 12 => Some(InstructionError.ExternalAccountLamportSpend)
    case 13 => Some(InstructionError.ExternalAccountDataModified)
    case 14 => Some(InstructionError.ReadonlyLamportChange)
    case 15 => Some(InstructionError.ReadonlyDataModified)
    case 16 => Some(InstructionError.DuplicateAccountIndex)
    case 17 => Some(InstructionError.ExecutableModified)
    case 18 => Some(InstructionError.RentEpochModified)
    case 19 => Some(InstructionError.NotEnoughAccountKeys)
    case 20 => Some(InstructionError.AccountDataSizeChanged)
    case 21 => Some(InstructionError.AccountNotExecutable)
    case 22 => Some(InstructionError.AccountBorrowFailed)
    case 23 => Some(InstructionError.AccountBorrowOutstanding)
    case 24 => Some(InstructionError.DuplicateAccountOutOfSync)
    case 26 => Some(InstructionError.InvalidError)
    case 27 => Some(InstructionError.ExecutableDataModified)
    case 28 => Some(InstructionError.ExecutableLamportChange)
    case 29 => Some(InstructionError.ExecutableAccountNotRentExempt)
    case 30 => Some(InstructionError.UnsupportedProgramId)
    case 31 => Some(InstructionError.CallDepth)
    case 32 => Some(InstructionError.MissingAccount)
    case 33 => Some(InstructionError.ReentrancyNotAllowed)
    case 34 => Some(InstructionError.MaxSeedLengthExceeded)
    case 35 => Some(InstructionError.InvalidSeeds)
    case 36 => Some(InstructionError.InvalidRealloc)
    case 37 => Some(InstructionError.ComputationalBudgetExceeded)
    case 38 => Some(InstructionError.PrivilegeEscalation)
    case 39 => Some(InstructionError.ProgramEnvironmentSetupFailure)
    case 40 => Some(InstructionError.ProgramFailedToComplete)
    case 41 => Some(InstructionError.ProgramFailedToCompile)
    case 42 => Some(InstructionError.Immutable)
    case 43 => Some(InstructionError.IncorrectAuthority)
    case 44 => Some(InstructionError.BorshIoError(""))
    case 45 => Some(InstructionError.AccountNotRentExempt)
    case 46 => Some(InstructionError.InvalidAccountOwner)
    case 47 => Some(InstructionError.ArithmeticOverflow)
    case 48 => Some(InstructionError.UnsupportedSysvar)
    case 49 => Some(InstructionError.IllegalOwner)
    case 50 => Some(InstructionError.MaxAccountsDataAllocationsExceeded)
    case 51 => Some(InstructionError.MaxAccountsExceeded)
    case 52 => Some(InstructionError.MaxInstructionTraceLengthExceeded)
    case 53 => Some(InstructionError.BuiltinProgramsMustConsumeComputeUnits)
    case _ => None
  }

  function PlainErrorOf(code: I32): Option<TransactionError> {
    match code
    case 0 => Some(TransactionError.AccountInUse)
    case 1 => Some(TransactionError.AccountLoadedTwice)
    case 2 => Some(TransactionError.AccountNotFound)
    case 3 => Some(TransactionError.ProgramAccountNotFound)
    case 4 => Some(TransactionError.InsufficientFundsForFee)
    case 5 => Some(TransactionError.InvalidAccountForFee)
    case 6 => Some(TransactionError.AlreadyProcessed)
    case 7 => Some(TransactionError.BlockhashNotFound)
    case 9 => Some(TransactionError.CallChainTooDeep)
    case 10 => Some(TransactionError.MissingSignatureForFee)
    case 11 => Some(TransactionError.InvalidAccountIndex)
    case 12 => Some(TransactionError.SignatureFailure)
    case 13 => Some(TransactionError.InvalidProgramForExecution)
    case 14 => Some(TransactionError.SanitizeFailure)
    case 15 => Some(TransactionError.ClusterMaintenance)
    case 16 => Some(TransactionError.AccountBorrowOutstanding)
    case 17 => Some(TransactionError.WouldExceedMaxBlockCostLimit)
    case 18 => Some(TransactionError.UnsupportedVersion)
    case 19 => Some(TransactionError.InvalidWritableAccount)
    case 20 => Some(TransactionError.WouldExceedMaxAccountCostLimit)
    case 21 => Some(TransactionError.WouldExceedAccountDataBlockLimit)
    case 22 => Some(TransactionError.TooManyAccountLocks)
    case 23 => Some(TransactionError.AddressLookupTableNotFound)
    case 24 => Some(TransactionError.InvalidAddressLookupTableOwner)
    case 25 => Some(TransactionError.InvalidAddressLookupTableData)
    case 26 => Some(TransactionError.InvalidAddressLookupTableIndex)
    case 27 => Some(TransactionError.InvalidRentPayingAccount)
    case 28 => Some(TransactionError.WouldExceedMaxVoteCostLimit)
    case 29 => Some(TransactionError.WouldExceedAccountDataTotalLimit)
    case 32 => Some(TransactionError.MaxLoadedAccountsDataSizeExceeded)
    case 33 => Some(TransactionError.InvalidLoadedAccountsDataSizeLimit)
    case 34 => Some(TransactionError.ResanitizationNeeded)
    case 36 => Some(TransactionError.UnbalancedTransaction)
    case 37 => Some(TransactionError.ProgramCacheHitMaxLimit)
    case 38 => Some(TransactionError.CommitCancelled)
    case _ => None
  }

  function DecodePlain(code: I32): Result<TransactionError, DecodeError> {
    match PlainErrorOf(code)
    case Some(e) => Ok(e)
    case None => Err(InvalidTransactionError)
  }

  function DecodeInstructionError(p: ProtoInstructionError): Result<TransactionError, DecodeError> {
    if p.custom.Some? then Ok(InstructionError(AsByte(p.index), Custom(p.custom.value)))
    else match InstructionErrorOf(p.error)
      case Some(e) => Ok(InstructionError(AsByte(p.index), e))
      case None => Err(InvalidInstructionError)
  }

  function Decode(p: ProtoError): Result<TransactionError, DecodeError> {
    if p.code == 8 && p.instructionError.Some? then DecodeInstructionError(p.instructionError.value)
    else if p.code == 30 && p.details.Some? then Ok(DuplicateInstruction(AsByte(p.details.value)))
    else if p.code == 31 && p.details.Some? then Ok(InsufficientFundsForRent(AsByte(p.details.value)))
    else if p.code == 35 && p.details.Some? then Ok(ProgramExecutionTemporarilyRestricted(AsByte(p.details.value)))
    else DecodePlain(p.code)
  }

  // ----- what survives

  function Blank(e: TransactionError): TransactionError {
    if e.InstructionError? && e.error.BorshIoError? then InstructionError(e.index, BorshIoError("")) else e
  }

  lemma LowInstructionCodeRoundTrip(e: InstructionError)
    requires InstructionErrorCode(e) < 25
    ensures InstructionErrorOf(InstructionErrorCode(e)) == Some(e)
  {
  }

  lemma HighInstructionCodeRoundTrip(e: InstructionError)
    requires InstructionErrorCode(e) > 25
    ensures InstructionErrorOf(InstructionErrorCode(e)) == Some(if e.BorshIoError? then BorshIoError("") else e)
  {
  }

  lemma InstructionCodeRoundTrip(e: InstructionError)
    requires !e.Custom?
    ensures InstructionErrorOf(InstructionErrorCode(e)) == Some(if e.BorshIoError? then BorshIoError("") else e)
  {
    hide InstructionErrorOf;
    if InstructionErrorCode(e) < 25 {
      LowInstructionCodeRoundTrip(e);
    } else {
      HighInstructionCodeRoundTrip(e);
    }
  }

  lemma PlainCodeRoundTrip(e: TransactionError)
    requires !e.InstructionError? && !e.DuplicateInstruction?
    requires !e.InsufficientFundsForRent? && !e.ProgramExecutionTemporarilyRestricted?
    ensures PlainErrorOf(TransactionErrorCode(e)) == Some(e)
    ensures TransactionErrorCode(e) !in {8, 30, 31, 35}
  {
  }

  /** An encoded error comes back exactly, except for the text of a Borsh error. */
  lemma RoundTrip(e: TransactionError)
    ensures Decode(Encode(e)) == Ok(Blank(e))
  {
    hide InstructionErrorOf, PlainErrorOf, InstructionErrorCode;
    if e.InstructionError? {
      if !e.error.Custom? {
        InstructionCodeRoundTrip(e.error);
      }
    } else if e.DuplicateInstruction? || e.InsufficientFundsForRent? || e.ProgramExecutionTemporarilyRestricted? {
    } else {
      PlainCodeRoundTrip(e);
    }
  }

  /** Two errors share an encoding exactly when they differ at most in such a text. */
  lemma EncodingsAgreeIff(a: TransactionError, b: TransactionError)
    ensures Encode(a) == Encode(b) <==> Blank(a) == Blank(b)
  {
    RoundTrip(a);
    RoundTrip(b);
    EncodeIgnoresText(a);
    EncodeIgnoresText(b);
  }

  lemma EncodeIgnoresText(e: TransactionError)
    ensures Encode(Blank(e)) == Encode(e)
  {
  }

  // ----- what decodes

  predicate InstructionDecodes(p: ProtoInstructionError) {
    p.custom.Some? || (0 <= p.error <= 53 && p.error != 25)
  }

  /** A code outside the enumeration, an instruction error without its payload,
      and an indexed error without its details are refused. */
  predicate Decodes(p: ProtoError) {
    if p.code == 8 then p.instructionError.Some? && InstructionDecodes(p.instructionError.value)
    else if p.code in {30, 31, 35} then p.details.Some?
    else 0 <= p.code <= 38
  }

  lemma InstructionCodeKnownIff(code: I32)
    ensures InstructionErrorOf(code).Some? <==> 0 <= code <= 53 && code != 25
  {
  }

  lemma LowInstructionCodeBack(code: I32)
    requires code < 27 && InstructionErrorOf(code).Some?
    ensures InstructionErrorCode(InstructionErrorOf(code).value) == code
  {
  }

  lemma MiddleInstructionCodeBack(code: I32)
    requires 27 <= code < 41 && InstructionErrorOf(code).Some?
    ensures InstructionErrorCode(InstructionErrorOf(code).value) == code
  {
  }

  lemma HighInstructionCodeBack(code: I32)
    requires code >= 41 && InstructionErrorOf(code).Some?
    ensures InstructionErrorCode(InstructionErrorOf(code).value) == code
  {
  }

  lemma InstructionCodeBack(code: I32)
    requires InstructionErrorOf(code).Some?
    ensures InstructionErrorCode(InstructionErrorOf(code).value) == code
  {
    hide InstructionErrorOf, InstructionErrorCode;
    if code < 27 {
      LowInstructionCodeBack(code);
    } else if code < 41 {
      MiddleInstructionCodeBack(code);
    } else {
      HighInstructionCodeBack(code);
    }
  }

  lemma InstructionCodeDecodesIff(code: I32)
    ensures InstructionErrorOf(code).Some? <==> 0 <= code <= 53 && code != 25
    ensures InstructionErrorOf(code).Some? ==>
      var e := InstructionErrorOf(code).value;
      InstructionErrorCode(e) == code && !e.Custom? && (e.BorshIoError? ==> e.text == "")
  {
    hide InstructionErrorOf;
    InstructionCodeKnownIff(code);
    if InstructionErrorOf(code).Some? {
      InstructionCodeBack(code);
      assert InstructionErrorCode(InstructionErrorOf(code).value) == code;
      if InstructionErrorOf(code).value.BorshIoError? {
        InstructionTextBlank(code);
      }
    }
  }

  lemma InstructionTextBlank(code: I32)
    requires InstructionErrorOf(code).Some? && InstructionErrorOf(code).value.BorshIoError?
    ensures InstructionErrorOf(code).value.text == ""
  {
  }

  lemma PlainCodeDecodesIff(code: I32)
    ensures PlainErrorOf(code).Some? <==> 0 <= code <= 38 && code !in {8, 30, 31, 35}
    ensures PlainErrorOf(code).Some? ==>
      var e := PlainErrorOf(code).value;
      TransactionErrorCode(e) == code && Blank(e) == e
      && Encode(e) == ProtoError(code, None, None)
  {
  }

  lemma DecodesIff(p: ProtoError)
    ensures Decode(p).Ok? <==> Decodes(p)
    ensures Decode(p) == Err(InvalidInstructionError) <==>
      p.code == 8 && p.instructionError.Some? && !InstructionDecodes(p.instructionError.value)
  {
    hide InstructionErrorOf, PlainErrorOf;
    PlainCodeDecodesIff(p.code);
    if p.instructionError.Some? {
      InstructionCodeDecodesIff(p.instructionError.value.error);
    }
  }

  // ----- encoding again

  /** The form of a wire error with nothing the decoder ignores or truncates. */
  predicate Tidy(p: ProtoError) {
    && (p.instructionError.Some? ==>
          && p.code == 8 && p.instructionError.value.index < 256
          && (p.instructionError.value.custom.Some? <==> p.instructionError.value.error == 25))
    && (p.details.Some? ==> p.code in {30, 31, 35} && p.details.value < 256)
  }

  lemma DecodedIsBlank(p: ProtoError)
    requires Decode(p).Ok?
    ensures Blank(Decode(p).value) == Decode(p).value
    ensures Encode(Decode(p).value) == p <==> Tidy(p)
  {
    hide InstructionErrorOf, PlainErrorOf, InstructionErrorCode, TransactionErrorCode;
    PlainCodeDecodesIff(p.code);
    if p.instructionError.Some? {
      InstructionCodeDecodesIff(p.instructionError.value.error);
    }
    IndexedCodes(Decode(p).value);
  }

  lemma IndexedCodes(e: TransactionError)
    ensures TransactionErrorCode(e) == 8 <==> e.InstructionError?
    ensures TransactionErrorCode(e) == 30 <==> e.DuplicateInstruction?
    ensures TransactionErrorCode(e) == 31 <==> e.InsufficientFundsForRent?
    ensures TransactionErrorCode(e) == 35 <==> e.ProgramExecutionTemporarilyRestricted?
    ensures e.InstructionError? ==> (InstructionErrorCode(e.error) == 25 <==> e.error.Custom?)
  {
  }

  /** Whatever decodes is encoded to something that decodes to the same value,
      and to the very same message exactly when the message is tidy. */
  lemma DecodeEncodeDecode(p: ProtoError)
    requires Decode(p).Ok?
    ensures Decode(Encode(Decode(p).value)) == Decode(p)
    ensures Encode(Decode(p).value) == p <==> Tidy(p)
  {
    DecodedIsBlank(p);
    RoundTrip(Decode(p).value);
  }

  // ----- the numbering of the wire, as the protobuf enumerations declare it

  lemma FirstInstructionCodes(e: InstructionError, c: I32)
    requires c == InstructionErrorCode(e)
    ensures (c == 0 <==> e.GenericError?) && (c == 1 <==> e.InvalidArgument?)
    ensures (c == 2 <==> e.InvalidInstructionData?) && (c == 3 <==> e.InvalidAccountData?)
    ensures (c == 4 <==> e.AccountDataTooSmall?) && (c == 5 <==> e.InsufficientFunds?)
    ensures (c == 6 <==> e.IncorrectProgramId?) && (c == 7 <==> e.MissingRequiredSignature?)
    ensures (c == 8 <==> e.AccountAlreadyInitialized?) && (c == 9 <==> e.UninitializedAccount?)
    ensures (c == 10 <==> e.UnbalancedInstruction?) && (c == 11 <==> e.ModifiedProgramId?)
    ensures (c == 12 <==> e.ExternalAccountLamportSpend?) && (c == 13 <==> e.ExternalAccountDataModified?)
    ensures (c == 14 <==> e.ReadonlyLamportChange?) && (c == 15 <==> e.ReadonlyDataModified?)
    ensures (c == 16 <==> e.DuplicateAccountIndex?) && (c == 17 <==> e.ExecutableModified?)
  {
  }

  lemma MiddleInstructionCodes(e: InstructionError, c: I32)
    requires c == InstructionErrorCode(e)
    ensures (c == 18 <==> e.RentEpochModified?) && (c == 19 <==> e.NotEnoughAccountKeys?)
    ensures (c == 20 <==> e.AccountDataSizeChanged?) && (c == 21 <==> e.AccountNotExecutable?)
    ensures (c == 22 <==> e.AccountBorrowFailed?) && (c == 23 <==> e.AccountBorrowOutstanding?)
    ensures (c == 24 <==> e.DuplicateAccountOutOfSync?) && (c == 25 <==> e.Custom?)
    ensures (c == 26 <==> e.InvalidError?) && (c == 27 <==> e.ExecutableDataModified?)
    ensures (c == 28 <==> e.ExecutableLamportChange?) && (c == 29 <==> e.ExecutableAccountNotRentExempt?)
    ensures (c == 30 <==> e.UnsupportedProgramId?) && (c == 31 <==> e.CallDepth?)
    ensures (c == 32 <==> e.MissingAccount?) && (c == 33 <==> e.ReentrancyNotAllowed?)
    ensures (c == 34 <==> e.MaxSeedLengthExceeded?) && (c == 35 <==> e.InvalidSeeds?)
  {
  }

  lemma LateInstructionCodes(e: InstructionError, c: I32)
    requires c == InstructionErrorCode(e)
    ensures (c == 36 <==> e.InvalidRealloc?) && (c == 37 <==> e.ComputationalBudgetExceeded?)
    ensures (c == 38 <==> e.PrivilegeEscalation?) && (c == 39 <==> e.ProgramEnvironmentSetupFailure?)
    ensures (c == 40 <==> e.ProgramFailedToComplete?) && (c == 41 <==> e.ProgramFailedToCompile?)
    ensures (c == 42 <==> e.Immutable?) && (c == 43 <==> e.IncorrectAuthority?) && (c == 44 <==> e.BorshIoError?)
  {
  }

  lemma LastInstructionCodes(e: InstructionError, c: I32)
    requires c == InstructionErrorCode(e)
    ensures (c == 45 <==> e.AccountNotRentExempt?) && (c == 46 <==> e.InvalidAccountOwner?)
    ensures (c == 47 <==> e.ArithmeticOverflow?) && (c == 48 <==> e.UnsupportedSysvar?)
    ensures (c == 49 <==> e.IllegalOwner?) && (c == 50 <==> e.MaxAccountsDataAllocationsExceeded?)
    ensures (c == 51 <==> e.MaxAccountsExceeded?) && (c == 52 <==> e.MaxInstructionTraceLengthExceeded?)
    ensures (c == 53 <==> e.BuiltinProgramsMustConsumeComputeUnits?)
  {
  }

  lemma TransactionCodes(e: TransactionError, c: I32)
    requires c == TransactionErrorCode(e)
    ensures (c == 0 <==> e.AccountInUse?) && (c == 1 <==> e.AccountLoadedTwice?)
    ensures (c == 2 <==> e.AccountNotFound?) && (c == 3 <==> e.ProgramAccountNotFound?)
    ensures (c == 4 <==> e.InsufficientFundsForFee?) && (c == 5 <==> e.InvalidAccountForFee?)
    ensures (c == 6 <==> e.AlreadyProcessed?) && (c == 7 <==> e.BlockhashNotFound?)
    ensures (c == 8 <==> e.InstructionError?) && (c == 9 <==> e.CallChainTooDeep?)
    ensures (c == 10 <==> e.MissingSignatureForFee?) && (c == 11 <==> e.InvalidAccountIndex?)
    ensures (c == 12 <==> e.SignatureFailure?) && (c == 13 <==> e.InvalidProgramForExecution?)
    ensures (c == 14 <==> e.SanitizeFailure?) && (c == 15 <==> e.ClusterMaintenance?)
    ensures (c == 16 <==> e.AccountBorrowOutstanding?) && (c == 17 <==> e.WouldExceedMaxBlockCostLimit?)
    ensures (c == 18 <==> e.UnsupportedVersion?) && (c == 19 <==> e.InvalidWritableAccount?)
    ensures (c == 20 <==> e.WouldExceedMaxAccountCostLimit?) && (c == 21 <==> e.WouldExceedAccountDataBlockLimit?)
    ensures (c == 22 <==> e.TooManyAccountLocks?) && (c == 23 <==> e.AddressLookupTableNotFound?)
    ensures (c == 24 <==> e.InvalidAddressLookupTableOwner?) && (c == 25 <==> e.InvalidAddressLookupTableData?)
    ensures (c == 26 <==> e.InvalidAddressLookupTableIndex?) && (c == 27 <==> e.InvalidRentPayingAccount?)
    ensures (c == 28 <==> e.WouldExceedMaxVoteCostLimit?) && (c == 29 <==> e.WouldExceedAccountDataTotalLimit?)
    ensures (c == 30 <==> e.DuplicateInstruction?) && (c == 31 <==> e.InsufficientFundsForRent?)
    ensures (c == 32 <==> e.MaxLoadedAccountsDataSizeExceeded?)
    ensures (c == 33 <==> e.InvalidLoadedAccountsDataSizeLimit?) && (c == 34 <==> e.ResanitizationNeeded?)
    ensures (c == 35 <==> e.ProgramExecutionTemporarilyRestricted?) && (c == 36 <==> e.UnbalancedTransaction?)
    ensures (c == 37 <==> e.ProgramCacheHitMaxLimit?) && (c == 38 <==> e.CommitCancelled?)
  {
  }

  /** What a decoded error says of its message: the payload of its kind, with
      indexes cut to a byte, and a custom value before any other code. */
  lemma DecodedMeans(p: ProtoError)
    requires Decode(p).Ok?
    ensures TransactionErrorCode(Decode(p).value) == p.code
    ensures Decode(p).value.InstructionError? ==>
      var q := p.instructionError.value;
      && Decode(p).value.index == q.index % 256
      && (q.custom.Some? ==> Decode(p).value.error == Custom(q.custom.value))
      && (q.custom.None? ==> InstructionErrorCode(Decode(p).value.error) == q.error)
    ensures Decode(p).value.DuplicateInstruction? ==> Decode(p).value.instruction == p.details.value % 256
    ensures Decode(p).value.InsufficientFundsForRent? ==> Decode(p).value.accountIndex == p.details.value % 256
    ensures Decode(p).value.ProgramExecutionTemporarilyRestricted? ==>
      Decode(p).value.accountIndex == p.details.value % 256
  {
    hide InstructionErrorOf, PlainErrorOf, InstructionErrorCode, TransactionErrorCode;
    PlainCodeDecodesIff(p.code);
    if p.instructionError.Some? {
      InstructionCodeDecodesIff(p.instructionError.value.error);
    }
    IndexedCodes(Decode(p).value);
  }

  /** What an encoded error puts on the wire besides its code. */
  lemma EncodedMeans(e: TransactionError)
    ensures var p := Encode(e);
      && p.code == TransactionErrorCode(e)
      && (p.instructionError.Some? <==> e.InstructionError?)
      && (e.InstructionError? ==>
            && p.instructionError.value.index == e.index
            && p.instructionError.value.error == InstructionErrorCode(e.error)
            && p.instructionError.value.custom == if e.error.Custom? then Some(e.error.code) else None)
      && (e.DuplicateInstruction? ==> p.details == Some(e.instruction))
      && (e.InsufficientFundsForRent? || e.ProgramExecutionTemporarilyRestricted? ==> p.details == Some(e.accountIndex))
  {
  }
}
