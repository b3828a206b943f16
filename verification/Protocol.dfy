/**
 * The program's instructions as functions on typed account states.
 *
 * An account's data is one of: bytes the program gives no meaning to, a multisig, a proposed
 * transaction. Every handler keeps the source's order of checks and returns the new state or the
 * first error. Program.dfy shows that the byte-level, in-place program computes exactly these functions.
 */
module Protocol {
  import opened Machine
  import opened State
  import opened Instructions

  datatype Error =
    // the program's own errors
    | InvalidThreshold
    | UniqueOwners
    | InvalidOwner
    | ProposerNotSigner
    | MissingInstructions
    | InvalidOwnerSetSequenceNumber
    | NotEnoughOwners
    | TooManyOwners
    | InvalidExecutor
    | ImmutableTransactionAccount
    | InvalidTransactionAccount
    | InvalidRefundeeAccount
    | ImmutableRefundeeAccount
    | NotEnoughSigners
    | AccountCloseFailure
    | MalformedTransactionAccount
    | ApproverNotSigner
    | MultisigSignerNotSigner
    | MalformedMultisigAccount
    | AccountOwnedByWrongProgram
    // errors of the runtime, of Borsh and of the system program
    | NotEnoughAccountKeys
    | IncorrectProgramId
    | InvalidSeeds
    | InvalidInstructionData
    | PrivilegeEscalation
    | MissingAccount
    | AccountAlreadyInUse
    | InsufficientFunds
    | InvalidDataLength
    | BufferTooSmall
    | IndexOutOfRange
    | ExternalFailure
    // a stored instruction that calls this program's own create, propose, approve, execute or cancel
    | SelfCallNotModelled

  datatype AccountMeta = AccountMeta(pubkey: Pubkey, isSigner: bool, isWritable: bool)

  /** A call to a program, as the runtime sees it. */
  datatype Invocation = Invocation(programId: Pubkey, accounts: seq<AccountMeta>, data: seq<u8>)

  datatype Data =
    | Plain(bytes: seq<u8>)
    | MultisigData(multisig: Multisig)
    | TransactionData(transaction: Transaction)

  datatype Account = Account(owner: Pubkey, lamports: nat, data: Data)

  type Accounts = map<Pubkey, Account>

  /**
   * What the program is given by its surroundings: its own address and the system program's, the
   * derivation of a signer address from a multisig address and a nonce (None when the seeds give
   * no valid address), and the rent of a data length.
   */
  datatype Env = Env(
    programId: Pubkey,
    systemId: Pubkey,
    pda: (Pubkey, u8) -> Option<Pubkey>,
    rent: nat -> nat)

  type Step = Result<Accounts, Error>

  /** An address nobody has funded is an empty account of the system program. */
  function Get(e: Env, s: Accounts, k: Pubkey): Account {
    if k in s then s[k] else Account(e.systemId, 0, Plain([]))
  }

  function MultisigIn(b: seq<u8>): Result<Multisig, Error> {
    match DecodeMultisig(b)
    case Some(m) => Ok(m)
    case None => Err(MalformedMultisigAccount)
  }

  function TransactionIn(b: seq<u8>): Result<Transaction, Error> {
    match DecodeTransaction(b)
    case Some(t) => Ok(t)
    case None => Err(MalformedTransactionAccount)
  }

  /** checked_deserialize: an account reads as what its bytes say, whoever wrote it and as whatever. */
  function ExpectMultisig(d: Data): Result<Multisig, Error> {
    match d
    case MultisigData(m) => Ok(m)
    case TransactionData(t) => MultisigIn(EncodeTransaction(t))
    case Plain(b) => MultisigIn(b)
  }

  function ExpectTransaction(d: Data): Result<Transaction, Error> {
    match d
    case TransactionData(t) => Ok(t)
    case MultisigData(m) => TransactionIn(EncodeMultisig(m))
    case Plain(b) => TransactionIn(b)
  }

  // ----- checks shared by several instructions (errors.rs, common.rs) -----

  /** Each owner is compared with every later one. */
  predicate AllUnique(owners: seq<Pubkey>) {
    owners == [] || (owners[0] !in owners[1..] && AllUnique(owners[1..]))
  }

  function Capacity(m: Multisig): nat {
    PUBKEY_BYTES * |m.owners| + |m.padding|
  }

  function ValidateOwners(m: Multisig, owners: seq<Pubkey>): Option<Error> {
    if !AllUnique(owners) then Some(UniqueOwners)
    else if owners == [] then Some(NotEnoughOwners)
    else if PUBKEY_BYTES * |owners| > Capacity(m) then Some(TooManyOwners)
    else None
  }

  function ValidateThreshold(threshold: u8, owners: seq<Pubkey>): Option<Error> {
    if threshold > 0 && threshold <= AsU8(|owners|) then None else Some(InvalidThreshold)
  }

  function ValidatePda(e: Env, signer: Pubkey, multisig: Pubkey, nonce: u8): Option<Error> {
    if e.pda(multisig, nonce) == Some(signer) then None else Some(InvalidSeeds)
  }

  function ValidateSigner(e: Env, signer: AccountMeta, multisig: Pubkey, nonce: u8): Option<Error> {
    if ValidatePda(e, signer.pubkey, multisig, nonce).Some? then Some(InvalidSeeds)
    else if !signer.isSigner then Some(MultisigSignerNotSigner)
    else None
  }

  /** Iterator::position: the first index holding k. */
  function Position(owners: seq<Pubkey>, k: Pubkey): (r: Option<nat>)
    ensures r.Some? <==> k in owners
    ensures r.Some? ==> r.value < |owners| && owners[r.value] == k && k !in owners[..r.value]
  {
    if owners == [] then None
    else if owners[0] == k then Some(0)
    else
      assert owners == [owners[0]] + owners[1..];
      match Position(owners[1..], k)
      case None => None
      case Some(i) =>
        assert owners[..i + 1] == [owners[0]] + owners[1..][..i];
        Some(i + 1)
  }

  function CountTrue(bits: seq<bool>): nat {
    if bits == [] then 0 else (if bits[0] then 1 else 0) + CountTrue(bits[1..])
  }

  // ----- the two in-place updates of a multisig (common.rs) -----

  function Zeros(n: nat): (r: seq<u8>)
    ensures |r| == n && Zeroed(r)
  {
    seq(n, _ => 0)
  }

  /** Slots that become free turn into padding, slots that are taken come out of it. */
  function WithOwners(m: Multisig, owners: seq<Pubkey>): Multisig
    requires PUBKEY_BYTES * |owners| <= Capacity(m)
  {
    Multisig(
      owners,
      if AsU8(|owners|) < m.threshold then AsU8(|owners|) else m.threshold,
      m.nonce,
      WrapInc32(m.ownerSetSeqno),
      Zeros(Capacity(m) - PUBKEY_BYTES * |owners|))
  }

  function WithThreshold(m: Multisig, threshold: u8): Multisig {
    m.(threshold := threshold)
  }

  function PutData(e: Env, s: Accounts, k: Pubkey, d: Data): Accounts {
    s[k := Get(e, s, k).(data := d)]
  }

  // ----- accounts created and closed -----

  /** The runtime's bound on the data of an account created by a nested call. */
  const MAX_CREATED_DATA: nat := 10240

  function SizeOf(d: Data): nat {
    match d
    case Plain(b) => |b|
    case MultisigData(m) => m.Len()
    case TransactionData(t) => t.Len()
  }

  /**
   * The system program's create_account, called with the payer and the new account as signers: the
   * new account must be unfunded, empty and the system program's own, the payer a plain system
   * account with enough lamports.
   */
  function CreateAccount(e: Env, s: Accounts, payer: AccountMeta, target: AccountMeta, lamports: nat, d: Data): Step {
    var from, to := Get(e, s, payer.pubkey), Get(e, s, target.pubkey);
    if !payer.isSigner || !payer.isWritable || !target.isSigner || !target.isWritable then Err(PrivilegeEscalation)
    else if to.lamports > 0 || to.data != Plain([]) || to.owner != e.systemId then Err(AccountAlreadyInUse)
    else if payer.pubkey == target.pubkey || from.owner != e.systemId || from.data != Plain([]) then Err(InsufficientFunds)
    else if from.lamports < lamports then Err(InsufficientFunds)
    else if SizeOf(d) > MAX_CREATED_DATA then Err(InvalidDataLength)
    else Ok(s[payer.pubkey := from.(lamports := from.lamports - lamports)]
             [target.pubkey := Account(e.programId, lamports, d)])
  }

  /** close_account: empty the account into the refundee, then give it back to the system program. */
  function CloseAccount(e: Env, s: Accounts, account: Pubkey, refundee: Pubkey): Step {
    var lamports := Get(e, s, account).lamports;
    var s1 := s[account := Get(e, s, account).(lamports := 0)];
    var balance := Get(e, s1, refundee).lamports + lamports;
    if balance >= TWO_64 then Err(AccountCloseFailure)
    else
      var s2 := s1[refundee := Get(e, s1, refundee).(lamports := balance)];
      Ok(s2[account := Account(e.systemId, Get(e, s2, account).lamports, Plain([]))])
  }

  // ----- create_multisig -----

  function CreateMultisigStep(e: Env, s: Accounts, metas: seq<AccountMeta>, owners: seq<Pubkey>, threshold: u8, nonce: u8): Step {
    if |metas| < 4 then Err(NotEnoughAccountKeys)
    else
      var account, signer, payer, system := metas[0], metas[1], metas[2], metas[3];
      if system.pubkey != e.systemId then Err(IncorrectProgramId)
      else if !AllUnique(owners) then Err(UniqueOwners)
      else if ValidateThreshold(threshold, owners).Some? then Err(InvalidThreshold)
      else if ValidatePda(e, signer.pubkey, account.pubkey, nonce).Some? then Err(InvalidSeeds)
      else
        var m := Multisig(owners, threshold, nonce, 0, []);
        CreateAccount(e, s, payer, account, e.rent(m.Len()), MultisigData(m))
  }

  // ----- the three administrative instructions -----

  /** The checks the three have in common, ending with the derived address having signed. */
  function Authorise(e: Env, s: Accounts, metas: seq<AccountMeta>): Result<Multisig, Error> {
    if |metas| < 2 then Err(NotEnoughAccountKeys)
    else
      match ExpectMultisig(Get(e, s, metas[0].pubkey).data)
      case Err(x) => Err(x)
      case Ok(m) =>
        if Get(e, s, metas[0].pubkey).owner != e.programId then Err(AccountOwnedByWrongProgram)
        else
          match ValidateSigner(e, metas[1], metas[0].pubkey, m.nonce)
          case Some(x) => Err(x)
          case None => Ok(m)
  }

  function SetOwnersStep(e: Env, s: Accounts, metas: seq<AccountMeta>, owners: seq<Pubkey>): Step {
    match Authorise(e, s, metas)
    case Err(x) => Err(x)
    case Ok(m) =>
      match ValidateOwners(m, owners)
      case Some(x) => Err(x)
      case None => Ok(PutData(e, s, metas[0].pubkey, MultisigData(WithOwners(m, owners))))
  }

  function ChangeThresholdStep(e: Env, s: Accounts, metas: seq<AccountMeta>, threshold: u8): Step {
    match Authorise(e, s, metas)
    case Err(x) => Err(x)
    case Ok(m) =>
      match ValidateThreshold(threshold, m.owners)
      case Some(x) => Err(x)
      case None => Ok(PutData(e, s, metas[0].pubkey, MultisigData(WithThreshold(m, threshold))))
  }

  function SetOwnersAndChangeThresholdStep(e: Env, s: Accounts, metas: seq<AccountMeta>, owners: seq<Pubkey>, threshold: u8): Step {
    match Authorise(e, s, metas)
    case Err(x) => Err(x)
    case Ok(m) =>
      match ValidateOwners(m, owners)
      case Some(x) => Err(x)
      case None =>
        match ValidateThreshold(threshold, owners)
        case Some(x) => Err(x)
        case None =>
          Ok(PutData(e, s, metas[0].pubkey, MultisigData(WithThreshold(WithOwners(m, owners), threshold))))
  }

  // ----- propose_transaction -----

  /** Only the proposer's place is set. */
  function FirstApproval(owners: seq<Pubkey>, i: nat): seq<bool>
    requires i < |owners|
  {
    seq(|owners|, _ => false)[i := true]
  }

  function ProposeStep(e: Env, s: Accounts, metas: seq<AccountMeta>, instructions: seq<TransactionInstructionData>): Step {
    if |metas| < 5 then Err(NotEnoughAccountKeys)
    else
      var ms, tx, proposer, payer, system := metas[0], metas[1], metas[2], metas[3], metas[4];
      if Get(e, s, ms.pubkey).owner != e.programId then Err(AccountOwnedByWrongProgram)
      else if system.pubkey != e.systemId then Err(IncorrectProgramId)
      else if !proposer.isSigner then Err(ProposerNotSigner)
      else if instructions == [] then Err(MissingInstructions)
      else
        match ExpectMultisig(Get(e, s, ms.pubkey).data)
        case Err(x) => Err(x)
        case Ok(m) =>
          match Position(m.owners, proposer.pubkey)
          case None => Err(InvalidOwner)
          case Some(i) =>
            var t := Transaction(ms.pubkey, instructions, FirstApproval(m.owners, i), m.ownerSetSeqno);
            CreateAccount(e, s, payer, tx, e.rent(t.Len()), TransactionData(t))
  }

  // ----- approve_transaction -----

  function ApproveStep(e: Env, s: Accounts, metas: seq<AccountMeta>): Step {
    if |metas| < 3 then Err(NotEnoughAccountKeys)
    else
      var ms, tx, approver := metas[0], metas[1], metas[2];
      match ExpectMultisig(Get(e, s, ms.pubkey).data)
      case Err(x) => Err(x)
      case Ok(m) =>
        match ExpectTransaction(Get(e, s, tx.pubkey).data)
        case Err(x) => Err(x)
        case Ok(t) =>
          if Get(e, s, ms.pubkey).owner != e.programId then Err(AccountOwnedByWrongProgram)
          else if Get(e, s, tx.pubkey).owner != e.programId then Err(AccountOwnedByWrongProgram)
          else if m.ownerSetSeqno != t.ownerSetSeqno then Err(InvalidOwnerSetSequenceNumber)
          else if !approver.isSigner then Err(ApproverNotSigner)
          else if !tx.isWritable then Err(ImmutableTransactionAccount)
          else if t.multisig != ms.pubkey then Err(InvalidTransactionAccount)
          else
            match Position(m.owners, approver.pubkey)
            case None => Err(InvalidOwner)
            case Some(i) =>
              if i >= |t.signers| then Err(IndexOutOfRange)
              else Ok(PutData(e, s, tx.pubkey, TransactionData(t.(signers := t.signers[i := true]))))
  }

  // ----- execute_transaction -----

  /** What validation hands to the batch: the derived signer, the transaction and the two accounts of the close. */
  datatype Validated = Validated(signer: Pubkey, account: Pubkey, refundee: Pubkey, multisig: Multisig, transaction: Transaction)

  function ValidateExecute(e: Env, s: Accounts, metas: seq<AccountMeta>): Result<Validated, Error> {
    if |metas| < 5 then Err(NotEnoughAccountKeys)
    else
      var ms, signer, tx, refundee, executor := metas[0], metas[1], metas[2], metas[3], metas[4];
      if Get(e, s, ms.pubkey).owner != e.programId then Err(AccountOwnedByWrongProgram)
      else if Get(e, s, tx.pubkey).owner != e.programId then Err(AccountOwnedByWrongProgram)
      else
        match ExpectMultisig(Get(e, s, ms.pubkey).data)
        case Err(x) => Err(x)
        case Ok(m) =>
          match ExpectTransaction(Get(e, s, tx.pubkey).data)
          case Err(x) => Err(x)
          case Ok(t) =>
            if !(executor.isSigner && executor.pubkey in m.owners) then Err(InvalidExecutor)
            else if m.ownerSetSeqno != t.ownerSetSeqno then Err(InvalidOwnerSetSequenceNumber)
            else if ValidatePda(e, signer.pubkey, ms.pubkey, m.nonce).Some? then Err(InvalidSeeds)
            else if !tx.isWritable then Err(ImmutableTransactionAccount)
            else if t.multisig != ms.pubkey then Err(InvalidTransactionAccount)
            else if refundee.pubkey == tx.pubkey then Err(InvalidRefundeeAccount)
            else if !refundee.isWritable then Err(ImmutableRefundeeAccount)
            else if AsU8(CountTrue(t.signers)) < m.threshold then Err(NotEnoughSigners)
            else Ok(Validated(signer.pubkey, tx.pubkey, refundee.pubkey, m, t))
  }

  /** From<&TransactionInstructionAccount> for AccountMeta. */
  function ToMeta(a: TransactionInstructionAccount): AccountMeta {
    AccountMeta(a.pubkey, a.isSigner, a.isWritable)
  }

  /** The stored instruction as a runtime call, the derived address marked as a signer wherever it occurs. */
  function ToInvocation(ix: TransactionInstructionData, signer: Pubkey): Invocation {
    Invocation(
      ix.programId,
      seq(|ix.accounts|, i requires 0 <= i < |ix.accounts| =>
        var meta := ToMeta(ix.accounts[i]);
        if meta.pubkey == signer then meta.(isSigner := true) else meta),
      ix.data)
  }

  /**
   * The runtime's check of a nested call: the called program and every account must have been passed
   * to the caller, a signer must have signed the caller or be the derived address, a writable account
   * must have been writable in the caller.
   */
  function CheckPrivileges(caller: seq<AccountMeta>, signer: Pubkey, call: Invocation): Option<Error> {
    if !Passed(caller, call.programId) then Some(MissingAccount)
    else if exists i | 0 <= i < |call.accounts| :: !Passed(caller, call.accounts[i].pubkey) then Some(MissingAccount)
    else if exists i | 0 <= i < |call.accounts| :: !Granted(caller, signer, call.accounts[i]) then Some(PrivilegeEscalation)
    else None
  }

  predicate Passed(caller: seq<AccountMeta>, k: Pubkey) {
    exists j | 0 <= j < |caller| :: caller[j].pubkey == k
  }

  predicate Granted(caller: seq<AccountMeta>, signer: Pubkey, a: AccountMeta) {
    && (a.isSigner ==> a.pubkey == signer || SignedBy(caller, a.pubkey))
    && (a.isWritable ==> exists j | 0 <= j < |caller| :: caller[j].pubkey == a.pubkey && caller[j].isWritable)
  }

  predicate SignedBy(metas: seq<AccountMeta>, k: Pubkey) {
    exists j | 0 <= j < |metas| :: metas[j].pubkey == k && metas[j].isSigner
  }

  /**
   * What another program may do to the accounts, one effect at a time: move lamports out of an account
   * that is not this program's into any account, or rewrite an account that is not this program's. It may
   * give such an account to this program, but only zero-filled.
   */
  datatype Effect =
    | Move(from: Pubkey, to: Pubkey, amount: nat)
    | Rewrite(account: Pubkey, owner: Pubkey, bytes: seq<u8>)

  function ApplyEffect(e: Env, s: Accounts, f: Effect): Step {
    match f
    case Move(from, to, amount) =>
      var a := Get(e, s, from);
      if a.owner == e.programId || a.lamports < amount then Err(ExternalFailure)
      else
        var s1 := s[from := a.(lamports := a.lamports - amount)];
        Ok(s1[to := Get(e, s1, to).(lamports := Get(e, s1, to).lamports + amount)])
    case Rewrite(k, owner, bytes) =>
      if Get(e, s, k).owner == e.programId || (owner == e.programId && !Zeroed(bytes)) then Err(ExternalFailure)
      else Ok(s[k := Account(owner, Get(e, s, k).lamports, Plain(bytes))])
  }

  function ApplyEffects(e: Env, s: Accounts, fs: seq<Effect>): Step
    decreases |fs|
  {
    if fs == [] then Ok(s)
    else
      match ApplyEffect(e, s, fs[0])
      case Err(x) => Err(x)
      case Ok(s1) => ApplyEffects(e, s1, fs[1..])
  }

  /** The answer of each external call of a batch, in order: what it did, or None when it failed. */
  type Outcomes = seq<Option<seq<Effect>>>

  function External(e: Env, s: Accounts, outcomes: Outcomes): Step {
    if outcomes == [] || outcomes[0].None? then Err(ExternalFailure)
    else ApplyEffects(e, s, outcomes[0].value)
  }

  /** A nested call of this program, restricted to the administrative instructions. */
  function Admin(e: Env, s: Accounts, metas: seq<AccountMeta>, i: MultisigInstruction): Step {
    match i
    case SetOwners(owners) => SetOwnersStep(e, s, metas, owners)
    case ChangeThreshold(threshold) => ChangeThresholdStep(e, s, metas, threshold)
    case SetOwnersAndChangeThreshold(owners, threshold) => SetOwnersAndChangeThresholdStep(e, s, metas, owners, threshold)
    case _ => Err(SelfCallNotModelled)
  }

  function Nested(e: Env, s: Accounts, call: Invocation): Step {
    match DecodeInstruction(call.data)
    case None => Err(InvalidInstructionData)
    case Some(i) => Admin(e, s, call.accounts, i)
  }

  /** invoke_signed on one stored instruction. */
  function InvokeSigned(e: Env, s: Accounts, metas: seq<AccountMeta>, signer: Pubkey, ix: TransactionInstructionData, outcomes: Outcomes): Step {
    var call := ToInvocation(ix, signer);
    match CheckPrivileges(metas, signer, call)
    case Some(x) => Err(x)
    case None => if call.programId == e.programId then Nested(e, s, call) else External(e, s, outcomes)
  }

  /** The answers left after one stored instruction: an external call uses one. */
  function Rest(e: Env, ix: TransactionInstructionData, outcomes: Outcomes): Outcomes {
    if ix.programId == e.programId || outcomes == [] then outcomes else outcomes[1..]
  }

  /** The stored instructions from left to right, stopping at the first failure. */
  function RunBatch(e: Env, s: Accounts, metas: seq<AccountMeta>, signer: Pubkey,
                    ixs: seq<TransactionInstructionData>, outcomes: Outcomes): Step
    decreases |ixs|
  {
    if ixs == [] then Ok(s)
    else
      match InvokeSigned(e, s, metas, signer, ixs[0], outcomes)
      case Err(x) => Err(x)
      case Ok(s1) => RunBatch(e, s1, metas, signer, ixs[1..], Rest(e, ixs[0], outcomes))
  }

  function ExecuteStep(e: Env, s: Accounts, metas: seq<AccountMeta>, outcomes: Outcomes): Step {
    match ValidateExecute(e, s, metas)
    case Err(x) => Err(x)
    case Ok(v) =>
      match RunBatch(e, s, metas, v.signer, v.transaction.instructions, outcomes)
      case Err(x) => Err(x)
      case Ok(s1) => CloseAccount(e, s1, v.account, v.refundee)
  }

  // ----- cancel_transaction -----

  function ValidateCancel(e: Env, s: Accounts, metas: seq<AccountMeta>): Option<Error> {
    if |metas| < 4 then Some(NotEnoughAccountKeys)
    else
      var ms, tx, refundee, executor := metas[0], metas[1], metas[2], metas[3];
      if Get(e, s, ms.pubkey).owner != e.programId then Some(AccountOwnedByWrongProgram)
      else if Get(e, s, tx.pubkey).owner != e.programId then Some(AccountOwnedByWrongProgram)
      else
        match ExpectMultisig(Get(e, s, ms.pubkey).data)
        case Err(x) => Some(x)
        case Ok(m) =>
          match ExpectTransaction(Get(e, s, tx.pubkey).data)
          case Err(x) => Some(x)
          case Ok(t) =>
            if !(executor.isSigner && executor.pubkey in m.owners) then Some(InvalidExecutor)
            else if m.ownerSetSeqno < t.ownerSetSeqno then Some(InvalidOwnerSetSequenceNumber)
            else if t.multisig != ms.pubkey then Some(InvalidTransactionAccount)
            else if !tx.isWritable then Some(ImmutableTransactionAccount)
            else if refundee.pubkey == tx.pubkey then Some(InvalidRefundeeAccount)
            else if !refundee.isWritable then Some(ImmutableRefundeeAccount)
            else None
  }

  function CancelStep(e: Env, s: Accounts, metas: seq<AccountMeta>): Step {
    match ValidateCancel(e, s, metas)
    case Some(x) => Err(x)
    case None => CloseAccount(e, s, metas[1].pubkey, metas[2].pubkey)
  }

  // ----- dispatch (processor.rs) -----

  function Dispatch(e: Env, s: Accounts, metas: seq<AccountMeta>, i: MultisigInstruction, outcomes: Outcomes): Step {
    match i
    case CreateMultisig(owners, threshold, nonce) => CreateMultisigStep(e, s, metas, owners, threshold, nonce)
    case ProposeTransaction(instructions) => ProposeStep(e, s, metas, instructions)
    case ApproveTransaction => ApproveStep(e, s, metas)
    case ExecuteTransaction => ExecuteStep(e, s, metas, outcomes)
    case CancelTransaction => CancelStep(e, s, metas)
    case _ => Admin(e, s, metas, i)
  }

  function Process(e: Env, s: Accounts, metas: seq<AccountMeta>, data: seq<u8>, outcomes: Outcomes): Step {
    match DecodeInstruction(data)
    case None => Err(InvalidInstructionData)
    case Some(i) => Dispatch(e, s, metas, i, outcomes)
  }
}
