/**
 * What each handler answers, and when it accepts. For every list of accounts, the error is that of the first
 * condition that fails, in a fixed order; when all hold, the new accounts are given account by account, balances
 * included. In reachable states, where accounts read as what the program wrote, this gives for each instruction the
 * exact condition of acceptance.
 */
module Acceptance {
  import opened Machine
  import opened State
  import opened Instructions
  import opened Protocol
  import opened History
  import opened Invariant
  import opened Batch
  import opened Runs
  import opened Approvals
  import opened Authorisation
  import opened Lamports

  // ----- ordered conditions -----

  datatype Check = Check(holds: bool, error: Error)

  /** The error of the first condition that does not hold. */
  function FirstFailure(checks: seq<Check>): Option<Error> {
    if checks == [] then None
    else if !checks[0].holds then Some(checks[0].error)
    else FirstFailure(checks[1..])
  }

  lemma {:induction false} FailureOfTwo(a: seq<Check>, b: seq<Check>)
    ensures FirstFailure(a + b) == if FirstFailure(a).Some? then FirstFailure(a) else FirstFailure(b)
  {
    if a == [] {
      assert a + b == b;
    } else {
      assert (a + b)[0] == a[0] && (a + b)[1..] == a[1..] + b;
      FailureOfTwo(a[1..], b);
    }
  }

  /** The first failure among at most four conditions. */
  lemma Unrolled(c: seq<Check>)
    requires |c| <= 4
    ensures FirstFailure(c) ==
      if |c| > 0 && !c[0].holds then Some(c[0].error) else if |c| > 1 && !c[1].holds then Some(c[1].error)
      else if |c| > 2 && !c[2].holds then Some(c[2].error) else if |c| > 3 && !c[3].holds then Some(c[3].error) else None
  {
    if |c| > 0 {
      assert FirstFailure(c) == if !c[0].holds then Some(c[0].error) else FirstFailure(c[1..]);
      Unrolled3(c[1..]);
    }
  }

  lemma Unrolled3(c: seq<Check>)
    requires |c| <= 3
    ensures FirstFailure(c) ==
      if |c| > 0 && !c[0].holds then Some(c[0].error) else if |c| > 1 && !c[1].holds then Some(c[1].error)
      else if |c| > 2 && !c[2].holds then Some(c[2].error) else None
  {
    if |c| > 1 {
      assert FirstFailure(c[1..]) == if !c[1].holds then Some(c[1].error) else FirstFailure(c[1..][1..]);
      if |c| > 2 {
        assert c[1..][1..] == [c[2]];
      }
    }
  }

  /** The first failure among up to three groups of conditions. */
  lemma Groups(a: seq<Check>, b: seq<Check>, c: seq<Check>)
    ensures FirstFailure(a + b) == if FirstFailure(a).Some? then FirstFailure(a) else FirstFailure(b)
    ensures FirstFailure(a + b + c) ==
      if FirstFailure(a).Some? then FirstFailure(a) else if FirstFailure(b).Some? then FirstFailure(b) else FirstFailure(c)
  {
    FailureOfTwo(a, b);
    FailureOfTwo(a + b, c);
  }

  /** Exactly account k is replaced. */
  ghost predicate OnlyAt(e: Env, s: Accounts, s': Accounts, k: Pubkey, a: Account) {
    Get(e, s', k) == a && forall j :: j != k ==> Get(e, s', j) == Get(e, s, j)
  }

  /** The multisig and the transaction an account reads as; arbitrary where it reads as none. */
  function ReadMultisig(e: Env, s: Accounts, k: Pubkey): Multisig {
    match ExpectMultisig(Get(e, s, k).data)
    case Ok(m) => m
    case Err(_) => Multisig([], 0, 0, 0, [])
  }

  function ReadTransaction(e: Env, s: Accounts, k: Pubkey): Transaction {
    match ExpectTransaction(Get(e, s, k).data)
    case Ok(t) => t
    case Err(_) => Transaction(k, [], [], 0)
  }

  // ----- creating accounts -----

  /** What the system program asks: rights, an unused address, a plain payer with the rent, a size within bounds. */
  ghost function CreationChecks(e: Env, s: Accounts, payer: AccountMeta, target: AccountMeta, size: nat): seq<Check> {
    [Check(payer.isSigner && payer.isWritable && target.isSigner && target.isWritable, PrivilegeEscalation),
     Check(Get(e, s, target.pubkey) == Account(e.systemId, 0, Plain([])), AccountAlreadyInUse),
     Check(payer.pubkey != target.pubkey && Get(e, s, payer.pubkey).owner == e.systemId
           && Get(e, s, payer.pubkey).data == Plain([]) && Get(e, s, payer.pubkey).lamports >= e.rent(size), InsufficientFunds),
     Check(size <= 10240, InvalidDataLength)]
  }

  /** The new account holds exactly the rent of its size, the payer exactly that much less, nobody else is touched. */
  ghost predicate Paid(e: Env, s: Accounts, s': Accounts, payer: Pubkey, target: Pubkey, size: nat, d: Data) {
    && payer != target && Get(e, s, payer).lamports >= e.rent(size)
    && Get(e, s', target) == Account(e.programId, e.rent(size), d)
    && Get(e, s', payer) == Get(e, s, payer).(lamports := Get(e, s, payer).lamports - e.rent(size))
    && forall k :: k != payer && k != target ==> Get(e, s', k) == Get(e, s, k)
  }

  lemma CreationAnswer(e: Env, s: Accounts, payer: AccountMeta, target: AccountMeta, d: Data)
    ensures var n := SizeOf(d);
      match CreateAccount(e, s, payer, target, e.rent(n), d)
      case Err(x) => FirstFailure(CreationChecks(e, s, payer, target, n)) == Some(x)
      case Ok(s') => FirstFailure(CreationChecks(e, s, payer, target, n)) == None
                     && Paid(e, s, s', payer.pubkey, target.pubkey, n, d)
  {
    hide SizeOf;
    Unrolled(CreationChecks(e, s, payer, target, SizeOf(d)));
  }

  // ----- create_multisig -----

  ghost function FoundingChecks(e: Env, metas: seq<AccountMeta>, owners: seq<Pubkey>, threshold: u8, nonce: u8): seq<Check>
    requires |metas| >= 4
  {
    [Check(metas[3].pubkey == e.systemId, IncorrectProgramId),
     Check(Distinct(owners), UniqueOwners),
     Check(1 <= threshold <= |owners| % 256, InvalidThreshold),
     Check(e.pda(metas[0].pubkey, nonce) == Some(metas[1].pubkey), InvalidSeeds)]
  }

  ghost function CreateChecks(e: Env, s: Accounts, metas: seq<AccountMeta>, owners: seq<Pubkey>, threshold: u8, nonce: u8): seq<Check>
    requires |metas| >= 4
  {
    FoundingChecks(e, metas, owners, threshold, nonce) + CreationChecks(e, s, metas[2], metas[0], 14 + 32 * |owners|)
  }

  /** create_multisig: the first error, or a new account with exactly the given configuration and its exact rent. */
  lemma CreateAnswer(e: Env, s: Accounts, metas: seq<AccountMeta>, owners: seq<Pubkey>, threshold: u8, nonce: u8)
    ensures |metas| < 4 ==> CreateMultisigStep(e, s, metas, owners, threshold, nonce) == Err(NotEnoughAccountKeys)
    ensures |metas| >= 4 ==>
      match CreateMultisigStep(e, s, metas, owners, threshold, nonce)
      case Err(x) => FirstFailure(CreateChecks(e, s, metas, owners, threshold, nonce)) == Some(x)
      case Ok(s') => FirstFailure(CreateChecks(e, s, metas, owners, threshold, nonce)) == None
                     && Paid(e, s, s', metas[2].pubkey, metas[0].pubkey, 14 + 32 * |owners|,
                             MultisigData(Multisig(owners, threshold, nonce, 0, [])))
  {
    if |metas| >= 4 {
      hide CreateAccount, CreationChecks, Paid, AllUnique, Distinct, FirstFailure;
      UniqueIsDistinct(owners);
      CreationAnswer(e, s, metas[2], metas[0], MultisigData(Multisig(owners, threshold, nonce, 0, [])));
      FailureOfTwo(FoundingChecks(e, metas, owners, threshold, nonce), CreationChecks(e, s, metas[2], metas[0], 14 + 32 * |owners|));
      Unrolled(FoundingChecks(e, metas, owners, threshold, nonce));
    }
  }

  // ----- propose_transaction -----

  ghost function ProposingChecks(e: Env, s: Accounts, metas: seq<AccountMeta>, ixs: seq<TransactionInstructionData>): seq<Check>
    requires |metas| >= 5
  {
    [Check(Get(e, s, metas[0].pubkey).owner == e.programId, AccountOwnedByWrongProgram),
     Check(metas[4].pubkey == e.systemId, IncorrectProgramId),
     Check(metas[2].isSigner, ProposerNotSigner),
     Check(ixs != [], MissingInstructions)]
  }

  ghost function ProposerChecks(e: Env, s: Accounts, metas: seq<AccountMeta>): seq<Check>
    requires |metas| >= 5
  {
    [Check(ExpectMultisig(Get(e, s, metas[0].pubkey).data).Ok?, MalformedMultisigAccount),
     Check(metas[2].pubkey in ReadMultisig(e, s, metas[0].pubkey).owners, InvalidOwner)]
  }

  /** The proposal: one flag per owner, set at the proposer's first place alone. */
  ghost function Proposed(e: Env, s: Accounts, metas: seq<AccountMeta>, ixs: seq<TransactionInstructionData>): Transaction
    requires |metas| >= 5
  {
    var m := ReadMultisig(e, s, metas[0].pubkey);
    Transaction(metas[0].pubkey, ixs,
      seq(|m.owners|, i requires 0 <= i < |m.owners| => m.owners[i] == metas[2].pubkey && metas[2].pubkey !in m.owners[..i]),
      m.ownerSetSeqno)
  }

  ghost function ProposeChecks(e: Env, s: Accounts, metas: seq<AccountMeta>, ixs: seq<TransactionInstructionData>): seq<Check>
    requires |metas| >= 5
  {
    ProposingChecks(e, s, metas, ixs) + ProposerChecks(e, s, metas)
    + CreationChecks(e, s, metas[3], metas[1], Proposed(e, s, metas, ixs).Len())
  }

  lemma FirstPlaceOnly(owners: seq<Pubkey>, o: Pubkey)
    requires o in owners
    ensures FirstApproval(owners, Position(owners, o).value)
         == seq(|owners|, i requires 0 <= i < |owners| => owners[i] == o && o !in owners[..i])
  {
    var p := Position(owners, o).value;
    var a := FirstApproval(owners, p);
    forall i | 0 <= i < |owners| ensures a[i] <==> owners[i] == o && o !in owners[..i] {
      if i < p {
        assert owners[i] in owners[..p];
      } else if i > p {
        assert owners[..i][p] == o;
      }
    }
  }

  lemma ProposeUnfolds(e: Env, s: Accounts, metas: seq<AccountMeta>, ixs: seq<TransactionInstructionData>)
    requires |metas| >= 5
    ensures var a, b, t := FirstFailure(ProposingChecks(e, s, metas, ixs)), FirstFailure(ProposerChecks(e, s, metas)), Proposed(e, s, metas, ixs);
      ProposeStep(e, s, metas, ixs) ==
        if a.Some? then Err(a.value) else if b.Some? then Err(b.value)
        else CreateAccount(e, s, metas[3], metas[1], e.rent(t.Len()), TransactionData(t))
  {
    hide CreateAccount, FirstFailure, Get, FirstApproval, Proposed, ExpectMultisig;
    Unrolled(ProposingChecks(e, s, metas, ixs));
    Unrolled(ProposerChecks(e, s, metas));
    MalformedOnly(Get(e, s, metas[0].pubkey).data);
    ProposedIs(e, s, metas, ixs);
  }

  lemma ProposedIs(e: Env, s: Accounts, metas: seq<AccountMeta>, ixs: seq<TransactionInstructionData>)
    requires |metas| >= 5
    ensures var m := ReadMultisig(e, s, metas[0].pubkey);
      metas[2].pubkey in m.owners ==>
        Proposed(e, s, metas, ixs)
        == Transaction(metas[0].pubkey, ixs, FirstApproval(m.owners, Position(m.owners, metas[2].pubkey).value), m.ownerSetSeqno)
  {
    hide ReadMultisig, FirstApproval;
    var m := ReadMultisig(e, s, metas[0].pubkey);
    if metas[2].pubkey in m.owners {
      FirstPlaceOnly(m.owners, metas[2].pubkey);
    }
  }

  lemma MalformedOnly(d: Data)
    ensures ExpectMultisig(d).Err? ==> ExpectMultisig(d) == Err(MalformedMultisigAccount)
    ensures ExpectTransaction(d).Err? ==> ExpectTransaction(d) == Err(MalformedTransactionAccount)
  {
    hide DecodeMultisig, DecodeTransaction, EncodeMultisig, EncodeTransaction;
  }

  /** propose_transaction: the first error, or a new account with exactly the proposal and its exact rent. */
  lemma ProposeAnswer(e: Env, s: Accounts, metas: seq<AccountMeta>, ixs: seq<TransactionInstructionData>)
    ensures |metas| < 5 ==> ProposeStep(e, s, metas, ixs) == Err(NotEnoughAccountKeys)
    ensures |metas| >= 5 ==>
      match ProposeStep(e, s, metas, ixs)
      case Err(x) => FirstFailure(ProposeChecks(e, s, metas, ixs)) == Some(x)
      case Ok(s') => FirstFailure(ProposeChecks(e, s, metas, ixs)) == None
                     && Paid(e, s, s', metas[3].pubkey, metas[1].pubkey, Proposed(e, s, metas, ixs).Len(),
                             TransactionData(Proposed(e, s, metas, ixs)))
  {
    if |metas| >= 5 {
      ProposeUnfolds(e, s, metas, ixs);
      hide ProposeStep, CreateAccount, CreationChecks, Paid, FirstFailure, ProposingChecks, ProposerChecks, Proposed;
      var t := Proposed(e, s, metas, ixs);
      CreationAnswer(e, s, metas[3], metas[1], TransactionData(t));
      Groups(ProposingChecks(e, s, metas, ixs), ProposerChecks(e, s, metas), CreationChecks(e, s, metas[3], metas[1], t.Len()));
    }
  }

  // ----- approve_transaction -----

  ghost function ApproveChecks(e: Env, s: Accounts, metas: seq<AccountMeta>): seq<Check>
    requires |metas| >= 3
  {
    ReadingChecks(e, s, metas[0].pubkey, metas[1].pubkey) + OwnershipChecks(e, s, metas[0].pubkey, metas[1].pubkey)
    + ApproverChecks(e, s, metas) + ApproverPlaceChecks(e, s, metas)
  }

  ghost function ReadingChecks(e: Env, s: Accounts, q: Pubkey, x: Pubkey): seq<Check> {
    [Check(ExpectMultisig(Get(e, s, q).data).Ok?, MalformedMultisigAccount),
     Check(ExpectTransaction(Get(e, s, x).data).Ok?, MalformedTransactionAccount)]
  }

  ghost function OwnershipChecks(e: Env, s: Accounts, q: Pubkey, x: Pubkey): seq<Check> {
    [Check(Get(e, s, q).owner == e.programId, AccountOwnedByWrongProgram),
     Check(Get(e, s, x).owner == e.programId, AccountOwnedByWrongProgram)]
  }

  ghost function ApproverChecks(e: Env, s: Accounts, metas: seq<AccountMeta>): seq<Check>
    requires |metas| >= 3
  {
    var m, t := ReadMultisig(e, s, metas[0].pubkey), ReadTransaction(e, s, metas[1].pubkey);
    [Check(m.ownerSetSeqno == t.ownerSetSeqno, InvalidOwnerSetSequenceNumber),
     Check(metas[2].isSigner, ApproverNotSigner),
     Check(metas[1].isWritable, ImmutableTransactionAccount),
     Check(t.multisig == metas[0].pubkey, InvalidTransactionAccount)]
  }

  ghost function ApproverPlaceChecks(e: Env, s: Accounts, metas: seq<AccountMeta>): seq<Check>
    requires |metas| >= 3
  {
    var m, t := ReadMultisig(e, s, metas[0].pubkey), ReadTransaction(e, s, metas[1].pubkey);
    [Check(metas[2].pubkey in m.owners, InvalidOwner),
     Check(metas[2].pubkey in m.owners ==> Position(m.owners, metas[2].pubkey).value < |t.signers|, IndexOutOfRange)]
  }

  /** The transaction with the approver's flag set. */
  ghost function Approved(e: Env, s: Accounts, metas: seq<AccountMeta>): Transaction
    requires |metas| >= 3
  {
    var m, t := ReadMultisig(e, s, metas[0].pubkey), ReadTransaction(e, s, metas[1].pubkey);
    t.(signers := seq(|t.signers|, i requires 0 <= i < |t.signers| =>
      t.signers[i] || (i < |m.owners| && m.owners[i] == metas[2].pubkey && metas[2].pubkey !in m.owners[..i])))
  }

  lemma OneFlag(owners: seq<Pubkey>, signers: seq<bool>, o: Pubkey)
    requires o in owners && Position(owners, o).value < |signers|
    ensures signers[Position(owners, o).value := true]
         == seq(|signers|, i requires 0 <= i < |signers| => signers[i] || (i < |owners| && owners[i] == o && o !in owners[..i]))
  {
    var p := Position(owners, o).value;
    forall i | 0 <= i < |signers| && i != p ensures !(i < |owners| && owners[i] == o && o !in owners[..i]) {
      if i < p {
        assert owners[i] in owners[..p];
      } else if i < |owners| {
        assert owners[..i][p] == o;
      }
    }
  }

  lemma ApproveUnfolds(e: Env, s: Accounts, metas: seq<AccountMeta>)
    requires |metas| >= 3
    ensures var a := FirstFailure(ReadingChecks(e, s, metas[0].pubkey, metas[1].pubkey));
      var b := FirstFailure(OwnershipChecks(e, s, metas[0].pubkey, metas[1].pubkey));
      var c, d := FirstFailure(ApproverChecks(e, s, metas)), FirstFailure(ApproverPlaceChecks(e, s, metas));
      ApproveStep(e, s, metas) ==
        if a.Some? then Err(a.value) else if b.Some? then Err(b.value) else if c.Some? then Err(c.value) else if d.Some? then Err(d.value)
        else Ok(PutData(e, s, metas[1].pubkey, TransactionData(Approved(e, s, metas))))
  {
    hide FirstFailure, Get, PutData, Approved, ExpectMultisig, ExpectTransaction;
    Unrolled(ReadingChecks(e, s, metas[0].pubkey, metas[1].pubkey));
    Unrolled(OwnershipChecks(e, s, metas[0].pubkey, metas[1].pubkey));
    Unrolled(ApproverChecks(e, s, metas));
    Unrolled(ApproverPlaceChecks(e, s, metas));
    MalformedOnly(Get(e, s, metas[0].pubkey).data);
    MalformedOnly(Get(e, s, metas[1].pubkey).data);
    ApprovedIs(e, s, metas);
  }

  lemma ApprovedIs(e: Env, s: Accounts, metas: seq<AccountMeta>)
    requires |metas| >= 3
    ensures var m, t := ReadMultisig(e, s, metas[0].pubkey), ReadTransaction(e, s, metas[1].pubkey);
      metas[2].pubkey in m.owners && Position(m.owners, metas[2].pubkey).value < |t.signers| ==>
        Approved(e, s, metas) == t.(signers := t.signers[Position(m.owners, metas[2].pubkey).value := true])
  {
    hide ReadMultisig, ReadTransaction;
    var m, t := ReadMultisig(e, s, metas[0].pubkey), ReadTransaction(e, s, metas[1].pubkey);
    if metas[2].pubkey in m.owners && Position(m.owners, metas[2].pubkey).value < |t.signers| {
      OneFlag(m.owners, t.signers, metas[2].pubkey);
    }
  }

  lemma PutIsOnlyAt(e: Env, s: Accounts, k: Pubkey, d: Data)
    ensures OnlyAt(e, s, PutData(e, s, k, d), k, Get(e, s, k).(data := d))
  {
  }

  /** approve_transaction: the first error, or exactly one flag set in one account. */
  lemma ApproveAnswer(e: Env, s: Accounts, metas: seq<AccountMeta>)
    ensures |metas| < 3 ==> ApproveStep(e, s, metas) == Err(NotEnoughAccountKeys)
    ensures |metas| >= 3 ==>
      match ApproveStep(e, s, metas)
      case Err(x) => FirstFailure(ApproveChecks(e, s, metas)) == Some(x)
      case Ok(s') => FirstFailure(ApproveChecks(e, s, metas)) == None
                     && OnlyAt(e, s, s', metas[1].pubkey, Get(e, s, metas[1].pubkey).(data := TransactionData(Approved(e, s, metas))))
  {
    if |metas| >= 3 {
      ApproveUnfolds(e, s, metas);
      hide ApproveStep, FirstFailure, ReadingChecks, OwnershipChecks, ApproverChecks, ApproverPlaceChecks, Approved, PutData, OnlyAt;
      Groups(ReadingChecks(e, s, metas[0].pubkey, metas[1].pubkey), OwnershipChecks(e, s, metas[0].pubkey, metas[1].pubkey), ApproverChecks(e, s, metas));
      FailureOfTwo(ReadingChecks(e, s, metas[0].pubkey, metas[1].pubkey) + OwnershipChecks(e, s, metas[0].pubkey, metas[1].pubkey)
        + ApproverChecks(e, s, metas), ApproverPlaceChecks(e, s, metas));
      PutIsOnlyAt(e, s, metas[1].pubkey, TransactionData(Approved(e, s, metas)));
    }
  }

  // ----- execute_transaction -----

  ghost function ExecutorChecks(e: Env, s: Accounts, metas: seq<AccountMeta>): seq<Check>
    requires |metas| >= 5
  {
    var m, t := ReadMultisig(e, s, metas[0].pubkey), ReadTransaction(e, s, metas[2].pubkey);
    [Check(metas[4].isSigner && metas[4].pubkey in m.owners, InvalidExecutor),
     Check(m.ownerSetSeqno == t.ownerSetSeqno, InvalidOwnerSetSequenceNumber),
     Check(e.pda(metas[0].pubkey, m.nonce) == Some(metas[1].pubkey), InvalidSeeds),
     Check(metas[2].isWritable, ImmutableTransactionAccount)]
  }

  ghost function RefundChecks(e: Env, s: Accounts, metas: seq<AccountMeta>): seq<Check>
    requires |metas| >= 5
  {
    var m, t := ReadMultisig(e, s, metas[0].pubkey), ReadTransaction(e, s, metas[2].pubkey);
    [Check(t.multisig == metas[0].pubkey, InvalidTransactionAccount),
     Check(metas[3].pubkey != metas[2].pubkey, InvalidRefundeeAccount),
     Check(metas[3].isWritable, ImmutableRefundeeAccount),
     Check(CountTrue(t.signers) % 256 >= m.threshold, NotEnoughSigners)]
  }

  ghost function ExecuteChecks(e: Env, s: Accounts, metas: seq<AccountMeta>): seq<Check>
    requires |metas| >= 5
  {
    OwnershipChecks(e, s, metas[0].pubkey, metas[2].pubkey) + ReadingChecks(e, s, metas[0].pubkey, metas[2].pubkey)
    + ExecutorChecks(e, s, metas) + RefundChecks(e, s, metas)
  }

  lemma ValidateUnfolds(e: Env, s: Accounts, metas: seq<AccountMeta>)
    requires |metas| >= 5
    ensures var a := FirstFailure(OwnershipChecks(e, s, metas[0].pubkey, metas[2].pubkey));
      var b := FirstFailure(ReadingChecks(e, s, metas[0].pubkey, metas[2].pubkey));
      var c, d := FirstFailure(ExecutorChecks(e, s, metas)), FirstFailure(RefundChecks(e, s, metas));
      ValidateExecute(e, s, metas) ==
        if a.Some? then Err(a.value) else if b.Some? then Err(b.value) else if c.Some? then Err(c.value) else if d.Some? then Err(d.value)
        else Ok(Validated(metas[1].pubkey, metas[2].pubkey, metas[3].pubkey,
                          ReadMultisig(e, s, metas[0].pubkey), ReadTransaction(e, s, metas[2].pubkey)))
  {
    hide FirstFailure, Get, CountTrue, ExpectMultisig, ExpectTransaction;
    Unrolled(OwnershipChecks(e, s, metas[0].pubkey, metas[2].pubkey));
    Unrolled(ReadingChecks(e, s, metas[0].pubkey, metas[2].pubkey));
    Unrolled(ExecutorChecks(e, s, metas));
    Unrolled(RefundChecks(e, s, metas));
    MalformedOnly(Get(e, s, metas[0].pubkey).data);
    MalformedOnly(Get(e, s, metas[2].pubkey).data);
  }

  /** execute_transaction's checks: the first error, or the derived signer, both accounts and what they read as. */
  lemma ValidateAnswer(e: Env, s: Accounts, metas: seq<AccountMeta>)
    ensures |metas| < 5 ==> ValidateExecute(e, s, metas) == Err(NotEnoughAccountKeys)
    ensures |metas| >= 5 ==>
      match ValidateExecute(e, s, metas)
      case Err(x) => FirstFailure(ExecuteChecks(e, s, metas)) == Some(x)
      case Ok(v) => FirstFailure(ExecuteChecks(e, s, metas)) == None
                    && v == Validated(metas[1].pubkey, metas[2].pubkey, metas[3].pubkey,
                                      ReadMultisig(e, s, metas[0].pubkey), ReadTransaction(e, s, metas[2].pubkey))
  {
    if |metas| >= 5 {
      ValidateUnfolds(e, s, metas);
      hide ValidateExecute, FirstFailure, ReadingChecks, OwnershipChecks, ExecutorChecks, RefundChecks, ReadMultisig, ReadTransaction;
      Groups(OwnershipChecks(e, s, metas[0].pubkey, metas[2].pubkey), ReadingChecks(e, s, metas[0].pubkey, metas[2].pubkey), ExecutorChecks(e, s, metas));
      FailureOfTwo(OwnershipChecks(e, s, metas[0].pubkey, metas[2].pubkey) + ReadingChecks(e, s, metas[0].pubkey, metas[2].pubkey)
        + ExecutorChecks(e, s, metas), RefundChecks(e, s, metas));
    }
  }

  /** A close: refused when the sum leaves u64, otherwise the balance moves, the account is the system program's, no other is touched. */
  lemma CloseAnswer(e: Env, s: Accounts, x: Pubkey, r: Pubkey)
    requires x != r
    ensures var sum := Get(e, s, r).lamports + Get(e, s, x).lamports;
      match CloseAccount(e, s, x, r)
      case Err(err) => sum >= TWO_64 && err == AccountCloseFailure
      case Ok(s') => sum < TWO_64 && Get(e, s', x) == Account(e.systemId, 0, Plain([]))
                     && Get(e, s', r) == Get(e, s, r).(lamports := sum)
                     && forall k :: k != x && k != r ==> Get(e, s', k) == Get(e, s, k)
  {
  }

  /** execute_transaction: its checks, then the stored instructions, then the close; the first error of the three. */
  lemma ExecuteAnswer(e: Env, s: Accounts, metas: seq<AccountMeta>, outcomes: Outcomes)
    ensures match ValidateExecute(e, s, metas)
      case Err(x) => ExecuteStep(e, s, metas, outcomes) == Err(x)
      case Ok(v) =>
        match RunBatch(e, s, metas, metas[1].pubkey, ReadTransaction(e, s, metas[2].pubkey).instructions, outcomes)
        case Err(x) => ExecuteStep(e, s, metas, outcomes) == Err(x)
        case Ok(s1) => ExecuteStep(e, s, metas, outcomes) == CloseAccount(e, s1, metas[2].pubkey, metas[3].pubkey)
  {
    hide ValidateExecute, RunBatch, CloseAccount, ReadTransaction, ReadMultisig, ExecuteChecks, FirstFailure;
    ValidateAnswer(e, s, metas);
  }

  // ----- cancel_transaction -----

  ghost function CancellerChecks(e: Env, s: Accounts, metas: seq<AccountMeta>): seq<Check>
    requires |metas| >= 4
  {
    var m, t := ReadMultisig(e, s, metas[0].pubkey), ReadTransaction(e, s, metas[1].pubkey);
    [Check(metas[3].isSigner && metas[3].pubkey in m.owners, InvalidExecutor),
     Check(t.ownerSetSeqno <= m.ownerSetSeqno, InvalidOwnerSetSequenceNumber),
     Check(t.multisig == metas[0].pubkey, InvalidTransactionAccount),
     Check(metas[1].isWritable, ImmutableTransactionAccount)]
  }

  ghost function RefundeeChecks(metas: seq<AccountMeta>): seq<Check>
    requires |metas| >= 4
  {
    [Check(metas[2].pubkey != metas[1].pubkey, InvalidRefundeeAccount),
     Check(metas[2].isWritable, ImmutableRefundeeAccount)]
  }

  ghost function CancelChecks(e: Env, s: Accounts, metas: seq<AccountMeta>): seq<Check>
    requires |metas| >= 4
  {
    OwnershipChecks(e, s, metas[0].pubkey, metas[1].pubkey) + ReadingChecks(e, s, metas[0].pubkey, metas[1].pubkey)
    + CancellerChecks(e, s, metas) + RefundeeChecks(metas)
  }

  lemma CancelUnfolds(e: Env, s: Accounts, metas: seq<AccountMeta>)
    requires |metas| >= 4
    ensures var a := FirstFailure(OwnershipChecks(e, s, metas[0].pubkey, metas[1].pubkey));
      var b := FirstFailure(ReadingChecks(e, s, metas[0].pubkey, metas[1].pubkey));
      var c, d := FirstFailure(CancellerChecks(e, s, metas)), FirstFailure(RefundeeChecks(metas));
      ValidateCancel(e, s, metas) == if a.Some? then a else if b.Some? then b else if c.Some? then c else d
  {
    hide FirstFailure, Get, ExpectMultisig, ExpectTransaction;
    Unrolled(OwnershipChecks(e, s, metas[0].pubkey, metas[1].pubkey));
    Unrolled(ReadingChecks(e, s, metas[0].pubkey, metas[1].pubkey));
    Unrolled(CancellerChecks(e, s, metas));
    Unrolled(RefundeeChecks(metas));
    MalformedOnly(Get(e, s, metas[0].pubkey).data);
    MalformedOnly(Get(e, s, metas[1].pubkey).data);
  }

  /** cancel_transaction: the first error, or the close. */
  lemma CancelAnswer(e: Env, s: Accounts, metas: seq<AccountMeta>)
    ensures |metas| < 4 ==> CancelStep(e, s, metas) == Err(NotEnoughAccountKeys)
    ensures |metas| >= 4 ==>
      match FirstFailure(CancelChecks(e, s, metas))
      case Some(x) => CancelStep(e, s, metas) == Err(x)
      case None => CancelStep(e, s, metas) == CloseAccount(e, s, metas[1].pubkey, metas[2].pubkey)
  {
    hide CloseAccount;
    if |metas| >= 4 {
      CancelUnfolds(e, s, metas);
      hide ValidateCancel, FirstFailure, ReadingChecks, OwnershipChecks, CancellerChecks, RefundeeChecks;
      Groups(OwnershipChecks(e, s, metas[0].pubkey, metas[1].pubkey), ReadingChecks(e, s, metas[0].pubkey, metas[1].pubkey), CancellerChecks(e, s, metas));
      FailureOfTwo(OwnershipChecks(e, s, metas[0].pubkey, metas[1].pubkey) + ReadingChecks(e, s, metas[0].pubkey, metas[1].pubkey)
        + CancellerChecks(e, s, metas), RefundeeChecks(metas));
    }
  }

  // ----- the administrative instructions -----

  ghost function AuthorityChecks(e: Env, s: Accounts, metas: seq<AccountMeta>): seq<Check>
    requires |metas| >= 2
  {
    [Check(ExpectMultisig(Get(e, s, metas[0].pubkey).data).Ok?, MalformedMultisigAccount),
     Check(Get(e, s, metas[0].pubkey).owner == e.programId, AccountOwnedByWrongProgram),
     Check(e.pda(metas[0].pubkey, ReadMultisig(e, s, metas[0].pubkey).nonce) == Some(metas[1].pubkey), InvalidSeeds),
     Check(metas[1].isSigner, MultisigSignerNotSigner)]
  }

  ghost function OwnersChecks(m: Multisig, owners: seq<Pubkey>): seq<Check> {
    [Check(Distinct(owners), UniqueOwners),
     Check(owners != [], NotEnoughOwners),
     Check(32 * |owners| <= 32 * |m.owners| + |m.padding|, TooManyOwners)]
  }

  ghost function ThresholdChecks(threshold: u8, owners: seq<Pubkey>): seq<Check> {
    [Check(1 <= threshold <= |owners| % 256, InvalidThreshold)]
  }

  /** The checks of an administrative instruction's arguments. */
  ghost function ArgumentChecks(m: Multisig, i: MultisigInstruction): seq<Check> {
    match i
    case SetOwners(owners) => OwnersChecks(m, owners)
    case ChangeThreshold(threshold) => ThresholdChecks(threshold, m.owners)
    case SetOwnersAndChangeThreshold(owners, threshold) => OwnersChecks(m, owners) + ThresholdChecks(threshold, owners)
    case _ => [Check(false, SelfCallNotModelled)]
  }

  /** The configuration with new owners: threshold clamped, number counted up, the rest of the space zero. */
  ghost function Reowned(m: Multisig, owners: seq<Pubkey>): Multisig {
    Multisig(owners, if |owners| % 256 < m.threshold then |owners| % 256 else m.threshold, m.nonce, (m.ownerSetSeqno + 1) % 0x1_0000_0000,
      seq(if 32 * |owners| <= 32 * |m.owners| + |m.padding| then 32 * |m.owners| + |m.padding| - 32 * |owners| else 0, _ => 0))
  }

  /** The configuration an administrative instruction describes. */
  ghost function Target(m: Multisig, i: MultisigInstruction): Multisig {
    match i
    case SetOwners(owners) => Reowned(m, owners)
    case ChangeThreshold(threshold) => m.(threshold := threshold)
    case SetOwnersAndChangeThreshold(owners, threshold) => Reowned(m, owners).(threshold := threshold)
    case _ => m
  }

  lemma RefusalIs(m: Multisig, i: MultisigInstruction)
    ensures Refusal(m, i) == FirstFailure(ArgumentChecks(m, i))
    ensures Refusal(m, i).None? ==> Changed(m, i) == Target(m, i)
  {
    hide AllUnique, Distinct, FirstFailure;
    match i
    case SetOwners(owners) =>
      UniqueIsDistinct(owners);
      Unrolled(OwnersChecks(m, owners));
    case ChangeThreshold(threshold) => Unrolled(ThresholdChecks(threshold, m.owners));
    case SetOwnersAndChangeThreshold(owners, threshold) =>
      UniqueIsDistinct(owners);
      Unrolled(OwnersChecks(m, owners));
      Unrolled(ThresholdChecks(threshold, owners));
      FailureOfTwo(OwnersChecks(m, owners), ThresholdChecks(threshold, owners));
    case _ => Unrolled([Check(false, SelfCallNotModelled)]);
  }

  lemma AuthoriseIs(e: Env, s: Accounts, metas: seq<AccountMeta>)
    ensures |metas| < 2 ==> Authorise(e, s, metas) == Err(NotEnoughAccountKeys)
    ensures |metas| >= 2 ==>
      Authorise(e, s, metas) == match FirstFailure(AuthorityChecks(e, s, metas))
        case Some(x) => Err(x)
        case None => Ok(ReadMultisig(e, s, metas[0].pubkey))
  {
    if |metas| >= 2 {
      hide FirstFailure, Get;
      Unrolled(AuthorityChecks(e, s, metas));
      MalformedOnly(Get(e, s, metas[0].pubkey).data);
      hide ExpectMultisig;
    }
  }

  /**
   * The three administrative instructions: the first error of authority and arguments, or exactly the described
   * configuration in exactly the named account.
   */
  lemma AdminAnswer(e: Env, s: Accounts, metas: seq<AccountMeta>, i: MultisigInstruction)
    requires i.SetOwners? || i.ChangeThreshold? || i.SetOwnersAndChangeThreshold?
    ensures |metas| < 2 ==> Admin(e, s, metas, i) == Err(NotEnoughAccountKeys)
    ensures |metas| >= 2 ==>
      var m := ReadMultisig(e, s, metas[0].pubkey);
      var checks := AuthorityChecks(e, s, metas) + ArgumentChecks(m, i);
      match Admin(e, s, metas, i)
      case Err(x) => FirstFailure(checks) == Some(x)
      case Ok(s') => FirstFailure(checks) == None
                     && OnlyAt(e, s, s', metas[0].pubkey, Get(e, s, metas[0].pubkey).(data := MultisigData(Target(m, i))))
  {
    hide Admin, Authorise, Refusal, Changed, Target, ArgumentChecks, AuthorityChecks, FirstFailure, OnlyAt, PutData, ReadMultisig;
    AdminIs(e, s, metas, i);
    AuthoriseIs(e, s, metas);
    if |metas| >= 2 {
      var m := ReadMultisig(e, s, metas[0].pubkey);
      RefusalIs(m, i);
      FailureOfTwo(AuthorityChecks(e, s, metas), ArgumentChecks(m, i));
      PutIsOnlyAt(e, s, metas[0].pubkey, MultisigData(Target(m, i)));
    }
  }

  // ----- nested calls -----

  /** What the runtime grants a nested call. */
  ghost function PrivilegeChecks(caller: seq<AccountMeta>, signer: Pubkey, call: Invocation): seq<Check> {
    [Check((exists j :: 0 <= j < |caller| && caller[j].pubkey == call.programId)
           && forall i :: 0 <= i < |call.accounts| ==> exists j :: 0 <= j < |caller| && caller[j].pubkey == call.accounts[i].pubkey,
       MissingAccount),
     Check(forall i :: 0 <= i < |call.accounts| ==>
             && (call.accounts[i].isSigner ==>
                   call.accounts[i].pubkey == signer || exists j :: 0 <= j < |caller| && caller[j].pubkey == call.accounts[i].pubkey && caller[j].isSigner)
             && (call.accounts[i].isWritable ==>
                   exists j :: 0 <= j < |caller| && caller[j].pubkey == call.accounts[i].pubkey && caller[j].isWritable),
       PrivilegeEscalation)]
  }

  lemma PrivilegesAre(caller: seq<AccountMeta>, signer: Pubkey, call: Invocation)
    ensures CheckPrivileges(caller, signer, call) == FirstFailure(PrivilegeChecks(caller, signer, call))
  {
    hide FirstFailure;
    Unrolled(PrivilegeChecks(caller, signer, call));
    hide Passed, Granted;
    PassedIs(caller, call.programId);
    forall i | 0 <= i < |call.accounts|
      ensures Passed(caller, call.accounts[i].pubkey) <==> exists j :: 0 <= j < |caller| && caller[j].pubkey == call.accounts[i].pubkey
      ensures Granted(caller, signer, call.accounts[i]) <==>
             && (call.accounts[i].isSigner ==>
                   call.accounts[i].pubkey == signer || exists j :: 0 <= j < |caller| && caller[j].pubkey == call.accounts[i].pubkey && caller[j].isSigner)
             && (call.accounts[i].isWritable ==>
                   exists j :: 0 <= j < |caller| && caller[j].pubkey == call.accounts[i].pubkey && caller[j].isWritable)
    {
      PassedIs(caller, call.accounts[i].pubkey);
      GrantedIs(caller, signer, call.accounts[i]);
    }
  }

  lemma PassedIs(caller: seq<AccountMeta>, k: Pubkey)
    ensures Passed(caller, k) <==> exists j :: 0 <= j < |caller| && caller[j].pubkey == k
  {
  }

  lemma GrantedIs(caller: seq<AccountMeta>, signer: Pubkey, a: AccountMeta)
    ensures Granted(caller, signer, a) <==>
      && (a.isSigner ==> a.pubkey == signer || exists j :: 0 <= j < |caller| && caller[j].pubkey == a.pubkey && caller[j].isSigner)
      && (a.isWritable ==> exists j :: 0 <= j < |caller| && caller[j].pubkey == a.pubkey && caller[j].isWritable)
  {
  }

  /** One stored instruction: refused rights, a nested call of this program, or the answer of another. */
  lemma InvokeAnswer(e: Env, s: Accounts, metas: seq<AccountMeta>, signer: Pubkey, ix: TransactionInstructionData, outcomes: Outcomes)
    ensures var call := ToInvocation(ix, signer);
      InvokeSigned(e, s, metas, signer, ix, outcomes) ==
        match FirstFailure(PrivilegeChecks(metas, signer, call))
        case Some(x) => Err(x)
        case None =>
          if ix.programId == e.programId then
            match DecodeInstruction(ix.data)
            case None => Err(InvalidInstructionData)
            case Some(i) =>
              if i.SetOwners? || i.ChangeThreshold? || i.SetOwnersAndChangeThreshold? then Admin(e, s, call.accounts, i)
              else Err(SelfCallNotModelled)
          else if |outcomes| > 0 && outcomes[0].Some? then ApplyEffects(e, s, outcomes[0].value)
          else Err(ExternalFailure)
  {
    hide CheckPrivileges, FirstFailure, PrivilegeChecks, DecodeInstruction, ApplyEffects, SetOwnersStep, ChangeThresholdStep, SetOwnersAndChangeThresholdStep;
    PrivilegesAre(metas, signer, ToInvocation(ix, signer));
  }

  /** One effect of another program: what it may not do, and exactly what it does. */
  lemma EffectAnswer(e: Env, s: Accounts, f: Effect)
    ensures match f
      case Move(from, to, amount) =>
        if Get(e, s, from).owner == e.programId || Get(e, s, from).lamports < amount then ApplyEffect(e, s, f) == Err(ExternalFailure)
        else
          && ApplyEffect(e, s, f).Ok?
          && var s' := ApplyEffect(e, s, f).value;
          && (from == to ==> forall k :: Get(e, s', k) == Get(e, s, k))
          && (from != to ==>
                && Get(e, s', from) == Get(e, s, from).(lamports := Get(e, s, from).lamports - amount)
                && Get(e, s', to) == Get(e, s, to).(lamports := Get(e, s, to).lamports + amount)
                && forall k :: k != from && k != to ==> Get(e, s', k) == Get(e, s, k))
      case Rewrite(k, owner, bytes) =>
        if Get(e, s, k).owner == e.programId || (owner == e.programId && exists i :: 0 <= i < |bytes| && bytes[i] != 0)
        then ApplyEffect(e, s, f) == Err(ExternalFailure)
        else
          && ApplyEffect(e, s, f).Ok?
          && OnlyAt(e, s, ApplyEffect(e, s, f).value, k, Account(owner, Get(e, s, k).lamports, Plain(bytes)))
  {
  }

  // ----- dispatch -----

  /** process_instruction: undecodable data is refused, each instruction goes to its handler. */
  lemma ProcessAnswer(e: Env, s: Accounts, metas: seq<AccountMeta>, data: seq<u8>, outcomes: Outcomes)
    ensures Process(e, s, metas, data, outcomes) ==
      match DecodeInstruction(data)
      case None => Err(InvalidInstructionData)
      case Some(CreateMultisig(owners, threshold, nonce)) => CreateMultisigStep(e, s, metas, owners, threshold, nonce)
      case Some(ProposeTransaction(ixs)) => ProposeStep(e, s, metas, ixs)
      case Some(ApproveTransaction) => ApproveStep(e, s, metas)
      case Some(ExecuteTransaction) => ExecuteStep(e, s, metas, outcomes)
      case Some(CancelTransaction) => CancelStep(e, s, metas)
      case Some(i) => Admin(e, s, metas, i)
  {
    hide DecodeInstruction, CreateMultisigStep, ProposeStep, ApproveStep, ExecuteStep, CancelStep, Admin;
  }

  // ----- acceptance in reachable states -----

  /** q and x hold a multisig and a live transaction of it. */
  predicate Belongs(e: Env, s: Accounts, q: Pubkey, x: Pubkey) {
    IsMultisig(e, s, q) && IsTransaction(e, s, x) && TransactionAt(e, s, x).multisig == q
  }

  predicate Matches(e: Env, s: Accounts, q: Pubkey, x: Pubkey) {
    Belongs(e, s, q, x) && TransactionAt(e, s, x).ownerSetSeqno == MultisigAt(e, s, q).ownerSetSeqno
  }

  /** The accounts an execution needs. Nothing is asked of other flags or of further accounts. */
  ghost predicate ExecuteReady(e: Env, s: Accounts, metas: seq<AccountMeta>) {
    && |metas| >= 5
    && Matches(e, s, metas[0].pubkey, metas[2].pubkey)
    && var m, t := MultisigAt(e, s, metas[0].pubkey), TransactionAt(e, s, metas[2].pubkey);
    && e.pda(metas[0].pubkey, m.nonce) == Some(metas[1].pubkey)
    && metas[2].isWritable
    && metas[3].pubkey != metas[2].pubkey && metas[3].isWritable
    && metas[4].isSigner && metas[4].pubkey in m.owners
    && |Approvers(m.owners, t.signers)| % 256 >= m.threshold
  }

  lemma ReadsAre(e: Env, s: Accounts, q: Pubkey, x: Pubkey)
    requires Belongs(e, s, q, x)
    ensures ExpectMultisig(Get(e, s, q).data) == Ok(MultisigAt(e, s, q)) && ReadMultisig(e, s, q) == MultisigAt(e, s, q)
    ensures ExpectTransaction(Get(e, s, x).data) == Ok(TransactionAt(e, s, x)) && ReadTransaction(e, s, x) == TransactionAt(e, s, x)
    ensures Get(e, s, q).owner == e.programId && Get(e, s, x).owner == e.programId
  {
  }

  /** For a current proposal of a reachable state, the count of flags is the number of approving owners. */
  lemma CurrentCount(e: Env, s: Accounts, h: History, q: Pubkey, x: Pubkey)
    requires Inv(e, s, h) && Matches(e, s, q, x)
    ensures CountTrue(TransactionAt(e, s, x).signers) == |Approvers(MultisigAt(e, s, q).owners, TransactionAt(e, s, x).signers)|
    ensures |TransactionAt(e, s, x).signers| == |MultisigAt(e, s, q).owners|
  {
    assert AccountOk(e, s, h, q) && AccountOk(e, s, h, x);
    hide Inv, CountTrue, Approvers;
    CountIsCardinality(MultisigAt(e, s, q).owners, TransactionAt(e, s, x).signers);
  }

  lemma ReadyPasses(e: Env, s: Accounts, h: History, metas: seq<AccountMeta>)
    requires Inv(e, s, h) && ExecuteReady(e, s, metas)
    ensures ValidateExecute(e, s, metas).Ok?
  {
    hide Inv, CountTrue, Approvers, FirstFailure, ValidateExecute, ExpectMultisig, ExpectTransaction, ReadMultisig, ReadTransaction, Get;
    hide IsMultisig, IsTransaction, MultisigAt, TransactionAt;
    ReadsAre(e, s, metas[0].pubkey, metas[2].pubkey);
    CurrentCount(e, s, h, metas[0].pubkey, metas[2].pubkey);
    ValidateUnfolds(e, s, metas);
    Unrolled(OwnershipChecks(e, s, metas[0].pubkey, metas[2].pubkey));
    Unrolled(ReadingChecks(e, s, metas[0].pubkey, metas[2].pubkey));
    Unrolled(ExecutorChecks(e, s, metas));
    Unrolled(RefundChecks(e, s, metas));
  }

  /** Exactly the ready executions pass the checks. */
  lemma ExecuteReadyIff(e: Env, s: Accounts, h: History, metas: seq<AccountMeta>)
    requires Inv(e, s, h)
    ensures ValidateExecute(e, s, metas).Ok? <==> ExecuteReady(e, s, metas)
  {
    if ExecuteReady(e, s, metas) {
      ReadyPasses(e, s, h, metas);
    }
    if ValidateExecute(e, s, metas).Ok? {
      ExecutePassedFlags(e, s, metas);
      hide Inv, ValidateExecute, CountTrue, Approvers;
      ValidatedFacts(e, s, h, metas);
      ThresholdTest(e, s, h, metas);
    }
  }

  lemma ExecutePassedFlags(e: Env, s: Accounts, metas: seq<AccountMeta>)
    requires ValidateExecute(e, s, metas).Ok?
    ensures |metas| >= 5 && metas[2].isWritable && metas[3].isWritable
    ensures ValidateExecute(e, s, metas).value.signer == metas[1].pubkey
  {
    hide ExpectMultisig, ExpectTransaction, CountTrue, Get;
  }

  /**
   * When an execution is accepted. In every state of a run, for every list of accounts and every stored list, it is
   * accepted if and only if the accounts are ready and the stored instructions run.
   */
  lemma ExecutionIsAccepted(e: Env, s0: Accounts, calls: seq<Call>, n: nat, metas: seq<AccountMeta>, outcomes: Outcomes)
    requires Run(e, s0, calls) && n <= |calls| && Total(s0) < TWO_64
    ensures var s := At(e, s0, calls, n).accounts;
      ExecuteStep(e, s, metas, outcomes).Ok? <==>
        ExecuteReady(e, s, metas)
        && RunBatch(e, s, metas, metas[1].pubkey, TransactionAt(e, s, metas[2].pubkey).instructions, outcomes).Ok?
  {
    hide Inv, Run, At, ExecuteStep, ValidateExecute, RunBatch, CloseAccount, Total, CountTrue, Approvers, ReadTransaction, ReadMultisig, Get, ExpectMultisig, ExpectTransaction;
    hide IsMultisig, IsTransaction, MultisigAt, TransactionAt;
    var w := At(e, s0, calls, n);
    Reachable(e, s0, calls, n);
    TotalAt(e, s0, calls, n);
    ExecuteReadyIff(e, w.accounts, w.history, metas);
    ExecuteAnswer(e, w.accounts, metas, outcomes);
    if ExecuteReady(e, w.accounts, metas) {
      ReadsAre(e, w.accounts, metas[0].pubkey, metas[2].pubkey);
      var ran := RunBatch(e, w.accounts, metas, metas[1].pubkey, TransactionAt(e, w.accounts, metas[2].pubkey).instructions, outcomes);
      if ran.Ok? {
        BatchConserves(e, w.accounts, metas, metas[1].pubkey, TransactionAt(e, w.accounts, metas[2].pubkey).instructions, outcomes);
        CloseMoves(e, ran.value, metas[2].pubkey, metas[3].pubkey);
      }
    }
  }

  lemma TotalAt(e: Env, s0: Accounts, calls: seq<Call>, n: nat)
    requires n <= |calls|
    ensures Total(At(e, s0, calls, n).accounts) == Total(s0)
  {
    hide Total, After;
    Conservation(e, s0, calls[..n]);
  }

  /** The accounts an approval needs. */
  predicate ApproveReady(e: Env, s: Accounts, metas: seq<AccountMeta>) {
    && |metas| >= 3
    && Matches(e, s, metas[0].pubkey, metas[1].pubkey)
    && metas[1].isWritable
    && metas[2].isSigner && metas[2].pubkey in MultisigAt(e, s, metas[0].pubkey).owners
  }

  lemma ApproverHasPlace(e: Env, s: Accounts, h: History, metas: seq<AccountMeta>)
    requires Inv(e, s, h) && ApproveReady(e, s, metas)
    ensures Position(MultisigAt(e, s, metas[0].pubkey).owners, metas[2].pubkey).value < |TransactionAt(e, s, metas[1].pubkey).signers|
  {
    hide Inv, CountTrue, Approvers;
    CurrentCount(e, s, h, metas[0].pubkey, metas[1].pubkey);
  }

  /** In a reachable state exactly the ready approvals are accepted. */
  lemma ApproveReadyIff(e: Env, s: Accounts, h: History, metas: seq<AccountMeta>)
    requires Inv(e, s, h)
    ensures ApproveStep(e, s, metas).Ok? <==> ApproveReady(e, s, metas)
  {
    hide Inv, FirstFailure, ApproveStep, ExpectMultisig, ExpectTransaction, ReadMultisig, ReadTransaction, Get, PutData, Approved;
    hide IsMultisig, IsTransaction, MultisigAt, TransactionAt;
    if ApproveReady(e, s, metas) {
      ReadsAre(e, s, metas[0].pubkey, metas[1].pubkey);
      ApproverHasPlace(e, s, h, metas);
      ApproveUnfolds(e, s, metas);
      Unrolled(ReadingChecks(e, s, metas[0].pubkey, metas[1].pubkey));
      Unrolled(OwnershipChecks(e, s, metas[0].pubkey, metas[1].pubkey));
      Unrolled(ApproverChecks(e, s, metas));
      Unrolled(ApproverPlaceChecks(e, s, metas));
    }
    if ApproveStep(e, s, metas).Ok? {
      ApprovedFacts(e, s, h, metas);
      ApprovedWritable(e, s, metas);
    }
  }

  lemma ApprovedWritable(e: Env, s: Accounts, metas: seq<AccountMeta>)
    requires ApproveStep(e, s, metas).Ok?
    ensures |metas| >= 3 && metas[1].isWritable
  {
    hide ExpectMultisig, ExpectTransaction, Get, PutData;
  }

  /** The accounts a cancellation needs: of the sequence numbers nothing is asked. */
  predicate CancelReady(e: Env, s: Accounts, metas: seq<AccountMeta>) {
    && |metas| >= 4
    && Belongs(e, s, metas[0].pubkey, metas[1].pubkey)
    && metas[1].isWritable
    && metas[2].pubkey != metas[1].pubkey && metas[2].isWritable
    && metas[3].isSigner && metas[3].pubkey in MultisigAt(e, s, metas[0].pubkey).owners
  }

  lemma NeverAhead(e: Env, s: Accounts, h: History, q: Pubkey, x: Pubkey)
    requires Inv(e, s, h) && Belongs(e, s, q, x)
    ensures TransactionAt(e, s, x).ownerSetSeqno <= MultisigAt(e, s, q).ownerSetSeqno
  {
    assert AccountOk(e, s, h, q) && AccountOk(e, s, h, x);
  }

  /** In a reachable state exactly the ready cancellations close, when the lamports fit in u64. */
  lemma CancelReadyIff(e: Env, s: Accounts, h: History, metas: seq<AccountMeta>)
    requires Inv(e, s, h) && Total(s) < TWO_64
    ensures CancelStep(e, s, metas).Ok? <==> CancelReady(e, s, metas)
  {
    hide Inv, FirstFailure, CancelStep, ValidateCancel, ExpectMultisig, ExpectTransaction, ReadMultisig, ReadTransaction, Get, CloseAccount, Total;
    hide IsMultisig, IsTransaction, MultisigAt, TransactionAt;
    if CancelReady(e, s, metas) {
      ReadsAre(e, s, metas[0].pubkey, metas[1].pubkey);
      NeverAhead(e, s, h, metas[0].pubkey, metas[1].pubkey);
      CancelUnfolds(e, s, metas);
      Unrolled(OwnershipChecks(e, s, metas[0].pubkey, metas[1].pubkey));
      Unrolled(ReadingChecks(e, s, metas[0].pubkey, metas[1].pubkey));
      Unrolled(CancellerChecks(e, s, metas));
      Unrolled(RefundeeChecks(metas));
      CloseMoves(e, s, metas[1].pubkey, metas[2].pubkey);
      CancelIs(e, s, metas);
    }
    if CancelStep(e, s, metas).Ok? {
      CancelCloses(e, s, h, metas);
      CancelledWritable(e, s, metas);
    }
  }

  lemma CancelIs(e: Env, s: Accounts, metas: seq<AccountMeta>)
    requires ValidateCancel(e, s, metas).None? && |metas| >= 4
    ensures CancelStep(e, s, metas) == CloseAccount(e, s, metas[1].pubkey, metas[2].pubkey)
  {
    hide ValidateCancel, CloseAccount;
  }

  lemma CancelledWritable(e: Env, s: Accounts, metas: seq<AccountMeta>)
    requires CancelStep(e, s, metas).Ok?
    ensures |metas| >= 4 && metas[1].isWritable && metas[2].isWritable
  {
    hide ExpectMultisig, ExpectTransaction, Get, CloseAccount;
  }

  /** The accounts a proposal needs, whatever its list. */
  ghost predicate ProposeReady(e: Env, s: Accounts, metas: seq<AccountMeta>, ixs: seq<TransactionInstructionData>) {
    && |metas| >= 5
    && IsMultisig(e, s, metas[0].pubkey)
    && metas[2].isSigner && metas[2].pubkey in MultisigAt(e, s, metas[0].pubkey).owners
    && metas[4].pubkey == e.systemId
    && FirstFailure(CreationChecks(e, s, metas[3], metas[1], 44 + SumLen(ixs) + |MultisigAt(e, s, metas[0].pubkey).owners|)).None?
  }

  lemma MultisigReads(e: Env, s: Accounts, q: Pubkey)
    requires IsMultisig(e, s, q)
    ensures ExpectMultisig(Get(e, s, q).data) == Ok(MultisigAt(e, s, q)) && ReadMultisig(e, s, q) == MultisigAt(e, s, q)
    ensures Get(e, s, q).owner == e.programId
  {
  }

  /**
   * When a proposal is accepted. In a reachable state, with the accounts ready, a list of any length is accepted exactly
   * when it is not empty, and the empty list is answered with MissingInstructions; without them no list is.
   */
  lemma ProposeReadyIff(e: Env, s: Accounts, h: History, metas: seq<AccountMeta>, ixs: seq<TransactionInstructionData>)
    requires ValidEnv(e) && Inv(e, s, h)
    ensures ProposeStep(e, s, metas, ixs).Ok? <==> ProposeReady(e, s, metas, ixs) && ixs != []
    ensures ProposeReady(e, s, metas, ixs) && ixs == [] ==> ProposeStep(e, s, metas, ixs) == Err(MissingInstructions)
  {
    hide Inv, FirstFailure, ProposeStep, ExpectMultisig, ReadMultisig, Get, CreateAccount, CreationChecks, Created, Paid;
    hide IsMultisig, MultisigAt;
    if |metas| >= 5 && (IsMultisig(e, s, metas[0].pubkey) || ProposeStep(e, s, metas, ixs).Ok?) {
      if ProposeStep(e, s, metas, ixs).Ok? {
        ProposedShape(e, s, h, metas, ixs);
      }
      MultisigReads(e, s, metas[0].pubkey);
      ProposeUnfolds(e, s, metas, ixs);
      Unrolled(ProposingChecks(e, s, metas, ixs));
      Unrolled(ProposerChecks(e, s, metas));
      CreationAnswer(e, s, metas[3], metas[1], TransactionData(Proposed(e, s, metas, ixs)));
    } else if |metas| < 5 {
      ProposeAnswer(e, s, metas, ixs);
    }
  }

  // ----- what accepted calls cost -----

  /** Every accepted creation leaves exactly the rent of 14 + 32 * |owners| bytes in the new account, at the payer's cost alone. */
  lemma FoundingCosts(e: Env, w: World, c: Call, owners: seq<Pubkey>, threshold: u8, nonce: u8)
    requires Accepted(e, w, c, CreateMultisig(owners, threshold, nonce))
    ensures |c.metas| >= 4
         && Paid(e, w.accounts, Next(e, w, c).accounts, c.metas[2].pubkey, c.metas[0].pubkey, 14 + 32 * |owners|,
                 MultisigData(Multisig(owners, threshold, nonce, 0, [])))
  {
    hide Accepted, CreateMultisigStep, Paid, Next, CreateChecks, FirstFailure;
    DispatchOf(e, w, c, CreateMultisig(owners, threshold, nonce));
    NextOfAccepted(e, w, c, CreateMultisig(owners, threshold, nonce));
    CreateAnswer(e, w.accounts, c.metas, owners, threshold, nonce);
  }

  /** Every accepted proposal leaves exactly the rent of its size in the new account, at the payer's cost alone. */
  lemma ProposalCosts(e: Env, w: World, c: Call, ixs: seq<TransactionInstructionData>)
    requires Accepted(e, w, c, ProposeTransaction(ixs))
    ensures |c.metas| >= 5
         && Paid(e, w.accounts, Next(e, w, c).accounts, c.metas[3].pubkey, c.metas[1].pubkey,
                 44 + SumLen(ixs) + |ReadMultisig(e, w.accounts, c.metas[0].pubkey).owners|,
                 TransactionData(Proposed(e, w.accounts, c.metas, ixs)))
  {
    hide Accepted, ProposeStep, Paid, Next, ProposeChecks, FirstFailure, ReadMultisig;
    DispatchOf(e, w, c, ProposeTransaction(ixs));
    NextOfAccepted(e, w, c, ProposeTransaction(ixs));
    ProposeAnswer(e, w.accounts, c.metas, ixs);
  }
}
