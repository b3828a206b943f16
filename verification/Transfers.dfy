/** Executing a call of another program: the ordinary use of a multisig, for all runs and for one run in full. */
module Transfers {
  import opened Machine
  import opened State
  import opened Instructions
  import opened Protocol
  import opened History
  import opened Invariant
  import opened Batch
  import opened Runs
  import opened Authorisation
  import opened Lamports
  import opened Acceptance
  import opened NoLockout
  import opened Limits

  /** The executing call, with the answer of the one outside call. */
  function ExecuteCall(metas: seq<AccountMeta>, effects: seq<Effect>): Call {
    Invoke(metas, EncodeInstruction(ExecuteTransaction), [Some(effects)])
  }

  /** A batch of one call of another program does what that program answers. */
  lemma OutsideBatch(e: Env, s: Accounts, metas: seq<AccountMeta>, signer: Pubkey, ix: TransactionInstructionData, effects: seq<Effect>)
    requires ix.programId != e.programId && FirstFailure(PrivilegeChecks(metas, signer, ToInvocation(ix, signer))).None?
    ensures RunBatch(e, s, metas, signer, [ix], [Some(effects)]) == ApplyEffects(e, s, effects)
  {
    hide InvokeSigned, PrivilegeChecks, FirstFailure, ApplyEffects, ToInvocation;
    BatchOfOne(e, s, metas, signer, ix, [Some(effects)]);
    InvokeAnswer(e, s, metas, signer, ix, [Some(effects)]);
  }

  lemma OneMove(e: Env, s: Accounts, from: Pubkey, to: Pubkey, amount: nat)
    requires from != to && Get(e, s, from).owner != e.programId && Get(e, s, from).lamports >= amount
    ensures ApplyEffects(e, s, [Move(from, to, amount)]).Ok?
    ensures var s' := ApplyEffects(e, s, [Move(from, to, amount)]).value;
      && Get(e, s', from) == Get(e, s, from).(lamports := Get(e, s, from).lamports - amount)
      && Get(e, s', to) == Get(e, s, to).(lamports := Get(e, s, to).lamports + amount)
      && forall k :: k != from && k != to ==> Get(e, s', k) == Get(e, s, k)
  {
    assert [Move(from, to, amount)][1..] == [];
  }

  /** Accounts after the transfer and the close. */
  ghost predicate Transferred(e: Env, s: Accounts, s': Accounts, from: Pubkey, to: Pubkey, amount: nat, x: Pubkey, r: Pubkey) {
    && Get(e, s, from).lamports >= amount
    && Get(e, s', from) == Get(e, s, from).(lamports := Get(e, s, from).lamports - amount)
    && Get(e, s', to) == Get(e, s, to).(lamports := Get(e, s, to).lamports + amount)
    && Get(e, s', x) == Account(e.systemId, 0, Plain([]))
    && Get(e, s', r) == Get(e, s, r).(lamports := Get(e, s, r).lamports + Get(e, s, x).lamports)
    && forall k :: k != from && k != to && k != x && k != r ==> Get(e, s', k) == Get(e, s, k)
  }

  lemma TransferStep(e: Env, s: Accounts, h: History, metas: seq<AccountMeta>, ix: TransactionInstructionData, to: Pubkey, amount: nat)
    requires Inv(e, s, h) && Total(s) < TWO_64 && ExecuteReady(e, s, metas)
    requires TransactionAt(e, s, metas[2].pubkey).instructions == [ix] && ix.programId != e.programId
    requires FirstFailure(PrivilegeChecks(metas, metas[1].pubkey, ToInvocation(ix, metas[1].pubkey))).None?
    requires Get(e, s, metas[1].pubkey).owner != e.programId && Get(e, s, metas[1].pubkey).lamports >= amount
    requires to != metas[1].pubkey && to != metas[2].pubkey && to != metas[3].pubkey
    requires metas[1].pubkey != metas[2].pubkey && metas[1].pubkey != metas[3].pubkey
    ensures ExecuteStep(e, s, metas, [Some([Move(metas[1].pubkey, to, amount)])]).Ok?
    ensures Transferred(e, s, ExecuteStep(e, s, metas, [Some([Move(metas[1].pubkey, to, amount)])]).value,
                        metas[1].pubkey, to, amount, metas[2].pubkey, metas[3].pubkey)
  {
    hide Inv, ExecuteStep, ValidateExecute, RunBatch, CloseAccount, Total, ApplyEffects, PrivilegeChecks, FirstFailure, ToInvocation;
    hide IsMultisig, IsTransaction, MultisigAt, TransactionAt, ReadTransaction, ReadMultisig, Get;
    var from := metas[1].pubkey;
    var outcomes := [Some([Move(from, to, amount)])];
    ReadyPasses(e, s, h, metas);
    ExecuteAnswer(e, s, metas, outcomes);
    ReadsAre(e, s, metas[0].pubkey, metas[2].pubkey);
    OutsideBatch(e, s, metas, from, ix, outcomes[0].value);
    OneMove(e, s, from, to, amount);
    var s1 := ApplyEffects(e, s, outcomes[0].value).value;
    EffectsConserve(e, s, outcomes[0].value);
    CloseMoves(e, s1, metas[2].pubkey, metas[3].pubkey);
    CloseAnswer(e, s1, metas[2].pubkey, metas[3].pubkey);
  }

  lemma OutsideRecord(e: Env, s: Accounts, h: History, metas: seq<AccountMeta>, ix: TransactionInstructionData)
    requires Inv(e, s, h) && ValidateExecute(e, s, metas).Ok? && ValidateExecute(e, s, metas).value.transaction.instructions == [ix]
    requires ix.programId != e.programId
    ensures Record(e, h, metas, ExecuteTransaction).changes == h.changes
  {
    hide Inv, ValidateExecute, Record;
    RecordOfExecute(e, s, h, metas);
    assert [ix][1..] == [];
    assert RecordBatch(e, h, [ix]) == RecordOne(e, h, ix);
  }

  lemma ExecuteIsValid(e: Env, metas: seq<AccountMeta>, effects: seq<Effect>)
    requires KeysSign(e, metas)
    ensures ValidCalls(e, [ExecuteCall(metas, effects)])
    ensures DecodeInstruction(ExecuteCall(metas, effects).data) == Some(ExecuteTransaction)
  {
    BareIsWritable();
    DecodeOfEncode(ExecuteTransaction);
    hide KeysSign, EncodeInstruction, DecodeInstruction;
  }

  lemma ExecuteIsAccepted(e: Env, w: World, metas: seq<AccountMeta>, effects: seq<Effect>)
    requires ExecuteStep(e, w.accounts, metas, [Some(effects)]).Ok?
    ensures Accepted(e, w, ExecuteCall(metas, effects), ExecuteTransaction)
  {
    BareIsWritable();
    DecodeOfEncode(ExecuteTransaction);
    hide ExecuteStep, EncodeInstruction, DecodeInstruction;
  }

  /**
   * A transfer is executed. After any run, let a live current proposal store one call of another program, let the
   * accounts be ready and the call's rights granted, and let the program answer by moving an amount that the derived
   * signer has. Then the executing call continues the run, the recipient has the amount, the transaction account is
   * closed into the refundee, and no other account is touched.
   */
  lemma TransferIsExecuted(e: Env, s0: Accounts, calls: seq<Call>, metas: seq<AccountMeta>, ix: TransactionInstructionData, to: Pubkey, amount: nat)
    requires Run(e, s0, calls) && Total(s0) < TWO_64 && KeysSign(e, metas)
    requires ExecuteReady(e, After(e, s0, calls).accounts, metas)
    requires TransactionAt(e, After(e, s0, calls).accounts, metas[2].pubkey).instructions == [ix] && ix.programId != e.programId
    requires FirstFailure(PrivilegeChecks(metas, metas[1].pubkey, ToInvocation(ix, metas[1].pubkey))).None?
    requires Get(e, After(e, s0, calls).accounts, metas[1].pubkey).owner != e.programId
    requires Get(e, After(e, s0, calls).accounts, metas[1].pubkey).lamports >= amount
    requires to != metas[1].pubkey && to != metas[2].pubkey && to != metas[3].pubkey
    requires metas[1].pubkey != metas[2].pubkey && metas[1].pubkey != metas[3].pubkey
    ensures var all := calls + [ExecuteCall(metas, [Move(metas[1].pubkey, to, amount)])];
      && Run(e, s0, all)
      && Transferred(e, After(e, s0, calls).accounts, After(e, s0, all).accounts,
                     metas[1].pubkey, to, amount, metas[2].pubkey, metas[3].pubkey)
  {
    hide Inv, Run, After, ExecuteStep, ValidateExecute, Total, PrivilegeChecks, FirstFailure, ToInvocation, Transferred, Accepted, Next, Record;
    hide IsMultisig, IsTransaction, MultisigAt, TransactionAt, Get, ReadTransaction, ReadMultisig, ExecuteCall, KeysSign, ValidCalls, NoWrap, Continue;
    var w, effects := After(e, s0, calls), [Move(metas[1].pubkey, to, amount)];
    var c := ExecuteCall(metas, effects);
    RunEnd(e, s0, calls);
    Conservation(e, s0, calls);
    TransferStep(e, w.accounts, w.history, metas, ix, to, amount);
    ExecuteIsAccepted(e, w, metas, effects);
    NextOfAccepted(e, w, c, ExecuteTransaction);
    ReadyTransaction(e, w.accounts, w.history, metas);
    OutsideRecord(e, w.accounts, w.history, metas, ix);
    ExecuteCallIs(metas, effects);
    ExecuteIsValid(e, metas, effects);
    OneMore(e, w, c);
    SameChangesNoWrap(w.history, Continue(e, w, [c]).history);
    AfterContinues(e, s0, calls, [c]);
    ExtendedRun(e, s0, calls, [c]);
  }

  lemma ReadyTransaction(e: Env, s: Accounts, h: History, metas: seq<AccountMeta>)
    requires Inv(e, s, h) && ExecuteReady(e, s, metas)
    ensures ValidateExecute(e, s, metas).Ok?
    ensures ValidateExecute(e, s, metas).value.transaction == TransactionAt(e, s, metas[2].pubkey)
  {
    hide Inv, ValidateExecute;
    ReadyPasses(e, s, h, metas);
    ValidatedFacts(e, s, h, metas);
  }

  lemma ExecuteCallIs(metas: seq<AccountMeta>, effects: seq<Effect>)
    ensures var c := ExecuteCall(metas, effects); c.Invoke? && c.metas == metas && c.outcomes == [Some(effects)]
  {
  }

  // ----- one transfer in full -----

  /** The system program moves lamports from the derived signer to address 7. */
  function StoredTransfer(): TransactionInstructionData {
    TransactionInstructionData(Numbered(0),
      [TransactionInstructionAccount(Numbered(3), true, true), TransactionInstructionAccount(Numbered(7), false, true)], [])
  }

  /** Owners 0 and 1 propose and approve it at address 5, paid by address 6. */
  function TransferPlan(): Plan {
    Plan(Numbered(2), Numbered(3), Numbered(5), Numbered(6), FirstOwners(2), StoredTransfer())
  }

  /** The executing accounts as the client lists them: multisig and signer read-only, then those of the stored call. */
  function TransferMetas(): seq<AccountMeta> {
    [AccountMeta(Numbered(2), false, false), AccountMeta(Numbered(3), false, false), AccountMeta(Numbered(5), false, true),
     AccountMeta(Numbered(8), false, true), AccountMeta(Owner(2), true, false),
     AccountMeta(Numbered(3), false, true), AccountMeta(Numbered(7), false, true), AccountMeta(Numbered(0), false, false)]
  }

  lemma TransferIsFeasible(calls: seq<Call>, m: Multisig)
    requires Stands(calls, m, 5) && m.owners == FirstOwners(3)
    ensures Feasible(Stage(), Played(calls), TransferPlan())
  {
    hide Run, Numbered, FirstOwners, Keyless, Distinct, Played;
    StageFacts();
    OwnersFacts(2);
    GroupNests(2, 3);
    assert Untouched(Played(calls), 5) && Untouched(Played(calls), 6);
    NumberedDistinct(5, 6);
    assert FirstOwners(2)[0] in FirstOwners(2);
    PlanLength(m, TransferPlan());
    assert m.owners == FirstOwners(3);
    GroupNests(3, 3);
  }

  lemma TransferGranted()
    ensures FirstFailure(PrivilegeChecks(TransferMetas(), Numbered(3), ToInvocation(StoredTransfer(), Numbered(3)))).None?
  {
    hide Numbered, Owner, FirstFailure;
    var metas, call := TransferMetas(), ToInvocation(StoredTransfer(), Numbered(3));
    InvocationOfStored(StoredTransfer(), Numbered(3));
    assert metas[7].pubkey == call.programId;
    assert metas[5].pubkey == call.accounts[0].pubkey && metas[5].isWritable;
    assert metas[6].pubkey == call.accounts[1].pubkey && metas[6].isWritable;
    NumberedDistinct(3, 7);
    Unrolled(PrivilegeChecks(metas, Numbered(3), call));
  }

  /** The transaction at address 5 stores the transfer. */
  predicate Stores(s: Accounts) {
    IsTransaction(Stage(), s, Numbered(5)) && TransactionAt(Stage(), s, Numbered(5)).instructions == [StoredTransfer()]
  }

  lemma TransferIsReady(s: Accounts, m: Multisig, t: Transaction)
    requires Voted(Stage(), s, TransferPlan(), m, t) && m.owners == FirstOwners(3) && m.threshold == 2 && m.nonce == 0
    ensures ExecuteReady(Stage(), s, TransferMetas())
    ensures Stores(s)
  {
    hide Numbered, FirstOwners, Owner, Approvers, CountTrue, Stage, FirstApproval;
    StageFacts();
    NumberedDistinct(5, 8);
    OwnersFacts(2);
    OwnersFacts(3);
    DistinctSetSize(FirstOwners(2));
    assert FirstOwners(3)[2] == Owner(2);
    hide Distinct, Keyless;
  }

  lemma TransferSigned()
    ensures KeysSign(Stage(), TransferMetas())
  {
    OwnersFacts(3);
    assert FirstOwners(3)[2] == Owner(2) && Owner(2) in FirstOwners(3);
    hide Numbered, FirstOwners, Owner, Stage, Keyless;
  }

  lemma TransferAddresses()
    ensures Numbered(7) != Numbered(3) && Numbered(7) != Numbered(5) && Numbered(7) != Numbered(8)
    ensures Numbered(3) != Numbered(5) && Numbered(3) != Numbered(8) && Numbered(0) != Stage().programId
    ensures ApartFromVotes(Stage(), TransferPlan(), Numbered(3)) && ApartFromVotes(Stage(), TransferPlan(), Numbered(7))
  {
    hide Numbered;
    NumberedDistinct(7, 3);
    NumberedDistinct(7, 5);
    NumberedDistinct(7, 8);
    NumberedDistinct(3, 5);
    NumberedDistinct(3, 8);
    NumberedDistinct(0, 1);
    NumberedDistinct(3, 2);
    NumberedDistinct(3, 6);
    NumberedDistinct(3, 0);
    NumberedDistinct(7, 2);
    NumberedDistinct(7, 6);
    NumberedDistinct(7, 0);
    NumberedDistinct(3, 1000);
    NumberedDistinct(3, 1001);
    NumberedDistinct(7, 1000);
    NumberedDistinct(7, 1001);
    TwoOwners();
  }

  /** The founding, the proposal and the two approvals. */
  function TransferVotes(): seq<Call> {
    PlanNotEmpty();
    [FoundingCall(3, 2)] + Prelude(Stage(), TransferPlan())
  }

  lemma PlanNotEmpty()
    ensures TransferPlan().approvers != []
  {
    OwnersFacts(2);
  }

  lemma TransferIsVoted()
    ensures Run(Stage(), Start(), TransferVotes()) && ExecuteReady(Stage(), Played(TransferVotes()), TransferMetas())
    ensures Stores(Played(TransferVotes()))
  {
    hide Run, After, Numbered, FirstOwners, Owner, Stage, FoundingCall, Prelude, Feasible, Voted, ExecuteReady, ValidateExecute, StoredTransfer, TransferPlan;
    hide IsTransaction, TransactionAt, TransferMetas, Stands, Stores;
    var m, founding := Multisig(FirstOwners(3), 2, 0, 0, []), [FoundingCall(3, 2)];
    Founded(3, 2);
    FoundedConfig(3, 2);
    TransferIsFeasible(founding, m);
    PlanAddresses();
    var t := VotesAreCast(Stage(), Start(), founding, TransferPlan());
    TransferIsReady(Played(TransferVotes()), m, t);
  }

  lemma TransferFunds()
    ensures Get(Stage(), Played(TransferVotes()), Numbered(3)) == Account(Stage().systemId, 1000, Plain([]))
    ensures Get(Stage(), Played(TransferVotes()), Numbered(7)) == Account(Stage().systemId, 0, Plain([]))
  {
    hide Run, After, Numbered, FirstOwners, Stage, FoundingCall, Prelude, TransferPlan, ApartFromVotes, Get, HasConfig;
    var founding := [FoundingCall(3, 2)];
    Founded(3, 2);
    FoundedConfig(3, 2);
    TransferAddresses();
    PlanAddresses();
    VotesLeave(Stage(), Start(), founding, TransferPlan(), Numbered(3));
    VotesLeave(Stage(), Start(), founding, TransferPlan(), Numbered(7));
    assert Untouched(Played(founding), 7);
  }

  lemma TransferNames()
    ensures var metas := TransferMetas();
      |metas| == 8 && metas[1].pubkey == Numbered(3) && metas[2].pubkey == Numbered(5) && metas[3].pubkey == Numbered(8)
      && !metas[0].isWritable
  {
    hide Numbered, Owner;
  }

  /**
   * One transfer in full. Three owners found a multisig with threshold 2; owners 0 and 1 propose and approve a transfer
   * of 300 of the derived signer's 1000 lamports to address 7; owner 2 executes it, the multisig account being passed
   * read-only. Afterwards address 7 has 300, the signer 700, and the transaction account is gone.
   */
  lemma OrdinaryTransfer() returns (calls: seq<Call>)
    ensures calls == TransferVotes() + [ExecuteCall(TransferMetas(), [Move(Numbered(3), Numbered(7), 300)])]
    ensures |TransferMetas()| == 8 && !TransferMetas()[0].isWritable
    ensures Run(Stage(), Start(), calls)
    ensures Get(Stage(), Played(calls), Numbered(7)) == Account(Stage().systemId, 300, Plain([]))
    ensures Get(Stage(), Played(calls), Numbered(3)) == Account(Stage().systemId, 700, Plain([]))
    ensures Get(Stage(), Played(calls), Numbered(5)) == Account(Stage().systemId, 0, Plain([]))
  {
    hide Run, After, Numbered, Stage, ExecuteReady, KeysSign, PrivilegeChecks, FirstFailure, ToInvocation, ExecuteCall, Total, StoredTransfer, Get;
    hide TransferVotes, TransferMetas, ApartFromVotes, TransactionAt, IsTransaction;
    TransferIsVoted();
    TransferFunds();
    TransferNames();
    TransferGranted();
    TransferSigned();
    TransferAddresses();
    StageSystem();
    NothingYet();
    TransferIsExecuted(Stage(), Start(), TransferVotes(), TransferMetas(), StoredTransfer(), Numbered(7), 300);
    calls := TransferVotes() + [ExecuteCall(TransferMetas(), [Move(Numbered(3), Numbered(7), 300)])];
  }

  lemma StageSystem()
    ensures Stage().systemId != Stage().programId && StoredTransfer().programId == Stage().systemId
  {
    NumberedDistinct(0, 1);
  }

  lemma PlanAddresses()
    ensures var p := TransferPlan();
      p.approvers == FirstOwners(2) && p.approvers != [] && p.multisig == Numbered(2) && p.account == Numbered(5)
  {
    OwnersFacts(2);
  }
}
