/**
 * No lockout: from every reachable state, a sufficient group of owners can bring a multisig to any configuration
 * within its original capacity, by one proposal, their approvals and one execution. And a multisig can be
 * founded in any reachable state.
 */
module NoLockout {
  import opened Machine
  import opened State
  import opened Instructions
  import opened Layouts
  import opened Protocol
  import opened History
  import opened Invariant
  import opened Batch
  import opened Runs
  import opened Authorisation
  import opened Lamports
  import opened Laws
  import opened Acceptance

  // ----- continuing from a world -----

  ghost function Continue(e: Env, w: World, calls: seq<Call>): World
    decreases |calls|
  {
    if calls == [] then w else Continue(e, Next(e, w, calls[0]), calls[1..])
  }

  lemma {:induction false} AfterContinues(e: Env, s0: Accounts, a: seq<Call>, b: seq<Call>)
    ensures After(e, s0, a + b) == Continue(e, After(e, s0, a), b)
    decreases |b|
  {
    hide Next;
    if b == [] {
      assert a + b == a;
    } else {
      assert a + b == (a + [b[0]]) + b[1..];
      AfterContinues(e, s0, a + [b[0]], b[1..]);
      assert (a + [b[0]])[..|a|] == a;
    }
  }

  lemma {:induction false} ContinueTwice(e: Env, w: World, a: seq<Call>, b: seq<Call>)
    ensures Continue(e, w, a + b) == Continue(e, Continue(e, w, a), b)
    decreases |a|
  {
    hide Next;
    if a == [] {
      assert a + b == b;
    } else {
      assert (a + b)[0] == a[0] && (a + b)[1..] == a[1..] + b;
      ContinueTwice(e, Next(e, w, a[0]), a[1..], b);
    }
  }

  function Calling(metas: seq<AccountMeta>, i: MultisigInstruction): Call {
    Invoke(metas, EncodeInstruction(i), [])
  }

  lemma NextOfCalling(e: Env, w: World, metas: seq<AccountMeta>, i: MultisigInstruction)
    requires WritableInstruction(i) && Dispatch(e, w.accounts, metas, i, []).Ok?
    ensures Next(e, w, Calling(metas, i)).accounts == Dispatch(e, w.accounts, metas, i, []).value
  {
    DecodeOfEncode(i);
    hide Dispatch, EncodeInstruction, DecodeInstruction;
    NextOfAccepted(e, w, Calling(metas, i), i);
  }

  // ----- the plan -----

  /**
   * Who does what: multisig, its derived signer, a fresh address, the payer, the approving owners, and the
   * instruction to be stored and executed.
   */
  datatype Plan = Plan(
    multisig: Pubkey, signer: Pubkey, account: Pubkey, payer: Pubkey,
    approvers: seq<Pubkey>, change: TransactionInstructionData)

  /** The stored instruction is the administrative instruction i. */
  ghost predicate Asks(e: Env, p: Plan, i: MultisigInstruction) {
    && WritableInstruction(i)
    && p.change.programId == e.programId
    && p.change.accounts ==
         [TransactionInstructionAccount(p.multisig, false, true), TransactionInstructionAccount(p.signer, true, false)]
    && p.change.data == EncodeInstruction(i)
  }

  function ProposeMetas(e: Env, p: Plan): seq<AccountMeta>
    requires p.approvers != []
  {
    [AccountMeta(p.multisig, false, false), AccountMeta(p.account, true, true), AccountMeta(p.approvers[0], true, false),
     AccountMeta(p.payer, true, true), AccountMeta(e.systemId, false, false)]
  }

  function ExecuteMetas(e: Env, p: Plan): seq<AccountMeta>
    requires p.approvers != []
  {
    [AccountMeta(p.multisig, false, true), AccountMeta(p.signer, false, false), AccountMeta(p.account, false, true),
     AccountMeta(p.payer, false, true), AccountMeta(p.approvers[0], true, false), AccountMeta(e.programId, false, false)]
  }

  function ApproveCalls(p: Plan, people: seq<Pubkey>): seq<Call> {
    seq(|people|, i requires 0 <= i < |people| => Calling(ApproveMetas(p.multisig, p.account, people[i]), ApproveTransaction))
  }

  function PlanCalls(e: Env, p: Plan): seq<Call>
    requires p.approvers != []
  {
    [Calling(ProposeMetas(e, p), ProposeTransaction([p.change]))]
    + ApproveCalls(p, p.approvers)
    + [Calling(ExecuteMetas(e, p), ExecuteTransaction)]
  }

  /** The proposal the plan makes. */
  function PlanTransaction(m: Multisig, p: Plan): Transaction
    requires p.approvers != [] && p.approvers[0] in m.owners
  {
    Transaction(p.multisig, [p.change], FirstApproval(m.owners, Position(m.owners, p.approvers[0]).value), m.ownerSetSeqno)
  }

  ghost predicate HasConfig(e: Env, s: Accounts, q: Pubkey, m: Multisig) {
    IsMultisig(e, s, q) && MultisigAt(e, s, q) == m
  }

  ghost predicate HasTransaction(e: Env, s: Accounts, x: Pubkey, t: Transaction) {
    IsTransaction(e, s, x) && TransactionAt(e, s, x) == t
  }

  /** The group is made of distinct owners of m who can sign. */
  ghost predicate Sound(e: Env, m: Multisig, p: Plan) {
    && e.pda(p.multisig, m.nonce) == Some(p.signer)
    && Distinct(p.approvers) && p.approvers != []
    && (forall o :: o in p.approvers ==> o in m.owners && !Keyless(e, o))
    && !Keyless(e, p.account) && !Keyless(e, p.payer)
  }

  /** The group is large enough for the program's approval count, which is taken modulo 256. */
  predicate Enough(m: Multisig, p: Plan) {
    AsU8(|p.approvers|) >= m.threshold
  }

  /** The address is unused, the payer can pay for t, and t is small enough to be created. */
  ghost predicate Affordable(e: Env, s: Accounts, p: Plan, t: Transaction) {
    && p.account != p.payer
    && Get(e, s, p.account) == Account(e.systemId, 0, Plain([]))
    && Get(e, s, p.payer).owner == e.systemId && Get(e, s, p.payer).data == Plain([])
    && Get(e, s, p.payer).lamports >= e.rent(t.Len())
    && t.Len() <= MAX_CREATED_DATA
  }

  /** The plan can be carried out up to its execution: it is sound, its address is unused, its payer has the rent. */
  ghost predicate Feasible(e: Env, s: Accounts, p: Plan) {
    && IsMultisig(e, s, p.multisig)
    && Sound(e, MultisigAt(e, s, p.multisig), p)
    && p.approvers[0] in MultisigAt(e, s, p.multisig).owners
    && Affordable(e, s, p, PlanTransaction(MultisigAt(e, s, p.multisig), p))
  }

  // ----- stage 1: propose -----

  lemma ProposeCreates(e: Env, s: Accounts, m: Multisig, p: Plan)
    requires HasConfig(e, s, p.multisig, m) && p.approvers != [] && p.approvers[0] in m.owners
    ensures ProposeStep(e, s, ProposeMetas(e, p), [p.change])
         == var t := PlanTransaction(m, p);
            CreateAccount(e, s, AccountMeta(p.payer, true, true), AccountMeta(p.account, true, true), e.rent(t.Len()), TransactionData(t))
  {
    hide CreateAccount;
  }

  lemma CreationSucceeds(e: Env, s: Accounts, m: Multisig, p: Plan, t: Transaction) returns (s1: Accounts)
    requires ValidEnv(e) && HasConfig(e, s, p.multisig, m) && Affordable(e, s, p, t)
    ensures CreateAccount(e, s, AccountMeta(p.payer, true, true), AccountMeta(p.account, true, true), e.rent(t.Len()), TransactionData(t)) == Ok(s1)
    ensures HasConfig(e, s1, p.multisig, m) && HasTransaction(e, s1, p.account, t) && Total(s1) == Total(s)
    ensures p.payer != p.multisig
  {
    var payer, target := AccountMeta(p.payer, true, true), AccountMeta(p.account, true, true);
    s1 := CreateAccount(e, s, payer, target, e.rent(t.Len()), TransactionData(t)).value;
    CreateConserves(e, s, payer, target, e.rent(t.Len()), TransactionData(t));
    hide Total;
  }

  lemma ProposeStage(e: Env, s: Accounts, m: Multisig, p: Plan) returns (s1: Accounts)
    requires ValidEnv(e) && HasConfig(e, s, p.multisig, m) && p.approvers != [] && p.approvers[0] in m.owners
    requires Affordable(e, s, p, PlanTransaction(m, p))
    ensures ProposeStep(e, s, ProposeMetas(e, p), [p.change]) == Ok(s1)
    ensures HasConfig(e, s1, p.multisig, m) && HasTransaction(e, s1, p.account, PlanTransaction(m, p))
    ensures Total(s1) == Total(s) && p.payer != p.multisig && p.account != p.payer
  {
    ProposeCreates(e, s, m, p);
    assert p.account != p.payer;
    hide ProposeStep, CreateAccount, PlanTransaction, Total, Affordable;
    s1 := CreationSucceeds(e, s, m, p, PlanTransaction(m, p));
  }

  // ----- stage 2: approve -----

  lemma {:induction false} ApproveCallsRun(e: Env, w: World, p: Plan, people: seq<Pubkey>)
    requires ApproveAll(e, w.accounts, p.multisig, p.account, people).Ok?
    ensures Continue(e, w, ApproveCalls(p, people)).accounts == ApproveAll(e, w.accounts, p.multisig, p.account, people).value
    decreases |people|
  {
    hide Next, ApproveStep, Calling, ApproveMetas, ApproveCalls;
    ApproveCallsParts(p, people);
    if people != [] {
      var metas := ApproveMetas(p.multisig, p.account, people[0]);
      NextOfApprove(e, w, metas);
      ApproveCallsRun(e, Next(e, w, Calling(metas, ApproveTransaction)), p, people[1..]);
    }
  }

  lemma NextOfApprove(e: Env, w: World, metas: seq<AccountMeta>)
    requires ApproveStep(e, w.accounts, metas).Ok?
    ensures Next(e, w, Calling(metas, ApproveTransaction)).accounts == ApproveStep(e, w.accounts, metas).value
  {
    hide Next, ApproveStep, Calling;
    NextOfCalling(e, w, metas, ApproveTransaction);
  }

  lemma ApproveCallsParts(p: Plan, people: seq<Pubkey>)
    ensures people == [] ==> ApproveCalls(p, people) == []
    ensures people != [] ==>
              ApproveCalls(p, people)
              == [Calling(ApproveMetas(p.multisig, p.account, people[0]), ApproveTransaction)] + ApproveCalls(p, people[1..])
  {
    hide Calling, ApproveMetas;
  }

  lemma {:induction false} DistinctSetSize(people: seq<Pubkey>)
    requires Distinct(people)
    ensures |set o | o in people| == |people|
  {
    if people != [] {
      var rest := people[1..];
      forall i, j | 0 <= i < j < |rest| ensures rest[i] != rest[j] {
        assert people[i + 1] != people[j + 1];
      }
      DistinctSetSize(rest);
      assert (set o | o in people) == {people[0]} + (set o | o in rest);
      assert people[0] !in rest;
    }
  }

  /** The flags of a group of distinct owners, one of whom has the only flag yet, are as many as the group. */
  lemma GroupCount(owners: seq<Pubkey>, first: nat, people: seq<Pubkey>)
    requires Distinct(owners) && Distinct(people) && first < |owners| && owners[first] in people
    requires forall o :: o in people ==> o in owners
    ensures CountTrue(Marked(owners, FirstApproval(owners, first), set o | o in people)) == |people|
    ensures Approvers(owners, Marked(owners, FirstApproval(owners, first), set o | o in people)) == set o | o in people
  {
    var group := set o | o in people;
    var bits := Marked(owners, FirstApproval(owners, first), group);
    CountIsCardinality(owners, bits);
    DistinctSetSize(people);
    hide CountTrue;
    forall i | 0 <= i < |owners| ensures bits[i] <==> owners[i] in group {
      assert FirstApproval(owners, first)[i] ==> i == first;
    }
    hide FirstApproval, Marked;
    forall o | o in group ensures o in Approvers(owners, bits) {
      var i :| 0 <= i < |owners| && owners[i] == o;
      assert bits[i];
    }
    assert Approvers(owners, bits) == group;
  }

  lemma ApproveStage(e: Env, s1: Accounts, m: Multisig, p: Plan) returns (s2: Accounts, t: Transaction)
    requires ValidEnv(e) && Sound(e, m, p) && Distinct(m.owners) && HasConfig(e, s1, p.multisig, m)
    requires p.approvers[0] in m.owners && HasTransaction(e, s1, p.account, PlanTransaction(m, p))
    ensures ApproveAll(e, s1, p.multisig, p.account, p.approvers) == Ok(s2)
    ensures HasConfig(e, s2, p.multisig, m) && HasTransaction(e, s2, p.account, t)
    ensures t == PlanTransaction(m, p).(signers := t.signers) && |t.signers| == |m.owners|
    ensures CountTrue(t.signers) == |p.approvers| && Approvers(m.owners, t.signers) == set o | o in p.approvers
    ensures Total(s2) == Total(s1)
  {
    var t0 := PlanTransaction(m, p);
    var group := set o | o in p.approvers;
    hide Refusal, Keyless, CountTrue, Total, ApproveAll, ValidEnv, Approvers, PutData, Get;
    ApprovalsMark(e, s1, p.multisig, p.account, p.approvers);
    assert group <= (set o | o in m.owners);
    GroupCount(m.owners, Position(m.owners, p.approvers[0]).value, p.approvers);
    t := t0.(signers := Marked(m.owners, t0.signers, group));
    s2 := PutData(e, s1, p.account, TransactionData(t));
    PutConserves(e, s1, p.account, TransactionData(t));
    PutVotes(e, s1, p.multisig, m, p.account, t);
  }

  lemma PutVotes(e: Env, s: Accounts, q: Pubkey, m: Multisig, x: Pubkey, t: Transaction)
    requires HasConfig(e, s, q, m) && IsTransaction(e, s, x)
    ensures var s' := PutData(e, s, x, TransactionData(t)); HasConfig(e, s', q, m) && HasTransaction(e, s', x, t)
  {
  }

  // ----- stage 3: execute -----

  lemma PrivilegesGranted(e: Env, p: Plan, i: MultisigInstruction)
    requires p.approvers != [] && Asks(e, p, i)
    ensures CheckPrivileges(ExecuteMetas(e, p), p.signer, ToInvocation(p.change, p.signer)).None?
  {
    hide EncodeInstruction, WritableInstruction;
    var metas := ExecuteMetas(e, p);
    var call := ToInvocation(p.change, p.signer);
    assert metas[0].pubkey == p.multisig && metas[1].pubkey == p.signer && metas[5].pubkey == e.programId;
    InvocationOfStored(p.change, p.signer);
    assert call.accounts[0] == AccountMeta(p.multisig, p.multisig == p.signer, true);
    assert call.accounts[1] == AccountMeta(p.signer, true, false);
    assert metas[0].isWritable;
  }

  /** The stored instruction, called with the derived signer, makes the change. */
  lemma ChangePasses(e: Env, s: Accounts, p: Plan, m: Multisig, metas: seq<AccountMeta>, i: MultisigInstruction)
    requires HasConfig(e, s, p.multisig, m) && Sound(e, m, p) && Refusal(m, i).None?
    requires |metas| == 2 && metas[0].pubkey == p.multisig && metas[1].pubkey == p.signer && metas[1].isSigner
    ensures Admin(e, s, metas, i) == Ok(PutData(e, s, p.multisig, MultisigData(Changed(m, i))))
  {
    hide Changed, Admin;
    AdminIs(e, s, metas, i);
    hide Refusal, PutData;
  }

  lemma ChangeRuns(e: Env, s: Accounts, p: Plan, m: Multisig, i: MultisigInstruction)
    requires HasConfig(e, s, p.multisig, m) && Sound(e, m, p) && Asks(e, p, i) && Refusal(m, i).None?
    ensures RunBatch(e, s, ExecuteMetas(e, p), p.signer, [p.change], [])
         == Ok(PutData(e, s, p.multisig, MultisigData(Changed(m, i))))
  {
    var call := ToInvocation(p.change, p.signer);
    InvocationOfStored(p.change, p.signer);
    assert call.programId == e.programId && |call.accounts| == 2
      && call.accounts[0].pubkey == p.multisig && call.accounts[1].pubkey == p.signer && call.accounts[1].isSigner;
    assert call.data == EncodeInstruction(i);
    DecodeOfEncode(i);
    PrivilegesGranted(e, p, i);
    hide EncodeInstruction, DecodeInstruction, CheckPrivileges, Admin, Asks, Changed, RunBatch, ToInvocation, ExecuteMetas, Refusal;
    ChangePasses(e, s, p, m, call.accounts, i);
    BatchOfOne(e, s, ExecuteMetas(e, p), p.signer, p.change, []);
  }

  /** The plan's execution passes its checks exactly when the group is large enough for the count. */
  lemma ExecuteValidates(e: Env, s: Accounts, p: Plan, m: Multisig, t: Transaction)
    requires HasConfig(e, s, p.multisig, m) && Sound(e, m, p) && HasTransaction(e, s, p.account, t)
    requires p.account != p.payer && p.approvers[0] in m.owners
    requires t == PlanTransaction(m, p).(signers := t.signers) && CountTrue(t.signers) == |p.approvers|
    ensures ValidateExecute(e, s, ExecuteMetas(e, p)) ==
      if Enough(m, p) then Ok(Validated(p.signer, p.account, p.payer, m, t)) else Err(NotEnoughSigners)
  {
    hide CountTrue, Refusal;
  }

  lemma ExecuteUnfolds(e: Env, s: Accounts, metas: seq<AccountMeta>, v: Validated, s1: Accounts)
    requires ValidateExecute(e, s, metas) == Ok(v)
    requires RunBatch(e, s, metas, v.signer, v.transaction.instructions, []) == Ok(s1)
    ensures ExecuteStep(e, s, metas, []) == CloseAccount(e, s1, v.account, v.refundee)
  {
    hide ValidateExecute, RunBatch, CloseAccount;
  }

  lemma CloseLeavesConfig(e: Env, s: Accounts, q: Pubkey, m: Multisig, x: Pubkey, r: Pubkey) returns (s': Accounts)
    requires HasConfig(e, s, q, m) && q != x && q != r && x != r && Total(s) < TWO_64
    ensures CloseAccount(e, s, x, r) == Ok(s') && HasConfig(e, s', q, m)
  {
    CloseMoves(e, s, x, r);
    hide Total;
    s' := CloseAccount(e, s, x, r).value;
  }

  lemma PutGoal(e: Env, s: Accounts, q: Pubkey, m: Multisig, goal: Multisig)
    requires HasConfig(e, s, q, m)
    ensures var s1 := PutData(e, s, q, MultisigData(goal)); HasConfig(e, s1, q, goal) && Total(s1) == Total(s)
  {
    PutConserves(e, s, q, MultisigData(goal));
    hide Total;
  }

  lemma ExecuteStage(e: Env, s: Accounts, p: Plan, m: Multisig, t: Transaction, i: MultisigInstruction) returns (s': Accounts)
    requires HasConfig(e, s, p.multisig, m) && Sound(e, m, p) && Enough(m, p) && Asks(e, p, i) && Refusal(m, i).None?
    requires HasTransaction(e, s, p.account, t)
    requires p.account != p.payer && p.payer != p.multisig && p.approvers[0] in m.owners
    requires t == PlanTransaction(m, p).(signers := t.signers) && CountTrue(t.signers) == |p.approvers|
    requires Total(s) < TWO_64
    ensures ExecuteStep(e, s, ExecuteMetas(e, p), []) == Ok(s')
    ensures HasConfig(e, s', p.multisig, Changed(m, i))
  {
    assert p.account != p.multisig;
    assert t.instructions == [p.change];
    hide ValidateExecute, RunBatch, Total, Changed, Asks, ExecuteMetas, ExecuteStep, CloseAccount, PutData, Refusal, CountTrue;
    var goal := Changed(m, i);
    var s1 := PutData(e, s, p.multisig, MultisigData(goal));
    ExecuteValidates(e, s, p, m, t);
    ChangeRuns(e, s, p, m, i);
    ExecuteUnfolds(e, s, ExecuteMetas(e, p), Validated(p.signer, p.account, p.payer, m, t), s1);
    PutGoal(e, s, p.multisig, m, goal);
    s' := CloseLeavesConfig(e, s1, p.multisig, goal, p.account, p.payer);
  }

  // ----- the calls as a continuation of a run -----

  /** The plan's calls up to its execution. */
  function Prelude(e: Env, p: Plan): seq<Call>
    requires p.approvers != []
  {
    [Calling(ProposeMetas(e, p), ProposeTransaction([p.change]))] + ApproveCalls(p, p.approvers)
  }

  /** The calls of the prelude are of instructions that execute nothing. */
  ghost predicate Quiet(c: Call) {
    exists metas, i ::
      c == Calling(metas, i) && WritableInstruction(i) && (i.ProposeTransaction? || i.ApproveTransaction?)
  }

  lemma VotesCountNothing(e: Env, h: History, metas: seq<AccountMeta>, i: MultisigInstruction)
    requires i.ProposeTransaction? || i.ApproveTransaction?
    ensures Record(e, h, metas, i).changes == h.changes
  {
  }

  /** Such a call counts no owner change. */
  lemma QuietKeepsChanges(e: Env, w: World, c: Call)
    requires Quiet(c)
    ensures Next(e, w, c).history.changes == w.history.changes
  {
    hide Next, EncodeInstruction, DecodeInstruction, WritableInstruction, Dispatch, Record;
    var metas, i :| c == Calling(metas, i) && WritableInstruction(i) && (i.ProposeTransaction? || i.ApproveTransaction?);
    DecodeOfEncode(i);
    NextCases(e, w, c);
    if j :| Accepted(e, w, c, j) {
      NextOfAccepted(e, w, c, j);
      VotesCountNothing(e, w.history, metas, j);
    }
  }

  lemma {:induction false} QuietCallsKeepChanges(e: Env, w: World, calls: seq<Call>)
    requires forall c :: c in calls ==> Quiet(c)
    ensures Continue(e, w, calls).history.changes == w.history.changes
    decreases |calls|
  {
    hide Next, Quiet;
    if calls != [] {
      QuietKeepsChanges(e, w, calls[0]);
      QuietCallsKeepChanges(e, Next(e, w, calls[0]), calls[1..]);
    }
  }

  lemma PreludeIsQuiet(e: Env, p: Plan)
    requires p.approvers != [] && WritableInstruction(ProposeTransaction([p.change]))
    ensures forall c :: c in Prelude(e, p) ==> Quiet(c)
  {
    hide WritableInstruction, Calling, ProposeMetas, ApproveMetas;
    var calls := Prelude(e, p);
    BareIsWritable();
    forall j | 0 <= j < |calls| ensures Quiet(calls[j]) {
      if j == 0 {
        assert calls[0] == Calling(ProposeMetas(e, p), ProposeTransaction([p.change]));
      } else {
        assert calls[j] == Calling(ApproveMetas(p.multisig, p.account, p.approvers[j - 1]), ApproveTransaction);
      }
    }
  }

  lemma BareIsWritable()
    ensures WritableInstruction(ApproveTransaction) && WritableInstruction(ExecuteTransaction) && WritableInstruction(CancelTransaction)
  {
  }

  /** A stored instruction that fits into an account can be written. */
  lemma StoredFits(p: Plan, t: Transaction)
    requires t.instructions == [p.change] && t.Len() <= MAX_CREATED_DATA
    ensures WritableInstruction(ProposeTransaction([p.change]))
  {
    assert SumLen([p.change]) == p.change.Len() + SumLen([p.change][1..]);
    OneStoredWritable(p.change);
  }

  /** The calls of a plan are signed by holders of keys. */
  lemma PlanIsSigned(e: Env, m: Multisig, p: Plan)
    requires Sound(e, m, p) && Clear(p.multisig, MAX_CREATED_DATA)
    ensures p.approvers != [] && ValidCalls(e, Prelude(e, p)) && ValidCalls(e, PlanCalls(e, p))
  {
    hide EncodeInstruction, DecodeInstruction, Refusal, Keyless, Clear, Distinct;
    assert p.approvers[0] in p.approvers;
    var calls := PlanCalls(e, p);
    forall j | 0 <= j < |calls| ensures Admissible(e, calls[j]) {
      if 0 < j < |calls| - 1 {
        assert calls[j] == Calling(ApproveMetas(p.multisig, p.account, p.approvers[j - 1]), ApproveTransaction);
        assert p.approvers[j - 1] in p.approvers;
      }
    }
    hide Admissible;
    assert calls[..|calls| - 1] == Prelude(e, p);
    forall j | 0 <= j < |Prelude(e, p)| ensures Admissible(e, Prelude(e, p)[j]) {
      assert Prelude(e, p)[j] == calls[j];
    }
  }

  lemma NextOfPropose(e: Env, w: World, p: Plan, s1: Accounts)
    requires p.approvers != [] && WritableInstruction(ProposeTransaction([p.change]))
    requires ProposeStep(e, w.accounts, ProposeMetas(e, p), [p.change]) == Ok(s1)
    ensures Next(e, w, Calling(ProposeMetas(e, p), ProposeTransaction([p.change]))).accounts == s1
  {
    hide Next, ProposeStep, WritableInstruction, Calling;
    NextOfCalling(e, w, ProposeMetas(e, p), ProposeTransaction([p.change]));
  }

  /** After the prelude the configuration is as before and the proposal has the flags of the group. */
  ghost predicate Voted(e: Env, s: Accounts, p: Plan, m: Multisig, t: Transaction) {
    && HasConfig(e, s, p.multisig, m) && HasTransaction(e, s, p.account, t)
    && p.approvers != [] && p.approvers[0] in m.owners
    && t == PlanTransaction(m, p).(signers := t.signers) && |t.signers| == |m.owners|
    && CountTrue(t.signers) == |p.approvers| && Approvers(m.owners, t.signers) == (set o | o in p.approvers)
    && p.account != p.payer && p.payer != p.multisig
  }

  lemma PreludeParts(e: Env, w: World, p: Plan)
    requires p.approvers != []
    ensures Continue(e, w, Prelude(e, p)) ==
      Continue(e, Next(e, w, Calling(ProposeMetas(e, p), ProposeTransaction([p.change]))), ApproveCalls(p, p.approvers))
  {
    hide Next, ProposeMetas, ApproveCalls, Calling;
    var propose := Calling(ProposeMetas(e, p), ProposeTransaction([p.change]));
    ContinueTwice(e, w, [propose], ApproveCalls(p, p.approvers));
    assert Continue(e, w, [propose]) == Continue(e, Next(e, w, propose), []);
  }

  lemma PreludeVotes(e: Env, w: World, p: Plan, m: Multisig, s1: Accounts) returns (t: Transaction)
    requires ValidEnv(e) && Sound(e, m, p) && Distinct(m.owners) && WritableInstruction(ProposeTransaction([p.change]))
    requires p.approvers != [] && p.approvers[0] in m.owners && p.account != p.payer && p.payer != p.multisig
    requires ProposeStep(e, w.accounts, ProposeMetas(e, p), [p.change]) == Ok(s1)
    requires HasConfig(e, s1, p.multisig, m) && HasTransaction(e, s1, p.account, PlanTransaction(m, p))
    ensures Voted(e, Continue(e, w, Prelude(e, p)).accounts, p, m, t)
    ensures Total(Continue(e, w, Prelude(e, p)).accounts) == Total(s1)
  {
    hide Sound, ProposeStep, Next, Calling, Total, WritableInstruction, Distinct, Continue, HasConfig, HasTransaction, ValidEnv;
    hide CountTrue, PlanTransaction, ProposeMetas, ApproveCalls, ApproveAll, Approvers, Prelude;
    NextOfPropose(e, w, p, s1);
    var w1 := Next(e, w, Calling(ProposeMetas(e, p), ProposeTransaction([p.change])));
    var s2;
    s2, t := ApproveStage(e, s1, m, p);
    ApproveCallsRun(e, w1, p, p.approvers);
    PreludeParts(e, w, p);
  }

  lemma PreludeRuns(e: Env, w: World, p: Plan) returns (t: Transaction)
    requires ValidEnv(e) && Feasible(e, w.accounts, p) && Distinct(MultisigAt(e, w.accounts, p.multisig).owners)
    ensures WritableInstruction(ProposeTransaction([p.change]))
    ensures Voted(e, Continue(e, w, Prelude(e, p)).accounts, p, MultisigAt(e, w.accounts, p.multisig), t)
    ensures Total(Continue(e, w, Prelude(e, p)).accounts) == Total(w.accounts)
  {
    var m := MultisigAt(e, w.accounts, p.multisig);
    FeasibleIsAffordable(e, w.accounts, p, m);
    hide Sound, Asks, ProposeStep, Total, WritableInstruction, Distinct, Continue, Voted, Prelude, PlanTransaction;
    StoredFits(p, PlanTransaction(m, p));
    hide Affordable;
    var s1 := ProposeStage(e, w.accounts, m, p);
    t := PreludeVotes(e, w, p, m, s1);
  }

  lemma FeasibleIsAffordable(e: Env, s: Accounts, p: Plan, m: Multisig)
    requires Feasible(e, s, p) && m == MultisigAt(e, s, p.multisig)
    ensures p.approvers != [] && p.approvers[0] in m.owners && PlanTransaction(m, p).instructions == [p.change]
    ensures Affordable(e, s, p, PlanTransaction(m, p)) && PlanTransaction(m, p).Len() <= MAX_CREATED_DATA
  {
    hide Refusal, Keyless, Asks, Distinct;
  }

  /** What is known of the end of a run. */
  lemma RunEnd(e: Env, s0: Accounts, calls: seq<Call>)
    requires Run(e, s0, calls)
    ensures ValidEnv(e) && NoWrap(After(e, s0, calls).history)
    ensures Inv(e, After(e, s0, calls).accounts, After(e, s0, calls).history)
  {
    assert calls[..|calls|] == calls;
    Reachable(e, s0, calls, |calls|);
    hide Inv, After, NoWrap, ValidEnv;
  }

  lemma ExtendedRun(e: Env, s0: Accounts, calls: seq<Call>, more: seq<Call>)
    requires Run(e, s0, calls) && ValidCalls(e, more)
    requires NoWrap(Continue(e, After(e, s0, calls), more).history)
    ensures Run(e, s0, calls + more)
  {
    hide After, Continue, NoWrap, Admissible, ValidEnv, Genesis;
    AfterContinues(e, s0, calls, more);
  }

  /**
   * The votes of a group. After any run, a feasible plan's proposal and approvals continue the run to a state in
   * which exactly the group's flags are set, and execution passes its checks if and only if the number of approvers,
   * modulo 256, is at least the threshold.
   */
  lemma VotesAreCast(e: Env, s0: Accounts, calls: seq<Call>, p: Plan) returns (t: Transaction)
    requires Run(e, s0, calls) && Feasible(e, After(e, s0, calls).accounts, p)
    ensures WritableInstruction(ProposeTransaction([p.change]))
    ensures p.approvers != [] && Run(e, s0, calls + Prelude(e, p))
    ensures var m := MultisigAt(e, After(e, s0, calls).accounts, p.multisig);
      var s := After(e, s0, calls + Prelude(e, p)).accounts;
      && Voted(e, s, p, m, t) && Total(s) == Total(After(e, s0, calls).accounts)
      && ValidateExecute(e, s, ExecuteMetas(e, p)) ==
           if Enough(m, p) then Ok(Validated(p.signer, p.account, p.payer, m, t)) else Err(NotEnoughSigners)
  {
    hide Inv, Run, After, Continue, Total, Prelude, ValidateExecute, Sound, ExecuteMetas, Asks, Affordable, PlanTransaction, CountTrue, NoWrap;
    hide ValidEnv, Feasible, Distinct, IsMultisig, MultisigAt, HasConfig, HasTransaction, Refusal, PlanCalls, ValidCalls, WritableInstruction, Approvers;
    var w := After(e, s0, calls);
    RunEnd(e, s0, calls);
    FeasibleParts(e, w.accounts, p);
    OwnersDistinct(e, w.accounts, w.history, p.multisig);
    MultisigIsClear(e, w.accounts, w.history, p.multisig);
    t := PreludeRuns(e, w, p);
    PreludeIsRun(e, s0, calls, p, MultisigAt(e, w.accounts, p.multisig));
    AfterContinues(e, s0, calls, Prelude(e, p));
    ExecuteValidates(e, Continue(e, w, Prelude(e, p)).accounts, p, MultisigAt(e, w.accounts, p.multisig), t);
  }

  lemma PreludeIsRun(e: Env, s0: Accounts, calls: seq<Call>, p: Plan, m: Multisig)
    requires Run(e, s0, calls) && Sound(e, m, p) && WritableInstruction(ProposeTransaction([p.change]))
    requires Clear(p.multisig, MAX_CREATED_DATA)
    ensures p.approvers != [] && Run(e, s0, calls + Prelude(e, p))
  {
    hide Inv, Run, After, Continue, Prelude, Sound, NoWrap, ValidEnv, PlanCalls, ValidCalls, WritableInstruction;
    RunEnd(e, s0, calls);
    PlanIsSigned(e, m, p);
    PreludeIsQuiet(e, p);
    var w := After(e, s0, calls);
    QuietCallsKeepChanges(e, w, Prelude(e, p));
    SameChangesNoWrap(w.history, Continue(e, w, Prelude(e, p)).history);
    ExtendedRun(e, s0, calls, Prelude(e, p));
  }

  lemma OwnersDistinct(e: Env, s: Accounts, h: History, q: Pubkey)
    requires Inv(e, s, h) && IsMultisig(e, s, q)
    ensures Distinct(MultisigAt(e, s, q).owners)
  {
    assert AccountOk(e, s, h, q);
  }

  lemma SameChangesNoWrap(h: History, h': History)
    requires NoWrap(h) && h'.changes == h.changes
    ensures NoWrap(h')
  {
  }

  // ----- the theorem -----

  lemma NextOfExecute(e: Env, w: World, p: Plan, s': Accounts)
    requires p.approvers != [] && ExecuteStep(e, w.accounts, ExecuteMetas(e, p), []) == Ok(s')
    ensures Next(e, w, Calling(ExecuteMetas(e, p), ExecuteTransaction)) ==
            World(s', Record(e, w.history, ExecuteMetas(e, p), ExecuteTransaction))
  {
    BareIsWritable();
    DecodeOfEncode(ExecuteTransaction);
    hide Next, ExecuteStep, EncodeInstruction, DecodeInstruction, WritableInstruction, Record;
    NextOfAccepted(e, w, Calling(ExecuteMetas(e, p), ExecuteTransaction), ExecuteTransaction);
  }

  /** The plan's execution counts at most one owner change, of its own multisig. */
  lemma PlanCounts(e: Env, s: Accounts, h: History, p: Plan, t: Transaction, i: MultisigInstruction)
    requires Inv(e, s, h) && NoWrap(h) && p.approvers != [] && Asks(e, p, i)
    requires ValidateExecute(e, s, ExecuteMetas(e, p)).Ok? && ValidateExecute(e, s, ExecuteMetas(e, p)).value.transaction == t
    requires t.instructions == [p.change] && Changes(h, p.multisig) + 1 < TWO_32
    ensures NoWrap(Record(e, h, ExecuteMetas(e, p), ExecuteTransaction))
  {
    hide Inv, ValidateExecute, EncodeInstruction, WritableInstruction, Record, RecordBatch, ExecuteMetas, NoWrap;
    RecordOfExecute(e, s, h, ExecuteMetas(e, p));
    ChangeCounts(e, h, p, i);
    SameChangesNoWrap(RecordBatch(e, h, [p.change]), Record(e, h, ExecuteMetas(e, p), ExecuteTransaction));
  }

  lemma ChangeCounts(e: Env, h: History, p: Plan, i: MultisigInstruction)
    requires NoWrap(h) && Asks(e, p, i) && Changes(h, p.multisig) + 1 < TWO_32
    ensures NoWrap(RecordBatch(e, h, [p.change]))
  {
    hide EncodeInstruction, DecodeInstruction, WritableInstruction;
    assert [p.change][1..] == [];
    assert RecordBatch(e, h, [p.change]) == RecordOne(e, h, p.change);
  }

  lemma FeasibleParts(e: Env, s: Accounts, p: Plan)
    requires Feasible(e, s, p)
    ensures IsMultisig(e, s, p.multisig)
    ensures Sound(e, MultisigAt(e, s, p.multisig), p) && p.approvers != []
    ensures p.approvers[0] in MultisigAt(e, s, p.multisig).owners
  {
    hide Asks, Refusal, Keyless, Affordable, Distinct, Get;
  }

  lemma PlanStores(m: Multisig, p: Plan)
    requires p.approvers != [] && p.approvers[0] in m.owners
    ensures PlanTransaction(m, p).instructions == [p.change] && PlanTransaction(m, p).multisig == p.multisig
  {
  }

  /** The plan's calls make the change. */
  lemma GoalConfiguration(e: Env, s0: Accounts, calls: seq<Call>, p: Plan, i: MultisigInstruction) returns (t: Transaction)
    requires Run(e, s0, calls) && Total(s0) < TWO_64 && Feasible(e, After(e, s0, calls).accounts, p)
    requires Enough(MultisigAt(e, After(e, s0, calls).accounts, p.multisig), p)
    requires Asks(e, p, i) && Refusal(MultisigAt(e, After(e, s0, calls).accounts, p.multisig), i).None?
    ensures p.approvers != [] && WritableInstruction(ProposeTransaction([p.change])) && t.instructions == [p.change]
    ensures Run(e, s0, calls + Prelude(e, p))
    ensures var w := After(e, s0, calls + Prelude(e, p));
      && ValidateExecute(e, w.accounts, ExecuteMetas(e, p)).Ok?
      && ValidateExecute(e, w.accounts, ExecuteMetas(e, p)).value.transaction == t
      && ExecuteStep(e, w.accounts, ExecuteMetas(e, p), []).Ok?
    ensures HasConfig(e, After(e, s0, calls + PlanCalls(e, p)).accounts, p.multisig,
              Changed(MultisigAt(e, After(e, s0, calls).accounts, p.multisig), i))
  {
    hide Run, After, Total, Feasible, Sound, Asks, Changed, ExecuteStep, ValidateExecute, Prelude, ExecuteMetas, Next, Refusal, WritableInstruction;
    hide PlanCalls, HasConfig, HasTransaction, IsMultisig, MultisigAt, CountTrue, PlanTransaction, Record, Calling, Approvers;
    FeasibleParts(e, After(e, s0, calls).accounts, p);
    var m := MultisigAt(e, After(e, s0, calls).accounts, p.multisig);
    Conservation(e, s0, calls);
    t := VotesAreCast(e, s0, calls, p);
    PlanStores(m, p);
    var w2 := After(e, s0, calls + Prelude(e, p));
    var s3 := ExecuteStage(e, w2.accounts, p, m, t, i);
    NextOfExecute(e, w2, p, s3);
    LastCall(e, s0, calls, p);
  }

  /**
   * A sufficient group gets its way. After any run, a feasible plan with enough approvers continues it, with calls
   * that only holders of keys sign, to a state where the multisig is exactly as the instruction makes it; and the
   * continuation is again a run when the owner-change counter is not about to wrap.
   */
  lemma GoalIsReached(e: Env, s0: Accounts, calls: seq<Call>, p: Plan, i: MultisigInstruction)
    requires Run(e, s0, calls) && Total(s0) < TWO_64 && Feasible(e, After(e, s0, calls).accounts, p)
    requires Enough(MultisigAt(e, After(e, s0, calls).accounts, p.multisig), p)
    requires Asks(e, p, i) && Refusal(MultisigAt(e, After(e, s0, calls).accounts, p.multisig), i).None?
    ensures p.approvers != [] && ValidCalls(e, PlanCalls(e, p))
    ensures HasConfig(e, After(e, s0, calls + PlanCalls(e, p)).accounts, p.multisig,
              Changed(MultisigAt(e, After(e, s0, calls).accounts, p.multisig), i))
    ensures Changes(After(e, s0, calls).history, p.multisig) + 1 < TWO_32 ==> Run(e, s0, calls + PlanCalls(e, p))
  {
    hide Run, After, Total, Feasible, Sound, Asks, Changed, ExecuteStep, ValidateExecute, Prelude, ExecuteMetas, Refusal, WritableInstruction;
    hide PlanCalls, ValidCalls, HasConfig, IsMultisig, MultisigAt, Enough, Changes, Inv, Clear;
    FeasibleParts(e, After(e, s0, calls).accounts, p);
    var m := MultisigAt(e, After(e, s0, calls).accounts, p.multisig);
    RunEnd(e, s0, calls);
    MultisigIsClear(e, After(e, s0, calls).accounts, After(e, s0, calls).history, p.multisig);
    PlanIsSigned(e, m, p);
    var t := GoalConfiguration(e, s0, calls, p, i);
    if Changes(After(e, s0, calls).history, p.multisig) + 1 < TWO_32 {
      PlanIsRun(e, s0, calls, p, t, i);
    }
  }

  lemma LastCall(e: Env, s0: Accounts, calls: seq<Call>, p: Plan)
    requires p.approvers != []
    ensures PlanCalls(e, p) == Prelude(e, p) + [Calling(ExecuteMetas(e, p), ExecuteTransaction)]
    ensures After(e, s0, calls + PlanCalls(e, p)) ==
            Next(e, After(e, s0, calls + Prelude(e, p)), Calling(ExecuteMetas(e, p), ExecuteTransaction))
  {
    hide Next, Calling, ExecuteMetas, ProposeMetas, ApproveCalls;
    var execute := Calling(ExecuteMetas(e, p), ExecuteTransaction);
    assert PlanCalls(e, p) == Prelude(e, p) + [execute];
    var all := calls + PlanCalls(e, p);
    assert all[..|all| - 1] == calls + Prelude(e, p) && all[|all| - 1] == execute;
  }

  lemma PlanIsRun(e: Env, s0: Accounts, calls: seq<Call>, p: Plan, t: Transaction, i: MultisigInstruction)
    requires Run(e, s0, calls) && Asks(e, p, i) && p.approvers != [] && ValidCalls(e, PlanCalls(e, p))
    requires Run(e, s0, calls + Prelude(e, p))
    requires Changes(After(e, s0, calls).history, p.multisig) + 1 < TWO_32
    requires WritableInstruction(ProposeTransaction([p.change])) && t.instructions == [p.change]
    requires var w := After(e, s0, calls + Prelude(e, p));
      && ValidateExecute(e, w.accounts, ExecuteMetas(e, p)).Ok?
      && ValidateExecute(e, w.accounts, ExecuteMetas(e, p)).value.transaction == t
      && ExecuteStep(e, w.accounts, ExecuteMetas(e, p), []).Ok?
    ensures Run(e, s0, calls + PlanCalls(e, p))
  {
    hide Inv, Run, ValidEnv, After, ExecuteStep, ValidateExecute, Prelude, ExecuteMetas, Next, NoWrap, Asks, Record, WritableInstruction, Continue;
    hide PlanCalls, ValidCalls, Calling, Changes;
    var all := calls + Prelude(e, p);
    var w := After(e, s0, all);
    RunEnd(e, s0, all);
    PreludeChanges(e, s0, calls, p);
    PlanCounts(e, w.accounts, w.history, p, t, i);
    NextOfExecute(e, w, p, ExecuteStep(e, w.accounts, ExecuteMetas(e, p), []).value);
    LastCall(e, s0, calls, p);
    AfterContinues(e, s0, calls, PlanCalls(e, p));
    ExtendedRun(e, s0, calls, PlanCalls(e, p));
  }

  lemma PreludeChanges(e: Env, s0: Accounts, calls: seq<Call>, p: Plan)
    requires p.approvers != [] && WritableInstruction(ProposeTransaction([p.change]))
    ensures Changes(After(e, s0, calls + Prelude(e, p)).history, p.multisig) == Changes(After(e, s0, calls).history, p.multisig)
  {
    hide After, Continue, Prelude, WritableInstruction;
    PreludeIsQuiet(e, p);
    AfterContinues(e, s0, calls, Prelude(e, p));
    QuietCallsKeepChanges(e, After(e, s0, calls), Prelude(e, p));
  }

  // ----- every configuration -----

  /** The payer is a plain account that can pay for any account the program creates. */
  ghost predicate Funded(e: Env, s: Accounts, payer: Pubkey) {
    && Get(e, s, payer).owner == e.systemId && Get(e, s, payer).data == Plain([])
    && forall n: nat :: n <= MAX_CREATED_DATA ==> e.rent(n) <= Get(e, s, payer).lamports
  }

  /** Two addresses with keys: one unused, one that can pay. */
  ghost predicate Supplied(e: Env, s: Accounts, account: Pubkey, payer: Pubkey) {
    && !Keyless(e, account) && !Keyless(e, payer) && account != payer
    && Get(e, s, account) == Account(e.systemId, 0, Plain([])) && Funded(e, s, payer)
  }

  /** The plan in which the given group asks for the given instruction. */
  function PlanFor(e: Env, q: Pubkey, signer: Pubkey, account: Pubkey, payer: Pubkey,
                   approvers: seq<Pubkey>, i: MultisigInstruction): Plan {
    Plan(q, signer, account, payer, approvers,
      TransactionInstructionData(e.programId,
        [TransactionInstructionAccount(q, false, true), TransactionInstructionAccount(signer, true, false)],
        EncodeInstruction(i)))
  }

  /** A group of distinct owners of m who hold keys. */
  ghost predicate Group(e: Env, m: Multisig, approvers: seq<Pubkey>) {
    Distinct(approvers) && approvers != [] && forall o :: o in approvers ==> o in m.owners && !Keyless(e, o)
  }

  lemma PlanForAsks(e: Env, q: Pubkey, signer: Pubkey, account: Pubkey, payer: Pubkey,
                    approvers: seq<Pubkey>, i: MultisigInstruction)
    requires WritableInstruction(i)
    ensures Asks(e, PlanFor(e, q, signer, account, payer, approvers, i), i)
  {
    hide EncodeInstruction, WritableInstruction;
  }

  lemma SignerExists(e: Env, s: Accounts, h: History, q: Pubkey)
    requires Inv(e, s, h) && IsMultisig(e, s, q)
    ensures e.pda(q, MultisigAt(e, s, q).nonce).Some?
  {
    assert AccountOk(e, s, h, q);
  }

  lemma PlanLength(m: Multisig, p: Plan)
    requires p.approvers != [] && p.approvers[0] in m.owners && |p.change.accounts| == 2
    ensures PlanTransaction(m, p).Len() == 152 + |p.change.data| + |m.owners|
  {
    assert SumLen([p.change]) == p.change.Len() + SumLen([p.change][1..]);
  }

  /** A group with supplies has a feasible plan for every accepted instruction that fits into an account. */
  lemma PlanForIsFeasible(e: Env, s: Accounts, h: History, q: Pubkey, account: Pubkey, payer: Pubkey,
                          approvers: seq<Pubkey>, i: MultisigInstruction) returns (p: Plan)
    requires Inv(e, s, h) && IsMultisig(e, s, q) && Group(e, MultisigAt(e, s, q), approvers) && Supplied(e, s, account, payer)
    requires WritableInstruction(i)
    requires 152 + |EncodeInstruction(i)| + |MultisigAt(e, s, q).owners| <= MAX_CREATED_DATA
    ensures e.pda(q, MultisigAt(e, s, q).nonce).Some?
    ensures p == PlanFor(e, q, e.pda(q, MultisigAt(e, s, q).nonce).value, account, payer, approvers, i)
    ensures Feasible(e, s, p) && Asks(e, p, i)
  {
    hide Inv, WritableInstruction, EncodeInstruction, Keyless, Distinct, Get, PlanTransaction, IsMultisig, MultisigAt;
    var m := MultisigAt(e, s, q);
    SignerExists(e, s, h, q);
    p := PlanFor(e, q, e.pda(q, m.nonce).value, account, payer, approvers, i);
    PlanForAsks(e, q, p.signer, account, payer, approvers, i);
    assert approvers[0] in approvers;
    PlanLength(m, p);
    assert Sound(e, m, p);
    hide Asks;
    assert Affordable(e, s, p, PlanTransaction(m, p));
  }

  /** The combined change to a list within a narrow multisig's capacity is accepted and fits. */
  lemma ChangeIsAccepted(m: Multisig, owners: seq<Pubkey>, threshold: u8)
    requires Capacity(m) < PUBKEY_BYTES * TWO_8
    requires Distinct(owners) && owners != [] && PUBKEY_BYTES * |owners| <= Capacity(m) && 1 <= threshold <= |owners|
    ensures var i := SetOwnersAndChangeThreshold(owners, threshold);
      && WritableInstruction(i) && Refusal(m, i).None?
      && Changed(m, i).owners == owners && Changed(m, i).threshold == threshold
      && 152 + |EncodeInstruction(i)| + |m.owners| <= MAX_CREATED_DATA
  {
    UniqueIsDistinct(owners);
    hide EncodeInstruction, WritableInstruction, AllUnique, Distinct;
    CombinedWritable(owners, threshold);
  }

  /**
   * Every configuration within the original capacity is reachable. After any run, at least a threshold of owners who
   * hold keys, an unused address and a funded payer suffice for calls, signed by none but key holders, that lead to
   * exactly the wanted owners and threshold; and what results is again a run, so this can be repeated.
   */
  lemma EveryConfigurationIsReachable(e: Env, s0: Accounts, calls: seq<Call>, q: Pubkey, account: Pubkey, payer: Pubkey,
                                      approvers: seq<Pubkey>, owners: seq<Pubkey>, threshold: u8) returns (more: seq<Call>)
    requires Run(e, s0, calls) && Total(s0) < TWO_64
    requires q in After(e, s0, calls).history.created && IsMultisig(e, After(e, s0, calls).accounts, q)
    requires After(e, s0, calls).history.created[q].size < TWO_8
    requires Group(e, MultisigAt(e, After(e, s0, calls).accounts, q), approvers)
    requires |approvers| >= MultisigAt(e, After(e, s0, calls).accounts, q).threshold
    requires Distinct(owners) && 1 <= |owners| <= After(e, s0, calls).history.created[q].size
    requires 1 <= threshold <= |owners|
    requires Supplied(e, After(e, s0, calls).accounts, account, payer)
    ensures ValidCalls(e, more)
    ensures exists m :: HasConfig(e, After(e, s0, calls + more).accounts, q, m) && m.owners == owners && m.threshold == threshold
    ensures Changes(After(e, s0, calls).history, q) + 1 < TWO_32 ==> Run(e, s0, calls + more)
  {
    hide Inv, Run, After, Total, Supplied, Feasible, ValidCalls, PlanCalls, WritableInstruction, EncodeInstruction, Refusal, Changed, Group, Distinct;
    var w := After(e, s0, calls);
    RunEnd(e, s0, calls);
    var m := MultisigAt(e, w.accounts, q);
    NarrowFacts(e, w.accounts, w.history, q, approvers);
    ChangeIsAccepted(m, owners, threshold);
    var i := SetOwnersAndChangeThreshold(owners, threshold);
    var p := PlanForIsFeasible(e, w.accounts, w.history, q, account, payer, approvers, i);
    GoalIsReached(e, s0, calls, p, i);
    more := PlanCalls(e, p);
  }

  lemma NarrowFacts(e: Env, s: Accounts, h: History, q: Pubkey, approvers: seq<Pubkey>)
    requires Inv(e, s, h) && IsMultisig(e, s, q) && Group(e, MultisigAt(e, s, q), approvers)
    requires q in h.created && h.created[q].size < TWO_8
    ensures Capacity(MultisigAt(e, s, q)) == PUBKEY_BYTES * h.created[q].size
    ensures |approvers| < TWO_8
  {
    var m := MultisigAt(e, s, q);
    assert AccountOk(e, s, h, q);
    hide Inv;
    DistinctSetSize(approvers);
    DistinctSetSize(m.owners);
    SubsetSize(set o | o in approvers, set o | o in m.owners);
  }

  lemma SubsetSize(a: set<Pubkey>, b: set<Pubkey>)
    requires a <= b
    ensures |a| <= |b|
  {
    assert b == a + (b - a);
  }

  // ----- a multisig can be founded -----

  function CreateMetas(e: Env, address: Pubkey, signer: Pubkey, payer: Pubkey): seq<AccountMeta> {
    [AccountMeta(address, true, true), AccountMeta(signer, false, false), AccountMeta(payer, true, true),
     AccountMeta(e.systemId, false, false)]
  }

  function CreateCall(e: Env, address: Pubkey, signer: Pubkey, payer: Pubkey, owners: seq<Pubkey>, threshold: u8, nonce: u8): Call {
    Calling(CreateMetas(e, address, signer, payer), CreateMultisig(owners, threshold, nonce))
  }

  lemma CreateNames(e: Env, address: Pubkey, signer: Pubkey, payer: Pubkey)
    ensures var metas := CreateMetas(e, address, signer, payer);
      |metas| == 4 && metas[0].pubkey == address && metas[2].pubkey == payer
  {
  }

  lemma CreationIsAccepted(e: Env, s: Accounts, address: Pubkey, signer: Pubkey, payer: Pubkey,
                           owners: seq<Pubkey>, threshold: u8, nonce: u8)
    requires ValidEnv(e) && e.pda(address, nonce) == Some(signer) && Supplied(e, s, address, payer)
    requires Distinct(owners) && 14 + PUBKEY_BYTES * |owners| <= MAX_CREATED_DATA && 1 <= threshold <= AsU8(|owners|)
    ensures CreateMultisigStep(e, s, CreateMetas(e, address, signer, payer), owners, threshold, nonce).Ok?
  {
    UniqueIsDistinct(owners);
    var m := Multisig(owners, threshold, nonce, 0, []);
    assert e.rent(m.Len()) <= Get(e, s, payer).lamports;
    hide AllUnique, Keyless;
  }

  lemma CreationWritable(owners: seq<Pubkey>, threshold: u8, nonce: u8)
    requires |owners| < TWO_32
    ensures WritableInstruction(CreateMultisig(owners, threshold, nonce))
  {
  }

  lemma FoundingIsAccepted(e: Env, w: World, address: Pubkey, signer: Pubkey, payer: Pubkey,
                           owners: seq<Pubkey>, threshold: u8, nonce: u8)
    requires |owners| < TWO_32
    requires CreateMultisigStep(e, w.accounts, CreateMetas(e, address, signer, payer), owners, threshold, nonce).Ok?
    ensures Accepted(e, w, CreateCall(e, address, signer, payer, owners, threshold, nonce), CreateMultisig(owners, threshold, nonce))
  {
    var i := CreateMultisig(owners, threshold, nonce);
    hide EncodeInstruction, DecodeInstruction, CreateMultisigStep, CreateMetas, WritableInstruction;
    CreationWritable(owners, threshold, nonce);
    DecodeOfEncode(i);
  }

  lemma FoundersSign(e: Env, address: Pubkey, signer: Pubkey, payer: Pubkey, i: MultisigInstruction)
    requires !Keyless(e, address) && !Keyless(e, payer) && Clear(address, MAX_CREATED_DATA)
    ensures ValidCalls(e, [Calling(CreateMetas(e, address, signer, payer), i)])
  {
    hide Keyless, Clear, EncodeInstruction, DecodeInstruction;
  }

  lemma RecordedFounding(e: Env, h: History, address: Pubkey, signer: Pubkey, payer: Pubkey, owners: seq<Pubkey>, threshold: u8, nonce: u8)
    ensures Record(e, h, CreateMetas(e, address, signer, payer), CreateMultisig(owners, threshold, nonce))
         == h.(created := h.created[address := Founding(|owners|, nonce)])
  {
  }

  /**
   * A multisig can be founded after any run. Where a derived address exists for an unused clear address and a nonce, and a
   * funded payer signs, one call leaves a multisig of exactly the given distinct owners, as many as an account holds,
   * with any threshold between 1 and their number modulo 256, the payer having paid exactly the rent; and the
   * continuation is again a run.
   */
  lemma FoundingSucceeds(e: Env, s0: Accounts, calls: seq<Call>, address: Pubkey, signer: Pubkey, payer: Pubkey,
                         owners: seq<Pubkey>, threshold: u8, nonce: u8)
    requires Run(e, s0, calls) && e.pda(address, nonce) == Some(signer) && Clear(address, MAX_CREATED_DATA)
    requires Supplied(e, After(e, s0, calls).accounts, address, payer)
    requires Distinct(owners) && 14 + PUBKEY_BYTES * |owners| <= MAX_CREATED_DATA && 1 <= threshold <= AsU8(|owners|)
    ensures var more := [CreateCall(e, address, signer, payer, owners, threshold, nonce)];
      && Run(e, s0, calls + more)
      && HasConfig(e, After(e, s0, calls + more).accounts, address, Multisig(owners, threshold, nonce, 0, []))
      && Paid(e, After(e, s0, calls).accounts, After(e, s0, calls + more).accounts, payer, address, 14 + 32 * |owners|,
              MultisigData(Multisig(owners, threshold, nonce, 0, [])))
      && var h := After(e, s0, calls).history;
         After(e, s0, calls + more).history == h.(created := h.created[address := Founding(|owners|, nonce)])
  {
    var metas, i := CreateMetas(e, address, signer, payer), CreateMultisig(owners, threshold, nonce);
    var call := CreateCall(e, address, signer, payer, owners, threshold, nonce);
    var w := After(e, s0, calls);
    RunEnd(e, s0, calls);
    assert !Keyless(e, address) && !Keyless(e, payer) && |owners| < TWO_32;
    hide CreateMultisigStep, Supplied, Next, After, Run, ValidEnv, Keyless, Accepted, KeysSign, Record, EncodeInstruction, NoWrap;
    hide Inv, Distinct, Get, CreateMetas, KeepsOthers, Paid;
    CreationIsAccepted(e, w.accounts, address, signer, payer, owners, threshold, nonce);
    CreateReach(e, w.accounts, metas, owners, threshold, nonce);
    FoundingIsAccepted(e, w, address, signer, payer, owners, threshold, nonce);
    NextOfAccepted(e, w, call, i);
    CreateNames(e, address, signer, payer);
    FoundingCosts(e, w, call, owners, threshold, nonce);
    RecordedFounding(e, w.history, address, signer, payer, owners, threshold, nonce);
    FoundersSign(e, address, signer, payer, i);
    OneMore(e, w, call);
    SameChangesNoWrap(w.history, Continue(e, w, [call]).history);
    AfterContinues(e, s0, calls, [call]);
    ExtendedRun(e, s0, calls, [call]);
  }

  lemma OneMore(e: Env, w: World, c: Call)
    ensures Continue(e, w, [c]) == Next(e, w, c)
  {
    hide Next;
    assert Continue(e, w, [c]) == Continue(e, Next(e, w, c), []);
  }

  // ----- rent as a step of a run -----

  lemma CancelIsValid(e: Env, q: Pubkey, x: Pubkey, r: Pubkey, o: Pubkey)
    requires !Keyless(e, o) && Clear(q, MAX_CREATED_DATA)
    ensures ValidCalls(e, [Calling(CancelMetas(q, x, r, o), CancelTransaction)])
  {
    hide Keyless, Clear, EncodeInstruction, DecodeInstruction;
  }

  lemma NextOfCancel(e: Env, w: World, metas: seq<AccountMeta>)
    requires CancelStep(e, w.accounts, metas).Ok?
    ensures Next(e, w, Calling(metas, CancelTransaction)).accounts == CancelStep(e, w.accounts, metas).value
    ensures Next(e, w, Calling(metas, CancelTransaction)).history.changes == w.history.changes
  {
    BareIsWritable();
    DecodeOfEncode(CancelTransaction);
    hide Next, CancelStep, EncodeInstruction, DecodeInstruction, WritableInstruction;
    NextOfAccepted(e, w, Calling(metas, CancelTransaction), CancelTransaction);
  }

  /**
   * Rent is always recoverable, by a call. After any run, for every live transaction, stale or not, every current owner
   * of its multisig who holds a key, and every refundee other than the transaction account, the owner's cancelling call
   * continues the run to a state where the transaction account is empty and the refundee has its whole balance.
   */
  lemma RentIsRecovered(e: Env, s0: Accounts, calls: seq<Call>, x: Pubkey, o: Pubkey, r: Pubkey)
    requires Run(e, s0, calls) && Total(s0) < TWO_64 && r != x && !Keyless(e, o)
    requires IsTransaction(e, After(e, s0, calls).accounts, x)
    ensures var s := After(e, s0, calls).accounts;
      var q := TransactionAt(e, s, x).multisig;
      && IsMultisig(e, s, q)
      && (o in MultisigAt(e, s, q).owners ==>
            var all := calls + [Calling(CancelMetas(q, x, r, o), CancelTransaction)];
            var s' := After(e, s0, all).accounts;
            && Run(e, s0, all)
            && Get(e, s', x) == Account(e.systemId, 0, Plain([]))
            && Get(e, s', r) == Get(e, s, r).(lamports := Get(e, s, r).lamports + Get(e, s, x).lamports))
  {
    assert calls[..|calls|] == calls;
    assert At(e, s0, calls, |calls|) == After(e, s0, calls);
    hide Run, After, At, Inv, IsTransaction, TransactionAt, IsMultisig, MultisigAt, Get, Total, CancelMetas, Calling, CancelStep, Next, NoWrap;
    hide ValidCalls, Keyless, Clear, Continue, ValidEnv;
    var w := After(e, s0, calls);
    RunEnd(e, s0, calls);
    RentIsRecoverable(e, s0, calls, |calls|, x, o, r);
    var q := TransactionAt(e, w.accounts, x).multisig;
    if o in MultisigAt(e, w.accounts, q).owners {
      var c := Calling(CancelMetas(q, x, r, o), CancelTransaction);
      MultisigIsClear(e, w.accounts, w.history, q);
      CancelIsValid(e, q, x, r, o);
      NextOfCancel(e, w, CancelMetas(q, x, r, o));
      OneMore(e, w, c);
      SameChangesNoWrap(w.history, Continue(e, w, [c]).history);
      AfterContinues(e, s0, calls, [c]);
      ExtendedRun(e, s0, calls, [c]);
    }
  }
}
