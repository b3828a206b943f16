/**
 * Where the guarantees end. Runs, from empty accounts on, that show what the bound of 255 founding owners is for,
 * and that the vector of a pending proposal need not describe the owners after they have changed.
 */
module Limits {
  import opened Machine
  import opened State
  import opened Instructions
  import opened Layouts
  import opened Protocol
  import opened History
  import opened Invariant
  import opened Batch
  import opened Runs
  import opened Approvals
  import opened Authorisation
  import opened Lamports
  import opened Laws
  import opened Epochs
  import opened NoLockout

  // ----- accounts that a call does not name -----

  /** The call is for this program, answers nothing for others, and does not name k. */
  predicate Spares(c: Call, k: Pubkey) {
    c.Invoke? && c.outcomes == [] && forall j :: 0 <= j < |c.metas| ==> c.metas[j].pubkey != k
  }

  lemma CreateAccountSpares(e: Env, s: Accounts, payer: AccountMeta, target: AccountMeta, lamports: nat, d: Data, k: Pubkey)
    requires CreateAccount(e, s, payer, target, lamports, d).Ok? && k != payer.pubkey && k != target.pubkey
    ensures Get(e, CreateAccount(e, s, payer, target, lamports, d).value, k) == Get(e, s, k)
  {
  }

  lemma CreateSpares(e: Env, s: Accounts, metas: seq<AccountMeta>, owners: seq<Pubkey>, threshold: u8, nonce: u8, k: Pubkey)
    requires CreateMultisigStep(e, s, metas, owners, threshold, nonce).Ok? && forall j :: 0 <= j < |metas| ==> metas[j].pubkey != k
    ensures Get(e, CreateMultisigStep(e, s, metas, owners, threshold, nonce).value, k) == Get(e, s, k)
  {
    hide CreateAccount, Get;
    var m := Multisig(owners, threshold, nonce, 0, []);
    CreateAccountSpares(e, s, metas[2], metas[0], e.rent(m.Len()), MultisigData(m), k);
  }

  lemma ProposeSpares(e: Env, s: Accounts, metas: seq<AccountMeta>, ixs: seq<TransactionInstructionData>, k: Pubkey)
    requires ProposeStep(e, s, metas, ixs).Ok? && forall j :: 0 <= j < |metas| ==> metas[j].pubkey != k
    ensures Get(e, ProposeStep(e, s, metas, ixs).value, k) == Get(e, s, k)
  {
    hide CreateAccount, Get, ExpectMultisig;
    var m := ExpectMultisig(Get(e, s, metas[0].pubkey).data).value;
    var t := Transaction(metas[0].pubkey, ixs, FirstApproval(m.owners, Position(m.owners, metas[2].pubkey).value), m.ownerSetSeqno);
    CreateAccountSpares(e, s, metas[3], metas[1], e.rent(t.Len()), TransactionData(t), k);
  }

  lemma PassedSpares(e: Env, s: Accounts, metas: seq<AccountMeta>, signer: Pubkey, call: Invocation, i: MultisigInstruction, k: Pubkey)
    requires CheckPrivileges(metas, signer, call).None? && Admin(e, s, call.accounts, i).Ok?
    requires forall j :: 0 <= j < |metas| ==> metas[j].pubkey != k
    ensures Get(e, Admin(e, s, call.accounts, i).value, k) == Get(e, s, k)
  {
    assert forall j :: 0 <= j < |call.accounts| ==> Passed(metas, call.accounts[j].pubkey);
    hide CheckPrivileges, Admin;
    AdminSpares(e, s, call.accounts, i, k);
  }

  lemma InvokeSpares(e: Env, s: Accounts, metas: seq<AccountMeta>, signer: Pubkey, ix: TransactionInstructionData, k: Pubkey)
    requires InvokeSigned(e, s, metas, signer, ix, []).Ok? && forall j :: 0 <= j < |metas| ==> metas[j].pubkey != k
    ensures ix.programId == e.programId && Get(e, InvokeSigned(e, s, metas, signer, ix, []).value, k) == Get(e, s, k)
  {
    hide DecodeInstruction, ToInvocation, Admin, CheckPrivileges, Get;
    var call, s' := ToInvocation(ix, signer), InvokeSigned(e, s, metas, signer, ix, []).value;
    InvocationOfStored(ix, signer);
    var i := DecodeInstruction(call.data).value;
    assert Admin(e, s, call.accounts, i) == Ok(s') && CheckPrivileges(metas, signer, call).None?;
    hide InvokeSigned;
    PassedSpares(e, s, metas, signer, call, i, k);
  }

  lemma {:induction false} BatchSpares(e: Env, s: Accounts, metas: seq<AccountMeta>, signer: Pubkey,
                                       ixs: seq<TransactionInstructionData>, k: Pubkey)
    requires RunBatch(e, s, metas, signer, ixs, []).Ok? && forall j :: 0 <= j < |metas| ==> metas[j].pubkey != k
    ensures Get(e, RunBatch(e, s, metas, signer, ixs, []).value, k) == Get(e, s, k)
    decreases |ixs|
  {
    hide InvokeSigned, Get;
    if ixs != [] {
      InvokeSpares(e, s, metas, signer, ixs[0], k);
      BatchSpares(e, InvokeSigned(e, s, metas, signer, ixs[0], []).value, metas, signer, ixs[1..], k);
    }
  }

  lemma CloseSpares(e: Env, s: Accounts, x: Pubkey, r: Pubkey, k: Pubkey)
    requires CloseAccount(e, s, x, r).Ok? && k != x && k != r
    ensures Get(e, CloseAccount(e, s, x, r).value, k) == Get(e, s, k)
  {
  }

  lemma ExecuteSpares(e: Env, s: Accounts, metas: seq<AccountMeta>, k: Pubkey)
    requires ExecuteStep(e, s, metas, []).Ok? && forall j :: 0 <= j < |metas| ==> metas[j].pubkey != k
    ensures Get(e, ExecuteStep(e, s, metas, []).value, k) == Get(e, s, k)
  {
    hide ExecuteStep, ValidateExecute, RunBatch, CloseAccount, Get;
    ExecuteParts(e, s, metas, []);
    ExecutePassed(e, s, metas);
    var v := ValidateExecute(e, s, metas).value;
    BatchSpares(e, s, metas, v.signer, v.transaction.instructions, k);
    CloseSpares(e, RunBatch(e, s, metas, v.signer, v.transaction.instructions, []).value, v.account, v.refundee, k);
  }

  lemma CancelSpares(e: Env, s: Accounts, metas: seq<AccountMeta>, k: Pubkey)
    requires CancelStep(e, s, metas).Ok? && forall j :: 0 <= j < |metas| ==> metas[j].pubkey != k
    ensures Get(e, CancelStep(e, s, metas).value, k) == Get(e, s, k)
  {
    hide ValidateCancel, CloseAccount, Get;
    var _, _ := CancelPassed(e, s, metas);
    CloseSpares(e, s, metas[1].pubkey, metas[2].pubkey, k);
  }

  lemma ApproveSpares(e: Env, s: Accounts, metas: seq<AccountMeta>, k: Pubkey)
    requires ApproveStep(e, s, metas).Ok? && forall j :: 0 <= j < |metas| ==> metas[j].pubkey != k
    ensures Get(e, ApproveStep(e, s, metas).value, k) == Get(e, s, k)
  {
    hide ApproveStep;
    var m, t := ApprovePassed(e, s, metas);
  }

  lemma AdminSpares(e: Env, s: Accounts, metas: seq<AccountMeta>, i: MultisigInstruction, k: Pubkey)
    requires Admin(e, s, metas, i).Ok? && forall j :: 0 <= j < |metas| ==> metas[j].pubkey != k
    ensures Get(e, Admin(e, s, metas, i).value, k) == Get(e, s, k)
  {
    assert i.SetOwners? || i.ChangeThreshold? || i.SetOwnersAndChangeThreshold?;
    hide Admin, Authorise, Refusal;
    AdminIs(e, s, metas, i);
    AuthorisedBy(e, s, metas);
  }

  /** An account that a call does not name is exactly as before, balance included. */
  lemma UnnamedUntouched(e: Env, w: World, c: Call, k: Pubkey)
    requires Spares(c, k)
    ensures Get(e, Next(e, w, c).accounts, k) == Get(e, w.accounts, k)
  {
    hide Next, Get, Accepted, CreateMultisigStep, ProposeStep, ApproveStep, ExecuteStep, CancelStep, Admin;
    NextCases(e, w, c);
    if i :| Accepted(e, w, c, i) {
      DispatchOf(e, w, c, i);
      NextOfAccepted(e, w, c, i);
      match i
      case CreateMultisig(owners, threshold, nonce) => CreateSpares(e, w.accounts, c.metas, owners, threshold, nonce, k);
      case ProposeTransaction(ixs) => ProposeSpares(e, w.accounts, c.metas, ixs, k);
      case ApproveTransaction => ApproveSpares(e, w.accounts, c.metas, k);
      case ExecuteTransaction => ExecuteSpares(e, w.accounts, c.metas, k);
      case CancelTransaction => CancelSpares(e, w.accounts, c.metas, k);
      case _ => AdminSpares(e, w.accounts, c.metas, i, k);
    }
  }

  lemma {:induction false} UnnamedThroughout(e: Env, w: World, calls: seq<Call>, k: Pubkey)
    requires forall c :: c in calls ==> Spares(c, k)
    ensures Get(e, Continue(e, w, calls).accounts, k) == Get(e, w.accounts, k)
    decreases |calls|
  {
    hide Next, Get, Spares;
    if calls != [] {
      UnnamedUntouched(e, w, calls[0], k);
      UnnamedThroughout(e, Next(e, w, calls[0]), calls[1..], k);
    }
  }

  /** An address that has no part in a plan's proposal and approvals. */
  predicate ApartFromVotes(e: Env, p: Plan, k: Pubkey) {
    k !in p.approvers && k != p.multisig && k != p.account && k != p.payer && k != e.systemId
  }

  /** An address that has no part in a plan. */
  predicate Apart(e: Env, p: Plan, k: Pubkey) {
    ApartFromVotes(e, p, k) && k != p.signer && k != e.programId
  }

  lemma ProposeCallSpares(e: Env, p: Plan, k: Pubkey, i: MultisigInstruction)
    requires p.approvers != [] && ApartFromVotes(e, p, k)
    ensures Spares(Calling(ProposeMetas(e, p), i), k)
  {
    hide EncodeInstruction;
    assert p.approvers[0] in p.approvers;
  }

  lemma ApproveCallSpares(e: Env, p: Plan, k: Pubkey, j: nat, i: MultisigInstruction)
    requires j < |p.approvers| && ApartFromVotes(e, p, k)
    ensures Spares(Calling(ApproveMetas(p.multisig, p.account, p.approvers[j]), i), k)
  {
    hide EncodeInstruction;
    assert p.approvers[j] in p.approvers;
  }

  lemma ExecuteCallSpares(e: Env, p: Plan, k: Pubkey, i: MultisigInstruction)
    requires p.approvers != [] && Apart(e, p, k)
    ensures Spares(Calling(ExecuteMetas(e, p), i), k)
  {
    hide EncodeInstruction;
    assert p.approvers[0] in p.approvers;
  }

  lemma PreludeSpares(e: Env, p: Plan, k: Pubkey, j: nat)
    requires p.approvers != [] && ApartFromVotes(e, p, k) && j < |Prelude(e, p)|
    ensures Spares(Prelude(e, p)[j], k)
  {
    hide Calling, Spares, ProposeMetas, ApproveMetas, ApartFromVotes;
    if j == 0 {
      ProposeCallSpares(e, p, k, ProposeTransaction([p.change]));
    } else {
      assert Prelude(e, p)[j] == Calling(ApproveMetas(p.multisig, p.account, p.approvers[j - 1]), ApproveTransaction);
      ApproveCallSpares(e, p, k, j - 1, ApproveTransaction);
    }
  }

  lemma PreludeAllSpare(e: Env, p: Plan, k: Pubkey)
    requires p.approvers != [] && ApartFromVotes(e, p, k)
    ensures forall c :: c in Prelude(e, p) ==> Spares(c, k)
  {
    hide Spares, ApartFromVotes, Prelude;
    forall c | c in Prelude(e, p) ensures Spares(c, k) {
      var j :| 0 <= j < |Prelude(e, p)| && Prelude(e, p)[j] == c;
      PreludeSpares(e, p, k, j);
    }
  }

  lemma PlanSpares(e: Env, p: Plan, k: Pubkey)
    requires p.approvers != [] && Apart(e, p, k)
    ensures forall c :: c in PlanCalls(e, p) ==> Spares(c, k)
    ensures forall c :: c in Prelude(e, p) ==> Spares(c, k)
  {
    hide Calling, Spares, ExecuteMetas, ApartFromVotes, Prelude, PlanCalls, After, Next;
    PreludeAllSpare(e, p, k);
    LastCall(e, map[], [], p);
    ExecuteCallSpares(e, p, k, ExecuteTransaction);
  }

  /** A plan's proposal and approvals leave alone who has no part in them. */
  lemma VotesLeave(e: Env, s0: Accounts, calls: seq<Call>, p: Plan, k: Pubkey)
    requires p.approvers != [] && ApartFromVotes(e, p, k)
    ensures Get(e, After(e, s0, calls + Prelude(e, p)).accounts, k) == Get(e, After(e, s0, calls).accounts, k)
  {
    hide After, Continue, Prelude, Spares, Get, ApartFromVotes;
    PreludeAllSpare(e, p, k);
    AfterContinues(e, s0, calls, Prelude(e, p));
    UnnamedThroughout(e, After(e, s0, calls), Prelude(e, p), k);
  }

  lemma PlanLeaves(e: Env, s0: Accounts, calls: seq<Call>, p: Plan, k: Pubkey)
    requires p.approvers != [] && Apart(e, p, k)
    ensures Get(e, After(e, s0, calls + PlanCalls(e, p)).accounts, k) == Get(e, After(e, s0, calls).accounts, k)
    ensures Get(e, After(e, s0, calls + Prelude(e, p)).accounts, k) == Get(e, After(e, s0, calls).accounts, k)
  {
    hide After, Continue, PlanCalls, Prelude, Spares, Get;
    PlanSpares(e, p, k);
    AfterContinues(e, s0, calls, PlanCalls(e, p));
    AfterContinues(e, s0, calls, Prelude(e, p));
    UnnamedThroughout(e, After(e, s0, calls), PlanCalls(e, p), k);
    UnnamedThroughout(e, After(e, s0, calls), Prelude(e, p), k);
  }

  // ----- the stage: an environment and addresses -----

  /** The address whose first two bytes are i, the third 1, the rest zero. */
  function Numbered(i: nat): Pubkey
    requires i < 0x1_0000
  {
    [i % 0x100, i / 0x100, 1] + seq(29, _ => 0)
  }

  lemma NumberedDistinct(i: nat, j: nat)
    requires i < 0x1_0000 && j < 0x1_0000 && i != j
    ensures Numbered(i) != Numbered(j)
  {
    assert Numbered(i)[0] == i % 0x100 && Numbered(i)[1] == i / 0x100;
    assert Numbered(j)[0] == j % 0x100 && Numbered(j)[1] == j / 0x100;
  }

  /** The system program is number 0, this one 1; number 2 is a multisig whose derived signer is number 3. Rent is free. */
  function Stage(): Env {
    Env(Numbered(1), Numbered(0),
      (k: Pubkey, n: u8) => if k == Numbered(2) && n == 0 then Some(Numbered(3)) else None,
      (n: nat) => 0)
  }

  function Owner(i: nat): Pubkey
    requires i < 1000
  {
    Numbered(1000 + i)
  }

  /** At first only the derived signer has money. */
  function Start(): Accounts {
    map[Numbered(3) := Account(Stage().systemId, 1000, Plain([]))]
  }

  /** Owners 0 to n - 1. */
  function FirstOwners(n: nat): seq<Pubkey>
    requires n <= 1000
  {
    seq(n, i requires 0 <= i < n => Owner(i))
  }

  lemma StageHasKeys(i: nat)
    requires i < 0x1_0000 && i != 3
    ensures !Keyless(Stage(), Numbered(i))
  {
    hide Numbered;
    NumberedDistinct(3, i);
  }

  lemma NumberedIsClear(i: nat)
    requires i < 0x1_0000
    ensures Clear(Numbered(i), MAX_CREATED_DATA)
  {
  }

  lemma StageFacts()
    ensures ValidEnv(Stage()) && Run(Stage(), Start(), [])
    ensures Stage().pda(Numbered(2), 0) == Some(Numbered(3))
    ensures forall i: nat :: 4 <= i < 0x1_0000 ==> !Keyless(Stage(), Numbered(i))
    ensures !Keyless(Stage(), Numbered(2)) && Clear(Numbered(2), MAX_CREATED_DATA)
  {
    hide Numbered, Keyless, Clear;
    NumberedDistinct(0, 1);
    NumberedIsClear(2);
    StageHasKeys(2);
    forall i: nat | 4 <= i < 0x1_0000 ensures !Keyless(Stage(), Numbered(i)) {
      StageHasKeys(i);
    }
  }

  lemma OwnersFacts(n: nat)
    requires n <= 1000
    ensures |FirstOwners(n)| == n && Distinct(FirstOwners(n))
    ensures forall i :: 0 <= i < n ==> FirstOwners(n)[i] == Owner(i)
    ensures forall o :: o in FirstOwners(n) ==> !Keyless(Stage(), o)
  {
    StageFacts();
    hide Keyless, Stage, Numbered, Run;
    forall i, j | 0 <= i < j < n ensures FirstOwners(n)[i] != FirstOwners(n)[j] {
      NumberedDistinct(1000 + i, 1000 + j);
    }
    forall o | o in FirstOwners(n) ensures !Keyless(Stage(), o) {
      var i :| 0 <= i < n && FirstOwners(n)[i] == o;
      assert o == Numbered(1000 + i);
    }
  }

  /** Nothing has touched the numbered address. */
  ghost predicate Untouched(s: Accounts, i: nat)
    requires i < 0x1_0000
  {
    Get(Stage(), s, Numbered(i)) == Account(Stage().systemId, 0, Plain([]))
  }

  /** Such an address can be used to create at, or to pay with. */
  lemma UntouchedSupplies(s: Accounts, i: nat, j: nat)
    requires 2 <= i < 1000 && 4 <= j < 1000 && i != j && i != 3 && Untouched(s, i) && Untouched(s, j)
    ensures Supplied(Stage(), s, Numbered(i), Numbered(j))
  {
    StageFacts();
    NumberedDistinct(i, j);
    hide Keyless, Numbered, Run, ValidEnv;
  }

  /** The accounts after a run on the stage. */
  ghost function Played(calls: seq<Call>): Accounts {
    After(Stage(), Start(), calls).accounts
  }

  /** After the calls, a run, the multisig is m and the addresses from `free` on are untouched. */
  ghost predicate Stands(calls: seq<Call>, m: Multisig, free: nat) {
    && Run(Stage(), Start(), calls) && HasConfig(Stage(), Played(calls), Numbered(2), m)
    && m.nonce == 0 && 4 <= free
    && forall i: nat :: free <= i < 1000 ==> Untouched(Played(calls), i)
  }

  function FoundingCall(n: nat, threshold: u8): Call
    requires n <= 1000
  {
    CreateCall(Stage(), Numbered(2), Numbered(3), Numbered(4), FirstOwners(n), threshold, 0)
  }

  lemma FoundingSpares(n: nat, threshold: u8, i: nat)
    requires n <= 1000 && 5 <= i < 1000
    ensures Spares(FoundingCall(n, threshold), Numbered(i))
  {
    hide Numbered, FirstOwners, EncodeInstruction;
    NumberedDistinct(i, 2);
    NumberedDistinct(i, 3);
    NumberedDistinct(i, 4);
    NumberedDistinct(i, 0);
  }

  lemma FoundedConfig(n: nat, threshold: u8)
    requires 14 + PUBKEY_BYTES * n <= MAX_CREATED_DATA && 1 <= threshold <= AsU8(n)
    ensures Run(Stage(), Start(), [FoundingCall(n, threshold)])
    ensures Get(Stage(), Played([FoundingCall(n, threshold)]), Numbered(3)) == Account(Stage().systemId, 1000, Plain([]))
    ensures HasConfig(Stage(), Played([FoundingCall(n, threshold)]), Numbered(2), Multisig(FirstOwners(n), threshold, 0, 0, []))
  {
    hide Run, Supplied, Numbered, FirstOwners, Keyless, Distinct, After, ValidEnv, Stage, Untouched, Get, HasConfig, CreateCall, Clear;
    StageFacts();
    OwnersFacts(n);
    NothingYet();
    UntouchedSupplies(Start(), 2, 4);
    FoundingSucceeds(Stage(), Start(), [], Numbered(2), Numbered(3), Numbered(4), FirstOwners(n), threshold, 0);
    assert [] + [FoundingCall(n, threshold)] == [FoundingCall(n, threshold)];
    NumberedDistinct(3, 2);
    NumberedDistinct(3, 4);
  }

  lemma Founded(n: nat, threshold: u8)
    requires 14 + PUBKEY_BYTES * n <= MAX_CREATED_DATA && 1 <= threshold <= AsU8(n)
    ensures Stands([FoundingCall(n, threshold)], Multisig(FirstOwners(n), threshold, 0, 0, []), 5)
  {
    hide Run, Numbered, FirstOwners, FoundingCall, Stage, Untouched, HasConfig, Played;
    FoundedConfig(n, threshold);
    forall i: nat | 5 <= i < 1000 ensures Untouched(Played([FoundingCall(n, threshold)]), i) {
      FoundingLeaves(n, threshold, i);
    }
  }

  lemma FoundingLeaves(n: nat, threshold: u8, i: nat)
    requires n <= 1000 && 5 <= i < 1000
    ensures Untouched(Played([FoundingCall(n, threshold)]), i)
  {
    hide Numbered, FoundingCall, Spares, Stage, Continue, After, Start;
    FoundingSpares(n, threshold, i);
    NothingYet();
    assert Untouched(Start(), i);
    AfterContinues(Stage(), Start(), [], [FoundingCall(n, threshold)]);
    assert [] + [FoundingCall(n, threshold)] == [FoundingCall(n, threshold)];
    UnnamedThroughout(Stage(), After(Stage(), Start(), []), [FoundingCall(n, threshold)], Numbered(i));
  }

  lemma NothingYet()
    ensures After(Stage(), Start(), []).accounts == Start()
    ensures forall i: nat :: i < 0x1_0000 && i != 3 ==> Untouched(Start(), i)
    ensures Total(Start()) == 1000 && Get(Stage(), Start(), Numbered(3)) == Account(Stage().systemId, 1000, Plain([]))
  {
    hide Numbered;
    forall i: nat | i < 0x1_0000 && i != 3 ensures Untouched(Start(), i) {
      NumberedDistinct(3, i);
    }
    assert Start() - {Numbered(3)} == map[];
    TotalRemove(Start(), Numbered(3));
  }

  // ----- a plan on the stage -----

  /** Some of the numbered owners ask for i, at address x, paid by the next address. */
  function StagePlan(x: nat, approvers: seq<Pubkey>, i: MultisigInstruction): Plan
    requires x < 999
  {
    PlanFor(Stage(), Numbered(2), Numbered(3), Numbered(x), Numbered(x + 1), approvers, i)
  }

  lemma PlanApart(x: nat, approvers: seq<Pubkey>, i: MultisigInstruction, j: nat)
    requires 4 <= x < 999 && 4 <= j < 1000 && j != x && j != x + 1
    requires forall o :: o in approvers ==> o in FirstOwners(1000)
    ensures Apart(Stage(), StagePlan(x, approvers, i), Numbered(j))
  {
    hide Numbered, EncodeInstruction;
    forall o | o in approvers ensures o != Numbered(j) {
      var n :| 0 <= n < 1000 && FirstOwners(1000)[n] == o;
      NumberedDistinct(1000 + n, j);
    }
    NumberedDistinct(j, 2);
    NumberedDistinct(j, 3);
    NumberedDistinct(j, x);
    NumberedDistinct(j, x + 1);
    NumberedDistinct(j, 0);
    NumberedDistinct(j, 1);
  }

  /** What the plan needs of the configuration m. */
  ghost predicate Ready(m: Multisig, approvers: seq<Pubkey>, i: MultisigInstruction) {
    && Distinct(approvers) && approvers != []
    && (forall o :: o in approvers ==> o in m.owners && o in FirstOwners(1000))
    && WritableInstruction(i) && Refusal(m, i).None?
    && 152 + |EncodeInstruction(i)| + |m.owners| <= MAX_CREATED_DATA
  }

  lemma StageFeasible(calls: seq<Call>, m: Multisig, x: nat, approvers: seq<Pubkey>, i: MultisigInstruction)
    requires x < 999 && Stands(calls, m, x) && Ready(m, approvers, i)
    ensures Feasible(Stage(), Played(calls), StagePlan(x, approvers, i)) && Asks(Stage(), StagePlan(x, approvers, i), i)
    ensures Changes(After(Stage(), Start(), calls).history, Numbered(2)) == m.ownerSetSeqno
  {
    hide Inv, Run, After, Supplied, Feasible, Numbered, FirstOwners, Keyless, Distinct, EncodeInstruction, WritableInstruction, Refusal, Untouched;
    var w := After(Stage(), Start(), calls);
    StageFacts();
    OwnersFacts(1000);
    RunEnd(Stage(), Start(), calls);
    UntouchedSupplies(w.accounts, x, x + 1);
    SeqnoCounts(Stage(), w.accounts, w.history, Numbered(2));
    var p := PlanForIsFeasible(Stage(), w.accounts, w.history, Numbered(2), Numbered(x), Numbered(x + 1), approvers, i);
  }

  lemma StageLeaves(calls: seq<Call>, m: Multisig, x: nat, approvers: seq<Pubkey>, i: MultisigInstruction, j: nat)
    requires 4 <= x < 999 && 4 <= j < 1000 && j != x && j != x + 1 && Ready(m, approvers, i)
    ensures Get(Stage(), Played(calls + PlanCalls(Stage(), StagePlan(x, approvers, i))), Numbered(j)) == Get(Stage(), Played(calls), Numbered(j))
    ensures Get(Stage(), Played(calls + Prelude(Stage(), StagePlan(x, approvers, i))), Numbered(j)) == Get(Stage(), Played(calls), Numbered(j))
  {
    hide Get, After, Prelude, PlanCalls, Apart, Numbered, FirstOwners;
    PlanApart(x, approvers, i, j);
    PlanLeaves(Stage(), Start(), calls, StagePlan(x, approvers, i), Numbered(j));
  }

  /** Enough approvers bring about the change. */
  lemma StageGoal(calls: seq<Call>, m: Multisig, x: nat, approvers: seq<Pubkey>, i: MultisigInstruction)
    requires x < 998 && Stands(calls, m, x) && Ready(m, approvers, i)
    requires AsU8(|approvers|) >= m.threshold && m.ownerSetSeqno + 1 < TWO_32
    ensures Stands(calls + PlanCalls(Stage(), StagePlan(x, approvers, i)), Changed(m, i), x + 2)
  {
    hide Run, After, Feasible, Numbered, PlanCalls, FirstOwners, Changed;
    var p := StagePlan(x, approvers, i);
    StageFeasible(calls, m, x, approvers, i);
    NothingYet();
    GoalIsReached(Stage(), Start(), calls, p, i);
    ChangedNonce(m, i);
    forall j: nat | x + 2 <= j < 1000 ensures Untouched(Played(calls + PlanCalls(Stage(), p)), j) {
      StageLeaves(calls, m, x, approvers, i, j);
      assert Untouched(Played(calls), j);
    }
  }

  lemma ChangedNonce(m: Multisig, i: MultisigInstruction)
    requires Refusal(m, i).None?
    ensures Changed(m, i).nonce == m.nonce
  {
  }

  /** Only the group, the new account and the payer sign a plan. */
  lemma PlanSigners(e: Env, p: Plan, c: Call, j: nat)
    requires p.approvers != [] && c in PlanCalls(e, p) && c.Invoke? && j < |c.metas| && c.metas[j].isSigner
    ensures c.metas[j].pubkey in p.approvers || c.metas[j].pubkey == p.account || c.metas[j].pubkey == p.payer
  {
    hide EncodeInstruction;
    var calls := PlanCalls(e, p);
    var n :| 0 <= n < |calls| && calls[n] == c;
    if 0 < n < |calls| - 1 {
      assert c == Calling(ApproveMetas(p.multisig, p.account, p.approvers[n - 1]), ApproveTransaction);
    }
  }

  // ----- 256 owners -----

  lemma OwnersNest(n: nat, k: nat, o: Pubkey)
    requires n <= k <= 1000 && o in FirstOwners(n)
    ensures o in FirstOwners(k)
  {
    hide Owner;
    var i :| 0 <= i < n && FirstOwners(n)[i] == o;
    assert o == FirstOwners(k)[i];
  }

  lemma GroupNests(n: nat, k: nat)
    requires 1 <= n <= k <= 1000
    ensures Distinct(FirstOwners(n)) && |FirstOwners(n)| == n && FirstOwners(n) != []
    ensures forall o :: o in FirstOwners(n) ==> o in FirstOwners(k) && o in FirstOwners(1000)
  {
    OwnersFacts(n);
    hide FirstOwners, Keyless, Stage, Distinct;
    forall o | o in FirstOwners(n) ensures o in FirstOwners(k) && o in FirstOwners(1000) {
      OwnersNest(n, k, o);
      OwnersNest(n, 1000, o);
    }
  }

  /** A list within the capacity is accepted. */
  lemma ListAccepted(m: Multisig, list: seq<Pubkey>)
    requires Distinct(list) && 1 <= |list| <= 256 && PUBKEY_BYTES * |list| <= Capacity(m) && m.ownerSetSeqno == 0
    ensures var i := SetOwners(list);
      && Refusal(m, i).None? && WritableInstruction(i) && |EncodeInstruction(i)| <= 8197
      && Changed(m, i).owners == list && Changed(m, i).ownerSetSeqno == 1
      && Changed(m, i).threshold == if AsU8(|list|) < m.threshold then AsU8(|list|) else m.threshold
  {
    UniqueIsDistinct(list);
    hide EncodeInstruction, WritableInstruction, Distinct, AllUnique;
    SetOwnersWritable(list);
  }

  lemma ShrinkIsReady(n: nat, k: nat, threshold: u8, votes: nat)
    requires 1 <= k <= n <= 300 && k <= 256 && 1 <= votes <= n
    ensures var m := Multisig(FirstOwners(n), threshold, 0, 0, []);
      && Ready(m, FirstOwners(votes), SetOwners(FirstOwners(k)))
      && var m' := Changed(m, SetOwners(FirstOwners(k)));
         m'.owners == FirstOwners(k) && m'.threshold == (if AsU8(k) < threshold then AsU8(k) else threshold) && m'.ownerSetSeqno == 1
  {
    hide EncodeInstruction, WritableInstruction, Distinct, FirstOwners, Refusal, Changed;
    GroupNests(k, n);
    GroupNests(votes, n);
    GroupNests(n, 1000);
    ListAccepted(Multisig(FirstOwners(n), threshold, 0, 0, []), FirstOwners(k));
  }

  lemma OneOwner()
    ensures FirstOwners(1) == [Owner(0)]
  {
    hide Owner;
  }

  lemma TakeoverIsReady(m: Multisig)
    requires m.owners == FirstOwners(256)
    ensures Ready(m, FirstOwners(1), SetOwnersAndChangeThreshold(FirstOwners(1), 1))
    ensures var m' := Changed(m, SetOwnersAndChangeThreshold(FirstOwners(1), 1)); m'.owners == [Owner(0)] && m'.threshold == 1
  {
    hide EncodeInstruction, WritableInstruction, Distinct, FirstOwners, Owner;
    GroupNests(1, 256);
    GroupNests(256, 1000);
    OneOwner();
    UniqueIsDistinct(FirstOwners(1));
    CombinedWritable(FirstOwners(1), 1);
    hide AllUnique;
  }

  /** After the calls the multisig has the first n owners and the given threshold. */
  ghost predicate HasTeam(calls: seq<Call>, n: nat, threshold: u8)
    requires n <= 1000
  {
    exists m :: HasConfig(Stage(), Played(calls), Numbered(2), m) && m.owners == FirstOwners(n) && m.threshold == threshold
  }

  /** All signers of the calls are one of the numbered owners, or one of two other numbered addresses. */
  ghost predicate SignedBy(calls: seq<Call>, o: nat, x: nat)
    requires o < 1000 && x < 1000
  {
    forall c, j: nat :: c in calls && c.Invoke? && j < |c.metas| && c.metas[j].isSigner ==>
      c.metas[j].pubkey == Owner(o) || c.metas[j].pubkey == Numbered(x) || c.metas[j].pubkey == Numbered(x + 1)
  }

  lemma PlanOfOne(x: nat, i: MultisigInstruction)
    requires x < 999
    ensures SignedBy(PlanCalls(Stage(), StagePlan(x, FirstOwners(1), i)), 0, x)
  {
    hide Numbered, Owner, Stage, PlanCalls, FirstOwners;
    OneOwner();
    var p := StagePlan(x, FirstOwners(1), i);
    forall c, j: nat | c in PlanCalls(Stage(), p) && c.Invoke? && j < |c.metas| && c.metas[j].isSigner
      ensures c.metas[j].pubkey == Owner(0) || c.metas[j].pubkey == Numbered(x) || c.metas[j].pubkey == Numbered(x + 1)
    {
      PlanSigners(Stage(), p, c, j);
    }
  }

  lemma TeamStands(calls: seq<Call>, m: Multisig, free: nat, n: nat)
    requires Stands(calls, m, free) && n <= 1000 && m.owners == FirstOwners(n)
    ensures HasTeam(calls, n, m.threshold) && Run(Stage(), Start(), calls)
  {
    hide Run, Played, FirstOwners, Stage, Numbered, Untouched;
  }

  /**
   * Why the bound of 255 founding owners is needed for the threshold. On the stage, 258 owners found a multisig with
   * threshold 2; two of them have the first 256 made its owners, and the clamp leaves the threshold at 0. From then on
   * one owner is enough: the calls in `more`, signed by owner 0, a payer and the new account only, make owner 0 the
   * sole owner.
   */
  lemma WideMultisigLosesItsThreshold() returns (calls: seq<Call>, more: seq<Call>)
    ensures Run(Stage(), Start(), calls) && calls != [] && calls[0] == FoundingCall(258, 2)
    ensures HasTeam(calls, 256, 0)
    ensures Run(Stage(), Start(), calls + more) && HasTeam(calls + more, 1, 1) && SignedBy(more, 0, 7)
  {
    hide Run, Numbered, PlanCalls, FirstOwners, Owner, Stage, EncodeInstruction, FoundingCall, Played, Changed, Refusal, Distinct, Stands, HasTeam, SignedBy, WritableInstruction;
    var m := Multisig(FirstOwners(258), 2, 0, 0, []);
    var shrink, take := SetOwners(FirstOwners(256)), SetOwnersAndChangeThreshold(FirstOwners(1), 1);
    Founded(258, 2);
    ShrinkIsReady(258, 256, 2, 2);
    GroupNests(2, 256);
    GroupNests(1, 256);
    OneOwner();
    StageGoal([FoundingCall(258, 2)], m, 5, FirstOwners(2), shrink);
    calls := [FoundingCall(258, 2)] + PlanCalls(Stage(), StagePlan(5, FirstOwners(2), shrink));
    var m1 := Changed(m, shrink);
    TeamStands(calls, m1, 7, 256);
    TakeoverIsReady(m1);
    StageGoal(calls, m1, 7, FirstOwners(1), take);
    more := PlanCalls(Stage(), StagePlan(7, FirstOwners(1), take));
    TeamStands(calls + more, Changed(m1, take), 9, 1);
    PlanOfOne(7, take);
  }

  /**
   * Why it is needed for the approval count. On the stage, 256 of the 258 owners of a multisig with threshold 2
   * approve a proposal, and execution refuses it for want of approvals.
   */
  lemma CountWrapsAt256() returns (calls: seq<Call>, metas: seq<AccountMeta>)
    ensures Run(Stage(), Start(), calls) && |metas| >= 5
    ensures IsMultisig(Stage(), Played(calls), metas[0].pubkey) && IsTransaction(Stage(), Played(calls), metas[2].pubkey)
    ensures var m, t := MultisigAt(Stage(), Played(calls), metas[0].pubkey), TransactionAt(Stage(), Played(calls), metas[2].pubkey);
      && m.threshold == 2 && |Approvers(m.owners, t.signers)| == 256
      && ValidateExecute(Stage(), Played(calls), metas) == Err(NotEnoughSigners)
  {
    var m := Multisig(FirstOwners(258), 2, 0, 0, []);
    var p := StagePlan(5, FirstOwners(256), SetOwners(FirstOwners(1)));
    calls := [FoundingCall(258, 2)] + Prelude(Stage(), p);
    metas := ExecuteMetas(Stage(), p);
    hide Run, After, Numbered, Prelude, FirstOwners, Ready, Stage, EncodeInstruction, FoundingCall, ValidateExecute, ExecuteMetas, Stands;
    hide Changed, Refusal, Distinct, Approvers, StagePlan;
    Founded(258, 2);
    ShrinkIsReady(258, 1, 2, 256);
    GroupNests(256, 258);
    DistinctSetSize(FirstOwners(256));
    VotedOnStage([FoundingCall(258, 2)], m, 5, FirstOwners(256), SetOwners(FirstOwners(1)));
  }

  /** The state in which a group has voted for i, at address x. */
  lemma VotedOnStage(calls: seq<Call>, m: Multisig, x: nat, approvers: seq<Pubkey>, i: MultisigInstruction)
    requires x < 999 && Stands(calls, m, x) && Ready(m, approvers, i)
    ensures var p := StagePlan(x, approvers, i);
      var all, metas := calls + Prelude(Stage(), p), ExecuteMetas(Stage(), p);
      && Run(Stage(), Start(), all) && |metas| >= 5
      && metas[0].pubkey == Numbered(2) && metas[2].pubkey == Numbered(x)
      && HasConfig(Stage(), Played(all), Numbered(2), m)
      && IsTransaction(Stage(), Played(all), Numbered(x))
      && var t := TransactionAt(Stage(), Played(all), Numbered(x));
      && t.multisig == Numbered(2) && t.ownerSetSeqno == m.ownerSetSeqno && |t.signers| == |m.owners|
      && Approvers(m.owners, t.signers) == (set o | o in approvers)
      && (AsU8(|approvers|) < m.threshold ==> ValidateExecute(Stage(), Played(all), metas) == Err(NotEnoughSigners))
  {
    var p := StagePlan(x, approvers, i);
    StageFeasible(calls, m, x, approvers, i);
    ExecuteNames(p);
    hide Run, After, Numbered, Prelude, Ready, Stage, EncodeInstruction, Feasible, CountTrue, ValidateExecute, ExecuteMetas, Voted;
    hide Approvers, IsTransaction, TransactionAt, PlanFor;
    var t := VotesAreCast(Stage(), Start(), calls, p);
    PlanParts(x, approvers, i);
    VotedFacts(Stage(), After(Stage(), Start(), calls + Prelude(Stage(), p)).accounts, p, m, t);
  }

  lemma ExecuteNames(p: Plan)
    requires p.approvers != []
    ensures var metas := ExecuteMetas(Stage(), p);
      |metas| >= 5 && metas[0].pubkey == p.multisig && metas[2].pubkey == p.account
  {
  }

  lemma PlanParts(x: nat, approvers: seq<Pubkey>, i: MultisigInstruction)
    requires x < 999
    ensures var p := StagePlan(x, approvers, i);
      p.multisig == Numbered(2) && p.account == Numbered(x) && p.approvers == approvers
  {
  }

  lemma VotedFacts(e: Env, s: Accounts, p: Plan, m: Multisig, t: Transaction)
    requires Voted(e, s, p, m, t)
    ensures HasConfig(e, s, p.multisig, m) && IsTransaction(e, s, p.account) && TransactionAt(e, s, p.account) == t
    ensures t.multisig == p.multisig && t.ownerSetSeqno == m.ownerSetSeqno && |t.signers| == |m.owners|
    ensures Approvers(m.owners, t.signers) == set o | o in p.approvers
  {
    hide CountTrue, Approvers;
  }

  // ----- the vector of a stale proposal -----

  /** The two owners in the other order. */
  function Swapped(): seq<Pubkey> {
    [Owner(1), Owner(0)]
  }

  lemma TwoOwners()
    ensures FirstOwners(2) == [Owner(0), Owner(1)] && Owner(0) != Owner(1)
  {
    OwnersFacts(2);
    hide Owner, Keyless, Stage;
    assert FirstOwners(2)[0] == Owner(0) && FirstOwners(2)[1] == Owner(1);
  }

  lemma SwapIsReady(m: Multisig)
    requires m == Multisig(FirstOwners(2), 1, 0, 0, [])
    ensures Ready(m, FirstOwners(1), SetOwners(Swapped()))
    ensures var m' := Changed(m, SetOwners(Swapped())); m'.owners == Swapped() && m'.ownerSetSeqno == 1
  {
    hide EncodeInstruction, WritableInstruction, FirstOwners, Owner, Refusal, Changed;
    GroupNests(1, 2);
    GroupNests(2, 1000);
    TwoOwners();
    assert Distinct(Swapped());
    hide Distinct;
    ListAccepted(m, Swapped());
  }

  /** The votes leave the addresses beyond the plan's untouched. */
  lemma StandsAfterVotes(calls: seq<Call>, m: Multisig, x: nat, approvers: seq<Pubkey>, i: MultisigInstruction)
    requires x < 998 && Stands(calls, m, x) && Ready(m, approvers, i)
    ensures Stands(calls + Prelude(Stage(), StagePlan(x, approvers, i)), m, x + 2)
  {
    hide Run, After, Numbered, Prelude, FirstOwners, Stage, Refusal, WritableInstruction, EncodeInstruction, Distinct;
    VotedOnStage(calls, m, x, approvers, i);
    var all := calls + Prelude(Stage(), StagePlan(x, approvers, i));
    forall j: nat | x + 2 <= j < 1000 ensures Untouched(Played(all), j) {
      StageLeaves(calls, m, x, approvers, i, j);
      assert Untouched(Played(calls), j);
    }
  }

  /** After the votes at x, another change at a later address leaves the transaction at x as it is. */
  lemma StaleStays(calls: seq<Call>, m: Multisig, x: nat, y: nat, approvers: seq<Pubkey>, i: MultisigInstruction)
    requires 4 <= x < y < 998 && Stands(calls, m, y) && Ready(m, approvers, i)
    requires AsU8(|approvers|) >= m.threshold && m.ownerSetSeqno + 1 < TWO_32 && IsTransaction(Stage(), Played(calls), Numbered(x))
    ensures var all := calls + PlanCalls(Stage(), StagePlan(y, approvers, i));
      && Stands(all, Changed(m, i), y + 2)
      && IsTransaction(Stage(), Played(all), Numbered(x))
      && TransactionAt(Stage(), Played(all), Numbered(x)) == TransactionAt(Stage(), Played(calls), Numbered(x))
  {
    hide Stands, After, Numbered, PlanCalls, FirstOwners, Ready, Stage, Changed, Get, Played;
    StageGoal(calls, m, y, approvers, i);
    StageLeaves(calls, m, y, approvers, i, x);
  }

  /** The owners before the proposing call p, when a later state of the same sequence number has the owners of m. */
  lemma OwnersBefore(e: Env, s0: Accounts, calls: seq<Call>, more: seq<Call>, p: nat, q: Pubkey, m: Multisig)
    requires Run(e, s0, calls + more) && HasConfig(e, After(e, s0, calls).accounts, q, m) && p < |calls + more|
    requires IsMultisig(e, At(e, s0, calls + more, p).accounts, q)
    requires MultisigAt(e, At(e, s0, calls + more, p).accounts, q).ownerSetSeqno == m.ownerSetSeqno
    ensures MultisigAt(e, At(e, s0, calls + more, p).accounts, q).owners == m.owners
  {
    assert (calls + more)[..|calls|] == calls;
    hide Run, After;
    SameSeqnoSameOwners(e, s0, calls + more, p, |calls|, q);
  }

  lemma FlaggedApproves(owners: seq<Pubkey>, signers: seq<bool>, i: nat)
    requires i < |owners| == |signers|
    ensures signers[i] ==> owners[i] in Approvers(owners, signers)
  {
  }

  lemma OnlyTheFirst(signers: seq<bool>)
    requires |signers| == 2 && Approvers(FirstOwners(2), signers) == {Owner(0)}
    ensures signers == [true, false] && Owner(0) != Owner(1) && FirstOwners(2) == [Owner(0), Owner(1)]
  {
    hide Owner, FirstOwners;
    TwoOwners();
    var i :| 0 <= i < 2 && signers[i] && FirstOwners(2)[i] == Owner(0);
    assert i == 0;
    FlaggedApproves(FirstOwners(2), signers, 1);
  }

  /** Who has signed, when the transaction was proposed under the owners of m. */
  lemma SignersBefore(e: Env, s0: Accounts, calls: seq<Call>, more: seq<Call>, x: Pubkey, q: Pubkey, m: Multisig)
    requires Run(e, s0, calls + more) && HasConfig(e, After(e, s0, calls).accounts, q, m)
    requires var n := |calls + more|;
      && IsTransaction(e, At(e, s0, calls + more, n).accounts, x)
      && TransactionAt(e, At(e, s0, calls + more, n).accounts, x).multisig == q
      && TransactionAt(e, At(e, s0, calls + more, n).accounts, x).ownerSetSeqno == m.ownerSetSeqno
    ensures var n := |calls + more|;
      var t := TransactionAt(e, At(e, s0, calls + more, n).accounts, x);
      forall o, epoch: nat :: Signed(e, s0, calls + more, n, q, x, o, epoch) <==>
                                epoch == m.ownerSetSeqno && o in Approvers(m.owners, t.signers)
  {
    hide Run, After, At, Describes, Signed, ProposedAt, Approvers;
    var p := VectorAgainstCurrentOwners(e, s0, calls + more, |calls + more|, x);
    OwnersBefore(e, s0, calls, more, p, q, m);
  }

  /** What a vector set for the first of two owners says after the owners have been swapped. */
  lemma SwappedVector(e: Env, s0: Accounts, calls: seq<Call>, more: seq<Call>, x: Pubkey, q: Pubkey, m: Multisig)
    requires Run(e, s0, calls + more) && HasConfig(e, After(e, s0, calls).accounts, q, m) && m.owners == FirstOwners(2)
    requires IsTransaction(e, After(e, s0, calls + more).accounts, x)
    requires var t := TransactionAt(e, After(e, s0, calls + more).accounts, x);
      t.multisig == q && t.ownerSetSeqno == m.ownerSetSeqno && |t.signers| == 2 && Approvers(FirstOwners(2), t.signers) == {Owner(0)}
    ensures At(e, s0, calls + more, |calls + more|) == After(e, s0, calls + more)
    ensures TransactionAt(e, After(e, s0, calls + more).accounts, x).signers == [true, false]
    ensures !Describes(e, s0, calls + more, |calls + more|, x, Swapped())
    ensures forall epoch: nat :: !Signed(e, s0, calls + more, |calls + more|, q, x, Owner(1), epoch)
    ensures Signed(e, s0, calls + more, |calls + more|, q, x, Owner(0), m.ownerSetSeqno)
  {
    var all := calls + more;
    assert all[..|all|] == all;
    assert At(e, s0, all, |all|) == After(e, s0, all);
    hide Run, After, Owner, FirstOwners, Signed, Approvers, At, HasConfig, IsTransaction, TransactionAt, Describes;
    SignersBefore(e, s0, calls, more, x, q, m);
    OnlyTheFirst(TransactionAt(e, After(e, s0, all).accounts, x).signers);
    NotDescribed(e, s0, all, x);
  }

  /** A first flag of an owner who has not signed is enough. */
  lemma NotDescribed(e: Env, s0: Accounts, calls: seq<Call>, x: Pubkey)
    requires IsTransaction(e, At(e, s0, calls, |calls|).accounts, x)
    requires var t := TransactionAt(e, At(e, s0, calls, |calls|).accounts, x);
      t.signers == [true, false] && !Signed(e, s0, calls, |calls|, t.multisig, x, Owner(1), t.ownerSetSeqno)
    ensures !Describes(e, s0, calls, |calls|, x, Swapped())
  {
    hide At, Signed, Owner, IsTransaction, TransactionAt;
    assert Swapped()[0] == Owner(1);
  }

  /**
   * The comment on the approval vector fails after an owner change. On the stage, owners 0 and 1 found a multisig with
   * threshold 1, owner 0 proposes at address 5, and then has the owners listed in the other order. The pending
   * proposal's first flag is set although the first owner now, owner 1, has never signed it; the second is not,
   * although owner 0 has.
   */
  lemma VectorMisleadsAfterSwap() returns (calls: seq<Call>)
    ensures Run(Stage(), Start(), calls) && IsTransaction(Stage(), At(Stage(), Start(), calls, |calls|).accounts, Numbered(5))
    ensures exists m :: HasConfig(Stage(), Played(calls), Numbered(2), m) && m.owners == [Owner(1), Owner(0)]
    ensures IsTransaction(Stage(), Played(calls), Numbered(5))
         && TransactionAt(Stage(), Played(calls), Numbered(5)).signers == [true, false]
    ensures forall epoch: nat :: !Signed(Stage(), Start(), calls, |calls|, Numbered(2), Numbered(5), Owner(1), epoch)
    ensures exists epoch: nat :: Signed(Stage(), Start(), calls, |calls|, Numbered(2), Numbered(5), Owner(0), epoch)
    ensures !Describes(Stage(), Start(), calls, |calls|, Numbered(5), [Owner(1), Owner(0)])
  {
    hide Run, After, Numbered, Prelude, PlanCalls, Owner, Stage, FoundingCall, Describes, Distinct, WritableInstruction, EncodeInstruction, Signed, Changed, Refusal, StagePlan, ExecuteMetas, ValidateExecute;
    PlanParts(5, FirstOwners(1), SetOwners(Swapped()));
    PlanParts(7, FirstOwners(1), SetOwners(Swapped()));
    var m, swap := Multisig(FirstOwners(2), 1, 0, 0, []), SetOwners(Swapped());
    OneOwner();
    hide FirstOwners, IsTransaction, TransactionAt, Approvers;
    Founded(2, 1);
    SwapIsReady(m);
    VotedOnStage([FoundingCall(2, 1)], m, 5, FirstOwners(1), swap);
    StandsAfterVotes([FoundingCall(2, 1)], m, 5, FirstOwners(1), swap);
    var voted := [FoundingCall(2, 1)] + Prelude(Stage(), StagePlan(5, FirstOwners(1), swap));
    StaleStays(voted, m, 5, 7, FirstOwners(1), swap);
    var more := PlanCalls(Stage(), StagePlan(7, FirstOwners(1), swap));
    calls := voted + more;
    SwappedVector(Stage(), Start(), voted, more, Numbered(5), Numbered(2), m);
  }
}
