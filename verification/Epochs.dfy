/** What a sequence number stands for, and whom the approval vector is about once it is behind. */
module Epochs {
  import opened Machine
  import opened State
  import opened Instructions
  import opened Protocol
  import opened History
  import opened Invariant
  import opened Runs
  import opened Approvals
  import opened Authorisation
  import opened Lifecycle

  // ----- equal sequence numbers mean equal owners -----

  lemma AcceptedKeepsOwners(e: Env, w: World, c: Call, i: MultisigInstruction, q: Pubkey)
    requires ValidEnv(e) && Inv(e, w.accounts, w.history) && Accepted(e, w, c, i) && KeysSign(e, c.metas)
    requires NoWrap(Record(e, w.history, c.metas, i)) && IsMultisig(e, w.accounts, q)
    requires Changes(Record(e, w.history, c.metas, i), q) == Changes(w.history, q)
    ensures var s' := Dispatch(e, w.accounts, c.metas, i, c.outcomes).value;
      IsMultisig(e, s', q) && MultisigAt(e, s', q).owners == MultisigAt(e, w.accounts, q).owners
  {
    hide Inv, Record, KeysSign, ExecuteStep;
    DispatchOf(e, w, c, i);
    AcceptedMultisigFrame(e, w, c, i, q);
    if ExecutesFor(e, w, c, q) {
      AcceptedOnce(e, w, c, i, ExecuteTransaction);
      ExecuteReach(e, w.accounts, w.history, c.metas, c.outcomes);
    }
  }

  /** A call that counts no owner change of q leaves q's owners as they are. */
  lemma StepKeepsOwners(e: Env, w: World, c: Call, q: Pubkey)
    requires ValidEnv(e) && Inv(e, w.accounts, w.history) && (c.Invoke? ==> KeysSign(e, c.metas))
    requires NoWrap(Next(e, w, c).history) && IsMultisig(e, w.accounts, q)
    requires Changes(Next(e, w, c).history, q) == Changes(w.history, q)
    ensures IsMultisig(e, Next(e, w, c).accounts, q)
    ensures MultisigAt(e, Next(e, w, c).accounts, q).owners == MultisigAt(e, w.accounts, q).owners
  {
    hide Inv, Next, KeysSign, Accepted;
    NextCases(e, w, c);
    if i :| Accepted(e, w, c, i) {
      DispatchOf(e, w, c, i);
      NextOfAccepted(e, w, c, i);
      AcceptedKeepsOwners(e, w, c, i, q);
    } else if c.Other? && ApplyEffects(e, w.accounts, c.effects).Ok? {
      EffectsRespect(e, w.accounts, c.effects);
    }
  }

  /** An epoch has one owner list: two states of a run between which q counts no owner change agree on q's owners. */
  lemma {:induction false} EpochHasOneOwnerList(e: Env, s0: Accounts, calls: seq<Call>, i: nat, j: nat, q: Pubkey)
    requires Run(e, s0, calls) && i <= j <= |calls|
    requires IsMultisig(e, At(e, s0, calls, i).accounts, q)
    requires Changes(At(e, s0, calls, i).history, q) == Changes(At(e, s0, calls, j).history, q)
    ensures IsMultisig(e, At(e, s0, calls, j).accounts, q)
    ensures MultisigAt(e, At(e, s0, calls, j).accounts, q).owners == MultisigAt(e, At(e, s0, calls, i).accounts, q).owners
    decreases j
  {
    hide Next, Inv, Run, At, Changes, IsMultisig, MultisigAt;
    if i < j {
      ChangesOverRun(e, s0, calls, i, j - 1, q);
      ChangesOverRun(e, s0, calls, j - 1, j, q);
      EpochHasOneOwnerList(e, s0, calls, i, j - 1, q);
      StepFacts(e, s0, calls, j - 1);
      StepKeepsOwners(e, At(e, s0, calls, j - 1), calls[j - 1], q);
    }
  }

  // ----- the call that made a live proposal -----

  /** Call p made the proposal that is live at x before call n. */
  ghost predicate ProposedAt(e: Env, s0: Accounts, calls: seq<Call>, p: nat, n: nat, x: Pubkey)
    requires p < n <= |calls|
  {
    && Proposes(e, At(e, s0, calls, p), calls[p], x)
    && forall d :: p < d < n ==> !Ends(e, At(e, s0, calls, d), calls[d], x)
  }

  /** From s to s', multisig q is left alone, and x then holds a transaction of q's current epoch. */
  ghost predicate OnCurrentEpoch(e: Env, s: Accounts, s': Accounts, q: Pubkey, x: Pubkey) {
    && IsMultisig(e, s, q) && IsMultisig(e, s', q) && MultisigAt(e, s', q) == MultisigAt(e, s, q)
    && IsTransaction(e, s', x) && TransactionAt(e, s', x).multisig == q
    && TransactionAt(e, s', x).ownerSetSeqno == MultisigAt(e, s, q).ownerSetSeqno
  }

  lemma ProposalIsCurrent(e: Env, s: Accounts, h: History, metas: seq<AccountMeta>, ixs: seq<TransactionInstructionData>)
    requires ValidEnv(e) && Inv(e, s, h) && ProposeStep(e, s, metas, ixs).Ok?
    ensures |metas| >= 5 && OnCurrentEpoch(e, s, ProposeStep(e, s, metas, ixs).value, metas[0].pubkey, metas[1].pubkey)
  {
    hide Inv, ProposeStep;
    ProposedShape(e, s, h, metas, ixs);
  }

  lemma ApprovalIsCurrent(e: Env, s: Accounts, h: History, metas: seq<AccountMeta>)
    requires Inv(e, s, h) && ApproveStep(e, s, metas).Ok?
    ensures |metas| >= 3 && OnCurrentEpoch(e, s, ApproveStep(e, s, metas).value, metas[0].pubkey, metas[1].pubkey)
  {
    hide Inv, ApproveStep;
    ApprovedFacts(e, s, h, metas);
  }

  /** An accepted vote is on a proposal of the named multisig's current epoch. */
  lemma VoteIsCurrent(e: Env, w: World, c: Call, x: Pubkey)
    requires ValidEnv(e) && Inv(e, w.accounts, w.history) && (Proposes(e, w, c, x) || Approves(e, w, c, x))
    ensures |c.metas| >= 3 && OnCurrentEpoch(e, w.accounts, Next(e, w, c).accounts, c.metas[0].pubkey, x)
  {
    var i :| Accepted(e, w, c, i) && |c.metas| >= 3 && c.metas[1].pubkey == x && (i.ProposeTransaction? || i.ApproveTransaction?);
    DispatchOf(e, w, c, i);
    NextOfAccepted(e, w, c, i);
    hide Inv, Next, Accepted, ProposeStep, ApproveStep, OnCurrentEpoch, ValidEnv;
    if i.ProposeTransaction? {
      ProposalIsCurrent(e, w.accounts, w.history, c.metas, i.instructions);
    } else {
      ApprovalIsCurrent(e, w.accounts, w.history, c.metas);
    }
  }

  lemma NothingAtGenesis(e: Env, s0: Accounts, calls: seq<Call>, x: Pubkey)
    requires Run(e, s0, calls)
    ensures !IsTransaction(e, At(e, s0, calls, 0).accounts, x)
  {
    assert calls[..0] == [];
  }

  /** The proposing call carries the instructions that its proposal stores, and names its multisig first. */
  ghost predicate Carries(c: Call, t: Transaction) {
    && c.Invoke? && |c.metas| > 0 && c.metas[0].pubkey == t.multisig
    && DecodeInstruction(c.data) == Some(ProposeTransaction(t.instructions))
  }

  lemma ProposalCarries(e: Env, w: World, c: Call, x: Pubkey)
    requires ValidEnv(e) && Proposes(e, w, c, x) && IsTransaction(e, Next(e, w, c).accounts, x)
    ensures Carries(c, TransactionAt(e, Next(e, w, c).accounts, x))
  {
    hide Next, ProposeStep, ValidEnv, Get, KeepsOthers;
    var i :| Accepted(e, w, c, i) && i.ProposeTransaction? && |c.metas| >= 3 && c.metas[1].pubkey == x;
    NextOfAccepted(e, w, c, i);
    ProposeReach(e, w.accounts, c.metas, i.instructions);
  }

  /** Every live transaction was proposed by a call of the run that carries it, in the epoch it names, and not ended since. */
  lemma {:induction false} LiveWasProposed(e: Env, s0: Accounts, calls: seq<Call>, n: nat, x: Pubkey) returns (p: nat)
    requires Run(e, s0, calls) && n <= |calls|
    requires IsTransaction(e, At(e, s0, calls, n).accounts, x)
    ensures p < n && ProposedAt(e, s0, calls, p, n, x)
    ensures Carries(calls[p], TransactionAt(e, At(e, s0, calls, n).accounts, x))
    ensures var t, w := TransactionAt(e, At(e, s0, calls, n).accounts, x), At(e, s0, calls, p);
      IsMultisig(e, w.accounts, t.multisig) && MultisigAt(e, w.accounts, t.multisig).ownerSetSeqno == t.ownerSetSeqno
    decreases n
  {
    hide Next, Inv, Run, Proposes, Executes, Cancels, Approves, KeysSign, At, DecodeInstruction;
    if n == 0 {
      NothingAtGenesis(e, s0, calls, x);
      assert false;
    } else {
      StepFacts(e, s0, calls, n - 1);
      var w, c := At(e, s0, calls, n - 1), calls[n - 1];
      NextTransactionStep(e, w, c, x);
      if Proposes(e, w, c, x) {
        p := n - 1;
        VoteIsCurrent(e, w, c, x);
        ProposalCarries(e, w, c, x);
      } else {
        p := LiveWasProposed(e, s0, calls, n - 1, x);
      }
    }
  }

  // ----- the vector of any live transaction -----

  /** A call that neither ends the proposal at x nor votes on it leaves its signatures alone. */
  lemma SignaturesStay(e: Env, s0: Accounts, calls: seq<Call>, n: nat, q: Pubkey, x: Pubkey, o: Pubkey, epoch: nat)
    requires n < |calls|
    requires var w := At(e, s0, calls, n); !Ends(e, w, calls[n], x) && !Approves(e, w, calls[n], x)
    ensures Signed(e, s0, calls, n + 1, q, x, o, epoch) <==> Signed(e, s0, calls, n, q, x, o, epoch)
  {
    hide At, Proposes, Approves, Executes, Cancels, Signed;
    SignedStep(e, s0, calls, n, q, x, o, epoch);
  }

  /** The vector of a transaction that is neither voted on nor ended goes on describing the same owners. */
  lemma VectorStays(e: Env, s0: Accounts, calls: seq<Call>, n: nat, x: Pubkey, owners: seq<Pubkey>)
    requires n < |calls|
    requires var w := At(e, s0, calls, n); !Ends(e, w, calls[n], x) && !Approves(e, w, calls[n], x)
    requires IsTransaction(e, At(e, s0, calls, n).accounts, x) && IsTransaction(e, At(e, s0, calls, n + 1).accounts, x)
    requires TransactionAt(e, At(e, s0, calls, n + 1).accounts, x) == TransactionAt(e, At(e, s0, calls, n).accounts, x)
    requires Describes(e, s0, calls, n, x, owners) && SignedWithin(e, s0, calls, n, x, owners)
    ensures Describes(e, s0, calls, n + 1, x, owners) && SignedWithin(e, s0, calls, n + 1, x, owners)
  {
    hide At, Ends, Approves, Signed, IsTransaction, TransactionAt;
    var t, j := TransactionAt(e, At(e, s0, calls, n).accounts, x), n + 1;
    forall o, epoch: nat
      ensures Signed(e, s0, calls, j, t.multisig, x, o, epoch) <==> Signed(e, s0, calls, n, t.multisig, x, o, epoch)
    {
      SignaturesStay(e, s0, calls, n, t.multisig, x, o, epoch);
    }
    assert Describes(e, s0, calls, j, x, owners) && SignedWithin(e, s0, calls, j, x, owners);
  }

  /** After a vote the transaction is current, so its vector describes the current owners. */
  lemma VectorAfterVote(e: Env, s0: Accounts, calls: seq<Call>, n: nat, x: Pubkey)
    requires Run(e, s0, calls) && n < |calls|
    requires var w := At(e, s0, calls, n); Proposes(e, w, calls[n], x) || Approves(e, w, calls[n], x)
    ensures IsTransaction(e, At(e, s0, calls, n + 1).accounts, x)
    ensures var s := At(e, s0, calls, n + 1).accounts;
      var q := TransactionAt(e, s, x).multisig;
      && IsMultisig(e, s, q) && MultisigAt(e, s, q).ownerSetSeqno == TransactionAt(e, s, x).ownerSetSeqno
      && Describes(e, s0, calls, n + 1, x, MultisigAt(e, s, q).owners)
      && SignedWithin(e, s0, calls, n + 1, x, MultisigAt(e, s, q).owners)
  {
    StepFacts(e, s0, calls, n);
    hide Next, Inv, Run, At, Proposes, Approves, Describes, SignedWithin;
    VoteIsCurrent(e, At(e, s0, calls, n), calls[n], x);
    ApprovalVectorMeaning(e, s0, calls, n + 1, x);
  }

  /** A multisig's sequence number counts its owner changes. */
  lemma SeqnoCounts(e: Env, s: Accounts, h: History, q: Pubkey)
    requires Inv(e, s, h) && IsMultisig(e, s, q)
    ensures Changes(h, q) == MultisigAt(e, s, q).ownerSetSeqno
  {
    assert AccountOk(e, s, h, q);
  }

  /** Two states of a run in which q has the same sequence number agree on q's owners. */
  lemma SameSeqnoSameOwners(e: Env, s0: Accounts, calls: seq<Call>, i: nat, j: nat, q: Pubkey)
    requires Run(e, s0, calls) && i <= |calls| && j <= |calls|
    requires IsMultisig(e, At(e, s0, calls, i).accounts, q) && IsMultisig(e, At(e, s0, calls, j).accounts, q)
    requires MultisigAt(e, At(e, s0, calls, i).accounts, q).ownerSetSeqno == MultisigAt(e, At(e, s0, calls, j).accounts, q).ownerSetSeqno
    ensures MultisigAt(e, At(e, s0, calls, j).accounts, q).owners == MultisigAt(e, At(e, s0, calls, i).accounts, q).owners
  {
    hide At, Run, Inv, Changes, IsMultisig, MultisigAt;
    Reachable(e, s0, calls, i);
    Reachable(e, s0, calls, j);
    SeqnoCounts(e, At(e, s0, calls, i).accounts, At(e, s0, calls, i).history, q);
    SeqnoCounts(e, At(e, s0, calls, j).accounts, At(e, s0, calls, j).history, q);
    if i <= j {
      EpochHasOneOwnerList(e, s0, calls, i, j, q);
    } else {
      EpochHasOneOwnerList(e, s0, calls, j, i, q);
    }
  }

  /**
   * The meaning of every approval vector, stale or not. In every reachable state, a live transaction was made by
   * a call that carries its instructions and since which it has not ended, and its vector describes the owners its multisig had before that call,
   * who alone have signed.
   */
  lemma {:induction false} VectorOfAnyTransaction(e: Env, s0: Accounts, calls: seq<Call>, n: nat, x: Pubkey) returns (p: nat)
    requires Run(e, s0, calls) && n <= |calls|
    requires IsTransaction(e, At(e, s0, calls, n).accounts, x)
    ensures p < n && ProposedAt(e, s0, calls, p, n, x)
    ensures Carries(calls[p], TransactionAt(e, At(e, s0, calls, n).accounts, x))
    ensures var t, w := TransactionAt(e, At(e, s0, calls, n).accounts, x), At(e, s0, calls, p);
      && IsMultisig(e, w.accounts, t.multisig)
      && var m := MultisigAt(e, w.accounts, t.multisig);
      && t.ownerSetSeqno == m.ownerSetSeqno
      && Describes(e, s0, calls, n, x, m.owners) && SignedWithin(e, s0, calls, n, x, m.owners)
    decreases n
  {
    hide Next, Inv, Run, At, Proposes, Executes, Cancels, Approves, KeysSign, Signed, ProposedAt, Carries, NoWrap, ValidEnv, Admissible;
    hide Describes, SignedWithin, MultisigAt, IsMultisig, TransactionAt, IsTransaction;
    p := LiveWasProposed(e, s0, calls, n, x);
    var w, c := At(e, s0, calls, n - 1), calls[n - 1];
    StepFacts(e, s0, calls, n - 1);
    NextTransactionStep(e, w, c, x);
    var q := TransactionAt(e, At(e, s0, calls, n).accounts, x).multisig;
    if Proposes(e, w, c, x) || Approves(e, w, c, x) {
      VectorAfterVote(e, s0, calls, n - 1, x);
      SameSeqnoSameOwners(e, s0, calls, p, n, q);
    } else {
      var p' := VectorOfAnyTransaction(e, s0, calls, n - 1, x);
      SameProposer(e, s0, calls, p, p', n, x);
      VectorStays(e, s0, calls, n - 1, x, MultisigAt(e, At(e, s0, calls, p).accounts, q).owners);
    }
  }

  /** Only one call made the live proposal. */
  lemma SameProposer(e: Env, s0: Accounts, calls: seq<Call>, p: nat, p': nat, n: nat, x: Pubkey)
    requires p < n <= |calls| && p' < n - 1
    requires ProposedAt(e, s0, calls, p, n, x) && ProposedAt(e, s0, calls, p', n - 1, x)
    requires !Proposes(e, At(e, s0, calls, n - 1), calls[n - 1], x)
    ensures p == p'
  {
    hide At, Proposes, Executes, Cancels;
    assert Ends(e, At(e, s0, calls, p'), calls[p'], x) && Ends(e, At(e, s0, calls, p), calls[p], x);
  }

  /**
   * When the vector still describes the current owners. Let `before` be the owners when the live transaction was
   * proposed and `now` the current ones: the vector describes `now` if and only if `now` is as long as `before` and
   * each flag is set exactly when the current owner at its place is among those of `before` whose flag is set. In
   * particular it does as long as the owners have not changed. Those who have signed are the flagged ones of `before`.
   */
  lemma VectorAgainstCurrentOwners(e: Env, s0: Accounts, calls: seq<Call>, n: nat, x: Pubkey) returns (p: nat)
    requires Run(e, s0, calls) && n <= |calls|
    requires IsTransaction(e, At(e, s0, calls, n).accounts, x)
    ensures p < n && ProposedAt(e, s0, calls, p, n, x)
    ensures var t := TransactionAt(e, At(e, s0, calls, n).accounts, x);
      && IsMultisig(e, At(e, s0, calls, p).accounts, t.multisig) && IsMultisig(e, At(e, s0, calls, n).accounts, t.multisig)
      && var before, now := MultisigAt(e, At(e, s0, calls, p).accounts, t.multisig).owners,
                          MultisigAt(e, At(e, s0, calls, n).accounts, t.multisig).owners;
      && |before| == |t.signers|
      && MultisigAt(e, At(e, s0, calls, p).accounts, t.multisig).ownerSetSeqno == t.ownerSetSeqno
      && (Describes(e, s0, calls, n, x, now) <==>
            && |now| == |before|
            && forall i :: 0 <= i < |now| ==> (t.signers[i] <==> now[i] in Approvers(before, t.signers)))
      && forall o, epoch: nat ::
           Signed(e, s0, calls, n, t.multisig, x, o, epoch) <==> epoch == t.ownerSetSeqno && o in Approvers(before, t.signers)
  {
    hide Inv, Run, At, Signed, ProposedAt;
    p := VectorOfAnyTransaction(e, s0, calls, n, x);
    ApprovalVectorMeaning(e, s0, calls, n, x);
    var t := TransactionAt(e, At(e, s0, calls, n).accounts, x);
    var before := MultisigAt(e, At(e, s0, calls, p).accounts, t.multisig).owners;
    forall o ensures Signed(e, s0, calls, n, t.multisig, x, o, t.ownerSetSeqno) <==> o in Approvers(before, t.signers) {
    }
  }
}
