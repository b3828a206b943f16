/** Who signed what: the history's signatures are exactly the accepted proposing and approving calls. */
module Approvals {
  import opened Machine
  import opened State
  import opened Instructions
  import opened Protocol
  import opened History
  import opened Invariant
  import opened Batch
  import opened Runs

  // ----- what an accepted call does to a proposal, read off the call -----

  ghost predicate Proposes(e: Env, w: World, c: Call, x: Pubkey) {
    exists i :: Accepted(e, w, c, i) && i.ProposeTransaction? && |c.metas| >= 3 && c.metas[1].pubkey == x
  }

  ghost predicate Approves(e: Env, w: World, c: Call, x: Pubkey) {
    exists i :: Accepted(e, w, c, i) && i.ApproveTransaction? && |c.metas| >= 3 && c.metas[1].pubkey == x
  }

  ghost predicate Executes(e: Env, w: World, c: Call, x: Pubkey) {
    exists i :: Accepted(e, w, c, i) && i.ExecuteTransaction? && |c.metas| >= 5 && c.metas[2].pubkey == x
  }

  ghost predicate Cancels(e: Env, w: World, c: Call, x: Pubkey) {
    exists i :: Accepted(e, w, c, i) && i.CancelTransaction? && |c.metas| >= 4 && c.metas[1].pubkey == x
  }

  /** o signed the call as proposer or approver of multisig q's proposal at x, when q had seen n owner changes. */
  ghost predicate Signs(e: Env, w: World, c: Call, q: Pubkey, x: Pubkey, o: Pubkey, n: nat) {
    && (Proposes(e, w, c, x) || Approves(e, w, c, x))
    && c.metas[0].pubkey == q && Changes(w.history, q) == n
    && c.metas[2].pubkey == o && c.metas[2].isSigner
  }

  /** The proposal at x before this call, if any, is not the one after it. */
  ghost predicate Ends(e: Env, w: World, c: Call, x: Pubkey) {
    Proposes(e, w, c, x) || Executes(e, w, c, x) || Cancels(e, w, c, x)
  }

  lemma ProposeShape(e: Env, s: Accounts, metas: seq<AccountMeta>, ixs: seq<TransactionInstructionData>)
    requires ProposeStep(e, s, metas, ixs).Ok?
    ensures |metas| >= 5 && metas[2].isSigner
  {
    hide ExpectMultisig, CreateAccount, Get;
  }

  lemma ApproveShape(e: Env, s: Accounts, metas: seq<AccountMeta>)
    requires ApproveStep(e, s, metas).Ok?
    ensures |metas| >= 3 && metas[2].isSigner
  {
    hide ExpectMultisig, ExpectTransaction, PutData, Get;
  }

  lemma ExecuteShape(e: Env, s: Accounts, metas: seq<AccountMeta>, outcomes: Outcomes)
    requires ExecuteStep(e, s, metas, outcomes).Ok?
    ensures |metas| >= 5
  {
    hide ExecuteStep, ValidateExecute;
    ExecuteParts(e, s, metas, outcomes);
    ExecutePassed(e, s, metas);
  }

  lemma CancelShape(e: Env, s: Accounts, metas: seq<AccountMeta>)
    requires CancelStep(e, s, metas).Ok?
    ensures |metas| >= 4
  {
    hide ValidateCancel, CloseAccount;
    var _, _ := CancelPassed(e, s, metas);
  }

  lemma DispatchOf(e: Env, w: World, c: Call, i: MultisigInstruction)
    requires Accepted(e, w, c, i)
    ensures c.Invoke? && Dispatch(e, w.accounts, c.metas, i, c.outcomes).Ok?
  {
  }

  /** The accepted call's handler has found its accounts and its signer. */
  lemma AcceptedShape(e: Env, w: World, c: Call, i: MultisigInstruction)
    requires Accepted(e, w, c, i)
    ensures i.ProposeTransaction? ==> |c.metas| >= 5 && c.metas[2].isSigner
    ensures i.ApproveTransaction? ==> |c.metas| >= 3 && c.metas[2].isSigner
    ensures i.ExecuteTransaction? ==> |c.metas| >= 5
    ensures i.CancelTransaction? ==> |c.metas| >= 4
  {
    hide Accepted, CreateMultisigStep, ProposeStep, ApproveStep, ExecuteStep, CancelStep, Admin;
    DispatchOf(e, w, c, i);
    match i
    case ProposeTransaction(ixs) => ProposeShape(e, w.accounts, c.metas, ixs);
    case ApproveTransaction => ApproveShape(e, w.accounts, c.metas);
    case ExecuteTransaction => ExecuteShape(e, w.accounts, c.metas, c.outcomes);
    case CancelTransaction => CancelShape(e, w.accounts, c.metas);
    case _ =>
  }

  lemma AcceptedOnce(e: Env, w: World, c: Call, i: MultisigInstruction, j: MultisigInstruction)
    requires Accepted(e, w, c, i) && Accepted(e, w, c, j)
    ensures i == j
  {
  }

  /** Which of the four touches x, given what the call was accepted as. */
  lemma TouchesOf(e: Env, w: World, c: Call, i: MultisigInstruction, x: Pubkey)
    requires Accepted(e, w, c, i)
    ensures Proposes(e, w, c, x) <==> i.ProposeTransaction? && |c.metas| >= 3 && c.metas[1].pubkey == x
    ensures Approves(e, w, c, x) <==> i.ApproveTransaction? && |c.metas| >= 3 && c.metas[1].pubkey == x
    ensures Executes(e, w, c, x) <==> i.ExecuteTransaction? && |c.metas| >= 5 && c.metas[2].pubkey == x
    ensures Cancels(e, w, c, x) <==> i.CancelTransaction? && |c.metas| >= 4 && c.metas[1].pubkey == x
  {
    forall j | Accepted(e, w, c, j) ensures j == i {
      AcceptedOnce(e, w, c, i, j);
    }
  }

  lemma NothingTouches(e: Env, w: World, c: Call, x: Pubkey)
    requires forall i :: !Accepted(e, w, c, i)
    ensures !Proposes(e, w, c, x) && !Approves(e, w, c, x) && !Executes(e, w, c, x) && !Cancels(e, w, c, x)
  {
    hide Accepted;
  }

  /** How the recorded proposal at x moves, by the kind of call. */
  lemma ProposalStep(e: Env, w: World, c: Call, x: Pubkey)
    requires Inv(e, w.accounts, w.history) && (c.Invoke? ==> KeysSign(e, c.metas))
    ensures var h, h' := w.history, Next(e, w, c).history;
      if Proposes(e, w, c, x) then
        && |c.metas| >= 3 && c.metas[2].isSigner && x in h'.proposals
        && h'.proposals[x].multisig == c.metas[0].pubkey && h'.proposals[x].signed == {Signature(h, c.metas)}
      else if Approves(e, w, c, x) then
        && !Ends(e, w, c, x) && |c.metas| >= 3 && c.metas[2].isSigner && x in h.proposals && x in h'.proposals
        && h.proposals[x].multisig == h'.proposals[x].multisig == c.metas[0].pubkey
        && h'.proposals[x].signed == h.proposals[x].signed + {Signature(h, c.metas)}
      else if Ends(e, w, c, x) then x !in h'.proposals
      else SameProposal(h, h', x)
  {
    NextCases(e, w, c);
    if i :| Accepted(e, w, c, i) {
      NextOfAccepted(e, w, c, i);
      AcceptedShape(e, w, c, i);
      TouchesOf(e, w, c, i, x);
      RecordedProposal(e, w, c, i, x);
      hide Proposes, Approves, Executes, Cancels, Accepted, Record, Next, Inv;
    } else {
      NothingTouches(e, w, c, x);
      hide Proposes, Approves, Executes, Cancels, Accepted, Next;
    }
  }

  lemma RecordedProposal(e: Env, w: World, c: Call, i: MultisigInstruction, x: Pubkey)
    requires Inv(e, w.accounts, w.history) && Accepted(e, w, c, i) && KeysSign(e, c.metas)
    ensures var h, h' := w.history, Record(e, w.history, c.metas, i);
      match i
      case ProposeTransaction(_) => |c.metas| >= 3 && (
        if x == c.metas[1].pubkey then x in h'.proposals && h'.proposals[x].multisig == c.metas[0].pubkey
          && h'.proposals[x].signed == {Signature(h, c.metas)}
        else SameProposal(h, h', x))
      case ApproveTransaction => |c.metas| >= 3 && (
        if x == c.metas[1].pubkey then x in h.proposals && x in h'.proposals
          && h.proposals[x].multisig == h'.proposals[x].multisig == c.metas[0].pubkey
          && h'.proposals[x].signed == h.proposals[x].signed + {Signature(h, c.metas)}
        else SameProposal(h, h', x))
      case ExecuteTransaction => |c.metas| >= 5 && (
        if x == c.metas[2].pubkey then x !in h'.proposals else SameProposal(h, h', x))
      case CancelTransaction => |c.metas| >= 4 && (
        if x == c.metas[1].pubkey then x !in h'.proposals else SameProposal(h, h', x))
      case _ => SameProposal(h, h', x)
  {
    hide Inv, Accepted, KeysSign, Record, SameProposal;
    DispatchOf(e, w, c, i);
    AcceptedShape(e, w, c, i);
    if i.ProposeTransaction? {
      RecordsProposal(e, w.history, c.metas, i, x);
    } else if i.ApproveTransaction? {
      NamesLiveProposal(e, w, c, i);
      RecordsApproval(e, w.history, c.metas, x);
    } else if i.ExecuteTransaction? {
      NamesLiveProposal(e, w, c, i);
      RecordsExecution(e, w.history, c.metas, x);
    } else {
      RecordsRest(e, w.history, c.metas, i, x);
    }
  }

  lemma RecordsProposal(e: Env, h: History, metas: seq<AccountMeta>, i: MultisigInstruction, x: Pubkey)
    requires i.ProposeTransaction? && |metas| >= 3
    ensures var h' := Record(e, h, metas, i);
      if x == metas[1].pubkey then x in h'.proposals && h'.proposals[x].multisig == metas[0].pubkey
        && h'.proposals[x].signed == {Signature(h, metas)}
      else SameProposal(h, h', x)
  {
  }

  lemma RecordsApproval(e: Env, h: History, metas: seq<AccountMeta>, x: Pubkey)
    requires |metas| >= 3 && metas[1].pubkey in h.proposals
    ensures var h' := Record(e, h, metas, ApproveTransaction);
      if x == metas[1].pubkey then x in h'.proposals && h'.proposals[x].multisig == h.proposals[x].multisig
        && h'.proposals[x].signed == h.proposals[x].signed + {Signature(h, metas)}
      else SameProposal(h, h', x)
  {
  }

  lemma RecordsExecution(e: Env, h: History, metas: seq<AccountMeta>, x: Pubkey)
    requires |metas| >= 3 && metas[2].pubkey in h.proposals
    ensures var h' := Record(e, h, metas, ExecuteTransaction);
      if x == metas[2].pubkey then x !in h'.proposals else SameProposal(h, h', x)
  {
    hide RecordBatch;
    BatchRecordsChangesOnly(e, h, h.proposals[metas[2].pubkey].instructions);
  }

  lemma RecordsRest(e: Env, h: History, metas: seq<AccountMeta>, i: MultisigInstruction, x: Pubkey)
    requires !i.ProposeTransaction? && !i.ApproveTransaction? && !i.ExecuteTransaction?
    requires i.CancelTransaction? ==> |metas| >= 2
    ensures var h' := Record(e, h, metas, i);
      if i.CancelTransaction? && x == metas[1].pubkey then x !in h'.proposals else SameProposal(h, h', x)
  {
  }

  /** An accepted approval or execution names a recorded proposal of the multisig it names. */
  lemma NamesLiveProposal(e: Env, w: World, c: Call, i: MultisigInstruction)
    requires Inv(e, w.accounts, w.history) && Accepted(e, w, c, i) && (i.ApproveTransaction? || i.ExecuteTransaction?)
    ensures |c.metas| >= 3
    ensures var x := if i.ApproveTransaction? then c.metas[1].pubkey else c.metas[2].pubkey;
      x in w.history.proposals && w.history.proposals[x].multisig == c.metas[0].pubkey
  {
    hide Inv, Accepted, ApproveStep, ExecuteStep, ValidateExecute, CountTrue;
    DispatchOf(e, w, c, i);
    if i.ApproveTransaction? {
      ApprovedFacts(e, w.accounts, w.history, c.metas);
      RecordedInstructions(e, w.accounts, w.history, c.metas[1].pubkey);
    } else {
      ExecuteParts(e, w.accounts, c.metas, c.outcomes);
      ValidatedFacts(e, w.accounts, w.history, c.metas);
      RecordedInstructions(e, w.accounts, w.history, c.metas[2].pubkey);
    }
  }

  ghost predicate SameProposal(h: History, h': History, x: Pubkey) {
    (x in h'.proposals <==> x in h.proposals) && (x in h.proposals ==> h'.proposals[x] == h.proposals[x])
  }

  // ----- over a run -----

  /** Call c signed the proposal at x that is live before call n. */
  ghost predicate SignedAt(e: Env, s0: Accounts, calls: seq<Call>, c: nat, n: nat, q: Pubkey, x: Pubkey, o: Pubkey, epoch: nat)
    requires c < n <= |calls|
  {
    && Signs(e, At(e, s0, calls, c), calls[c], q, x, o, epoch)
    && forall d :: c < d < n ==> !Ends(e, At(e, s0, calls, d), calls[d], x)
  }

  ghost predicate Signed(e: Env, s0: Accounts, calls: seq<Call>, n: nat, q: Pubkey, x: Pubkey, o: Pubkey, epoch: nat)
    requires n <= |calls|
  {
    exists c: nat :: c < n && SignedAt(e, s0, calls, c, n, q, x, o, epoch)
  }

  lemma SignedLater(e: Env, s0: Accounts, calls: seq<Call>, c: nat, n: nat, q: Pubkey, x: Pubkey, o: Pubkey, epoch: nat)
    requires c <= n < |calls|
    ensures SignedAt(e, s0, calls, c, n + 1, q, x, o, epoch) <==>
              if c == n then Signs(e, At(e, s0, calls, n), calls[n], q, x, o, epoch)
              else SignedAt(e, s0, calls, c, n, q, x, o, epoch) && !Ends(e, At(e, s0, calls, n), calls[n], x)
  {
    hide Signs, Ends, At;
  }

  lemma SignedStep(e: Env, s0: Accounts, calls: seq<Call>, n: nat, q: Pubkey, x: Pubkey, o: Pubkey, epoch: nat)
    requires n < |calls|
    ensures Signed(e, s0, calls, n + 1, q, x, o, epoch) <==>
              || Signs(e, At(e, s0, calls, n), calls[n], q, x, o, epoch)
              || (Signed(e, s0, calls, n, q, x, o, epoch) && !Ends(e, At(e, s0, calls, n), calls[n], x))
  {
    hide Signs, Ends, At, SignedAt;
    SignedLater(e, s0, calls, n, n, q, x, o, epoch);
    if Signed(e, s0, calls, n, q, x, o, epoch) {
      var c: nat :| c < n && SignedAt(e, s0, calls, c, n, q, x, o, epoch);
      SignedLater(e, s0, calls, c, n, q, x, o, epoch);
    }
    if Signed(e, s0, calls, n + 1, q, x, o, epoch) {
      var c: nat :| c < n + 1 && SignedAt(e, s0, calls, c, n + 1, q, x, o, epoch);
      SignedLater(e, s0, calls, c, n, q, x, o, epoch);
    }
  }

  lemma NothingProposed(e: Env, s0: Accounts, calls: seq<Call>)
    ensures At(e, s0, calls, 0).history == NOTHING
  {
    assert calls[..0] == [];
  }

  /** The history's signatures of a live proposal are the calls of its multisig that signed it since it was proposed. */
  lemma {:induction false} SignaturesAreCalls(e: Env, s0: Accounts, calls: seq<Call>, n: nat, x: Pubkey, o: Pubkey, epoch: nat)
    requires Run(e, s0, calls) && n <= |calls|
    ensures x in At(e, s0, calls, n).history.proposals ==>
              var p := At(e, s0, calls, n).history.proposals[x];
              ((o, epoch) in p.signed <==> Signed(e, s0, calls, n, p.multisig, x, o, epoch))
    decreases n
  {
    hide Signed, Approves, Executes, Cancels, Proposes, Next, Inv, At, Run, KeysSign, Admissible;
    if n == 0 {
      NothingProposed(e, s0, calls);
    } else {
      var w, c := At(e, s0, calls, n - 1), calls[n - 1];
      StepFacts(e, s0, calls, n - 1);
      ProposalStep(e, w, c, x);
      if x in At(e, s0, calls, n).history.proposals {
        SignedStep(e, s0, calls, n - 1, At(e, s0, calls, n).history.proposals[x].multisig, x, o, epoch);
      }
      if !Proposes(e, w, c, x) {
        SignaturesAreCalls(e, s0, calls, n - 1, x, o, epoch);
      }
    }
  }

  /**
   * What transaction.rs says of the approval vector, for a given list of owners: one flag for each, set exactly
   * when that owner, since the proposal at x was made, signed an accepted call that proposed or approved it.
   */
  ghost predicate Describes(e: Env, s0: Accounts, calls: seq<Call>, n: nat, x: Pubkey, owners: seq<Pubkey>)
    requires n <= |calls| && IsTransaction(e, At(e, s0, calls, n).accounts, x)
  {
    var t := TransactionAt(e, At(e, s0, calls, n).accounts, x);
    && |t.signers| == |owners|
    && forall i :: 0 <= i < |owners| ==> (t.signers[i] <==> Signed(e, s0, calls, n, t.multisig, x, owners[i], t.ownerSetSeqno))
  }

  /** Every signature of the live proposal at x is by one of the given owners. */
  ghost predicate SignedWithin(e: Env, s0: Accounts, calls: seq<Call>, n: nat, x: Pubkey, owners: seq<Pubkey>)
    requires n <= |calls| && IsTransaction(e, At(e, s0, calls, n).accounts, x)
  {
    var t := TransactionAt(e, At(e, s0, calls, n).accounts, x);
    forall o, epoch: nat :: Signed(e, s0, calls, n, t.multisig, x, o, epoch) ==> o in owners && epoch == t.ownerSetSeqno
  }

  lemma VotesOfCurrent(e: Env, s: Accounts, h: History, x: Pubkey)
    requires Inv(e, s, h) && IsTransaction(e, s, x)
    ensures var t := TransactionAt(e, s, x);
      && x in h.proposals && h.proposals[x].multisig == t.multisig && h.proposals[x].epoch == t.ownerSetSeqno
      && IsMultisig(e, s, t.multisig)
      && var m := MultisigAt(e, s, t.multisig);
      && t.ownerSetSeqno <= m.ownerSetSeqno == Changes(h, t.multisig)
      && (forall o, n :: (o, n) in h.proposals[x].signed ==> n == t.ownerSetSeqno)
      && (t.ownerSetSeqno == m.ownerSetSeqno ==> VotesOk(m.owners, t.signers, h.proposals[x]))
  {
    assert AccountOk(e, s, h, x) && AccountOk(e, s, h, TransactionAt(e, s, x).multisig);
  }

  /**
   * The approval vector of the current owner set. In every reachable state no live transaction is ahead of its
   * multisig, whose sequence number counts its owner changes; and the vector of a transaction that is not behind
   * describes the current owners, who alone have signed.
   */
  lemma ApprovalVectorMeaning(e: Env, s0: Accounts, calls: seq<Call>, n: nat, x: Pubkey)
    requires Run(e, s0, calls) && n <= |calls|
    requires IsTransaction(e, At(e, s0, calls, n).accounts, x)
    ensures var w := At(e, s0, calls, n);
      var t := TransactionAt(e, w.accounts, x);
      && IsMultisig(e, w.accounts, t.multisig)
      && var m := MultisigAt(e, w.accounts, t.multisig);
      && t.ownerSetSeqno <= m.ownerSetSeqno == Changes(w.history, t.multisig)
      && (t.ownerSetSeqno == m.ownerSetSeqno ==>
            Describes(e, s0, calls, n, x, m.owners) && SignedWithin(e, s0, calls, n, x, m.owners))
  {
    hide Inv, Run, Signed, At, VotesOk, Describes, SignedWithin, IsTransaction, TransactionAt, IsMultisig, MultisigAt, Changes;
    var w := At(e, s0, calls, n);
    Reachable(e, s0, calls, n);
    VotesOfCurrent(e, w.accounts, w.history, x);
    var t := TransactionAt(e, w.accounts, x);
    var m := MultisigAt(e, w.accounts, t.multisig);
    if t.ownerSetSeqno == m.ownerSetSeqno {
      VotesDescribe(e, s0, calls, n, x, m.owners);
    }
  }

  lemma VotesDescribe(e: Env, s0: Accounts, calls: seq<Call>, n: nat, x: Pubkey, owners: seq<Pubkey>)
    requires Run(e, s0, calls) && n <= |calls| && IsTransaction(e, At(e, s0, calls, n).accounts, x)
    requires var h, t := At(e, s0, calls, n).history, TransactionAt(e, At(e, s0, calls, n).accounts, x);
      && x in h.proposals && h.proposals[x].multisig == t.multisig && h.proposals[x].epoch == t.ownerSetSeqno
      && (forall o, epoch :: (o, epoch) in h.proposals[x].signed ==> epoch == t.ownerSetSeqno)
      && VotesOk(owners, t.signers, h.proposals[x])
    ensures Describes(e, s0, calls, n, x, owners) && SignedWithin(e, s0, calls, n, x, owners)
  {
    hide Run, Signed, At, IsTransaction, TransactionAt;
    var p := At(e, s0, calls, n).history.proposals[x];
    forall o, epoch: nat
      ensures Signed(e, s0, calls, n, p.multisig, x, o, epoch) <==> (o, epoch) in p.signed
    {
      SignaturesAreCalls(e, s0, calls, n, x, o, epoch);
    }
  }
}
