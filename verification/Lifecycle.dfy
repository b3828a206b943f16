/** The life of proposals and multisigs over whole runs. */
module Lifecycle {
  import opened Machine
  import opened State
  import opened Instructions
  import opened Protocol
  import opened History
  import opened Invariant
  import opened Batch
  import opened Runs
  import opened Approvals
  import opened Authorisation

  // ----- one call and one transaction account -----

  /** The proposal itself, without its votes. */
  function Terms(t: Transaction): Transaction {
    t.(signers := [])
  }

  /** A live proposal either ends by being executed or cancelled, or keeps its terms. */
  ghost predicate LiveStep(e: Env, w: World, c: Call, s': Accounts, x: Pubkey)
    requires IsTransaction(e, w.accounts, x)
  {
    && !Proposes(e, w, c, x)
    && (if Executes(e, w, c, x) || Cancels(e, w, c, x) then !IsTransaction(e, s', x)
        else
          && IsTransaction(e, s', x)
          && Terms(TransactionAt(e, s', x)) == Terms(TransactionAt(e, w.accounts, x))
          && (!Approves(e, w, c, x) ==> TransactionAt(e, s', x) == TransactionAt(e, w.accounts, x)))
  }

  /** Where no proposal is live, none can be approved, executed or cancelled, and only proposing makes one. */
  ghost predicate DeadStep(e: Env, w: World, c: Call, s': Accounts, x: Pubkey) {
    && !Approves(e, w, c, x) && !Executes(e, w, c, x) && !Cancels(e, w, c, x)
    && (IsTransaction(e, s', x) <==> Proposes(e, w, c, x))
  }

  ghost predicate TransactionStep(e: Env, w: World, c: Call, s': Accounts, x: Pubkey) {
    if IsTransaction(e, w.accounts, x) then LiveStep(e, w, c, s', x) else DeadStep(e, w, c, s', x)
  }

  lemma CreateTransactionStep(e: Env, w: World, c: Call, i: MultisigInstruction, x: Pubkey)
    requires ValidEnv(e) && Accepted(e, w, c, i) && i.CreateMultisig?
    ensures TransactionStep(e, w, c, Dispatch(e, w.accounts, c.metas, i, c.outcomes).value, x)
  {
    hide Proposes, Approves, Executes, Cancels, Accepted, CreateMultisigStep, ValidEnv, Get;
    TouchesOf(e, w, c, i, x);
    DispatchOf(e, w, c, i);
    CreateReach(e, w.accounts, c.metas, i.owners, i.threshold, i.nonce);
  }

  lemma ProposeTransactionStep(e: Env, w: World, c: Call, i: MultisigInstruction, x: Pubkey)
    requires ValidEnv(e) && Accepted(e, w, c, i) && i.ProposeTransaction?
    ensures TransactionStep(e, w, c, Dispatch(e, w.accounts, c.metas, i, c.outcomes).value, x)
  {
    hide Proposes, Approves, Executes, Cancels, Accepted, ProposeStep, ValidEnv, Get;
    TouchesOf(e, w, c, i, x);
    DispatchOf(e, w, c, i);
    ProposeReach(e, w.accounts, c.metas, i.instructions);
  }

  lemma ApproveTransactionStep(e: Env, w: World, c: Call, i: MultisigInstruction, x: Pubkey)
    requires Inv(e, w.accounts, w.history) && Accepted(e, w, c, i) && i.ApproveTransaction?
    ensures TransactionStep(e, w, c, Dispatch(e, w.accounts, c.metas, i, c.outcomes).value, x)
  {
    hide Proposes, Approves, Executes, Cancels, Accepted, ApproveStep, Inv, Get;
    TouchesOf(e, w, c, i, x);
    DispatchOf(e, w, c, i);
    ApproveReach(e, w.accounts, w.history, c.metas);
  }

  lemma ExecuteTransactionStep(e: Env, w: World, c: Call, i: MultisigInstruction, x: Pubkey)
    requires ValidEnv(e) && Inv(e, w.accounts, w.history) && Accepted(e, w, c, i) && KeysSign(e, c.metas)
    requires i.ExecuteTransaction? && NoWrap(Record(e, w.history, c.metas, i))
    ensures TransactionStep(e, w, c, Dispatch(e, w.accounts, c.metas, i, c.outcomes).value, x)
  {
    hide Proposes, Approves, Executes, Cancels, Accepted, ExecuteStep, Inv, Record, KeysSign, ValidEnv, NoWrap, Get, Changes;
    TouchesOf(e, w, c, i, x);
    DispatchOf(e, w, c, i);
    ExecuteReach(e, w.accounts, w.history, c.metas, c.outcomes);
  }

  lemma CancelTransactionStep(e: Env, w: World, c: Call, i: MultisigInstruction, x: Pubkey)
    requires ValidEnv(e) && Inv(e, w.accounts, w.history) && Accepted(e, w, c, i) && i.CancelTransaction?
    ensures TransactionStep(e, w, c, Dispatch(e, w.accounts, c.metas, i, c.outcomes).value, x)
  {
    hide Proposes, Approves, Executes, Cancels, Accepted, CancelStep, Inv, ValidEnv, Get;
    TouchesOf(e, w, c, i, x);
    DispatchOf(e, w, c, i);
    CancelReach(e, w.accounts, w.history, c.metas);
  }

  lemma AcceptedTransactionStep(e: Env, w: World, c: Call, i: MultisigInstruction, x: Pubkey)
    requires ValidEnv(e) && Inv(e, w.accounts, w.history) && Accepted(e, w, c, i) && KeysSign(e, c.metas)
    requires NoWrap(Record(e, w.history, c.metas, i))
    ensures TransactionStep(e, w, c, Dispatch(e, w.accounts, c.metas, i, c.outcomes).value, x)
  {
    hide Accepted, Inv, Record, KeysSign, TransactionStep, CreateMultisigStep, ProposeStep, ApproveStep, ExecuteStep, CancelStep, Admin;
    DispatchOf(e, w, c, i);
    match i
    case CreateMultisig(_, _, _) => CreateTransactionStep(e, w, c, i, x);
    case ProposeTransaction(_) => ProposeTransactionStep(e, w, c, i, x);
    case ApproveTransaction => ApproveTransactionStep(e, w, c, i, x);
    case ExecuteTransaction => ExecuteTransactionStep(e, w, c, i, x);
    case CancelTransaction => CancelTransactionStep(e, w, c, i, x);
    case _ => AdminNeverFromOutside(e, w.accounts, c.metas, i);
  }

  lemma NextTransactionStep(e: Env, w: World, c: Call, x: Pubkey)
    requires ValidEnv(e) && Inv(e, w.accounts, w.history) && (c.Invoke? ==> KeysSign(e, c.metas))
    requires NoWrap(Next(e, w, c).history)
    ensures TransactionStep(e, w, c, Next(e, w, c).accounts, x)
  {
    hide Proposes, Approves, Executes, Cancels, Next, Accepted, Inv, KeysSign;
    NextCases(e, w, c);
    if i :| Accepted(e, w, c, i) {
      DispatchOf(e, w, c, i);
      NextOfAccepted(e, w, c, i);
      AcceptedTransactionStep(e, w, c, i, x);
    } else {
      NothingTouches(e, w, c, x);
      if c.Other? && ApplyEffects(e, w.accounts, c.effects).Ok? {
        EffectsRespect(e, w.accounts, c.effects);
      }
    }
  }

  // ----- closed addresses -----

  /**
   * An address without a live proposal stays without one, and rejects approve, execute and cancel, until an
   * accepted proposal is made there.
   */
  lemma {:induction false} ClosedUntilProposed(e: Env, s0: Accounts, calls: seq<Call>, n: nat, d: nat, x: Pubkey)
    requires Run(e, s0, calls) && n <= d < |calls|
    requires !IsTransaction(e, At(e, s0, calls, n).accounts, x)
    requires forall b: nat :: n <= b < d ==> !Proposes(e, At(e, s0, calls, b), calls[b], x)
    ensures !IsTransaction(e, At(e, s0, calls, d).accounts, x)
    ensures var w := At(e, s0, calls, d);
      !Approves(e, w, calls[d], x) && !Executes(e, w, calls[d], x) && !Cancels(e, w, calls[d], x)
    decreases d
  {
    hide Proposes, Approves, Executes, Cancels, Next, Inv, Run, At, IsTransaction;
    if n < d {
      ClosedUntilProposed(e, s0, calls, n, d - 1, x);
      StepFacts(e, s0, calls, d - 1);
      NextTransactionStep(e, At(e, s0, calls, d - 1), calls[d - 1], x);
    }
    StepFacts(e, s0, calls, d);
    NextTransactionStep(e, At(e, s0, calls, d), calls[d], x);
  }

  /**
   * At most once. Between an execution or cancellation of the proposal at x and any later execution,
   * cancellation or approval at x lies a new accepted proposal at x: no instruction list completes twice,
   * or completes after a cancel.
   */
  lemma AtMostOnce(e: Env, s0: Accounts, calls: seq<Call>, n: nat, d: nat, x: Pubkey)
    requires Run(e, s0, calls) && n < d < |calls|
    requires var w := At(e, s0, calls, n); Executes(e, w, calls[n], x) || Cancels(e, w, calls[n], x)
    requires var w := At(e, s0, calls, d);
      Executes(e, w, calls[d], x) || Cancels(e, w, calls[d], x) || Approves(e, w, calls[d], x)
    ensures exists p: nat :: n < p < d && Proposes(e, At(e, s0, calls, p), calls[p], x)
  {
    hide Proposes, Approves, Executes, Cancels, Next, Inv, Run, At;
    StepFacts(e, s0, calls, n);
    NextTransactionStep(e, At(e, s0, calls, n), calls[n], x);
    if forall p: nat :: n < p < d ==> !Proposes(e, At(e, s0, calls, p), calls[p], x) {
      ClosedUntilProposed(e, s0, calls, n + 1, d, x);
    }
  }

  /** A new proposal starts with its proposer's approval and no other. */
  lemma FreshProposal(e: Env, w: World, c: Call, x: Pubkey)
    requires ValidEnv(e) && Proposes(e, w, c, x)
    ensures !IsTransaction(e, w.accounts, x) && IsTransaction(e, Next(e, w, c).accounts, x)
    ensures var t := TransactionAt(e, Next(e, w, c).accounts, x);
      && CountTrue(t.signers) == 1
      && exists m :: ExpectMultisig(Get(e, w.accounts, c.metas[0].pubkey).data) == Ok(m)
           && |t.signers| == |m.owners| && t.ownerSetSeqno == m.ownerSetSeqno
           && exists i :: 0 <= i < |m.owners| && m.owners[i] == c.metas[2].pubkey && t.signers[i]
  {
    var i :| Accepted(e, w, c, i) && i.ProposeTransaction?;
    NextOfAccepted(e, w, c, i);
    ProposedFacts(e, w.accounts, c.metas, i.instructions);
  }

  lemma ProposedFacts(e: Env, s: Accounts, metas: seq<AccountMeta>, ixs: seq<TransactionInstructionData>)
    requires ValidEnv(e) && ProposeStep(e, s, metas, ixs).Ok?
    ensures |metas| >= 5 && !IsTransaction(e, s, metas[1].pubkey)
    ensures var s' := ProposeStep(e, s, metas, ixs).value;
      && IsTransaction(e, s', metas[1].pubkey)
      && var t := TransactionAt(e, s', metas[1].pubkey);
      && CountTrue(t.signers) == 1
      && exists m :: ExpectMultisig(Get(e, s, metas[0].pubkey).data) == Ok(m)
           && |t.signers| == |m.owners| && t.ownerSetSeqno == m.ownerSetSeqno
           && exists i :: 0 <= i < |m.owners| && m.owners[i] == metas[2].pubkey && t.signers[i]
  {
    var m := ExpectMultisig(Get(e, s, metas[0].pubkey).data).value;
    var i := Position(m.owners, metas[2].pubkey).value;
    OneFlagCountsOne(|m.owners|, i);
    assert FirstApproval(m.owners, i) == seq(|m.owners|, _ => false)[i := true];
    assert m.owners[i] == metas[2].pubkey && FirstApproval(m.owners, i)[i];
  }

  lemma {:induction false} NoFlagCountsZero(n: nat)
    ensures CountTrue(seq(n, _ => false)) == 0
  {
    if n > 0 {
      NoFlagCountsZero(n - 1);
      assert seq(n, _ => false)[1..] == seq(n - 1, _ => false);
    }
  }

  lemma {:induction false} OneFlagCountsOne(n: nat, i: nat)
    requires i < n
    ensures CountTrue(seq(n, _ => false)[i := true]) == 1
  {
    var bits := seq(n, _ => false)[i := true];
    if i == 0 {
      NoFlagCountsZero(n - 1);
      assert bits[1..] == seq(n - 1, _ => false);
    } else {
      OneFlagCountsOne(n - 1, i - 1);
      assert bits[1..] == seq(n - 1, _ => false)[i - 1 := true];
    }
  }

  // ----- stale proposals -----

  /** Proposed under an earlier owner set. */
  ghost predicate Stale(e: Env, s: Accounts, x: Pubkey) {
    && IsTransaction(e, s, x) && IsMultisig(e, s, TransactionAt(e, s, x).multisig)
    && TransactionAt(e, s, x).ownerSetSeqno < MultisigAt(e, s, TransactionAt(e, s, x).multisig).ownerSetSeqno
  }

  /** Sequence numbers never decrease. */
  lemma SeqnoGrows(e: Env, w: World, c: Call, q: Pubkey)
    requires ValidEnv(e) && Inv(e, w.accounts, w.history) && Admissible(e, c)
    requires NoWrap(Next(e, w, c).history) && IsMultisig(e, w.accounts, q)
    ensures IsMultisig(e, Next(e, w, c).accounts, q)
    ensures MultisigAt(e, w.accounts, q).ownerSetSeqno <= MultisigAt(e, Next(e, w, c).accounts, q).ownerSetSeqno
  {
    hide Next;
    MultisigFrame(e, w, c, q);
    NextKeepsInv(e, w, c);
    NextGrows(e, w, c, q);
    var w' := Next(e, w, c);
    assert AccountOk(e, w.accounts, w.history, q) && AccountOk(e, w'.accounts, w'.history, q);
  }

  lemma StaleRejects(e: Env, w: World, c: Call, x: Pubkey)
    requires Inv(e, w.accounts, w.history) && Stale(e, w.accounts, x)
    ensures !Approves(e, w, c, x) && !Executes(e, w, c, x)
  {
    hide Inv, Accepted, ApproveStep, ExecuteStep, ValidateExecute, CountTrue;
    if Approves(e, w, c, x) {
      DispatchOf(e, w, c, ApproveTransaction);
      ApprovedFacts(e, w.accounts, w.history, c.metas);
    }
    if Executes(e, w, c, x) {
      DispatchOf(e, w, c, ExecuteTransaction);
      ExecuteParts(e, w.accounts, c.metas, c.outcomes);
      ValidatedFacts(e, w.accounts, w.history, c.metas);
    }
  }

  lemma StaleStep(e: Env, w: World, c: Call, x: Pubkey)
    requires ValidEnv(e) && Inv(e, w.accounts, w.history) && Admissible(e, c)
    requires NoWrap(Next(e, w, c).history) && Stale(e, w.accounts, x)
    ensures Stale(e, Next(e, w, c).accounts, x) || !IsTransaction(e, Next(e, w, c).accounts, x)
  {
    hide Next, Proposes, Approves, Executes, Cancels, Inv;
    NextTransactionStep(e, w, c, x);
    SeqnoGrows(e, w, c, TransactionAt(e, w.accounts, x).multisig);
  }

  lemma {:induction false} StaleThroughout(e: Env, s0: Accounts, calls: seq<Call>, n: nat, d: nat, x: Pubkey)
    requires Run(e, s0, calls) && n <= d <= |calls|
    requires Stale(e, At(e, s0, calls, n).accounts, x)
    requires forall b: nat :: n <= b < d ==> !Proposes(e, At(e, s0, calls, b), calls[b], x)
    ensures Stale(e, At(e, s0, calls, d).accounts, x) || !IsTransaction(e, At(e, s0, calls, d).accounts, x)
    decreases d
  {
    hide Proposes, Next, Inv, Run, At, IsTransaction, Stale, DeadStep, LiveStep;
    if n < d {
      var w := At(e, s0, calls, d - 1);
      StaleThroughout(e, s0, calls, n, d - 1, x);
      StepFacts(e, s0, calls, d - 1);
      if Stale(e, w.accounts, x) {
        StaleStep(e, w, calls[d - 1], x);
      } else {
        NextTransactionStep(e, w, calls[d - 1], x);
        DeadStays(e, w, calls[d - 1], x);
      }
    }
  }

  lemma DeadStays(e: Env, w: World, c: Call, x: Pubkey)
    requires TransactionStep(e, w, c, Next(e, w, c).accounts, x)
    requires !IsTransaction(e, w.accounts, x) && !Proposes(e, w, c, x)
    ensures !IsTransaction(e, Next(e, w, c).accounts, x)
  {
    hide Next, Proposes, Approves, Executes, Cancels;
  }

  /** Once the owners have changed, no continuation of the run approves or executes the proposal at x. */
  lemma StaleIsDead(e: Env, s0: Accounts, calls: seq<Call>, n: nat, d: nat, x: Pubkey)
    requires Run(e, s0, calls) && n <= d < |calls|
    requires Stale(e, At(e, s0, calls, n).accounts, x)
    requires forall b: nat :: n <= b < d ==> !Proposes(e, At(e, s0, calls, b), calls[b], x)
    ensures !Approves(e, At(e, s0, calls, d), calls[d], x) && !Executes(e, At(e, s0, calls, d), calls[d], x)
  {
    hide Proposes, Approves, Executes, Next, Inv, Run, At, Stale, IsTransaction;
    var w := At(e, s0, calls, d);
    StaleThroughout(e, s0, calls, n, d, x);
    StepFacts(e, s0, calls, d);
    if Stale(e, w.accounts, x) {
      StaleRejects(e, w, calls[d], x);
    } else {
      NextTransactionStep(e, w, calls[d], x);
      assert DeadStep(e, w, calls[d], Next(e, w, calls[d]).accounts, x);
    }
  }

  // ----- isolation -----

  /** The call, if it is for this program, names multisig q. */
  predicate Names(c: Call, q: Pubkey) {
    c.Invoke? ==> |c.metas| > 0 && c.metas[0].pubkey == q
  }

  /** Nothing that belongs to another multisig than q has changed. */
  ghost predicate OthersUntouched(e: Env, s: Accounts, s': Accounts, q: Pubkey) {
    && (forall k :: k != q && IsMultisig(e, s, k) ==>
          IsMultisig(e, s', k) && MultisigAt(e, s', k) == MultisigAt(e, s, k))
    && (forall x :: IsTransaction(e, s, x) && TransactionAt(e, s, x).multisig != q ==>
          IsTransaction(e, s', x) && TransactionAt(e, s', x) == TransactionAt(e, s, x))
  }

  /** A call that touches one account, new or a transaction of q, touches nothing of another multisig. */
  lemma OneAccountIsolation(e: Env, s: Accounts, s': Accounts, x: Pubkey, q: Pubkey)
    requires KeepsOthers(e, s, s', x)
    requires Get(e, s, x).owner != e.programId || (IsTransaction(e, s, x) && TransactionAt(e, s, x).multisig == q)
    ensures OthersUntouched(e, s, s', q)
  {
  }

  lemma ExecuteIsolation(e: Env, s: Accounts, h: History, metas: seq<AccountMeta>, outcomes: Outcomes)
    requires ValidEnv(e) && Inv(e, s, h) && KeysSign(e, metas)
    requires ExecuteStep(e, s, metas, outcomes).Ok? && NoWrap(Record(e, h, metas, ExecuteTransaction))
    ensures |metas| >= 5 && OthersUntouched(e, s, ExecuteStep(e, s, metas, outcomes).value, metas[0].pubkey)
  {
    hide ExecuteStep, Inv, Record, KeysSign;
    ExecuteReach(e, s, h, metas, outcomes);
  }

  lemma AcceptedIsolation(e: Env, w: World, c: Call, i: MultisigInstruction, q: Pubkey)
    requires ValidEnv(e) && Inv(e, w.accounts, w.history) && Accepted(e, w, c, i) && KeysSign(e, c.metas)
    requires NoWrap(Record(e, w.history, c.metas, i)) && Names(c, q)
    ensures OthersUntouched(e, w.accounts, Dispatch(e, w.accounts, c.metas, i, c.outcomes).value, q)
  {
    hide Accepted, OthersUntouched, Inv, Record, KeysSign, CreateMultisigStep, ProposeStep, ApproveStep, ExecuteStep, CancelStep, Admin;
    hide KeepsOthers, Get, ValidEnv, NoWrap;
    DispatchOf(e, w, c, i);
    var s, h, metas := w.accounts, w.history, c.metas;
    var s' := Dispatch(e, s, metas, i, c.outcomes).value;
    if i.CreateMultisig? {
      CreateReach(e, s, metas, i.owners, i.threshold, i.nonce);
      OneAccountIsolation(e, s, s', metas[0].pubkey, q);
    } else if i.ProposeTransaction? {
      ProposeReach(e, s, metas, i.instructions);
      OneAccountIsolation(e, s, s', metas[1].pubkey, q);
    } else if i.ApproveTransaction? {
      ApproveReach(e, s, h, metas);
      OneAccountIsolation(e, s, s', metas[1].pubkey, q);
    } else if i.ExecuteTransaction? {
      ExecuteIsolation(e, s, h, metas, c.outcomes);
    } else if i.CancelTransaction? {
      CancelReach(e, s, h, metas);
      OneAccountIsolation(e, s, s', metas[1].pubkey, q);
    } else {
      AdminNeverFromOutside(e, s, metas, i);
    }
  }

  lemma NextIsolation(e: Env, w: World, c: Call, q: Pubkey)
    requires ValidEnv(e) && Inv(e, w.accounts, w.history) && (c.Invoke? ==> KeysSign(e, c.metas))
    requires NoWrap(Next(e, w, c).history) && Names(c, q)
    ensures OthersUntouched(e, w.accounts, Next(e, w, c).accounts, q)
  {
    hide Next, Accepted, Inv, KeysSign, NoWrap;
    NextCases(e, w, c);
    if i :| Accepted(e, w, c, i) {
      DispatchOf(e, w, c, i);
      NextOfAccepted(e, w, c, i);
      AcceptedIsolation(e, w, c, i, q);
    } else if c.Other? && ApplyEffects(e, w.accounts, c.effects).Ok? {
      EffectsRespect(e, w.accounts, c.effects);
    }
  }

  /**
   * Isolation. A stretch of a run whose instructions all name multisig q, executed batches with
   * administrative instructions included, leaves every other multisig and its pending proposals as they were.
   */
  lemma {:induction false} Isolated(e: Env, s0: Accounts, calls: seq<Call>, i: nat, j: nat, q: Pubkey)
    requires Run(e, s0, calls) && i <= j <= |calls|
    requires forall n: nat :: i <= n < j ==> Names(calls[n], q)
    ensures OthersUntouched(e, At(e, s0, calls, i).accounts, At(e, s0, calls, j).accounts, q)
    decreases j
  {
    hide Next, Inv, Run, At;
    if i < j {
      Isolated(e, s0, calls, i, j - 1, q);
      StepFacts(e, s0, calls, j - 1);
      NextIsolation(e, At(e, s0, calls, j - 1), calls[j - 1], q);
    }
  }

  // ----- contents of proposals -----

  /** Every live transaction of every reachable state stores at least one instruction, and fits into an account. */
  lemma LiveStoresSomething(e: Env, s0: Accounts, calls: seq<Call>, n: nat, x: Pubkey)
    requires Run(e, s0, calls) && n <= |calls| && IsTransaction(e, At(e, s0, calls, n).accounts, x)
    ensures TransactionAt(e, At(e, s0, calls, n).accounts, x).instructions != []
    ensures TransactionAt(e, At(e, s0, calls, n).accounts, x).Len() <= 10240
  {
    Reachable(e, s0, calls, n);
    hide Run, At;
    assert AccountOk(e, At(e, s0, calls, n).accounts, At(e, s0, calls, n).history, x);
  }

  // ----- foundings -----

  /** No accepted instruction founds a multisig twice. */
  lemma FoundingKept(e: Env, w: World, c: Call, i: MultisigInstruction, q: Pubkey)
    requires ValidEnv(e) && Inv(e, w.accounts, w.history) && Accepted(e, w, c, i) && q in w.history.created
    ensures var h' := Record(e, w.history, c.metas, i);
      q in h'.created && h'.created[q] == w.history.created[q]
  {
    hide Accepted, Inv, CreateMultisigStep, ProposeStep, ApproveStep, ExecuteStep, CancelStep, Admin, Record, KeepsOthers, Get;
    DispatchOf(e, w, c, i);
    if i.CreateMultisig? {
      CreateReach(e, w.accounts, c.metas, i.owners, i.threshold, i.nonce);
      FoundedIsOwned(e, w.accounts, w.history, q);
    }
    RecordedFoundings(e, w.history, c.metas, i, q);
  }

  /** Only a creation at the address itself records a founding over another. */
  lemma RecordedFoundings(e: Env, h: History, metas: seq<AccountMeta>, i: MultisigInstruction, q: Pubkey)
    requires q in h.created && (i.CreateMultisig? && |metas| > 0 ==> metas[0].pubkey != q)
    ensures var h' := Record(e, h, metas, i); q in h'.created && h'.created[q] == h.created[q]
  {
    hide RecordBatch;
    if i.ExecuteTransaction? && |metas| >= 3 && metas[2].pubkey in h.proposals {
      BatchRecordsChangesOnly(e, h, h.proposals[metas[2].pubkey].instructions);
    }
  }

  lemma FoundedIsOwned(e: Env, s: Accounts, h: History, q: Pubkey)
    requires Inv(e, s, h) && q in h.created
    ensures Get(e, s, q).owner == e.programId
  {
    assert AccountOk(e, s, h, q);
  }

  lemma {:induction false} FoundingStays(e: Env, s0: Accounts, calls: seq<Call>, i: nat, j: nat, q: Pubkey)
    requires Run(e, s0, calls) && i <= j <= |calls|
    requires q in At(e, s0, calls, i).history.created
    ensures q in At(e, s0, calls, j).history.created
    ensures At(e, s0, calls, j).history.created[q] == At(e, s0, calls, i).history.created[q]
    decreases j
  {
    hide Next, Inv, Run, At, Accepted;
    if i < j {
      var w, c := At(e, s0, calls, j - 1), calls[j - 1];
      FoundingStays(e, s0, calls, i, j - 1, q);
      StepFacts(e, s0, calls, j - 1);
      NextCases(e, w, c);
      if k :| Accepted(e, w, c, k) {
        NextOfAccepted(e, w, c, k);
        FoundingKept(e, w, c, k, q);
      }
    }
  }

  /**
   * Configuration over all runs. From its creation with n owners and a nonce on, a multisig exists, has
   * distinct owners, a threshold within their number (and at least 1 when n < 256), the same nonce, the same
   * capacity, and zero bytes in the places of the owners it lacks; and a new owner list is accepted exactly when it is duplicate free, not empty and no
   * longer than the original one.
   */
  lemma ConfigurationForever(e: Env, s0: Accounts, calls: seq<Call>, c: nat, j: nat,
                             owners: seq<Pubkey>, threshold: u8, nonce: u8)
    requires Run(e, s0, calls) && c < j <= |calls|
    requires Accepted(e, At(e, s0, calls, c), calls[c], CreateMultisig(owners, threshold, nonce))
    ensures |calls[c].metas| >= 4
    ensures var q := calls[c].metas[0].pubkey;
      var s := At(e, s0, calls, j).accounts;
      && IsMultisig(e, s, q)
      && var m := MultisigAt(e, s, q);
      && Distinct(m.owners) && 1 <= |m.owners| <= |owners|
      && m.threshold <= |m.owners| && (|owners| < TWO_8 ==> m.threshold >= 1)
      && m.nonce == nonce
      && Capacity(m) == PUBKEY_BYTES * |owners|
      && m.padding == seq(PUBKEY_BYTES * (|owners| - |m.owners|), _ => 0)
      && forall list :: ValidateOwners(m, list).None? <==> Distinct(list) && 1 <= |list| <= |owners|
  {
    hide Inv, Run, At, Accepted, CreateMultisigStep, ValidEnv, Next, KeepsOthers, Get, ValidateOwners, Distinct;
    var w, i := At(e, s0, calls, c), CreateMultisig(owners, threshold, nonce);
    StepFacts(e, s0, calls, c);
    DispatchOf(e, w, calls[c], i);
    CreateReach(e, w.accounts, calls[c].metas, owners, threshold, nonce);
    NextOfAccepted(e, w, calls[c], i);
    FoundingStays(e, s0, calls, c + 1, j, calls[c].metas[0].pubkey);
    ReachableFounding(e, s0, calls, j, calls[c].metas[0].pubkey);
  }

  lemma ReachableFounding(e: Env, s0: Accounts, calls: seq<Call>, j: nat, q: Pubkey)
    requires Run(e, s0, calls) && j <= |calls| && q in At(e, s0, calls, j).history.created
    ensures var s := At(e, s0, calls, j).accounts;
      var f := At(e, s0, calls, j).history.created[q];
      && IsMultisig(e, s, q)
      && var m := MultisigAt(e, s, q);
      && Distinct(m.owners) && 1 <= |m.owners| <= f.size
      && m.threshold <= |m.owners| && (f.size < TWO_8 ==> m.threshold >= 1)
      && m.nonce == f.nonce
      && Capacity(m) == PUBKEY_BYTES * f.size
      && m.padding == seq(PUBKEY_BYTES * (f.size - |m.owners|), _ => 0)
      && forall list :: ValidateOwners(m, list).None? <==> Distinct(list) && 1 <= |list| <= f.size
  {
    Reachable(e, s0, calls, j);
    var w := At(e, s0, calls, j);
    assert AccountOk(e, w.accounts, w.history, q);
    var m := MultisigAt(e, w.accounts, q);
    forall list ensures ValidateOwners(m, list).None? <==> Distinct(list) && 1 <= |list| <= w.history.created[q].size {
      UniqueIsDistinct(list);
    }
  }

  // ----- zero-filled accounts given to the program -----

  /** An account of the program's that no handler has written. */
  ghost predicate Blank(e: Env, s: Accounts, k: Pubkey) {
    Get(e, s, k).owner == e.programId && Get(e, s, k).data.Plain?
  }

  /** The accounts an instruction uses as its multisig or as its transaction. */
  predicate Uses(metas: seq<AccountMeta>, i: MultisigInstruction, k: Pubkey) {
    && |metas| >= 3
    && (metas[0].pubkey == k
        || (i.ExecuteTransaction? && metas[2].pubkey == k)
        || ((i.ProposeTransaction? || i.ApproveTransaction? || i.CancelTransaction?) && metas[1].pubkey == k))
  }

  /** The accounts an accepted instruction uses are new, or a multisig with owners and its transaction. */
  lemma AcceptedUses(e: Env, w: World, c: Call, i: MultisigInstruction, k: Pubkey)
    requires ValidEnv(e) && Inv(e, w.accounts, w.history) && Accepted(e, w, c, i) && KeysSign(e, c.metas)
    requires Blank(e, w.accounts, k)
    ensures !Uses(c.metas, i, k)
  {
    hide Accepted, Inv, CreateMultisigStep, ProposeStep, ApproveStep, ExecuteStep, CancelStep, Admin, ValidateExecute, CountTrue;
    hide Get, ValidEnv, KeysSign, Created, CloseAccount, PutData, KeepsOthers;
    DispatchOf(e, w, c, i);
    var s, h, metas := w.accounts, w.history, c.metas;
    if i.CreateMultisig? {
      CreateReach(e, s, metas, i.owners, i.threshold, i.nonce);
    } else if i.ProposeTransaction? {
      ProposeReach(e, s, metas, i.instructions);
      ProposedShape(e, s, h, metas, i.instructions);
    } else if i.ApproveTransaction? {
      ApprovedFacts(e, s, h, metas);
    } else if i.ExecuteTransaction? {
      ExecuteParts(e, s, metas, c.outcomes);
      ValidatedFacts(e, s, h, metas);
    } else if i.CancelTransaction? {
      CancelCloses(e, s, h, metas);
    } else {
      AdminNeverFromOutside(e, s, metas, i);
    }
  }

  lemma AcceptedLeavesBlank(e: Env, w: World, c: Call, i: MultisigInstruction, k: Pubkey)
    requires ValidEnv(e) && Inv(e, w.accounts, w.history) && Accepted(e, w, c, i) && KeysSign(e, c.metas)
    requires NoWrap(Record(e, w.history, c.metas, i)) && Blank(e, w.accounts, k)
    ensures var s' := Dispatch(e, w.accounts, c.metas, i, c.outcomes).value;
      Get(e, s', k).owner == e.programId && Get(e, s', k).data == Get(e, w.accounts, k).data
  {
    hide Accepted, Inv, Record, KeysSign, CreateMultisigStep, ProposeStep, ApproveStep, ExecuteStep, CancelStep, Admin;
    hide Get, NoWrap, ValidEnv;
    DispatchOf(e, w, c, i);
    var s, h, metas := w.accounts, w.history, c.metas;
    if i.CreateMultisig? {
      CreateReach(e, s, metas, i.owners, i.threshold, i.nonce);
    } else if i.ProposeTransaction? {
      ProposeReach(e, s, metas, i.instructions);
    } else if i.ApproveTransaction? {
      ApproveReach(e, s, h, metas);
    } else if i.ExecuteTransaction? {
      ExecuteReach(e, s, h, metas, c.outcomes);
    } else if i.CancelTransaction? {
      CancelReach(e, s, h, metas);
    } else {
      AdminNeverFromOutside(e, s, metas, i);
    }
  }

  /**
   * Accounts that another program gives to this one zero-filled are inert. Although some of them read as a
   * multisig or a transaction, no accepted instruction uses one, and none is ever written, by anyone.
   */
  lemma BlankIsInert(e: Env, w: World, c: Call, k: Pubkey)
    requires ValidEnv(e) && Inv(e, w.accounts, w.history) && (c.Invoke? ==> KeysSign(e, c.metas))
    requires NoWrap(Next(e, w, c).history) && Blank(e, w.accounts, k)
    ensures forall i :: Accepted(e, w, c, i) ==> !Uses(c.metas, i, k)
    ensures Get(e, Next(e, w, c).accounts, k).owner == e.programId
    ensures Get(e, Next(e, w, c).accounts, k).data == Get(e, w.accounts, k).data
  {
    hide Next, Accepted, Inv, KeysSign, Uses;
    NextCases(e, w, c);
    if i :| Accepted(e, w, c, i) {
      DispatchOf(e, w, c, i);
      NextOfAccepted(e, w, c, i);
      AcceptedUses(e, w, c, i, k);
      AcceptedLeavesBlank(e, w, c, i, k);
      forall j | Accepted(e, w, c, j) ensures j == i {
        AcceptedOnce(e, w, c, i, j);
      }
    } else if c.Other? && ApplyEffects(e, w.accounts, c.effects).Ok? {
      EffectsRespect(e, w.accounts, c.effects);
    }
  }

  lemma {:induction false} BlankForever(e: Env, s0: Accounts, calls: seq<Call>, n: nat, d: nat, k: Pubkey)
    requires Run(e, s0, calls) && n <= d <= |calls| && Blank(e, At(e, s0, calls, n).accounts, k)
    ensures Blank(e, At(e, s0, calls, d).accounts, k)
    ensures Get(e, At(e, s0, calls, d).accounts, k).data == Get(e, At(e, s0, calls, n).accounts, k).data
    decreases d
  {
    hide Next, Inv, Run, At;
    if n < d {
      BlankForever(e, s0, calls, n, d - 1, k);
      StepFacts(e, s0, calls, d - 1);
      BlankIsInert(e, At(e, s0, calls, d - 1), calls[d - 1], k);
    }
  }
}
