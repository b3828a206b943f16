/** What the approval count means, and that nothing else changes a multisig's configuration. */
module Authorisation {
  import opened Machine
  import opened State
  import opened Instructions
  import opened Protocol
  import opened History
  import opened Invariant
  import opened Batch
  import opened Runs
  import opened Approvals

  // ----- counting approvals -----

  /** The owners whose flag is set. */
  ghost function Approvers(owners: seq<Pubkey>, signers: seq<bool>): set<Pubkey> {
    set i | 0 <= i < |owners| && i < |signers| && signers[i] :: owners[i]
  }

  /** Counting flags counts distinct owners. */
  lemma {:induction false} CountIsCardinality(owners: seq<Pubkey>, signers: seq<bool>)
    requires Distinct(owners) && |signers| == |owners|
    ensures CountTrue(signers) == |Approvers(owners, signers)|
    decreases |owners|
  {
    if owners == [] {
      assert Approvers(owners, signers) == {};
    } else {
      var rest := Approvers(owners[1..], signers[1..]);
      forall i, j | 0 <= i < j < |owners[1..]| ensures owners[1..][i] != owners[1..][j] {
        assert owners[i + 1] != owners[j + 1];
      }
      CountIsCardinality(owners[1..], signers[1..]);
      assert owners[0] !in rest;
      ApproversStep(owners, signers);
    }
  }

  lemma ApproversStep(owners: seq<Pubkey>, signers: seq<bool>)
    requires |signers| == |owners| > 0
    ensures Approvers(owners, signers)
         == (if signers[0] then {owners[0]} else {}) + Approvers(owners[1..], signers[1..])
  {
    var all, rest := Approvers(owners, signers), Approvers(owners[1..], signers[1..]);
    forall o | o in all ensures o in (if signers[0] then {owners[0]} else {}) + rest {
      var i :| 0 <= i < |owners| && signers[i] && owners[i] == o;
      if i > 0 {
        assert owners[1..][i - 1] == o && signers[1..][i - 1];
      }
    }
    forall o | o in rest ensures o in all {
      var i :| 0 <= i < |owners[1..]| && signers[1..][i] && owners[1..][i] == o;
      assert owners[i + 1] == o && signers[i + 1];
    }
  }

  /**
   * What the u8 count of execute tests in a reachable state, for any number of owners: passing means that the
   * number of distinct approving owners, modulo 256, is at least the threshold, and being turned away by it means
   * that it is not. So passing always means at least `threshold` distinct approving owners; and when the multisig
   * was created with at most 255 owners, being turned away means fewer.
   */
  lemma ThresholdTest(e: Env, s: Accounts, h: History, metas: seq<AccountMeta>)
    requires Inv(e, s, h) && |metas| >= 3 && IsMultisig(e, s, metas[0].pubkey) && IsTransaction(e, s, metas[2].pubkey)
    ensures metas[0].pubkey in h.created
    ensures var m, t := MultisigAt(e, s, metas[0].pubkey), TransactionAt(e, s, metas[2].pubkey);
      var approvers := Approvers(m.owners, t.signers);
      && (ValidateExecute(e, s, metas).Ok? ==>
            approvers <= (set o | o in m.owners) && |approvers| % TWO_8 >= m.threshold && |approvers| >= m.threshold)
      && (ValidateExecute(e, s, metas) == Err(NotEnoughSigners) ==> |approvers| % TWO_8 < m.threshold)
      && (ValidateExecute(e, s, metas) == Err(NotEnoughSigners) && h.created[metas[0].pubkey].size < TWO_8 ==>
            |approvers| < m.threshold)
  {
    var q, x := metas[0].pubkey, metas[2].pubkey;
    var m, t := MultisigAt(e, s, q), TransactionAt(e, s, x);
    assert AccountOk(e, s, h, q) && AccountOk(e, s, h, x);
    TestReached(e, s, metas);
    hide Inv, ValidateExecute, CountTrue;
    if t.multisig == q && t.ownerSetSeqno == m.ownerSetSeqno {
      CountIsCardinality(m.owners, t.signers);
      CountAtMost(t.signers);
    }
  }

  /** The approval count is compared last, on the named multisig's current proposals only. */
  lemma TestReached(e: Env, s: Accounts, metas: seq<AccountMeta>)
    requires |metas| >= 3 && IsMultisig(e, s, metas[0].pubkey) && IsTransaction(e, s, metas[2].pubkey)
    ensures var m, t := MultisigAt(e, s, metas[0].pubkey), TransactionAt(e, s, metas[2].pubkey);
      && (ValidateExecute(e, s, metas).Ok? || ValidateExecute(e, s, metas) == Err(NotEnoughSigners) ==>
            t.multisig == metas[0].pubkey && t.ownerSetSeqno == m.ownerSetSeqno)
      && (ValidateExecute(e, s, metas).Ok? ==> CountTrue(t.signers) % TWO_8 >= m.threshold)
      && (ValidateExecute(e, s, metas) == Err(NotEnoughSigners) ==> CountTrue(t.signers) % TWO_8 < m.threshold)
  {
    hide CountTrue;
  }

  lemma {:induction false} CountAtMost(bits: seq<bool>)
    ensures CountTrue(bits) <= |bits|
  {
    if bits != [] {
      CountAtMost(bits[1..]);
    }
  }

  // ----- what one call can do to an account -----

  /** A multisig never disappears; only executing one of its own proposals can change its data. */
  lemma MultisigFrame(e: Env, w: World, c: Call, q: Pubkey)
    requires ValidEnv(e) && Inv(e, w.accounts, w.history) && (c.Invoke? ==> KeysSign(e, c.metas))
    requires NoWrap(Next(e, w, c).history) && IsMultisig(e, w.accounts, q)
    ensures IsMultisig(e, Next(e, w, c).accounts, q)
    ensures MultisigAt(e, Next(e, w, c).accounts, q) == MultisigAt(e, w.accounts, q) || ExecutesFor(e, w, c, q)
  {
    hide Next, Inv, Accepted, KeysSign;
    NextCases(e, w, c);
    if i :| Accepted(e, w, c, i) {
      DispatchOf(e, w, c, i);
      NextOfAccepted(e, w, c, i);
      AcceptedMultisigFrame(e, w, c, i, q);
    } else if c.Other? && ApplyEffects(e, w.accounts, c.effects).Ok? {
      EffectsRespect(e, w.accounts, c.effects);
    }
  }

  /** An accepted execution that names multisig q. */
  ghost predicate ExecutesFor(e: Env, w: World, c: Call, q: Pubkey) {
    Accepted(e, w, c, ExecuteTransaction) && |c.metas| >= 5 && c.metas[0].pubkey == q
  }

  /** Contents of the program's accounts other than x. */
  ghost predicate KeepsOthers(e: Env, s: Accounts, s': Accounts, x: Pubkey) {
    forall k :: k != x ==>
      if Get(e, s, k).owner == e.programId then
        Get(e, s', k).owner == e.programId && Get(e, s', k).data == Get(e, s, k).data
      else Unwritten(e, s', k)
  }

  lemma CreateReach(e: Env, s: Accounts, metas: seq<AccountMeta>, owners: seq<Pubkey>, threshold: u8, nonce: u8)
    requires ValidEnv(e) && CreateMultisigStep(e, s, metas, owners, threshold, nonce).Ok?
    ensures |metas| >= 4 && Get(e, s, metas[0].pubkey).owner != e.programId
    ensures var s' := CreateMultisigStep(e, s, metas, owners, threshold, nonce).value;
      KeepsOthers(e, s, s', metas[0].pubkey) && IsMultisig(e, s', metas[0].pubkey)
      && MultisigAt(e, s', metas[0].pubkey) == Multisig(owners, threshold, nonce, 0, [])
  {
    hide CreateMultisigStep, AllUnique, Get;
    CreatePassed(e, s, metas, owners, threshold, nonce);
  }

  lemma ProposeReach(e: Env, s: Accounts, metas: seq<AccountMeta>, ixs: seq<TransactionInstructionData>)
    requires ValidEnv(e) && ProposeStep(e, s, metas, ixs).Ok?
    ensures |metas| >= 5 && Get(e, s, metas[1].pubkey).owner != e.programId
    ensures var s' := ProposeStep(e, s, metas, ixs).value;
      KeepsOthers(e, s, s', metas[1].pubkey) && IsTransaction(e, s', metas[1].pubkey)
      && TransactionAt(e, s', metas[1].pubkey).multisig == metas[0].pubkey
      && TransactionAt(e, s', metas[1].pubkey).instructions == ixs
  {
    hide ProposeStep, Get, ExpectMultisig;
    var m := ProposePassed(e, s, metas, ixs);
  }

  lemma ApproveReach(e: Env, s: Accounts, h: History, metas: seq<AccountMeta>)
    requires Inv(e, s, h) && ApproveStep(e, s, metas).Ok?
    ensures |metas| >= 3 && IsTransaction(e, s, metas[1].pubkey)
    ensures TransactionAt(e, s, metas[1].pubkey).multisig == metas[0].pubkey
    ensures var s' := ApproveStep(e, s, metas).value;
      KeepsOthers(e, s, s', metas[1].pubkey) && IsTransaction(e, s', metas[1].pubkey)
      && TransactionAt(e, s', metas[1].pubkey).(signers := []) == TransactionAt(e, s, metas[1].pubkey).(signers := [])
  {
    hide ApproveStep, Inv;
    ApprovedFacts(e, s, h, metas);
    PutReach(e, s, metas[1].pubkey, Get(e, ApproveStep(e, s, metas).value, metas[1].pubkey).data);
  }

  lemma PutReach(e: Env, s: Accounts, x: Pubkey, d: Data)
    ensures KeepsOthers(e, s, PutData(e, s, x, d), x)
    ensures Get(e, PutData(e, s, x, d), x) == Get(e, s, x).(data := d)
  {
  }

  /** A close leaves every other account's contents; the closed one is the system program's. */
  lemma CloseReach(e: Env, s: Accounts, x: Pubkey, r: Pubkey)
    requires e.programId != e.systemId && x != r && CloseAccount(e, s, x, r).Ok?
    ensures var s' := CloseAccount(e, s, x, r).value;
      && Get(e, s', x).owner == e.systemId
      && forall k :: k != x ==> Get(e, s', k).owner == Get(e, s, k).owner && Get(e, s', k).data == Get(e, s, k).data
  {
  }

  lemma CancelReach(e: Env, s: Accounts, h: History, metas: seq<AccountMeta>)
    requires ValidEnv(e) && Inv(e, s, h) && CancelStep(e, s, metas).Ok?
    ensures |metas| >= 4 && IsTransaction(e, s, metas[1].pubkey)
    ensures TransactionAt(e, s, metas[1].pubkey).multisig == metas[0].pubkey
    ensures var s' := CancelStep(e, s, metas).value;
      KeepsOthers(e, s, s', metas[1].pubkey) && !IsTransaction(e, s', metas[1].pubkey)
  {
    hide CancelStep, CloseAccount;
    CancelCloses(e, s, h, metas);
    CloseReach(e, s, metas[1].pubkey, metas[2].pubkey);
  }

  lemma AcceptedMultisigFrame(e: Env, w: World, c: Call, i: MultisigInstruction, q: Pubkey)
    requires ValidEnv(e) && Inv(e, w.accounts, w.history) && Accepted(e, w, c, i) && KeysSign(e, c.metas)
    requires NoWrap(Record(e, w.history, c.metas, i)) && IsMultisig(e, w.accounts, q)
    ensures var s' := Dispatch(e, w.accounts, c.metas, i, c.outcomes).value;
      IsMultisig(e, s', q) && (MultisigAt(e, s', q) == MultisigAt(e, w.accounts, q) || ExecutesFor(e, w, c, q))
  {
    hide Inv, Accepted, Record, KeysSign, CreateMultisigStep, ProposeStep, ApproveStep, ExecuteStep, CancelStep, Admin;
    DispatchOf(e, w, c, i);
    match i
    case CreateMultisig(owners, threshold, nonce) => CreateReach(e, w.accounts, c.metas, owners, threshold, nonce);
    case ProposeTransaction(ixs) => ProposeReach(e, w.accounts, c.metas, ixs);
    case ApproveTransaction => ApproveReach(e, w.accounts, w.history, c.metas);
    case ExecuteTransaction => ExecuteReach(e, w.accounts, w.history, c.metas, c.outcomes);
    case CancelTransaction => CancelReach(e, w.accounts, w.history, c.metas);
    case _ => AdminNeverFromOutside(e, w.accounts, c.metas, i);
  }

  /** An accepted execution touches the data of its own multisig and of its own transaction, nothing else of the program's. */
  lemma ExecuteReach(e: Env, s: Accounts, h: History, metas: seq<AccountMeta>, outcomes: Outcomes)
    requires ValidEnv(e) && Inv(e, s, h) && KeysSign(e, metas)
    requires ExecuteStep(e, s, metas, outcomes).Ok? && NoWrap(Record(e, h, metas, ExecuteTransaction))
    ensures |metas| >= 5 && IsMultisig(e, s, metas[0].pubkey) && IsTransaction(e, s, metas[2].pubkey)
    ensures TransactionAt(e, s, metas[2].pubkey).multisig == metas[0].pubkey
    ensures IsMultisig(e, ExecuteStep(e, s, metas, outcomes).value, metas[0].pubkey)
    ensures forall k :: k != metas[0].pubkey && k != metas[2].pubkey ==>
              var s' := ExecuteStep(e, s, metas, outcomes).value;
              if Get(e, s, k).owner == e.programId then
                Get(e, s', k).owner == e.programId && Get(e, s', k).data == Get(e, s, k).data
              else Unwritten(e, s', k)
    ensures !IsTransaction(e, ExecuteStep(e, s, metas, outcomes).value, metas[2].pubkey)
    ensures forall k :: k != metas[0].pubkey ==>
              Changes(Record(e, h, metas, ExecuteTransaction), k) == Changes(h, k)
    ensures Changes(Record(e, h, metas, ExecuteTransaction), metas[0].pubkey) == Changes(h, metas[0].pubkey) ==>
              MultisigAt(e, ExecuteStep(e, s, metas, outcomes).value, metas[0].pubkey).owners
              == MultisigAt(e, s, metas[0].pubkey).owners
  {
    hide Inv, ExecuteStep, ValidateExecute, RunBatch, CloseAccount, Record, RecordBatch, CountTrue, KeysSign;
    ExecuteParts(e, s, metas, outcomes);
    var v := ValidateExecute(e, s, metas).value;
    ValidatedFacts(e, s, h, metas);
    RecordOfExecute(e, s, h, metas);
    var q, ixs := metas[0].pubkey, v.transaction.instructions;
    BatchKeepsInv(e, s, h, metas, q, v.signer, ixs, outcomes);
    if Changes(RecordBatch(e, h, ixs), q) == Changes(h, q) {
      BatchKeepsOwners(e, s, h, metas, q, v.signer, ixs, outcomes);
    }
    assert v.account != q;
    CloseReach(e, RunBatch(e, s, metas, v.signer, ixs, outcomes).value, v.account, v.refundee);
  }

  // ----- whole runs -----

  /** Some call between i and j executed a proposal of q. */
  lemma {:induction false} ChangeNeedsExecution(e: Env, s0: Accounts, calls: seq<Call>, i: nat, j: nat, q: Pubkey) returns (n: nat)
    requires Run(e, s0, calls) && i <= j <= |calls|
    requires IsMultisig(e, At(e, s0, calls, i).accounts, q)
    ensures IsMultisig(e, At(e, s0, calls, j).accounts, q)
    ensures MultisigAt(e, At(e, s0, calls, j).accounts, q) != MultisigAt(e, At(e, s0, calls, i).accounts, q) ==>
              i <= n < j && ExecutesFor(e, At(e, s0, calls, n), calls[n], q)
    decreases j - i
  {
    hide ExecutesFor, Next, Inv, Run, MultisigAt;
    n := i;
    if i < j {
      n := ChangeNeedsExecution(e, s0, calls, i, j - 1, q);
      var w := At(e, s0, calls, j - 1);
      StepFacts(e, s0, calls, j - 1);
      MultisigFrame(e, w, calls[j - 1], q);
      if MultisigAt(e, w.accounts, q) == MultisigAt(e, At(e, s0, calls, i).accounts, q) {
        n := j - 1;
      }
    }
  }

  /**
   * An accepted execution at call n is backed by `backers`: current owners, at least as many as the current
   * threshold, each of whom signed the proposing call or an approving call of this very proposal in the
   * current owner-set epoch.
   */
  ghost predicate Backed(e: Env, s0: Accounts, calls: seq<Call>, n: nat, q: Pubkey, x: Pubkey, backers: set<Pubkey>)
    requires n <= |calls|
  {
    var w := At(e, s0, calls, n);
    && IsMultisig(e, w.accounts, q) && IsTransaction(e, w.accounts, x)
    && TransactionAt(e, w.accounts, x).multisig == q
    && (forall o :: o in backers ==> o in MultisigAt(e, w.accounts, q).owners)
    && |backers| >= MultisigAt(e, w.accounts, q).threshold
    && (forall o :: o in backers ==> Signed(e, s0, calls, n, q, x, o, Changes(w.history, q)))
  }

  /** Each owner with a set flag has signed, when the vector describes the owners. */
  lemma ApproversSigned(e: Env, s0: Accounts, calls: seq<Call>, n: nat, x: Pubkey, owners: seq<Pubkey>)
    requires n <= |calls| && IsTransaction(e, At(e, s0, calls, n).accounts, x) && Describes(e, s0, calls, n, x, owners)
    ensures var t := TransactionAt(e, At(e, s0, calls, n).accounts, x);
      forall o :: o in Approvers(owners, t.signers) ==> Signed(e, s0, calls, n, t.multisig, x, o, t.ownerSetSeqno)
  {
    hide At, Signed, IsTransaction, TransactionAt;
  }

  lemma ExecutionIsBacked(e: Env, s0: Accounts, calls: seq<Call>, n: nat, q: Pubkey) returns (backers: set<Pubkey>)
    requires Run(e, s0, calls) && n < |calls| && ExecutesFor(e, At(e, s0, calls, n), calls[n], q)
    ensures Backed(e, s0, calls, n, q, calls[n].metas[2].pubkey, backers)
  {
    hide Inv, ValidateExecute, Run, Accepted, CountTrue, At, Signed, ExecuteStep, IsMultisig, IsTransaction, MultisigAt, TransactionAt;
    hide Approvers, Describes, SignedWithin, Changes;
    var w := At(e, s0, calls, n);
    DispatchOf(e, w, calls[n], ExecuteTransaction);
    var metas := calls[n].metas;
    Reachable(e, s0, calls, n);
    ExecuteParts(e, w.accounts, metas, calls[n].outcomes);
    ValidatedFacts(e, w.accounts, w.history, metas);
    ThresholdTest(e, w.accounts, w.history, metas);
    ApprovalVectorMeaning(e, s0, calls, n, metas[2].pubkey);
    var m, t := MultisigAt(e, w.accounts, q), TransactionAt(e, w.accounts, metas[2].pubkey);
    backers := Approvers(m.owners, t.signers);
    ApproversSigned(e, s0, calls, n, metas[2].pubkey, m.owners);
  }

  /**
   * Whole-run authorisation. If q's configuration differs between two states of a run, some call between
   * them executed a proposal of q that was backed, at that moment, by at least the threshold of its owners.
   */
  lemma Authorised(e: Env, s0: Accounts, calls: seq<Call>, i: nat, j: nat, q: Pubkey)
    requires Run(e, s0, calls) && i <= j <= |calls|
    requires IsMultisig(e, At(e, s0, calls, i).accounts, q)
    requires IsMultisig(e, At(e, s0, calls, j).accounts, q)
    requires MultisigAt(e, At(e, s0, calls, i).accounts, q) != MultisigAt(e, At(e, s0, calls, j).accounts, q)
    ensures exists n, backers: set<Pubkey> :: i <= n < j
              && ExecutesFor(e, At(e, s0, calls, n), calls[n], q)
              && Backed(e, s0, calls, n, q, calls[n].metas[2].pubkey, backers)
  {
    var n := ChangeNeedsExecution(e, s0, calls, i, j, q);
    var backers := ExecutionIsBacked(e, s0, calls, n, q);
    assert Backed(e, s0, calls, n, q, calls[n].metas[2].pubkey, backers);
  }
}
