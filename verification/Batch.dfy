/** Executing a proposal: the stored instructions, the rights they run with, and what they can reach. */
module Batch {
  import opened Machine
  import opened State
  import opened Instructions
  import opened Protocol
  import opened History
  import opened Invariant

  // ----- counting owner changes -----

  lemma {:induction false} ChangesGrow(e: Env, h: History, ixs: seq<TransactionInstructionData>, k: Pubkey)
    ensures Changes(h, k) <= Changes(RecordBatch(e, h, ixs), k)
    decreases |ixs|
  {
    if ixs != [] {
      ChangesGrow(e, RecordOne(e, h, ixs[0]), ixs[1..], k);
    }
  }

  lemma NoWrapBefore(e: Env, h: History, ixs: seq<TransactionInstructionData>)
    requires NoWrap(RecordBatch(e, h, ixs))
    ensures NoWrap(h)
  {
    forall k | k in h.changes ensures h.changes[k] < TWO_32 {
      ChangesGrow(e, h, ixs, k);
      assert Changes(RecordBatch(e, h, ixs), k) < TWO_32;
    }
  }

  /** A batch is recorded in the counters only. */
  lemma {:induction false} BatchRecordsChangesOnly(e: Env, h: History, ixs: seq<TransactionInstructionData>)
    ensures RecordBatch(e, h, ixs).proposals == h.proposals && RecordBatch(e, h, ixs).created == h.created
    decreases |ixs|
  {
    if ixs != [] {
      BatchRecordsChangesOnly(e, RecordOne(e, h, ixs[0]), ixs[1..]);
    }
  }

  // ----- the runtime call made from a stored instruction -----

  /**
   * The call keeps the program, the data, the accounts in order and their writable flags; only the
   * signer flag of the derived address changes, and it is set.
   */
  lemma InvocationOfStored(ix: TransactionInstructionData, signer: Pubkey)
    ensures var call := ToInvocation(ix, signer);
      && call.programId == ix.programId && call.data == ix.data && |call.accounts| == |ix.accounts|
      && forall i :: 0 <= i < |ix.accounts| ==>
           && call.accounts[i].pubkey == ix.accounts[i].pubkey
           && call.accounts[i].isWritable == ix.accounts[i].isWritable
           && call.accounts[i].isSigner == (ix.accounts[i].isSigner || ix.accounts[i].pubkey == signer)
  {
  }

  /** A derived address counts as a signer of a nested call only if it is the executing multisig's own. */
  lemma OnlyOwnSigner(e: Env, metas: seq<AccountMeta>, signer: Pubkey, call: Invocation, i: nat)
    requires KeysSign(e, metas) && CheckPrivileges(metas, signer, call).None?
    requires i < |call.accounts| && call.accounts[i].isSigner && Keyless(e, call.accounts[i].pubkey)
    ensures call.accounts[i].pubkey == signer
  {
    assert Granted(metas, signer, call.accounts[i]);
  }

  // ----- one stored instruction -----

  /** Only q's configuration may differ; other programs' accounts stay theirs; lamports may be credited. */
  ghost predicate TouchesOnly(e: Env, s: Accounts, s': Accounts, q: Pubkey) {
    && IsMultisig(e, s, q) && IsMultisig(e, s', q)
    && MultisigAt(e, s', q).nonce == MultisigAt(e, s, q).nonce
    && Get(e, s', q).lamports >= Get(e, s, q).lamports
    && (forall k :: k != q ==>
          if Get(e, s, k).owner == e.programId then
            && Get(e, s', k).owner == e.programId && Get(e, s', k).data == Get(e, s, k).data
            && Get(e, s', k).lamports >= Get(e, s, k).lamports
          else Unwritten(e, s', k))
  }

  lemma TouchesOnlyTransitive(e: Env, s: Accounts, s1: Accounts, s2: Accounts, q: Pubkey)
    requires TouchesOnly(e, s, s1, q) && TouchesOnly(e, s1, s2, q)
    ensures TouchesOnly(e, s, s2, q)
  {
    forall k | k != q ensures
      if Get(e, s, k).owner == e.programId then
        && Get(e, s2, k).owner == e.programId && Get(e, s2, k).data == Get(e, s, k).data
        && Get(e, s2, k).lamports >= Get(e, s, k).lamports
      else Unwritten(e, s2, k)
    {
    }
  }

  lemma AdminTouchesOnly(e: Env, s: Accounts, h: History, metas: seq<AccountMeta>, i: MultisigInstruction)
    requires Inv(e, s, h) && Admin(e, s, metas, i).Ok?
    ensures |metas| >= 2 && TouchesOnly(e, s, Admin(e, s, metas, i).value, metas[0].pubkey)
    ensures !IsOwnerChange(i) ==>
              MultisigAt(e, Admin(e, s, metas, i).value, metas[0].pubkey).owners == MultisigAt(e, s, metas[0].pubkey).owners
  {
    hide Admin, Inv;
    AdminFacts(e, s, h, metas, i);
  }

  /** In a batch an administrative instruction is about the executing multisig q, whatever account it names first. */
  lemma AdminFromBatch(e: Env, s: Accounts, h: History, metas: seq<AccountMeta>, q: Pubkey, signer: Pubkey, call: Invocation, i: MultisigInstruction)
    requires ValidEnv(e) && Inv(e, s, h) && IsMultisig(e, s, q) && KeysSign(e, metas)
    requires e.pda(q, MultisigAt(e, s, q).nonce) == Some(signer)
    requires CheckPrivileges(metas, signer, call).None? && Admin(e, s, call.accounts, i).Ok?
    ensures |call.accounts| >= 2 && call.accounts[0].pubkey == q
    ensures TouchesOnly(e, s, Admin(e, s, call.accounts, i).value, q)
    ensures !IsOwnerChange(i) ==> MultisigAt(e, Admin(e, s, call.accounts, i).value, q).owners == MultisigAt(e, s, q).owners
  {
    hide Admin, Inv, CheckPrivileges, KeysSign;
    AdminFacts(e, s, h, call.accounts, i);
    OnlyOwnSigner(e, metas, signer, call, 1);
    AdminTouchesOnly(e, s, h, call.accounts, i);
  }

  lemma ChangesOwnersMeans(e: Env, ix: TransactionInstructionData, i: MultisigInstruction)
    requires ix.programId == e.programId && DecodeInstruction(ix.data) == Some(i)
    ensures ChangesOwners(e, ix) <==> |ix.accounts| > 0 && IsOwnerChange(i)
  {
  }

  lemma RecordOneIsRecordAdmin(e: Env, h: History, ix: TransactionInstructionData, signer: Pubkey, i: MultisigInstruction)
    requires ChangesOwners(e, ix) <==> |ix.accounts| > 0 && IsOwnerChange(i)
    ensures RecordOne(e, h, ix) == RecordAdmin(h, ToInvocation(ix, signer).accounts, i)
  {
    InvocationOfStored(ix, signer);
    var metas := ToInvocation(ix, signer).accounts;
    assert |metas| == |ix.accounts| && (|metas| > 0 ==> metas[0].pubkey == ix.accounts[0].pubkey);
  }

  /** A successful stored call of this program is an administrative instruction that its bytes decode to. */
  lemma SelfCall(e: Env, s: Accounts, metas: seq<AccountMeta>, signer: Pubkey, ix: TransactionInstructionData, outcomes: Outcomes)
    requires ix.programId == e.programId && InvokeSigned(e, s, metas, signer, ix, outcomes).Ok?
    ensures DecodeInstruction(ix.data).Some?
    ensures var call := ToInvocation(ix, signer);
      && CheckPrivileges(metas, signer, call).None?
      && InvokeSigned(e, s, metas, signer, ix, outcomes) == Admin(e, s, call.accounts, DecodeInstruction(ix.data).value)
  {
    hide CheckPrivileges, Admin, DecodeInstruction;
  }

  lemma OutsideCall(e: Env, s: Accounts, metas: seq<AccountMeta>, signer: Pubkey, ix: TransactionInstructionData, outcomes: Outcomes)
    requires ix.programId != e.programId && InvokeSigned(e, s, metas, signer, ix, outcomes).Ok?
    ensures |outcomes| > 0 && outcomes[0].Some?
    ensures InvokeSigned(e, s, metas, signer, ix, outcomes) == ApplyEffects(e, s, outcomes[0].value)
  {
    hide CheckPrivileges, ApplyEffects;
  }

  lemma RespectedIsTouchesOnly(e: Env, s: Accounts, s': Accounts, q: Pubkey)
    requires Respects(e, s, s') && IsMultisig(e, s, q)
    ensures TouchesOnly(e, s, s', q) && MultisigAt(e, s', q) == MultisigAt(e, s, q)
  {
    hide Get;
  }

  lemma OneStoredInstruction(e: Env, s: Accounts, h: History, metas: seq<AccountMeta>, q: Pubkey, signer: Pubkey,
                             ix: TransactionInstructionData, outcomes: Outcomes)
    requires ValidEnv(e) && Inv(e, s, h) && IsMultisig(e, s, q) && KeysSign(e, metas)
    requires e.pda(q, MultisigAt(e, s, q).nonce) == Some(signer)
    requires InvokeSigned(e, s, metas, signer, ix, outcomes).Ok? && NoWrap(RecordOne(e, h, ix))
    ensures var s' := InvokeSigned(e, s, metas, signer, ix, outcomes).value;
      && Inv(e, s', RecordOne(e, h, ix)) && TouchesOnly(e, s, s', q)
      && (ix.programId == e.programId ==> |ix.accounts| > 0 && ix.accounts[0].pubkey == q)
      && (Changes(RecordOne(e, h, ix), q) == Changes(h, q) ==> MultisigAt(e, s', q).owners == MultisigAt(e, s, q).owners)
  {
    hide InvokeSigned, Inv, Admin, CheckPrivileges, KeysSign, ToInvocation, ApplyEffects, DecodeInstruction, ValidEnv, Respects;
    if ix.programId == e.programId {
      hide TouchesOnly;
      SelfCall(e, s, metas, signer, ix, outcomes);
      InvocationOfStored(ix, signer);
      var call, i := ToInvocation(ix, signer), DecodeInstruction(ix.data).value;
      ChangesOwnersMeans(e, ix, i);
      RecordOneIsRecordAdmin(e, h, ix, signer, i);
      AdminFromBatch(e, s, h, metas, q, signer, call, i);
      AdminKeepsInv(e, s, h, call.accounts, i);
    } else {
      OutsideCall(e, s, metas, signer, ix, outcomes);
      EffectsRespect(e, s, outcomes[0].value);
      var s' := InvokeSigned(e, s, metas, signer, ix, outcomes).value;
      InvRespects(e, s, h, s');
      RespectedIsTouchesOnly(e, s, s', q);
    }
  }

  // ----- the whole batch -----

  lemma {:induction false} BatchKeepsInv(e: Env, s: Accounts, h: History, metas: seq<AccountMeta>, q: Pubkey, signer: Pubkey,
                                         ixs: seq<TransactionInstructionData>, outcomes: Outcomes)
    requires ValidEnv(e) && Inv(e, s, h) && IsMultisig(e, s, q) && KeysSign(e, metas)
    requires e.pda(q, MultisigAt(e, s, q).nonce) == Some(signer)
    requires RunBatch(e, s, metas, signer, ixs, outcomes).Ok? && NoWrap(RecordBatch(e, h, ixs))
    ensures var s' := RunBatch(e, s, metas, signer, ixs, outcomes).value;
      && Inv(e, s', RecordBatch(e, h, ixs)) && TouchesOnly(e, s, s', q)
      && forall k :: k != q ==> Changes(RecordBatch(e, h, ixs), k) == Changes(h, k)
    decreases |ixs|
  {
    hide InvokeSigned, Inv, KeysSign;
    if ixs != [] {
      var s1 := InvokeSigned(e, s, metas, signer, ixs[0], outcomes).value;
      var h1 := RecordOne(e, h, ixs[0]);
      NoWrapBefore(e, h1, ixs[1..]);
      OneStoredInstruction(e, s, h, metas, q, signer, ixs[0], outcomes);
      BatchKeepsInv(e, s1, h1, metas, q, signer, ixs[1..], Rest(e, ixs[0], outcomes));
      TouchesOnlyTransitive(e, s, s1, RunBatch(e, s, metas, signer, ixs, outcomes).value, q);
    }
  }

  /** A batch that counts no owner change of q leaves q's owners as they are. */
  lemma {:induction false} BatchKeepsOwners(e: Env, s: Accounts, h: History, metas: seq<AccountMeta>, q: Pubkey, signer: Pubkey,
                                            ixs: seq<TransactionInstructionData>, outcomes: Outcomes)
    requires ValidEnv(e) && Inv(e, s, h) && IsMultisig(e, s, q) && KeysSign(e, metas)
    requires e.pda(q, MultisigAt(e, s, q).nonce) == Some(signer)
    requires RunBatch(e, s, metas, signer, ixs, outcomes).Ok? && NoWrap(RecordBatch(e, h, ixs))
    requires Changes(RecordBatch(e, h, ixs), q) == Changes(h, q)
    ensures var s' := RunBatch(e, s, metas, signer, ixs, outcomes).value;
      IsMultisig(e, s', q) && MultisigAt(e, s', q).owners == MultisigAt(e, s, q).owners
    decreases |ixs|
  {
    hide InvokeSigned, Inv, KeysSign, RecordOne, Changes;
    if ixs != [] {
      var s1 := InvokeSigned(e, s, metas, signer, ixs[0], outcomes).value;
      var h1 := RecordOne(e, h, ixs[0]);
      NoWrapBefore(e, h1, ixs[1..]);
      ChangesGrow(e, h, ixs[..1], q);
      ChangesGrow(e, h1, ixs[1..], q);
      assert RecordBatch(e, h, ixs[..1]) == h1 by {
        assert ixs[..1][1..] == [] && ixs[..1][0] == ixs[0];
      }
      OneStoredInstruction(e, s, h, metas, q, signer, ixs[0], outcomes);
      BatchKeepsOwners(e, s1, h1, metas, q, signer, ixs[1..], Rest(e, ixs[0], outcomes));
    }
  }

  /** The answers left after a list of stored instructions. */
  function RestAll(e: Env, ixs: seq<TransactionInstructionData>, outcomes: Outcomes): Outcomes
    decreases |ixs|
  {
    if ixs == [] then outcomes else RestAll(e, ixs[1..], Rest(e, ixs[0], outcomes))
  }

  /** A batch may be cut anywhere: the first part runs first, its failure is the batch's, and the second part goes on from its result. */
  lemma {:induction false} BatchConcat(e: Env, s: Accounts, metas: seq<AccountMeta>, signer: Pubkey,
                                       a: seq<TransactionInstructionData>, b: seq<TransactionInstructionData>, outcomes: Outcomes)
    ensures RunBatch(e, s, metas, signer, a + b, outcomes) ==
      match RunBatch(e, s, metas, signer, a, outcomes)
      case Err(x) => Err(x)
      case Ok(s1) => RunBatch(e, s1, metas, signer, b, RestAll(e, a, outcomes))
    decreases |a|
  {
    hide InvokeSigned, Rest;
    if a == [] {
      assert a + b == b;
    } else {
      assert (a + b)[0] == a[0] && (a + b)[1..] == a[1..] + b;
      match InvokeSigned(e, s, metas, signer, a[0], outcomes)
      case Err(_) =>
      case Ok(s1) => BatchConcat(e, s1, metas, signer, a[1..], b, Rest(e, a[0], outcomes));
    }
  }

  // ----- the answers of other programs -----

  /** How many of the stored instructions call other programs. */
  function OutsideCalls(e: Env, ixs: seq<TransactionInstructionData>): nat {
    if ixs == [] then 0
    else (if ixs[0].programId == e.programId then 0 else 1) + OutsideCalls(e, ixs[1..])
  }

  /** Each call of another program uses one answer, from the front. */
  lemma {:induction false} AnswersLeft(e: Env, ixs: seq<TransactionInstructionData>, outcomes: Outcomes)
    ensures var k := OutsideCalls(e, ixs);
      RestAll(e, ixs, outcomes) == if k <= |outcomes| then outcomes[k..] else []
    decreases |ixs|
  {
    if ixs != [] {
      AnswersLeft(e, ixs[1..], Rest(e, ixs[0], outcomes));
    }
  }

  lemma OutsideAnswer(e: Env, s: Accounts, metas: seq<AccountMeta>, signer: Pubkey, ix: TransactionInstructionData, outcomes: Outcomes)
    requires ix.programId != e.programId && CheckPrivileges(metas, signer, ToInvocation(ix, signer)).None?
    ensures InvokeSigned(e, s, metas, signer, ix, outcomes) ==
      if |outcomes| > 0 && outcomes[0].Some? then ApplyEffects(e, s, outcomes[0].value) else Err(ExternalFailure)
  {
    hide CheckPrivileges, ApplyEffects;
  }

  /**
   * The k-th call of another program gets the k-th answer. When a batch has succeeded before its i-th instruction,
   * which calls another program with granted rights, the batch up to and with it ends as the answer says whose number
   * is that of the outside calls before.
   */
  lemma AnswerOfCall(e: Env, s: Accounts, metas: seq<AccountMeta>, signer: Pubkey,
                     ixs: seq<TransactionInstructionData>, outcomes: Outcomes, i: nat)
    requires i < |ixs| && ixs[i].programId != e.programId && RunBatch(e, s, metas, signer, ixs[..i], outcomes).Ok?
    requires CheckPrivileges(metas, signer, ToInvocation(ixs[i], signer)).None?
    ensures var s1, k := RunBatch(e, s, metas, signer, ixs[..i], outcomes).value, OutsideCalls(e, ixs[..i]);
      RunBatch(e, s, metas, signer, ixs[..i + 1], outcomes) ==
        if k < |outcomes| && outcomes[k].Some? then ApplyEffects(e, s1, outcomes[k].value) else Err(ExternalFailure)
  {
    hide InvokeSigned, CheckPrivileges, ApplyEffects, RestAll, OutsideCalls, ToInvocation;
    var s1, left := RunBatch(e, s, metas, signer, ixs[..i], outcomes).value, RestAll(e, ixs[..i], outcomes);
    assert ixs[..i + 1] == ixs[..i] + [ixs[i]];
    BatchConcat(e, s, metas, signer, ixs[..i], [ixs[i]], outcomes);
    AnswersLeft(e, ixs[..i], outcomes);
    OutsideAnswer(e, s1, metas, signer, ixs[i], left);
    BatchOfOne(e, s1, metas, signer, ixs[i], left);
  }

  lemma BatchOfOne(e: Env, s: Accounts, metas: seq<AccountMeta>, signer: Pubkey, ix: TransactionInstructionData, outcomes: Outcomes)
    ensures RunBatch(e, s, metas, signer, [ix], outcomes) == InvokeSigned(e, s, metas, signer, ix, outcomes)
  {
    hide InvokeSigned, Rest;
    assert [ix][1..] == [];
  }

  // ----- execute -----

  /** The checks of execute_transaction. */
  lemma ExecutePassed(e: Env, s: Accounts, metas: seq<AccountMeta>)
    requires ValidateExecute(e, s, metas).Ok?
    ensures |metas| >= 5
    ensures var v := ValidateExecute(e, s, metas).value;
      && Get(e, s, metas[0].pubkey).owner == e.programId && Get(e, s, metas[2].pubkey).owner == e.programId
      && ExpectMultisig(Get(e, s, metas[0].pubkey).data) == Ok(v.multisig)
      && ExpectTransaction(Get(e, s, metas[2].pubkey).data) == Ok(v.transaction)
      && metas[4].isSigner && metas[4].pubkey in v.multisig.owners
      && v.account == metas[2].pubkey && v.refundee == metas[3].pubkey && v.refundee != v.account
      && v.transaction.multisig == metas[0].pubkey
      && v.transaction.ownerSetSeqno == v.multisig.ownerSetSeqno
      && e.pda(metas[0].pubkey, v.multisig.nonce) == Some(v.signer)
      && v.multisig.threshold <= AsU8(CountTrue(v.transaction.signers))
  {
    hide ExpectMultisig, ExpectTransaction, CountTrue, Get;
  }

  lemma ValidatedFacts(e: Env, s: Accounts, h: History, metas: seq<AccountMeta>)
    requires Inv(e, s, h) && ValidateExecute(e, s, metas).Ok?
    ensures |metas| >= 5
    ensures var v := ValidateExecute(e, s, metas).value;
      && IsMultisig(e, s, metas[0].pubkey) && MultisigAt(e, s, metas[0].pubkey) == v.multisig
      && IsTransaction(e, s, metas[2].pubkey) && TransactionAt(e, s, metas[2].pubkey) == v.transaction
      && metas[4].isSigner && metas[4].pubkey in v.multisig.owners
      && v.account == metas[2].pubkey && v.refundee == metas[3].pubkey && v.refundee != v.account
      && v.transaction.multisig == metas[0].pubkey
      && v.transaction.ownerSetSeqno == v.multisig.ownerSetSeqno
      && e.pda(metas[0].pubkey, v.multisig.nonce) == Some(v.signer)
      && v.multisig.threshold <= AsU8(CountTrue(v.transaction.signers))
  {
    ExecutePassed(e, s, metas);
    hide ValidateExecute, Inv, ExpectMultisig, ExpectTransaction, CountTrue;
    ReadsMultisig(e, s, h, metas[0].pubkey, ValidateExecute(e, s, metas).value.multisig);
    ReadsTransaction(e, s, h, metas[2].pubkey, ValidateExecute(e, s, metas).value.transaction);
  }

  /** A recorded proposal stores what its account stores. */
  lemma RecordedInstructions(e: Env, s: Accounts, h: History, x: Pubkey)
    requires Inv(e, s, h) && IsTransaction(e, s, x)
    ensures x in h.proposals && h.proposals[x].instructions == TransactionAt(e, s, x).instructions
    ensures h.proposals[x].multisig == TransactionAt(e, s, x).multisig
    ensures IsMultisig(e, s, TransactionAt(e, s, x).multisig)
  {
    assert AccountOk(e, s, h, x);
  }

  lemma RecordOfExecute(e: Env, s: Accounts, h: History, metas: seq<AccountMeta>)
    requires Inv(e, s, h) && ValidateExecute(e, s, metas).Ok?
    ensures var v := ValidateExecute(e, s, metas).value;
      var ran := RecordBatch(e, h, v.transaction.instructions);
      |metas| >= 5 && Record(e, h, metas, ExecuteTransaction) == ran.(proposals := ran.proposals - {metas[2].pubkey})
  {
    hide Inv, ValidateExecute, RecordBatch, CountTrue;
    ValidatedFacts(e, s, h, metas);
    RecordedInstructions(e, s, h, metas[2].pubkey);
  }

  /** An accepted execution is its validation, its batch and its close. */
  lemma ExecuteParts(e: Env, s: Accounts, metas: seq<AccountMeta>, outcomes: Outcomes)
    requires ExecuteStep(e, s, metas, outcomes).Ok?
    ensures ValidateExecute(e, s, metas).Ok?
    ensures var v := ValidateExecute(e, s, metas).value;
      var ran := RunBatch(e, s, metas, v.signer, v.transaction.instructions, outcomes);
      && ran.Ok? && CloseAccount(e, ran.value, v.account, v.refundee).Ok?
      && ExecuteStep(e, s, metas, outcomes) == CloseAccount(e, ran.value, v.account, v.refundee)
  {
    hide ValidateExecute, RunBatch, CloseAccount;
  }

  lemma ExecuteKeepsInv(e: Env, s: Accounts, h: History, metas: seq<AccountMeta>, outcomes: Outcomes)
    requires ValidEnv(e) && Inv(e, s, h) && KeysSign(e, metas)
    requires ExecuteStep(e, s, metas, outcomes).Ok? && NoWrap(Record(e, h, metas, ExecuteTransaction))
    ensures Inv(e, ExecuteStep(e, s, metas, outcomes).value, Record(e, h, metas, ExecuteTransaction))
  {
    hide Inv, ExecuteStep, ValidateExecute, RunBatch, CloseAccount, Record, RecordBatch, CountTrue, KeysSign;
    ExecuteParts(e, s, metas, outcomes);
    var v := ValidateExecute(e, s, metas).value;
    ValidatedFacts(e, s, h, metas);
    RecordOfExecute(e, s, h, metas);
    var ixs := v.transaction.instructions;
    BatchKeepsInv(e, s, h, metas, metas[0].pubkey, v.signer, ixs, outcomes);
    var s1 := RunBatch(e, s, metas, v.signer, ixs, outcomes).value;
    assert v.account != metas[0].pubkey;
    CloseKeepsInv(e, s1, RecordBatch(e, h, ixs), v.account, v.refundee);
  }
}
