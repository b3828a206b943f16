/** What executed proposals make of a configuration: exactly what their stored instructions describe. */
module Configuration {
  import opened Machine
  import opened State
  import opened Instructions
  import opened Protocol
  import opened History
  import opened Invariant
  import opened Batch
  import opened Runs
  import opened Approvals
  import opened Authorisation
  import opened Epochs

  /** What one stored instruction makes of the configuration: calls of other programs make nothing of it. */
  function AfterStored(e: Env, m: Multisig, ix: TransactionInstructionData): Multisig {
    if ix.programId != e.programId then m
    else
      match DecodeInstruction(ix.data)
      case Some(i) => if Refusal(m, i).None? then Changed(m, i) else m
      case None => m
  }

  /** The configuration that a list of stored instructions describes, from left to right. */
  function Described(e: Env, m: Multisig, ixs: seq<TransactionInstructionData>): Multisig
    decreases |ixs|
  {
    if ixs == [] then m else Described(e, AfterStored(e, m, ixs[0]), ixs[1..])
  }

  lemma {:induction false} DescribedConcat(e: Env, m: Multisig, a: seq<TransactionInstructionData>, b: seq<TransactionInstructionData>)
    ensures Described(e, m, a + b) == Described(e, Described(e, m, a), b)
    decreases |a|
  {
    hide AfterStored;
    if a == [] {
      assert a + b == b;
    } else {
      assert (a + b)[0] == a[0] && (a + b)[1..] == a[1..] + b;
      DescribedConcat(e, AfterStored(e, m, a[0]), a[1..], b);
    }
  }

  // ----- one batch -----

  lemma StoredDescribes(e: Env, s: Accounts, h: History, metas: seq<AccountMeta>, q: Pubkey, signer: Pubkey,
                        ix: TransactionInstructionData, outcomes: Outcomes)
    requires ValidEnv(e) && Inv(e, s, h) && IsMultisig(e, s, q) && KeysSign(e, metas)
    requires e.pda(q, MultisigAt(e, s, q).nonce) == Some(signer)
    requires InvokeSigned(e, s, metas, signer, ix, outcomes).Ok?
    ensures var s' := InvokeSigned(e, s, metas, signer, ix, outcomes).value;
      IsMultisig(e, s', q) && MultisigAt(e, s', q) == AfterStored(e, MultisigAt(e, s, q), ix)
  {
    hide Inv, KeysSign, InvokeSigned, Admin, CheckPrivileges, ToInvocation, DecodeInstruction, Refusal, Changed, ValidEnv, Respects, ApplyEffects;
    if ix.programId == e.programId {
      SelfCall(e, s, metas, signer, ix, outcomes);
      var call, i := ToInvocation(ix, signer), DecodeInstruction(ix.data).value;
      AdminFromBatch(e, s, h, metas, q, signer, call, i);
      AdminFacts(e, s, h, call.accounts, i);
    } else {
      OutsideCall(e, s, metas, signer, ix, outcomes);
      EffectsRespect(e, s, outcomes[0].value);
      RespectedIsTouchesOnly(e, s, InvokeSigned(e, s, metas, signer, ix, outcomes).value, q);
    }
  }

  /** A successful batch leaves the configuration its instructions describe. */
  lemma {:induction false} BatchDescribes(e: Env, s: Accounts, h: History, metas: seq<AccountMeta>, q: Pubkey, signer: Pubkey,
                                          ixs: seq<TransactionInstructionData>, outcomes: Outcomes)
    requires ValidEnv(e) && Inv(e, s, h) && IsMultisig(e, s, q) && KeysSign(e, metas)
    requires e.pda(q, MultisigAt(e, s, q).nonce) == Some(signer)
    requires RunBatch(e, s, metas, signer, ixs, outcomes).Ok? && NoWrap(RecordBatch(e, h, ixs))
    ensures var s' := RunBatch(e, s, metas, signer, ixs, outcomes).value;
      IsMultisig(e, s', q) && MultisigAt(e, s', q) == Described(e, MultisigAt(e, s, q), ixs)
    decreases |ixs|
  {
    hide InvokeSigned, Inv, KeysSign, RecordOne, AfterStored, NoWrap, ValidEnv;
    if ixs != [] {
      var s1 := InvokeSigned(e, s, metas, signer, ixs[0], outcomes).value;
      var h1 := RecordOne(e, h, ixs[0]);
      NoWrapBefore(e, h1, ixs[1..]);
      OneStoredInstruction(e, s, h, metas, q, signer, ixs[0], outcomes);
      StoredDescribes(e, s, h, metas, q, signer, ixs[0], outcomes);
      BatchDescribes(e, s1, h1, metas, q, signer, ixs[1..], Rest(e, ixs[0], outcomes));
    }
  }

  /** An accepted execution leaves the configuration that the executed proposal describes. */
  lemma ExecuteDescribes(e: Env, s: Accounts, h: History, metas: seq<AccountMeta>, outcomes: Outcomes)
    requires ValidEnv(e) && Inv(e, s, h) && KeysSign(e, metas)
    requires ExecuteStep(e, s, metas, outcomes).Ok? && NoWrap(Record(e, h, metas, ExecuteTransaction))
    ensures |metas| >= 5 && IsMultisig(e, s, metas[0].pubkey) && IsTransaction(e, s, metas[2].pubkey)
    ensures var s' := ExecuteStep(e, s, metas, outcomes).value;
      && IsMultisig(e, s', metas[0].pubkey)
      && MultisigAt(e, s', metas[0].pubkey)
         == Described(e, MultisigAt(e, s, metas[0].pubkey), TransactionAt(e, s, metas[2].pubkey).instructions)
  {
    hide Inv, ExecuteStep, ValidateExecute, RunBatch, CloseAccount, Record, RecordBatch, CountTrue, KeysSign, Described;
    ExecuteParts(e, s, metas, outcomes);
    var v := ValidateExecute(e, s, metas).value;
    ValidatedFacts(e, s, h, metas);
    RecordOfExecute(e, s, h, metas);
    var q, ixs := metas[0].pubkey, v.transaction.instructions;
    BatchDescribes(e, s, h, metas, q, v.signer, ixs, outcomes);
    assert v.account != q;
    CloseReach(e, RunBatch(e, s, metas, v.signer, ixs, outcomes).value, v.account, v.refundee);
  }

  // ----- whole runs -----

  /** The instructions that call c executes for multisig q: those of the proposal it executes, or none. */
  ghost function Executed(e: Env, w: World, c: Call, q: Pubkey): seq<TransactionInstructionData> {
    if ExecutesFor(e, w, c, q) && IsTransaction(e, w.accounts, c.metas[2].pubkey)
    then TransactionAt(e, w.accounts, c.metas[2].pubkey).instructions
    else []
  }

  /** All that was executed for q from call i up to call j, in order. */
  ghost function ExecutedBetween(e: Env, s0: Accounts, calls: seq<Call>, i: nat, j: nat, q: Pubkey): seq<TransactionInstructionData>
    requires i <= j <= |calls|
    decreases j
  {
    if i == j then []
    else ExecutedBetween(e, s0, calls, i, j - 1, q) + Executed(e, At(e, s0, calls, j - 1), calls[j - 1], q)
  }

  lemma NextDescribes(e: Env, w: World, c: Call, q: Pubkey)
    requires ValidEnv(e) && Inv(e, w.accounts, w.history) && (c.Invoke? ==> KeysSign(e, c.metas))
    requires NoWrap(Next(e, w, c).history) && IsMultisig(e, w.accounts, q)
    ensures IsMultisig(e, Next(e, w, c).accounts, q)
    ensures MultisigAt(e, Next(e, w, c).accounts, q) == Described(e, MultisigAt(e, w.accounts, q), Executed(e, w, c, q))
  {
    hide Next, Inv, KeysSign, Accepted, AfterStored, ValidEnv, NoWrap, IsMultisig, MultisigAt, IsTransaction, TransactionAt;
    MultisigFrame(e, w, c, q);
    if ExecutesFor(e, w, c, q) {
      DispatchOf(e, w, c, ExecuteTransaction);
      NextOfAccepted(e, w, c, ExecuteTransaction);
      ExecuteDescribes(e, w.accounts, w.history, c.metas, c.outcomes);
    }
  }

  /**
   * The configuration is what was approved. Over any stretch of a run a multisig goes from its configuration at the
   * start to the one described by the instructions executed for it in the stretch, in their order, and nothing else.
   */
  lemma {:induction false} ConfigurationIsDescribed(e: Env, s0: Accounts, calls: seq<Call>, i: nat, j: nat, q: Pubkey)
    requires Run(e, s0, calls) && i <= j <= |calls| && IsMultisig(e, At(e, s0, calls, i).accounts, q)
    ensures IsMultisig(e, At(e, s0, calls, j).accounts, q)
    ensures MultisigAt(e, At(e, s0, calls, j).accounts, q)
         == Described(e, MultisigAt(e, At(e, s0, calls, i).accounts, q), ExecutedBetween(e, s0, calls, i, j, q))
    decreases j
  {
    hide Next, Inv, Run, At, Executed, Described, IsMultisig, MultisigAt;
    if i < j {
      var w := At(e, s0, calls, j - 1);
      ConfigurationIsDescribed(e, s0, calls, i, j - 1, q);
      StepFacts(e, s0, calls, j - 1);
      NextDescribes(e, w, calls[j - 1], q);
      DescribedConcat(e, MultisigAt(e, At(e, s0, calls, i).accounts, q), ExecutedBetween(e, s0, calls, i, j - 1, q),
        Executed(e, w, calls[j - 1], q));
    } else {
      NothingDescribes(e, MultisigAt(e, At(e, s0, calls, i).accounts, q));
    }
  }

  lemma NothingDescribes(e: Env, m: Multisig)
    ensures Described(e, m, []) == m
  {
  }

  /** A multisig's configuration is determined by its founding and by what has been executed for it since. */
  lemma ConfigurationSinceFounding(e: Env, s0: Accounts, calls: seq<Call>, c: nat, j: nat,
                                   owners: seq<Pubkey>, threshold: u8, nonce: u8)
    requires Run(e, s0, calls) && c < j <= |calls|
    requires Accepted(e, At(e, s0, calls, c), calls[c], CreateMultisig(owners, threshold, nonce))
    ensures |calls[c].metas| >= 4 && IsMultisig(e, At(e, s0, calls, j).accounts, calls[c].metas[0].pubkey)
    ensures MultisigAt(e, At(e, s0, calls, j).accounts, calls[c].metas[0].pubkey)
         == Described(e, Multisig(owners, threshold, nonce, 0, []),
                      ExecutedBetween(e, s0, calls, c + 1, j, calls[c].metas[0].pubkey))
  {
    hide Next, Inv, Run, At, Described, Accepted, CreateMultisigStep, ExecutedBetween, ValidEnv;
    var w, i := At(e, s0, calls, c), CreateMultisig(owners, threshold, nonce);
    StepFacts(e, s0, calls, c);
    DispatchOf(e, w, calls[c], i);
    NextOfAccepted(e, w, calls[c], i);
    CreateReach(e, w.accounts, calls[c].metas, owners, threshold, nonce);
    ConfigurationIsDescribed(e, s0, calls, c + 1, j, calls[c].metas[0].pubkey);
  }

  /**
   * What is executed is what was proposed. The instructions of an accepted execution are those that an earlier call of
   * the run carried: the one that made the proposal executed, since which it has not ended.
   */
  lemma ExecutedWasProposed(e: Env, s0: Accounts, calls: seq<Call>, n: nat, q: Pubkey) returns (p: nat)
    requires Run(e, s0, calls) && n < |calls| && ExecutesFor(e, At(e, s0, calls, n), calls[n], q)
    ensures p < n && ProposedAt(e, s0, calls, p, n, calls[n].metas[2].pubkey)
    ensures calls[p].Invoke? && |calls[p].metas| > 0 && calls[p].metas[0].pubkey == q
    ensures DecodeInstruction(calls[p].data) == Some(ProposeTransaction(Executed(e, At(e, s0, calls, n), calls[n], q)))
  {
    hide Inv, Run, At, Accepted, ExecuteStep, ValidateExecute, KeysSign, ProposedAt, CountTrue, DecodeInstruction;
    var w := At(e, s0, calls, n);
    StepFacts(e, s0, calls, n);
    DispatchOf(e, w, calls[n], ExecuteTransaction);
    ExecuteParts(e, w.accounts, calls[n].metas, calls[n].outcomes);
    ValidatedFacts(e, w.accounts, w.history, calls[n].metas);
    p := LiveWasProposed(e, s0, calls, n, calls[n].metas[2].pubkey);
  }
}
