/** Whole runs: every reachable state satisfies the invariant, and what follows over time. */
module Runs {
  import opened Machine
  import opened State
  import opened Instructions
  import opened Layouts
  import opened Protocol
  import opened History
  import opened Invariant
  import opened Batch

  // ----- one call -----

  /** Only an executed proposal can use the administrative instructions. */
  lemma AdminNeverFromOutside(e: Env, s: Accounts, metas: seq<AccountMeta>, i: MultisigInstruction)
    requires KeysSign(e, metas)
    ensures Admin(e, s, metas, i).Err?
  {
    if i.SetOwners? || i.ChangeThreshold? || i.SetOwnersAndChangeThreshold? {
      AdminIs(e, s, metas, i);
      hide Admin, Authorise;
      if Admin(e, s, metas, i).Ok? {
        AuthorisedBy(e, s, metas);
      }
    }
  }

  /** The checks of cancel_transaction. */
  lemma CancelPassed(e: Env, s: Accounts, metas: seq<AccountMeta>) returns (m: Multisig, t: Transaction)
    requires ValidateCancel(e, s, metas).None?
    ensures |metas| >= 4 && metas[3].isSigner && metas[3].pubkey in m.owners && metas[2].pubkey != metas[1].pubkey
    ensures Get(e, s, metas[0].pubkey).owner == e.programId && Get(e, s, metas[1].pubkey).owner == e.programId
    ensures ExpectMultisig(Get(e, s, metas[0].pubkey).data) == Ok(m)
    ensures ExpectTransaction(Get(e, s, metas[1].pubkey).data) == Ok(t) && t.multisig == metas[0].pubkey
  {
    hide ExpectMultisig, ExpectTransaction, Get;
    m := ExpectMultisig(Get(e, s, metas[0].pubkey).data).value;
    t := ExpectTransaction(Get(e, s, metas[1].pubkey).data).value;
  }

  /** An accepted cancellation closes a transaction account of the multisig it names, and nothing else. */
  lemma CancelCloses(e: Env, s: Accounts, h: History, metas: seq<AccountMeta>)
    requires Inv(e, s, h) && CancelStep(e, s, metas).Ok?
    ensures |metas| >= 4 && IsMultisig(e, s, metas[0].pubkey) && IsTransaction(e, s, metas[1].pubkey)
    ensures TransactionAt(e, s, metas[1].pubkey).multisig == metas[0].pubkey && metas[2].pubkey != metas[1].pubkey
    ensures metas[3].isSigner && metas[3].pubkey in MultisigAt(e, s, metas[0].pubkey).owners
    ensures CancelStep(e, s, metas) == CloseAccount(e, s, metas[1].pubkey, metas[2].pubkey)
  {
    hide Inv, ValidateCancel, CloseAccount;
    var m, t := CancelPassed(e, s, metas);
    hide ExpectMultisig, ExpectTransaction;
    ReadsMultisig(e, s, h, metas[0].pubkey, m);
    ReadsTransaction(e, s, h, metas[1].pubkey, t);
  }

  lemma CancelKeepsInv(e: Env, s: Accounts, h: History, metas: seq<AccountMeta>)
    requires ValidEnv(e) && Inv(e, s, h) && CancelStep(e, s, metas).Ok?
    ensures Inv(e, CancelStep(e, s, metas).value, Record(e, h, metas, CancelTransaction))
  {
    hide Inv, CancelStep, CloseAccount;
    CancelCloses(e, s, h, metas);
    CloseKeepsInv(e, s, h, metas[1].pubkey, metas[2].pubkey);
  }

  lemma DispatchKeepsInv(e: Env, s: Accounts, h: History, metas: seq<AccountMeta>, i: MultisigInstruction, outcomes: Outcomes)
    requires ValidEnv(e) && Inv(e, s, h) && KeysSign(e, metas)
    requires Dispatch(e, s, metas, i, outcomes).Ok? && NoWrap(Record(e, h, metas, i))
    requires i.CreateMultisig? && |metas| > 0 ==> Clear(metas[0].pubkey, MAX_CREATED_DATA)
    ensures Inv(e, Dispatch(e, s, metas, i, outcomes).value, Record(e, h, metas, i))
  {
    hide Inv, CreateMultisigStep, ProposeStep, ApproveStep, ExecuteStep, CancelStep, Admin, Record, KeysSign;
    match i
    case CreateMultisig(owners, threshold, nonce) =>
      CreatePassed(e, s, metas, owners, threshold, nonce);
      CreateKeepsInv(e, s, h, metas, owners, threshold, nonce);
    case ProposeTransaction(ixs) => ProposeKeepsInv(e, s, h, metas, ixs);
    case ApproveTransaction => ApproveKeepsInv(e, s, h, metas);
    case ExecuteTransaction => ExecuteKeepsInv(e, s, h, metas, outcomes);
    case CancelTransaction => CancelKeepsInv(e, s, h, metas);
    case _ => AdminNeverFromOutside(e, s, metas, i);
  }

  /** Call c, made in world w, is accepted as instruction i. */
  ghost predicate Accepted(e: Env, w: World, c: Call, i: MultisigInstruction) {
    c.Invoke? && DecodeInstruction(c.data) == Some(i) && Dispatch(e, w.accounts, c.metas, i, c.outcomes).Ok?
  }

  lemma NextOfAccepted(e: Env, w: World, c: Call, i: MultisigInstruction)
    requires Accepted(e, w, c, i)
    ensures Next(e, w, c) == World(Dispatch(e, w.accounts, c.metas, i, c.outcomes).value, Record(e, w.history, c.metas, i))
  {
  }

  /** A call is either an accepted instruction, effects of other programs, or changes nothing. */
  lemma NextCases(e: Env, w: World, c: Call)
    ensures || (exists i :: Accepted(e, w, c, i))
            || (c.Other? && ApplyEffects(e, w.accounts, c.effects).Ok? &&
                Next(e, w, c) == World(ApplyEffects(e, w.accounts, c.effects).value, w.history))
            || Next(e, w, c) == w
  {
    if c.Invoke? && DecodeInstruction(c.data).Some? {
      var i := DecodeInstruction(c.data).value;
      assert Process(e, w.accounts, c.metas, c.data, c.outcomes) == Dispatch(e, w.accounts, c.metas, i, c.outcomes);
      if Dispatch(e, w.accounts, c.metas, i, c.outcomes).Ok? {
        assert Accepted(e, w, c, i);
      }
    }
  }

  lemma RecordGrows(e: Env, h: History, metas: seq<AccountMeta>, i: MultisigInstruction, k: Pubkey)
    ensures Changes(h, k) <= Changes(Record(e, h, metas, i), k)
  {
    if i.ExecuteTransaction? && |metas| >= 3 && metas[2].pubkey in h.proposals {
      ChangesGrow(e, h, h.proposals[metas[2].pubkey].instructions, k);
    }
  }

  /** Owner-change counters never decrease. */
  lemma NextGrows(e: Env, w: World, c: Call, k: Pubkey)
    ensures Changes(w.history, k) <= Changes(Next(e, w, c).history, k)
  {
    NextCases(e, w, c);
    if i :| Accepted(e, w, c, i) {
      NextOfAccepted(e, w, c, i);
      RecordGrows(e, w.history, c.metas, i, k);
    }
  }

  lemma NextKeepsInv(e: Env, w: World, c: Call)
    requires ValidEnv(e) && Inv(e, w.accounts, w.history)
    requires Admissible(e, c) && NoWrap(Next(e, w, c).history)
    ensures Inv(e, Next(e, w, c).accounts, Next(e, w, c).history)
  {
    NextCases(e, w, c);
    if i :| Accepted(e, w, c, i) {
      NextOfAccepted(e, w, c, i);
      DispatchKeepsInv(e, w.accounts, w.history, c.metas, i, c.outcomes);
    } else if c.Other? && ApplyEffects(e, w.accounts, c.effects).Ok? {
      EffectsRespect(e, w.accounts, c.effects);
      InvRespects(e, w.accounts, w.history, Next(e, w, c).accounts);
    }
  }

  // ----- runs -----

  /** The hypotheses on a run. */
  ghost predicate Run(e: Env, s0: Accounts, calls: seq<Call>) {
    ValidEnv(e) && Genesis(e, s0) && ValidCalls(e, calls) && NoWrap(After(e, s0, calls).history)
  }

  /** The world before call n. */
  ghost function At(e: Env, s0: Accounts, calls: seq<Call>, n: nat): World
    requires n <= |calls|
  {
    After(e, s0, calls[..n])
  }

  lemma AtNext(e: Env, s0: Accounts, calls: seq<Call>, n: nat)
    requires n < |calls|
    ensures At(e, s0, calls, n + 1) == Next(e, At(e, s0, calls, n), calls[n])
  {
    assert calls[..n + 1][..n] == calls[..n];
  }

  lemma {:induction false} ChangesOverRun(e: Env, s0: Accounts, calls: seq<Call>, i: nat, j: nat, k: Pubkey)
    requires i <= j <= |calls|
    ensures Changes(At(e, s0, calls, i).history, k) <= Changes(At(e, s0, calls, j).history, k)
    decreases j - i
  {
    hide Next, After, Changes;
    if i < j {
      ChangesOverRun(e, s0, calls, i, j - 1, k);
      AtNext(e, s0, calls, j - 1);
      NextGrows(e, At(e, s0, calls, j - 1), calls[j - 1], k);
    }
  }

  lemma NoWrapThroughout(e: Env, s0: Accounts, calls: seq<Call>, n: nat)
    requires Run(e, s0, calls) && n <= |calls|
    ensures NoWrap(At(e, s0, calls, n).history)
  {
    hide Next;
    var h := At(e, s0, calls, n).history;
    assert calls[..|calls|] == calls;
    forall k | k in h.changes ensures h.changes[k] < TWO_32 {
      ChangesOverRun(e, s0, calls, n, |calls|, k);
      assert Changes(After(e, s0, calls).history, k) < TWO_32;
    }
  }

  /** Every reachable state satisfies the invariant. */
  lemma {:induction false} Reachable(e: Env, s0: Accounts, calls: seq<Call>, n: nat)
    requires Run(e, s0, calls) && n <= |calls|
    ensures Inv(e, At(e, s0, calls, n).accounts, At(e, s0, calls, n).history)
    decreases n
  {
    if n == 0 {
      assert calls[..0] == [];
    } else {
      Reachable(e, s0, calls, n - 1);
      AtNext(e, s0, calls, n - 1);
      NoWrapThroughout(e, s0, calls, n);
      NextKeepsInv(e, At(e, s0, calls, n - 1), calls[n - 1]);
    }
  }

  /** All that is known of one step of a run. */
  lemma StepFacts(e: Env, s0: Accounts, calls: seq<Call>, n: nat)
    requires Run(e, s0, calls) && n < |calls|
    ensures ValidEnv(e) && Inv(e, At(e, s0, calls, n).accounts, At(e, s0, calls, n).history)
    ensures Admissible(e, calls[n]) && (calls[n].Invoke? ==> KeysSign(e, calls[n].metas))
    ensures At(e, s0, calls, n + 1) == Next(e, At(e, s0, calls, n), calls[n])
    ensures NoWrap(Next(e, At(e, s0, calls, n), calls[n]).history)
  {
    Reachable(e, s0, calls, n);
    AtNext(e, s0, calls, n);
    NoWrapThroughout(e, s0, calls, n + 1);
  }
}
