/** Lamports are neither made nor lost. */
module Lamports {
  import opened Machine
  import opened State
  import opened Instructions
  import opened Protocol
  import opened History
  import opened Invariant
  import opened Batch
  import opened Runs

  /** The sum of all balances. */
  ghost function Total(s: Accounts): nat
    decreases |s|
  {
    if s == map[] then 0
    else
      var k :| k in s;
      s[k].lamports + Total(s - {k})
  }

  lemma {:induction false} TotalRemove(s: Accounts, k: Pubkey)
    requires k in s
    ensures Total(s) == s[k].lamports + Total(s - {k})
    decreases |s|
  {
    var j :| j in s && Total(s) == s[j].lamports + Total(s - {j});
    if j != k {
      TotalRemove(s - {j}, k);
      TotalRemove(s - {k}, j);
      assert s - {j} - {k} == s - {k} - {j};
    }
  }

  /** Replacing one account moves the total by the difference of its balances. */
  lemma TotalUpdate(e: Env, s: Accounts, k: Pubkey, a: Account)
    ensures Total(s[k := a]) + Get(e, s, k).lamports == Total(s) + a.lamports
  {
    TotalRemove(s[k := a], k);
    if k in s {
      TotalRemove(s, k);
      assert s[k := a] - {k} == s - {k};
    } else {
      assert s[k := a] - {k} == s;
    }
  }

  lemma TwoWithinTotal(e: Env, s: Accounts, j: Pubkey, k: Pubkey)
    requires j != k
    ensures Get(e, s, j).lamports + Get(e, s, k).lamports <= Total(s)
  {
    if j in s {
      TotalRemove(s, j);
      if k in s {
        TotalRemove(s - {j}, k);
      }
    } else if k in s {
      TotalRemove(s, k);
    }
  }

  // ----- the handlers -----

  lemma CreateConserves(e: Env, s: Accounts, payer: AccountMeta, target: AccountMeta, lamports: nat, d: Data)
    requires CreateAccount(e, s, payer, target, lamports, d).Ok?
    ensures Total(CreateAccount(e, s, payer, target, lamports, d).value) == Total(s)
  {
    var from := Get(e, s, payer.pubkey);
    var s1 := s[payer.pubkey := from.(lamports := from.lamports - lamports)];
    TotalUpdate(e, s, payer.pubkey, s1[payer.pubkey]);
    TotalUpdate(e, s1, target.pubkey, Account(e.programId, lamports, d));
  }

  lemma CloseConserves(e: Env, s: Accounts, x: Pubkey, r: Pubkey)
    requires x != r && CloseAccount(e, s, x, r).Ok?
    ensures Total(CloseAccount(e, s, x, r).value) == Total(s)
  {
    var s1 := s[x := Get(e, s, x).(lamports := 0)];
    var s2 := s1[r := Get(e, s1, r).(lamports := Get(e, s1, r).lamports + Get(e, s, x).lamports)];
    TotalUpdate(e, s, x, s1[x]);
    TotalUpdate(e, s1, r, s2[r]);
    TotalUpdate(e, s2, x, Account(e.systemId, Get(e, s2, x).lamports, Plain([])));
  }

  /** Closing moves the whole balance, conserves the total, and cannot overflow when the total fits in u64. */
  lemma CloseMoves(e: Env, s: Accounts, x: Pubkey, r: Pubkey)
    requires x != r
    ensures CloseAccount(e, s, x, r).Ok? <==> Get(e, s, x).lamports + Get(e, s, r).lamports < TWO_64
    ensures Total(s) < TWO_64 ==> CloseAccount(e, s, x, r).Ok?
    ensures CloseAccount(e, s, x, r).Ok? ==>
              var s' := CloseAccount(e, s, x, r).value;
              && Total(s') == Total(s)
              && Get(e, s', x) == Account(e.systemId, 0, Plain([]))
              && Get(e, s', r) == Get(e, s, r).(lamports := Get(e, s, r).lamports + Get(e, s, x).lamports)
  {
    hide Total;
    TwoWithinTotal(e, s, x, r);
    if CloseAccount(e, s, x, r).Ok? {
      CloseConserves(e, s, x, r);
    }
  }

  lemma PutConserves(e: Env, s: Accounts, k: Pubkey, d: Data)
    ensures Total(PutData(e, s, k, d)) == Total(s)
  {
    TotalUpdate(e, s, k, Get(e, s, k).(data := d));
  }

  lemma EffectConserves(e: Env, s: Accounts, f: Effect)
    requires ApplyEffect(e, s, f).Ok?
    ensures Total(ApplyEffect(e, s, f).value) == Total(s)
  {
    match f
    case Move(from, to, amount) =>
      var s1 := s[from := Get(e, s, from).(lamports := Get(e, s, from).lamports - amount)];
      TotalUpdate(e, s, from, s1[from]);
      TotalUpdate(e, s1, to, Get(e, s1, to).(lamports := Get(e, s1, to).lamports + amount));
    case Rewrite(k, owner, bytes) =>
      TotalUpdate(e, s, k, Account(owner, Get(e, s, k).lamports, Plain(bytes)));
  }

  lemma {:induction false} EffectsConserve(e: Env, s: Accounts, fs: seq<Effect>)
    requires ApplyEffects(e, s, fs).Ok?
    ensures Total(ApplyEffects(e, s, fs).value) == Total(s)
    decreases |fs|
  {
    if fs != [] {
      EffectConserves(e, s, fs[0]);
      EffectsConserve(e, ApplyEffect(e, s, fs[0]).value, fs[1..]);
    }
  }

  lemma AdminConserves(e: Env, s: Accounts, metas: seq<AccountMeta>, i: MultisigInstruction)
    requires Admin(e, s, metas, i).Ok?
    ensures Total(Admin(e, s, metas, i).value) == Total(s)
  {
    var d := Get(e, Admin(e, s, metas, i).value, metas[0].pubkey).data;
    PutConserves(e, s, metas[0].pubkey, d);
  }

  lemma {:induction false} BatchConserves(e: Env, s: Accounts, metas: seq<AccountMeta>, signer: Pubkey,
                                          ixs: seq<TransactionInstructionData>, outcomes: Outcomes)
    requires RunBatch(e, s, metas, signer, ixs, outcomes).Ok?
    ensures Total(RunBatch(e, s, metas, signer, ixs, outcomes).value) == Total(s)
    decreases |ixs|
  {
    if ixs != [] {
      InvokeConserves(e, s, metas, signer, ixs[0], outcomes);
      BatchConserves(e, InvokeSigned(e, s, metas, signer, ixs[0], outcomes).value, metas, signer, ixs[1..], Rest(e, ixs[0], outcomes));
    }
  }

  lemma InvokeConserves(e: Env, s: Accounts, metas: seq<AccountMeta>, signer: Pubkey, ix: TransactionInstructionData, outcomes: Outcomes)
    requires InvokeSigned(e, s, metas, signer, ix, outcomes).Ok?
    ensures Total(InvokeSigned(e, s, metas, signer, ix, outcomes).value) == Total(s)
  {
    if ix.programId == e.programId {
      AdminConserves(e, s, ToInvocation(ix, signer).accounts, DecodeInstruction(ix.data).value);
    } else {
      EffectsConserve(e, s, outcomes[0].value);
    }
  }

  lemma ExecuteConserves(e: Env, s: Accounts, metas: seq<AccountMeta>, outcomes: Outcomes)
    requires ExecuteStep(e, s, metas, outcomes).Ok?
    ensures Total(ExecuteStep(e, s, metas, outcomes).value) == Total(s)
  {
    hide ExecuteStep, ValidateExecute, RunBatch, CloseAccount, Total;
    ExecuteParts(e, s, metas, outcomes);
    ExecutePassed(e, s, metas);
    var v := ValidateExecute(e, s, metas).value;
    BatchConserves(e, s, metas, v.signer, v.transaction.instructions, outcomes);
    CloseConserves(e, RunBatch(e, s, metas, v.signer, v.transaction.instructions, outcomes).value, v.account, v.refundee);
  }

  lemma ProposeConserves(e: Env, s: Accounts, metas: seq<AccountMeta>, ixs: seq<TransactionInstructionData>)
    requires ProposeStep(e, s, metas, ixs).Ok?
    ensures Total(ProposeStep(e, s, metas, ixs).value) == Total(s)
  {
    var m := ExpectMultisig(Get(e, s, metas[0].pubkey).data).value;
    var t := Transaction(metas[0].pubkey, ixs, FirstApproval(m.owners, Position(m.owners, metas[2].pubkey).value), m.ownerSetSeqno);
    CreateConserves(e, s, metas[3], metas[1], e.rent(t.Len()), TransactionData(t));
  }

  lemma FoundingConserves(e: Env, s: Accounts, metas: seq<AccountMeta>, owners: seq<Pubkey>, threshold: u8, nonce: u8)
    requires CreateMultisigStep(e, s, metas, owners, threshold, nonce).Ok?
    ensures Total(CreateMultisigStep(e, s, metas, owners, threshold, nonce).value) == Total(s)
  {
    hide CreateAccount, Total, AllUnique;
    var m := Multisig(owners, threshold, nonce, 0, []);
    CreateConserves(e, s, metas[2], metas[0], e.rent(m.Len()), MultisigData(m));
  }

  lemma ApproveConserves(e: Env, s: Accounts, metas: seq<AccountMeta>)
    requires ApproveStep(e, s, metas).Ok?
    ensures Total(ApproveStep(e, s, metas).value) == Total(s)
  {
    hide ApproveStep, Total, PutData;
    var m, t := ApprovePassed(e, s, metas);
    var i := Position(m.owners, metas[2].pubkey).value;
    PutConserves(e, s, metas[1].pubkey, TransactionData(t.(signers := t.signers[i := true])));
  }

  lemma CancelConserves(e: Env, s: Accounts, metas: seq<AccountMeta>)
    requires CancelStep(e, s, metas).Ok?
    ensures Total(CancelStep(e, s, metas).value) == Total(s)
  {
    hide ValidateCancel, CloseAccount, Total;
    var m, t := CancelPassed(e, s, metas);
    CloseConserves(e, s, metas[1].pubkey, metas[2].pubkey);
  }

  lemma DispatchConserves(e: Env, s: Accounts, metas: seq<AccountMeta>, i: MultisigInstruction, outcomes: Outcomes)
    requires Dispatch(e, s, metas, i, outcomes).Ok?
    ensures Total(Dispatch(e, s, metas, i, outcomes).value) == Total(s)
  {
    hide CreateMultisigStep, ProposeStep, ApproveStep, ExecuteStep, CancelStep, Admin, Total;
    match i
    case CreateMultisig(owners, threshold, nonce) => FoundingConserves(e, s, metas, owners, threshold, nonce);
    case ProposeTransaction(ixs) => ProposeConserves(e, s, metas, ixs);
    case ApproveTransaction => ApproveConserves(e, s, metas);
    case ExecuteTransaction => ExecuteConserves(e, s, metas, outcomes);
    case CancelTransaction => CancelConserves(e, s, metas);
    case _ => AdminConserves(e, s, metas, i);
  }

  // ----- whole runs -----

  /** Conservation: every run, of this program's instructions and of other programs' effects, keeps the total. */
  lemma {:induction false} Conservation(e: Env, s0: Accounts, calls: seq<Call>)
    ensures Total(After(e, s0, calls).accounts) == Total(s0)
    decreases |calls|
  {
    if calls != [] {
      var w, c := After(e, s0, calls[..|calls| - 1]), calls[|calls| - 1];
      Conservation(e, s0, calls[..|calls| - 1]);
      NextConserves(e, w, c);
    }
  }

  lemma NextConserves(e: Env, w: World, c: Call)
    ensures Total(Next(e, w, c).accounts) == Total(w.accounts)
  {
    NextCases(e, w, c);
    if i :| Accepted(e, w, c, i) {
      NextOfAccepted(e, w, c, i);
      DispatchConserves(e, w.accounts, c.metas, i, c.outcomes);
    } else if c.Other? && ApplyEffects(e, w.accounts, c.effects).Ok? {
      EffectsConserve(e, w.accounts, c.effects);
    }
  }

  /** The cancelling call: multisig, transaction, refundee, executor. */
  function CancelMetas(q: Pubkey, x: Pubkey, r: Pubkey, o: Pubkey): seq<AccountMeta> {
    [AccountMeta(q, false, false), AccountMeta(x, false, true), AccountMeta(r, false, true), AccountMeta(o, true, false)]
  }

  lemma CancelAccepted(e: Env, s: Accounts, h: History, x: Pubkey, o: Pubkey, r: Pubkey)
    requires Inv(e, s, h) && IsTransaction(e, s, x) && r != x
    ensures IsMultisig(e, s, TransactionAt(e, s, x).multisig)
    ensures var q := TransactionAt(e, s, x).multisig;
      o in MultisigAt(e, s, q).owners ==> CancelStep(e, s, CancelMetas(q, x, r, o)) == CloseAccount(e, s, x, r)
  {
    assert AccountOk(e, s, h, x);
    assert AccountOk(e, s, h, TransactionAt(e, s, x).multisig);
  }

  /**
   * Rent is always recoverable. In every reachable state each live proposal, stale or not, is cancelled by
   * the call of any current owner who signs, given a writable refundee other than the transaction account:
   * the account is emptied, the refundee has its whole balance, and the sequence-number check rejects nothing.
   */
  lemma RentIsRecoverable(e: Env, s0: Accounts, calls: seq<Call>, n: nat, x: Pubkey, o: Pubkey, r: Pubkey)
    requires Run(e, s0, calls) && n <= |calls| && Total(s0) < TWO_64
    requires IsTransaction(e, At(e, s0, calls, n).accounts, x) && r != x
    ensures var s := At(e, s0, calls, n).accounts;
      var q := TransactionAt(e, s, x).multisig;
      && IsMultisig(e, s, q)
      && (o in MultisigAt(e, s, q).owners ==>
            && CancelStep(e, s, CancelMetas(q, x, r, o)).Ok?
            && var s' := CancelStep(e, s, CancelMetas(q, x, r, o)).value;
            && Get(e, s', x) == Account(e.systemId, 0, Plain([]))
            && Get(e, s', r) == Get(e, s, r).(lamports := Get(e, s, r).lamports + Get(e, s, x).lamports))
  {
    hide CancelStep, CloseAccount, Total, Run, Inv, IsTransaction, TransactionAt, IsMultisig, MultisigAt, Get, CancelMetas;
    var w := At(e, s0, calls, n);
    Reachable(e, s0, calls, n);
    Conservation(e, s0, calls[..n]);
    CancelAccepted(e, w.accounts, w.history, x, o, r);
    CloseMoves(e, w.accounts, x, r);
  }
}
