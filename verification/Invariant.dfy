/** What every accepted call keeps. */
module Invariant {
  import opened Machine
  import opened State
  import opened Instructions
  import opened Layouts
  import opened Protocol
  import opened History
  import B = Borsh

  // ----- readings of an account -----

  predicate IsMultisig(e: Env, s: Accounts, k: Pubkey) {
    Get(e, s, k).owner == e.programId && Get(e, s, k).data.MultisigData?
  }

  predicate IsTransaction(e: Env, s: Accounts, k: Pubkey) {
    Get(e, s, k).owner == e.programId && Get(e, s, k).data.TransactionData?
  }

  /** Not written by the program: another program's account, or one given to it zero-filled. */
  predicate Unwritten(e: Env, s: Accounts, k: Pubkey) {
    Get(e, s, k).owner == e.programId ==> Get(e, s, k).data.Plain? && Zeroed(Get(e, s, k).data.bytes)
  }

  function MultisigAt(e: Env, s: Accounts, k: Pubkey): Multisig
    requires IsMultisig(e, s, k)
  {
    Get(e, s, k).data.multisig
  }

  function TransactionAt(e: Env, s: Accounts, k: Pubkey): Transaction
    requires IsTransaction(e, s, k)
  {
    Get(e, s, k).data.transaction
  }

  ghost predicate Distinct(owners: seq<Pubkey>) {
    forall i, j :: 0 <= i < j < |owners| ==> owners[i] != owners[j]
  }

  // ----- the invariant, account by account -----

  /** The configuration: owners distinct and present, threshold within them, capacity and nonce as created, padding zero. */
  ghost predicate MultisigOk(e: Env, h: History, k: Pubkey, m: Multisig) {
    && k in h.created && Clear(k, MAX_CREATED_DATA)
    && m.nonce == h.created[k].nonce && e.pda(k, m.nonce).Some?
    && Capacity(m) == PUBKEY_BYTES * h.created[k].size && Zeroed(m.padding)
    && Distinct(m.owners) && m.owners != []
    && m.threshold <= |m.owners|
    && (h.created[k].size < TWO_8 ==> m.threshold >= 1)
    && m.ownerSetSeqno == Changes(h, k)
  }

  /** signers[i] is true exactly when owners[i] signed in the proposal's epoch; nobody else signed. */
  ghost predicate VotesOk(owners: seq<Pubkey>, signers: seq<bool>, p: Proposal) {
    && |signers| == |owners|
    && (forall i :: 0 <= i < |owners| ==> (signers[i] <==> (owners[i], p.epoch) in p.signed))
    && (forall o, n :: (o, n) in p.signed ==> o in owners)
  }

  ghost predicate ProposalOk(e: Env, s: Accounts, h: History, x: Pubkey, t: Transaction) {
    && x in h.proposals
    && h.proposals[x].multisig == t.multisig
    && h.proposals[x].instructions == t.instructions && t.instructions != []
    && h.proposals[x].epoch == t.ownerSetSeqno
    && IsMultisig(e, s, t.multisig)
    && h.proposals[x].epoch <= Changes(h, t.multisig)
    && (forall o, n :: (o, n) in h.proposals[x].signed ==> n == h.proposals[x].epoch)
    && (h.proposals[x].epoch == Changes(h, t.multisig) ==>
          VotesOk(MultisigAt(e, s, t.multisig).owners, t.signers, h.proposals[x]))
  }

  ghost predicate AccountOk(e: Env, s: Accounts, h: History, k: Pubkey) {
    var a := Get(e, s, k);
    match a.data
    case Plain(_) => Unwritten(e, s, k) && k !in h.created && k !in h.proposals && Changes(h, k) == 0
    case MultisigData(m) => a.owner == e.programId && m.Len() <= MAX_CREATED_DATA && k !in h.proposals && MultisigOk(e, h, k, m)
    case TransactionData(t) =>
      && a.owner == e.programId && t.Len() <= MAX_CREATED_DATA
      && k !in h.created && Changes(h, k) == 0 && ProposalOk(e, s, h, k, t)
  }

  ghost predicate Inv(e: Env, s: Accounts, h: History) {
    forall k :: AccountOk(e, s, h, k)
  }

  // ----- what a checked read says -----

  /** A multisig of the program's is at a clear address. */
  lemma MultisigIsClear(e: Env, s: Accounts, h: History, q: Pubkey)
    requires Inv(e, s, h) && IsMultisig(e, s, q)
    ensures Clear(q, MAX_CREATED_DATA)
  {
    assert AccountOk(e, s, h, q);
  }

  /** A transaction of a multisig at a clear address does not read as a multisig. */
  lemma TransactionIsNoMultisig(t: Transaction)
    requires t.Len() <= MAX_CREATED_DATA && Clear(t.multisig, MAX_CREATED_DATA)
    ensures DecodeMultisig(EncodeTransaction(t)).None?
  {
    hide DecodeMultisig, DecodeTransaction, EncodeTransaction, WritableTransaction;
    ShortTransactionWritable(t);
    TransactionLen(t);
    TransactionRoundTrip(t, []);
    var b := EncodeTransaction(t);
    if DecodeMultisig(b).Some? {
      ClearSeparates(b, MAX_CREATED_DATA);
    }
  }

  /** A multisig does not read as a transaction of a multisig at a clear address. */
  lemma MultisigIsNoTransaction(m: Multisig)
    requires m.Len() <= MAX_CREATED_DATA
    ensures DecodeTransaction(EncodeMultisig(m)).Some? ==>
              !Clear(DecodeTransaction(EncodeMultisig(m)).value.multisig, MAX_CREATED_DATA)
  {
    hide DecodeMultisig, DecodeTransaction, EncodeMultisig, Writable, B.Vec;
    ShortWritable(m);
    MultisigLen(m);
    MultisigRoundTrip(m, []);
    var b := EncodeMultisig(m);
    if DecodeTransaction(b).Some? {
      ClearSeparates(b, MAX_CREATED_DATA);
    }
  }

  /** An account that reads as a multisig with room for an owner is one of the program's multisigs. */
  lemma ReadsMultisig(e: Env, s: Accounts, h: History, k: Pubkey, m: Multisig)
    requires Inv(e, s, h) && Get(e, s, k).owner == e.programId
    requires ExpectMultisig(Get(e, s, k).data) == Ok(m) && Capacity(m) > 0
    ensures IsMultisig(e, s, k) && MultisigAt(e, s, k) == m && Clear(k, MAX_CREATED_DATA)
  {
    hide DecodeMultisig, EncodeTransaction, Clear;
    assert AccountOk(e, s, h, k);
    match Get(e, s, k).data
    case Plain(b) => ZeroedMultisig(b);
    case TransactionData(t) =>
      MultisigIsClear(e, s, h, t.multisig);
      TransactionIsNoMultisig(t);
    case MultisigData(_) =>
  }

  /** An account that reads as a transaction of a multisig at a clear address is one of the program's transactions. */
  lemma ReadsTransaction(e: Env, s: Accounts, h: History, k: Pubkey, t: Transaction)
    requires Inv(e, s, h) && Get(e, s, k).owner == e.programId
    requires ExpectTransaction(Get(e, s, k).data) == Ok(t) && Clear(t.multisig, MAX_CREATED_DATA)
    ensures IsTransaction(e, s, k) && TransactionAt(e, s, k) == t
  {
    hide DecodeTransaction, EncodeMultisig, Clear;
    assert AccountOk(e, s, h, k);
    match Get(e, s, k).data
    case Plain(b) =>
      ZeroedTransaction(b);
      ZeroIsNotClear(MAX_CREATED_DATA);
    case MultisigData(m) => MultisigIsNoTransaction(m);
    case TransactionData(_) =>
  }

  // ----- small facts -----

  lemma {:induction false} UniqueIsDistinct(owners: seq<Pubkey>)
    ensures AllUnique(owners) <==> Distinct(owners)
  {
    if owners != [] {
      UniqueIsDistinct(owners[1..]);
      if AllUnique(owners) {
        forall i, j | 0 <= i < j < |owners| ensures owners[i] != owners[j] {
          if i > 0 {
            assert owners[1..][i - 1] != owners[1..][j - 1];
          } else {
            assert owners[j] in owners[1..];
          }
        }
      }
      if Distinct(owners) {
        forall i, j | 0 <= i < j < |owners[1..]| ensures owners[1..][i] != owners[1..][j] {
          assert owners[i + 1] != owners[j + 1];
        }
      }
    }
  }

  /** Changes at untouched places keep an account's invariant. */
  lemma AccountFrame(e: Env, s: Accounts, h: History, s': Accounts, h': History, k: Pubkey)
    requires AccountOk(e, s, h, k)
    requires Get(e, s', k).owner == Get(e, s, k).owner && Get(e, s', k).data == Get(e, s, k).data
    requires k in h'.created <==> k in h.created
    requires k in h.created ==> h'.created[k] == h.created[k]
    requires k in h'.proposals <==> k in h.proposals
    requires k in h.proposals ==> h'.proposals[k] == h.proposals[k]
    requires Changes(h', k) == Changes(h, k)
    requires IsTransaction(e, s, k) ==>
               var q := TransactionAt(e, s, k).multisig;
               IsMultisig(e, s, q) ==>
                 IsMultisig(e, s', q) && MultisigAt(e, s', q).owners == MultisigAt(e, s, q).owners && Changes(h', q) == Changes(h, q)
    ensures AccountOk(e, s', h', k)
  {
  }

  // ----- effects of other programs -----

  /** This program's accounts keep their owner and data and lose no lamports; others come to it zero-filled at most. */
  ghost predicate Respects(e: Env, s: Accounts, s': Accounts) {
    forall k ::
      if Get(e, s, k).owner == e.programId then
        Get(e, s', k).owner == e.programId && Get(e, s', k).data == Get(e, s, k).data && Get(e, s', k).lamports >= Get(e, s, k).lamports
      else
        Unwritten(e, s', k) && (Get(e, s, k).data.Plain? ==> Get(e, s', k).data.Plain?)
  }

  lemma {:induction false} EffectsRespect(e: Env, s: Accounts, fs: seq<Effect>)
    requires ValidEnv(e) && ApplyEffects(e, s, fs).Ok?
    ensures Respects(e, s, ApplyEffects(e, s, fs).value)
    decreases |fs|
  {
    if fs != [] {
      var s1 := ApplyEffect(e, s, fs[0]).value;
      assert Respects(e, s, s1);
      EffectsRespect(e, s1, fs[1..]);
      var s2 := ApplyEffects(e, s1, fs[1..]).value;
      forall k ensures
        if Get(e, s, k).owner == e.programId then
          Get(e, s2, k).owner == e.programId && Get(e, s2, k).data == Get(e, s, k).data && Get(e, s2, k).lamports >= Get(e, s, k).lamports
        else
          Unwritten(e, s2, k) && (Get(e, s, k).data.Plain? ==> Get(e, s2, k).data.Plain?)
      {
      }
    }
  }

  lemma InvRespects(e: Env, s: Accounts, h: History, s': Accounts)
    requires Inv(e, s, h) && Respects(e, s, s')
    ensures Inv(e, s', h)
  {
    forall k ensures AccountOk(e, s', h, k) {
      assert AccountOk(e, s, h, k);
      if IsTransaction(e, s, k) {
        var q := TransactionAt(e, s, k).multisig;
        assert IsMultisig(e, s, q) ==> Get(e, s', q).data == Get(e, s, q).data;
      }
      if Get(e, s, k).owner == e.programId {
        AccountFrame(e, s, h, s', h, k);
      }
    }
  }

  // ----- create, propose, cancel, close -----

  /** A new program account at x, paid for by `payer`; everything else is as it was. */
  ghost predicate Created(e: Env, s: Accounts, s': Accounts, payer: Pubkey, x: Pubkey, d: Data) {
    && x != payer && SizeOf(d) <= MAX_CREATED_DATA
    && Get(e, s, x).owner == Get(e, s, payer).owner == e.systemId
    && Get(e, s', x).owner == e.programId && Get(e, s', x).data == d
    && (forall k :: k != x ==> Get(e, s', k).owner == Get(e, s, k).owner && Get(e, s', k).data == Get(e, s, k).data)
  }

  lemma MultisigCreated(e: Env, s: Accounts, h: History, s': Accounts, payer: Pubkey, x: Pubkey, m: Multisig, f: Founding)
    requires ValidEnv(e) && Inv(e, s, h) && Created(e, s, s', payer, x, MultisigData(m))
    requires MultisigOk(e, h.(created := h.created[x := f]), x, m)
    ensures Inv(e, s', h.(created := h.created[x := f]))
  {
    var h' := h.(created := h.created[x := f]);
    assert AccountOk(e, s, h, x);
    forall k ensures AccountOk(e, s', h', k) {
      assert AccountOk(e, s, h, k);
      if k != x {
        AccountFrame(e, s, h, s', h', k);
      }
    }
  }

  lemma CreateAccountCreates(e: Env, s: Accounts, payer: AccountMeta, target: AccountMeta, lamports: nat, d: Data)
    requires ValidEnv(e) && CreateAccount(e, s, payer, target, lamports, d).Ok?
    ensures target.isSigner
    ensures Created(e, s, CreateAccount(e, s, payer, target, lamports, d).value, payer.pubkey, target.pubkey, d)
  {
  }

  /** What an accepted creation has checked and done. */
  lemma CreatePassed(e: Env, s: Accounts, metas: seq<AccountMeta>, owners: seq<Pubkey>, threshold: u8, nonce: u8)
    requires ValidEnv(e) && CreateMultisigStep(e, s, metas, owners, threshold, nonce).Ok?
    ensures |metas| >= 4 && metas[0].isSigner && AllUnique(owners) && 1 <= threshold <= AsU8(|owners|)
    ensures e.pda(metas[0].pubkey, nonce) == Some(metas[1].pubkey)
    ensures Created(e, s, CreateMultisigStep(e, s, metas, owners, threshold, nonce).value, metas[2].pubkey, metas[0].pubkey,
                    MultisigData(Multisig(owners, threshold, nonce, 0, [])))
  {
    hide AllUnique, CreateAccount;
    CreateAccountCreates(e, s, metas[2], metas[0], e.rent(Multisig(owners, threshold, nonce, 0, []).Len()),
      MultisigData(Multisig(owners, threshold, nonce, 0, [])));
  }

  lemma FoundingOk(e: Env, h: History, q: Pubkey, owners: seq<Pubkey>, threshold: u8, nonce: u8)
    requires AllUnique(owners) && 1 <= threshold <= AsU8(|owners|) && e.pda(q, nonce).Some?
    requires Clear(q, MAX_CREATED_DATA) && Changes(h, q) == 0
    ensures MultisigOk(e, h.(created := h.created[q := Founding(|owners|, nonce)]), q, Multisig(owners, threshold, nonce, 0, []))
  {
    UniqueIsDistinct(owners);
    hide AllUnique;
  }

  lemma UnownedIsUnchanged(e: Env, s: Accounts, h: History, k: Pubkey)
    requires Inv(e, s, h) && Get(e, s, k).owner != e.programId
    ensures Changes(h, k) == 0
  {
    assert AccountOk(e, s, h, k);
  }

  lemma CreateKeepsInv(e: Env, s: Accounts, h: History, metas: seq<AccountMeta>, owners: seq<Pubkey>, threshold: u8, nonce: u8)
    requires ValidEnv(e) && Inv(e, s, h)
    requires CreateMultisigStep(e, s, metas, owners, threshold, nonce).Ok? && Clear(metas[0].pubkey, MAX_CREATED_DATA)
    ensures Inv(e, CreateMultisigStep(e, s, metas, owners, threshold, nonce).value,
                Record(e, h, metas, CreateMultisig(owners, threshold, nonce)))
  {
    hide CreateMultisigStep, Inv, AllUnique, MultisigOk, Get;
    var s' := CreateMultisigStep(e, s, metas, owners, threshold, nonce).value;
    CreatePassed(e, s, metas, owners, threshold, nonce);
    UnownedIsUnchanged(e, s, h, metas[0].pubkey);
    FoundingOk(e, h, metas[0].pubkey, owners, threshold, nonce);
    MultisigCreated(e, s, h, s', metas[2].pubkey, metas[0].pubkey, Multisig(owners, threshold, nonce, 0, []), Founding(|owners|, nonce));
  }

  lemma FirstVoteOk(owners: seq<Pubkey>, i: nat, p: Proposal)
    requires Distinct(owners) && i < |owners| && p.signed == {(owners[i], p.epoch)}
    ensures VotesOk(owners, FirstApproval(owners, i), p)
  {
  }

  lemma TransactionCreated(e: Env, s: Accounts, h: History, s': Accounts, payer: Pubkey, x: Pubkey, t: Transaction, p: Proposal)
    requires ValidEnv(e) && Inv(e, s, h) && Created(e, s, s', payer, x, TransactionData(t))
    requires ProposalOk(e, s', h.(proposals := h.proposals[x := p]), x, t)
    ensures Inv(e, s', h.(proposals := h.proposals[x := p]))
  {
    var h' := h.(proposals := h.proposals[x := p]);
    assert AccountOk(e, s, h, x);
    forall k ensures AccountOk(e, s', h', k) {
      assert AccountOk(e, s, h, k);
      if k != x {
        AccountFrame(e, s, h, s', h', k);
      }
    }
  }

  lemma ProposedShape(e: Env, s: Accounts, h: History, metas: seq<AccountMeta>, ixs: seq<TransactionInstructionData>)
    requires ValidEnv(e) && Inv(e, s, h) && ProposeStep(e, s, metas, ixs).Ok?
    ensures |metas| >= 5 && IsMultisig(e, s, metas[0].pubkey) && ixs != []
    ensures var m := MultisigAt(e, s, metas[0].pubkey);
      && metas[2].isSigner && metas[2].pubkey in m.owners
      && var t := Transaction(metas[0].pubkey, ixs, FirstApproval(m.owners, Position(m.owners, metas[2].pubkey).value), m.ownerSetSeqno);
         Created(e, s, ProposeStep(e, s, metas, ixs).value, metas[3].pubkey, metas[1].pubkey, TransactionData(t))
  {
    var m := ProposePassed(e, s, metas, ixs);
    hide ProposeStep, Inv, ExpectMultisig;
    ReadsMultisig(e, s, h, metas[0].pubkey, m);
  }

  /** The checks of an accepted proposal. */
  lemma ProposePassed(e: Env, s: Accounts, metas: seq<AccountMeta>, ixs: seq<TransactionInstructionData>) returns (m: Multisig)
    requires ValidEnv(e) && ProposeStep(e, s, metas, ixs).Ok?
    ensures |metas| >= 5 && metas[2].isSigner && ixs != []
    ensures Get(e, s, metas[0].pubkey).owner == e.programId
    ensures ExpectMultisig(Get(e, s, metas[0].pubkey).data) == Ok(m) && metas[2].pubkey in m.owners
    ensures
      var t := Transaction(metas[0].pubkey, ixs, FirstApproval(m.owners, Position(m.owners, metas[2].pubkey).value), m.ownerSetSeqno);
      Created(e, s, ProposeStep(e, s, metas, ixs).value, metas[3].pubkey, metas[1].pubkey, TransactionData(t))
  {
    hide ExpectMultisig;
    m := ExpectMultisig(Get(e, s, metas[0].pubkey).data).value;
  }

  lemma ProposeKeepsInv(e: Env, s: Accounts, h: History, metas: seq<AccountMeta>, ixs: seq<TransactionInstructionData>)
    requires ValidEnv(e) && Inv(e, s, h)
    requires ProposeStep(e, s, metas, ixs).Ok?
    ensures Inv(e, ProposeStep(e, s, metas, ixs).value, Record(e, h, metas, ProposeTransaction(ixs)))
  {
    hide ProposeStep, Inv, ProposalOk, Created;
    ProposedShape(e, s, h, metas, ixs);
    var s' := ProposeStep(e, s, metas, ixs).value;
    var q, x := metas[0].pubkey, metas[1].pubkey;
    var m := MultisigAt(e, s, q);
    var i := Position(m.owners, metas[2].pubkey).value;
    FreshProposalOk(e, s, h, s', metas[3].pubkey, x, q, i, ixs);
    TransactionCreated(e, s, h, s', metas[3].pubkey, x,
      Transaction(q, ixs, FirstApproval(m.owners, i), m.ownerSetSeqno), Proposal(q, ixs, Changes(h, q), {Signature(h, metas)}));
  }

  lemma FreshProposalOk(e: Env, s: Accounts, h: History, s': Accounts, payer: Pubkey, x: Pubkey, q: Pubkey, i: nat,
                        ixs: seq<TransactionInstructionData>)
    requires ValidEnv(e) && Inv(e, s, h) && IsMultisig(e, s, q) && i < |MultisigAt(e, s, q).owners| && ixs != []
    requires var m := MultisigAt(e, s, q);
      Created(e, s, s', payer, x, TransactionData(Transaction(q, ixs, FirstApproval(m.owners, i), m.ownerSetSeqno)))
    ensures var m := MultisigAt(e, s, q);
      var p := Proposal(q, ixs, Changes(h, q), {(m.owners[i], Changes(h, q))});
      ProposalOk(e, s', h.(proposals := h.proposals[x := p]), x, Transaction(q, ixs, FirstApproval(m.owners, i), m.ownerSetSeqno))
  {
    var m := MultisigAt(e, s, q);
    assert AccountOk(e, s, h, q);
    hide Inv, FirstApproval, VotesOk;
    FirstVoteOk(m.owners, i, Proposal(q, ixs, Changes(h, q), {(m.owners[i], Changes(h, q))}));
  }

  /** Closing a transaction account, with the history forgetting its proposal. */
  lemma CloseKeepsInv(e: Env, s: Accounts, h: History, x: Pubkey, refundee: Pubkey)
    requires ValidEnv(e) && Inv(e, s, h) && IsTransaction(e, s, x)
    requires CloseAccount(e, s, x, refundee).Ok?
    ensures Inv(e, CloseAccount(e, s, x, refundee).value, h.(proposals := h.proposals - {x}))
  {
    var s' := CloseAccount(e, s, x, refundee).value;
    var h' := h.(proposals := h.proposals - {x});
    forall k ensures AccountOk(e, s', h', k) {
      assert AccountOk(e, s, h, k) && AccountOk(e, s, h, x);
      if k != x {
        AccountFrame(e, s, h, s', h', k);
      }
    }
  }

  // ----- approve -----

  lemma VoteOk(owners: seq<Pubkey>, signers: seq<bool>, i: nat, p: Proposal)
    requires Distinct(owners) && i < |owners| && VotesOk(owners, signers, p)
    ensures VotesOk(owners, signers[i := true], p.(signed := p.signed + {(owners[i], p.epoch)}))
  {
  }

  /** One more vote on the live proposal at x. */
  lemma VoteKeepsInv(e: Env, s: Accounts, h: History, x: Pubkey, t: Transaction, p: Proposal)
    requires ValidEnv(e) && Inv(e, s, h) && IsTransaction(e, s, x)
    requires t.multisig == TransactionAt(e, s, x).multisig && t.Len() == TransactionAt(e, s, x).Len()
    requires ProposalOk(e, s, h.(proposals := h.proposals[x := p]), x, t)
    ensures Inv(e, PutData(e, s, x, TransactionData(t)), h.(proposals := h.proposals[x := p]))
  {
    var s' := PutData(e, s, x, TransactionData(t));
    var h' := h.(proposals := h.proposals[x := p]);
    assert AccountOk(e, s, h, x);
    forall k ensures AccountOk(e, s', h', k) {
      assert AccountOk(e, s, h, k);
      if k != x {
        AccountFrame(e, s, h, s', h', k);
      }
    }
  }

  lemma ApprovedFacts(e: Env, s: Accounts, h: History, metas: seq<AccountMeta>)
    requires Inv(e, s, h) && ApproveStep(e, s, metas).Ok?
    ensures |metas| >= 3
    ensures IsMultisig(e, s, metas[0].pubkey) && IsTransaction(e, s, metas[1].pubkey)
    ensures var m, t := MultisigAt(e, s, metas[0].pubkey), TransactionAt(e, s, metas[1].pubkey);
      && t.multisig == metas[0].pubkey && t.ownerSetSeqno == m.ownerSetSeqno
      && metas[2].isSigner && metas[2].pubkey in m.owners
      && var i := Position(m.owners, metas[2].pubkey).value;
         i < |t.signers| &&
         ApproveStep(e, s, metas).value == PutData(e, s, metas[1].pubkey, TransactionData(t.(signers := t.signers[i := true])))
  {
    var m, t := ApprovePassed(e, s, metas);
    hide ApproveStep, Inv, ExpectMultisig, ExpectTransaction;
    ReadsMultisig(e, s, h, metas[0].pubkey, m);
    ReadsTransaction(e, s, h, metas[1].pubkey, t);
  }

  /** The checks of an accepted approval. */
  lemma ApprovePassed(e: Env, s: Accounts, metas: seq<AccountMeta>) returns (m: Multisig, t: Transaction)
    requires ApproveStep(e, s, metas).Ok?
    ensures |metas| >= 3 && metas[2].isSigner
    ensures Get(e, s, metas[0].pubkey).owner == e.programId && Get(e, s, metas[1].pubkey).owner == e.programId
    ensures ExpectMultisig(Get(e, s, metas[0].pubkey).data) == Ok(m)
    ensures ExpectTransaction(Get(e, s, metas[1].pubkey).data) == Ok(t)
    ensures t.multisig == metas[0].pubkey && t.ownerSetSeqno == m.ownerSetSeqno && metas[2].pubkey in m.owners
    ensures var i := Position(m.owners, metas[2].pubkey).value;
      i < |t.signers| &&
      ApproveStep(e, s, metas).value == PutData(e, s, metas[1].pubkey, TransactionData(t.(signers := t.signers[i := true])))
  {
    hide ExpectMultisig, ExpectTransaction, PutData;
    m := ExpectMultisig(Get(e, s, metas[0].pubkey).data).value;
    t := ExpectTransaction(Get(e, s, metas[1].pubkey).data).value;
  }

  lemma VotedProposalOk(e: Env, s: Accounts, h: History, x: Pubkey, t: Transaction, i: nat)
    requires Inv(e, s, h) && IsTransaction(e, s, x) && t == TransactionAt(e, s, x)
    requires IsMultisig(e, s, t.multisig) && MultisigAt(e, s, t.multisig).ownerSetSeqno == t.ownerSetSeqno
    requires i < |MultisigAt(e, s, t.multisig).owners| && i < |t.signers|
    ensures x in h.proposals
    ensures var p := h.proposals[x];
      var o := MultisigAt(e, s, t.multisig).owners[i];
      ProposalOk(e, s, h.(proposals := h.proposals[x := p.(signed := p.signed + {(o, Changes(h, t.multisig))})]), x,
                 t.(signers := t.signers[i := true]))
  {
    assert AccountOk(e, s, h, x) && AccountOk(e, s, h, t.multisig);
    VoteOk(MultisigAt(e, s, t.multisig).owners, t.signers, i, h.proposals[x]);
  }

  lemma ApproveKeepsInv(e: Env, s: Accounts, h: History, metas: seq<AccountMeta>)
    requires ValidEnv(e) && Inv(e, s, h)
    requires ApproveStep(e, s, metas).Ok?
    ensures Inv(e, ApproveStep(e, s, metas).value, Record(e, h, metas, ApproveTransaction))
  {
    ApprovedFacts(e, s, h, metas);
    var q, x := metas[0].pubkey, metas[1].pubkey;
    var m, t := MultisigAt(e, s, q), TransactionAt(e, s, x);
    var i := Position(m.owners, metas[2].pubkey).value;
    VotedProposalOk(e, s, h, x, t, i);
    var p := h.proposals[x];
    VoteKeepsInv(e, s, h, x, t.(signers := t.signers[i := true]), p.(signed := p.signed + {Signature(h, metas)}));
  }

  // ----- owner and threshold changes -----

  /** A multisig's data replaced by another configuration of the same account. */
  lemma PutKeepsInv(e: Env, s: Accounts, h: History, q: Pubkey, m: Multisig, h': History)
    requires ValidEnv(e) && Inv(e, s, h) && IsMultisig(e, s, q)
    requires h' == h.(changes := h'.changes)
    requires forall k :: k != q ==> Changes(h', k) == Changes(h, k)
    requires MultisigOk(e, h', q, m)
    requires Changes(h', q) > Changes(h, q) || (Changes(h', q) == Changes(h, q) && m.owners == MultisigAt(e, s, q).owners)
    ensures Inv(e, PutData(e, s, q, MultisigData(m)), h')
  {
    var s' := PutData(e, s, q, MultisigData(m));
    forall k ensures AccountOk(e, s', h', k) {
      assert AccountOk(e, s, h, k) && AccountOk(e, s, h, q);
      if k != q && !(IsTransaction(e, s, k) && TransactionAt(e, s, k).multisig == q) {
        AccountFrame(e, s, h, s', h', k);
      }
    }
  }

  /** What a validated owner change makes of a good configuration. */
  lemma WithOwnersOk(e: Env, h: History, q: Pubkey, m: Multisig, owners: seq<Pubkey>, h': History)
    requires MultisigOk(e, h, q, m) && ValidateOwners(m, owners).None?
    requires h' == h.(changes := h'.changes)
    requires Changes(h', q) == Changes(h, q) + 1 < TWO_32
    ensures MultisigOk(e, h', q, WithOwners(m, owners))
  {
    UniqueIsDistinct(owners);
    assert h.created[q].size < TWO_8 ==> |owners| < TWO_8;
  }

  lemma WithThresholdOk(e: Env, h: History, q: Pubkey, m: Multisig, threshold: u8)
    requires MultisigOk(e, h, q, m) && ValidateThreshold(threshold, m.owners).None?
    ensures MultisigOk(e, h, q, WithThreshold(m, threshold))
  {
  }

  function RecordAdmin(h: History, metas: seq<AccountMeta>, i: MultisigInstruction): History {
    if IsOwnerChange(i) && |metas| > 0 then CountChange(h, metas[0].pubkey) else h
  }

  /** The check an administrative instruction makes of its arguments. */
  function Refusal(m: Multisig, i: MultisigInstruction): Option<Error> {
    match i
    case SetOwners(owners) => ValidateOwners(m, owners)
    case ChangeThreshold(threshold) => ValidateThreshold(threshold, m.owners)
    case SetOwnersAndChangeThreshold(owners, threshold) =>
      if ValidateOwners(m, owners).Some? then ValidateOwners(m, owners) else ValidateThreshold(threshold, owners)
    case _ => Some(SelfCallNotModelled)
  }

  /** The configuration it leaves. */
  function Changed(m: Multisig, i: MultisigInstruction): Multisig
    requires Refusal(m, i).None?
  {
    match i
    case SetOwners(owners) => WithOwners(m, owners)
    case ChangeThreshold(threshold) => WithThreshold(m, threshold)
    case SetOwnersAndChangeThreshold(owners, threshold) => WithThreshold(WithOwners(m, owners), threshold)
  }

  /** An administrative instruction is its authorisation, its check, and one change of one account. */
  lemma AdminIs(e: Env, s: Accounts, metas: seq<AccountMeta>, i: MultisigInstruction)
    requires i.SetOwners? || i.ChangeThreshold? || i.SetOwnersAndChangeThreshold?
    ensures Admin(e, s, metas, i) ==
      match Authorise(e, s, metas)
      case Err(x) => Err(x)
      case Ok(m) =>
        if Refusal(m, i).Some? then Err(Refusal(m, i).value)
        else Ok(PutData(e, s, metas[0].pubkey, MultisigData(Changed(m, i))))
  {
    hide Authorise, ValidateOwners, ValidateThreshold, WithOwners, PutData;
  }

  lemma AuthorisedBy(e: Env, s: Accounts, metas: seq<AccountMeta>)
    requires Authorise(e, s, metas).Ok?
    ensures var m := Authorise(e, s, metas).value;
      && |metas| >= 2 && Get(e, s, metas[0].pubkey).owner == e.programId && metas[1].isSigner
      && ExpectMultisig(Get(e, s, metas[0].pubkey).data) == Ok(m)
      && e.pda(metas[0].pubkey, m.nonce) == Some(metas[1].pubkey)
  {
    hide ExpectMultisig;
  }

  /** An administrative instruction succeeds only on a multisig, whose derived address has signed. */
  lemma AdminFacts(e: Env, s: Accounts, h: History, metas: seq<AccountMeta>, i: MultisigInstruction)
    requires Inv(e, s, h) && Admin(e, s, metas, i).Ok?
    ensures |metas| >= 2 && metas[1].isSigner && IsMultisig(e, s, metas[0].pubkey)
    ensures var m := MultisigAt(e, s, metas[0].pubkey);
      && e.pda(metas[0].pubkey, m.nonce) == Some(metas[1].pubkey)
      && Refusal(m, i).None?
      && Admin(e, s, metas, i) == Ok(PutData(e, s, metas[0].pubkey, MultisigData(Changed(m, i))))
  {
    assert i.SetOwners? || i.ChangeThreshold? || i.SetOwnersAndChangeThreshold?;
    AdminIs(e, s, metas, i);
    AuthorisedBy(e, s, metas);
    hide Admin, Authorise, Inv, ExpectMultisig, Changed, AllUnique;
    ReadsMultisig(e, s, h, metas[0].pubkey, Authorise(e, s, metas).value);
  }

  lemma ChangedOk(e: Env, h: History, q: Pubkey, m: Multisig, i: MultisigInstruction, h': History)
    requires MultisigOk(e, h, q, m) && Refusal(m, i).None?
    requires h' == h.(changes := h'.changes)
    requires Changes(h', q) == (if IsOwnerChange(i) then Changes(h, q) + 1 else Changes(h, q)) < TWO_32
    ensures MultisigOk(e, h', q, Changed(m, i))
    ensures !IsOwnerChange(i) ==> Changed(m, i).owners == m.owners
    ensures Changed(m, i).nonce == m.nonce
  {
    match i
    case SetOwners(owners) =>
      WithOwnersOk(e, h, q, m, owners, h');
    case ChangeThreshold(threshold) =>
      WithThresholdOk(e, h, q, m, threshold);
    case SetOwnersAndChangeThreshold(owners, threshold) =>
      WithOwnersOk(e, h, q, m, owners, h');
      WithThresholdOk(e, h', q, WithOwners(m, owners), threshold);
  }

  lemma AdminKeepsInv(e: Env, s: Accounts, h: History, metas: seq<AccountMeta>, i: MultisigInstruction)
    requires ValidEnv(e) && Inv(e, s, h)
    requires Admin(e, s, metas, i).Ok? && NoWrap(RecordAdmin(h, metas, i))
    ensures Inv(e, Admin(e, s, metas, i).value, RecordAdmin(h, metas, i))
  {
    hide Admin;
    AdminFacts(e, s, h, metas, i);
    var q := metas[0].pubkey;
    var m, h' := MultisigAt(e, s, q), RecordAdmin(h, metas, i);
    assert AccountOk(e, s, h, q);
    hide Refusal, Changed, Inv;
    ChangedOk(e, h, q, m, i, h');
    PutKeepsInv(e, s, h, q, Changed(m, i), h');
  }
}
