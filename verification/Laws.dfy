/** Laws that relate several instructions: order of approvals, the combined change, resizing, the u8 casts. */
module Laws {
  import opened Machine
  import opened State
  import opened Protocol
  import opened History
  import opened Invariant

  // ----- the order of approvals does not matter -----

  function ApproveMetas(q: Pubkey, x: Pubkey, o: Pubkey): seq<AccountMeta> {
    [AccountMeta(q, false, false), AccountMeta(x, false, true), AccountMeta(o, true, false)]
  }

  /** The listed people approve the proposal at x, one after the other. */
  function ApproveAll(e: Env, s: Accounts, q: Pubkey, x: Pubkey, approvers: seq<Pubkey>): Step
    decreases |approvers|
  {
    if approvers == [] then Ok(s)
    else
      match ApproveStep(e, s, ApproveMetas(q, x, approvers[0]))
      case Err(err) => Err(err)
      case Ok(s1) => ApproveAll(e, s1, q, x, approvers[1..])
  }

  /** The flags set before, and those of the given people. */
  function Marked(owners: seq<Pubkey>, signers: seq<bool>, people: set<Pubkey>): (r: seq<bool>)
    requires |owners| == |signers|
    ensures |r| == |signers|
  {
    seq(|signers|, i requires 0 <= i < |signers| => signers[i] || owners[i] in people)
  }

  /** A current proposal of multisig q at x, votes aligned with the owners. */
  ghost predicate Current(e: Env, s: Accounts, q: Pubkey, x: Pubkey) {
    && IsMultisig(e, s, q) && IsTransaction(e, s, x) && x != q
    && TransactionAt(e, s, x).multisig == q
    && TransactionAt(e, s, x).ownerSetSeqno == MultisigAt(e, s, q).ownerSetSeqno
    && |TransactionAt(e, s, x).signers| == |MultisigAt(e, s, q).owners|
    && Distinct(MultisigAt(e, s, q).owners)
  }

  lemma CurrentInReachable(e: Env, s: Accounts, h: History, x: Pubkey)
    requires Inv(e, s, h) && IsTransaction(e, s, x)
    ensures var q := TransactionAt(e, s, x).multisig;
      IsMultisig(e, s, q) &&
      (TransactionAt(e, s, x).ownerSetSeqno == MultisigAt(e, s, q).ownerSetSeqno ==> Current(e, s, q, x))
  {
    assert AccountOk(e, s, h, x) && AccountOk(e, s, h, TransactionAt(e, s, x).multisig);
  }

  lemma MarkOne(owners: seq<Pubkey>, signers: seq<bool>, i: nat)
    requires Distinct(owners) && |owners| == |signers| && i < |owners|
    ensures signers[i := true] == Marked(owners, signers, {owners[i]})
  {
  }

  lemma OneApproval(e: Env, s: Accounts, q: Pubkey, x: Pubkey, o: Pubkey)
    requires Current(e, s, q, x)
    ensures var m, t := MultisigAt(e, s, q), TransactionAt(e, s, x);
      ApproveStep(e, s, ApproveMetas(q, x, o)) ==
        if o in m.owners then Ok(PutData(e, s, x, TransactionData(t.(signers := Marked(m.owners, t.signers, {o})))))
        else Err(InvalidOwner)
  {
    var m, t := MultisigAt(e, s, q), TransactionAt(e, s, x);
    if o in m.owners {
      MarkOne(m.owners, t.signers, Position(m.owners, o).value);
    }
  }

  lemma MarkedTwice(owners: seq<Pubkey>, signers: seq<bool>, a: set<Pubkey>, b: set<Pubkey>)
    requires |owners| == |signers|
    ensures Marked(owners, Marked(owners, signers, a), b) == Marked(owners, signers, a + b)
    ensures Marked(owners, signers, {}) == signers
  {
  }

  lemma PutTwice(e: Env, s: Accounts, x: Pubkey, d: Data, d': Data)
    ensures PutData(e, PutData(e, s, x, d), x, d') == PutData(e, s, x, d')
    ensures x in s && s[x].data == d ==> PutData(e, s, x, d) == s
  {
  }

  /** The outcome of a list of approvals is the set of its members, or a refusal if one is not an owner. */
  lemma {:induction false} ApprovalsMark(e: Env, s: Accounts, q: Pubkey, x: Pubkey, approvers: seq<Pubkey>)
    requires ValidEnv(e) && Current(e, s, q, x)
    ensures var m, t := MultisigAt(e, s, q), TransactionAt(e, s, x);
      var people := set o | o in approvers;
      ApproveAll(e, s, q, x, approvers) ==
        if people <= (set o | o in m.owners)
        then Ok(PutData(e, s, x, TransactionData(t.(signers := Marked(m.owners, t.signers, people)))))
        else Err(InvalidOwner)
    decreases |approvers|
  {
    var m, t := MultisigAt(e, s, q), TransactionAt(e, s, x);
    var people := set o | o in approvers;
    if approvers == [] {
      assert people == {};
      MarkedTwice(m.owners, t.signers, {}, {});
      PutTwice(e, s, x, TransactionData(t), TransactionData(t));
    } else {
      var o, rest := approvers[0], approvers[1..];
      var others := set p | p in rest;
      assert people == {o} + others;
      OneApproval(e, s, q, x, o);
      if o in m.owners {
        var t1 := t.(signers := Marked(m.owners, t.signers, {o}));
        var s1 := PutData(e, s, x, TransactionData(t1));
        ApprovalsMark(e, s1, q, x, rest);
        MarkedTwice(m.owners, t.signers, {o}, others);
        PutTwice(e, s, x, TransactionData(t1), TransactionData(t.(signers := Marked(m.owners, t.signers, people))));
      }
    }
  }

  /**
   * Order independence. On a current proposal, two lists of approvals with the same members (in any order,
   * with any repetitions) have the same outcome: the same accounts, or the same refusal.
   */
  lemma ApprovalOrderIsIrrelevant(e: Env, s: Accounts, h: History, x: Pubkey, a: seq<Pubkey>, b: seq<Pubkey>)
    requires ValidEnv(e) && Inv(e, s, h) && IsTransaction(e, s, x)
    requires var q := TransactionAt(e, s, x).multisig;
      IsMultisig(e, s, q) && TransactionAt(e, s, x).ownerSetSeqno == MultisigAt(e, s, q).ownerSetSeqno
    requires forall o :: o in a <==> o in b
    ensures var q := TransactionAt(e, s, x).multisig;
      ApproveAll(e, s, q, x, a) == ApproveAll(e, s, q, x, b)
  {
    var q := TransactionAt(e, s, x).multisig;
    CurrentInReachable(e, s, h, x);
    ApprovalsMark(e, s, q, x, a);
    ApprovalsMark(e, s, q, x, b);
    assert (set o | o in a) == (set o | o in b);
  }

  /** What has been checked when the index turns out too large. */
  lemma OutOfRange(e: Env, s: Accounts, metas: seq<AccountMeta>) returns (m: Multisig, t: Transaction)
    requires ApproveStep(e, s, metas) == Err(IndexOutOfRange)
    ensures |metas| >= 3
    ensures Get(e, s, metas[0].pubkey).owner == e.programId && Get(e, s, metas[1].pubkey).owner == e.programId
    ensures ExpectMultisig(Get(e, s, metas[0].pubkey).data) == Ok(m)
    ensures ExpectTransaction(Get(e, s, metas[1].pubkey).data) == Ok(t)
    ensures t.multisig == metas[0].pubkey && t.ownerSetSeqno == m.ownerSetSeqno && metas[2].pubkey in m.owners
    ensures |t.signers| < |m.owners|
  {
    assert |metas| >= 3;
    NoOtherIndexError(Get(e, s, metas[0].pubkey).data, Get(e, s, metas[1].pubkey).data);
    hide ExpectMultisig, ExpectTransaction, PutData, Get;
    m := ExpectMultisig(Get(e, s, metas[0].pubkey).data).value;
    t := ExpectTransaction(Get(e, s, metas[1].pubkey).data).value;
  }

  lemma NoOtherIndexError(a: Data, b: Data)
    ensures ExpectMultisig(a) != Err(IndexOutOfRange) && ExpectTransaction(b) != Err(IndexOutOfRange)
  {
    hide DecodeMultisig, DecodeTransaction, EncodeMultisig, EncodeTransaction;
  }

  /** In a reachable state the approver's index is always within the approval vector. */
  lemma ApproveStaysInRange(e: Env, s: Accounts, h: History, metas: seq<AccountMeta>)
    requires Inv(e, s, h)
    ensures ApproveStep(e, s, metas) != Err(IndexOutOfRange)
  {
    if ApproveStep(e, s, metas) == Err(IndexOutOfRange) {
      var m, t := OutOfRange(e, s, metas);
      assert AccountOk(e, s, h, metas[0].pubkey) && AccountOk(e, s, h, metas[1].pubkey);
      hide ApproveStep, Inv, ExpectMultisig, ExpectTransaction;
      ReadsMultisig(e, s, h, metas[0].pubkey, m);
      ReadsTransaction(e, s, h, metas[1].pubkey, t);
      assert false;
    }
  }

  // ----- the combined administrative instruction -----

  /**
   * set_owners_and_change_threshold is set_owners followed by change_threshold as one atomic step: same
   * accepted inputs, same error, same final accounts; the threshold clamp in between leaves no trace.
   */
  lemma CombinedIsSequence(e: Env, s: Accounts, metas: seq<AccountMeta>, owners: seq<Pubkey>, threshold: u8)
    ensures SetOwnersAndChangeThresholdStep(e, s, metas, owners, threshold) ==
      match SetOwnersStep(e, s, metas, owners)
      case Err(x) => Err(x)
      case Ok(s1) => ChangeThresholdStep(e, s1, metas, threshold)
  {
    if SetOwnersStep(e, s, metas, owners).Ok? {
      var m := Authorise(e, s, metas).value;
      PutTwice(e, s, metas[0].pubkey, MultisigData(WithOwners(m, owners)),
        MultisigData(WithThreshold(WithOwners(m, owners), threshold)));
    }
  }

  // ----- resizing under wrapping arithmetic -----

  /** The padding length as the program computes it, every operation modulo 2^64. */
  function WrappedPadding(padding: nat, owners: nat, newOwners: nat): nat {
    WrapAdd(padding, WrapMul(PUBKEY_BYTES, WrapSub(owners, newOwners)))
  }

  /**
   * The subtraction goes below zero whenever the list grows back, and wraps; the result is exact all the same,
   * for every list that passes validation on an account smaller than 2^64 bytes.
   */
  lemma WrappedPaddingIsExact(m: Multisig, owners: seq<Pubkey>)
    requires ValidateOwners(m, owners).None? && Capacity(m) < TWO_64
    ensures WrappedPadding(|m.padding|, |m.owners|, |owners|) == |WithOwners(m, owners).padding|
    ensures Capacity(WithOwners(m, owners)) == Capacity(m)
  {
    var p, o, n := |m.padding|, |m.owners|, |owners|;
    if n <= o {
      assert (o - n) % TWO_64 == o - n;
      assert (PUBKEY_BYTES * (o - n)) % TWO_64 == PUBKEY_BYTES * (o - n);
    } else {
      assert (o - n) % TWO_64 == o - n + TWO_64;
      var y: nat := TWO_64 - PUBKEY_BYTES * (n - o);
      assert PUBKEY_BYTES * (o - n + TWO_64) == y + (PUBKEY_BYTES - 1) * TWO_64;
      assert (y + (PUBKEY_BYTES - 1) * TWO_64) % TWO_64 == y;
      assert (p + y) % TWO_64 == p + y - TWO_64;
    }
  }

  /** The configuration that execute_set_owners computes, with its wrapping padding length. */
  function WrappedOwners(m: Multisig, owners: seq<Pubkey>): Multisig {
    Multisig(
      owners,
      if AsU8(|owners|) < m.threshold then AsU8(|owners|) else m.threshold,
      m.nonce,
      WrapInc32(m.ownerSetSeqno),
      Zeros(WrappedPadding(|m.padding|, |m.owners|, |owners|)))
  }

  /** A sequence of validated resizes, as the program computes them. */
  function Resized(m: Multisig, lists: seq<seq<Pubkey>>): Option<Multisig>
    decreases |lists|
  {
    if lists == [] then Some(m)
    else if ValidateOwners(m, lists[0]).Some? then None
    else Resized(WrappedOwners(m, lists[0]), lists[1..])
  }

  /**
   * Shrinking and growing again in any order, with wrapping arithmetic throughout, never changes the capacity, ends
   * with the last list, and fails exactly when a list has duplicates, is empty or exceeds the original capacity.
   */
  lemma {:induction false} ResizingKeepsCapacity(m: Multisig, lists: seq<seq<Pubkey>>)
    requires Capacity(m) < TWO_64
    ensures Resized(m, lists).Some? <==>
              forall list :: list in lists ==> Distinct(list) && list != [] && PUBKEY_BYTES * |list| <= Capacity(m)
    ensures Resized(m, lists).Some? ==>
              var r := Resized(m, lists).value;
              && Capacity(r) == Capacity(m)
              && r.owners == (if lists == [] then m.owners else lists[|lists| - 1])
    decreases |lists|
  {
    if lists != [] {
      UniqueIsDistinct(lists[0]);
      hide AllUnique, WrappedPadding;
      if ValidateOwners(m, lists[0]).None? {
        WrappedPaddingIsExact(m, lists[0]);
        ResizingKeepsCapacity(WrappedOwners(m, lists[0]), lists[1..]);
      }
    }
  }

  // ----- the u8 casts -----

  /**
   * The clamp of set-owners. The threshold stays within the owners; it stays at least 1 exactly when the
   * number of owners is not a multiple of 256, because the comparison is made on the number cast to u8.
   */
  lemma ClampKeepsThreshold(m: Multisig, owners: seq<Pubkey>)
    requires ValidateOwners(m, owners).None? && m.threshold >= 1
    ensures WithOwners(m, owners).threshold <= |owners|
    ensures WithOwners(m, owners).threshold >= 1 <==> |owners| % TWO_8 != 0
    ensures |owners| < TWO_8 ==>
              WithOwners(m, owners).threshold == if |owners| < m.threshold then |owners| else m.threshold
  {
  }
}
