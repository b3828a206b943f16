/**
 * The program on bytes: accounts hold encoded data in fixed-size buffers, handlers decode, update and
 * write back in place, and arithmetic on lengths wraps. Each method is shown to compute exactly the
 * function of Protocol.dfy on what the bytes mean.
 */
module Program {
  import opened Machine
  import opened State
  import opened Instructions
  import opened Protocol
  import opened History
  import opened Laws
  import B = Borsh

  datatype RawAccount = RawAccount(owner: Pubkey, lamports: nat, data: seq<u8>)

  type RawAccounts = map<Pubkey, RawAccount>

  const DONE: Result<(), Error> := Ok(())

  // ----- what the bytes mean -----

  /** Which handler wrote an account last. The program does not know this: it is kept for the proof alone. */
  datatype Kind = Foreign | MultisigAccount | TransactionAccount

  type Kinds = map<Pubkey, Kind>

  ghost function KindOf(ks: Kinds, k: Pubkey): Kind {
    if k in ks then ks[k] else Foreign
  }

  /**
   * The program owns the accounts its handlers wrote, each holding the encoding of a value of its kind in a
   * buffer of exactly the encoding's length; any other account it owns was given to it zero-filled.
   */
  ghost predicate RawOk(e: Env, r: RawAccount, kind: Kind) {
    match kind
    case Foreign => r.owner == e.programId ==> Zeroed(r.data)
    case MultisigAccount => r.owner == e.programId && |r.data| <= MAX_CREATED_DATA && DecodeMultisig(r.data).Some?
    case TransactionAccount => r.owner == e.programId && |r.data| <= MAX_CREATED_DATA && DecodeTransaction(r.data).Some?
  }

  ghost function Meaning(e: Env, r: RawAccount, kind: Kind): Account
    requires RawOk(e, r, kind)
  {
    Account(r.owner, r.lamports,
      match kind
      case Foreign => Plain(r.data)
      case MultisigAccount => MultisigData(DecodeMultisig(r.data).value)
      case TransactionAccount => TransactionData(DecodeTransaction(r.data).value))
  }

  ghost predicate AllOk(e: Env, m: RawAccounts, ks: Kinds) {
    && e.programId != e.systemId
    && (forall k :: k in ks ==> k in m)
    && forall k :: k in m ==> RawOk(e, m[k], KindOf(ks, k))
  }

  ghost function View(e: Env, m: RawAccounts, ks: Kinds): Accounts
    requires AllOk(e, m, ks)
  {
    map k | k in m :: Meaning(e, m[k], KindOf(ks, k))
  }

  function RawGet(e: Env, m: RawAccounts, k: Pubkey): RawAccount {
    if k in m then m[k] else RawAccount(e.systemId, 0, [])
  }

  lemma ViewGet(e: Env, m: RawAccounts, ks: Kinds, k: Pubkey)
    requires AllOk(e, m, ks)
    ensures RawOk(e, RawGet(e, m, k), KindOf(ks, k))
    ensures Get(e, View(e, m, ks), k) == Meaning(e, RawGet(e, m, k), KindOf(ks, k))
  {
  }

  lemma ViewUpdate(e: Env, m: RawAccounts, ks: Kinds, k: Pubkey, r: RawAccount, kind: Kind)
    requires AllOk(e, m, ks) && RawOk(e, r, kind)
    ensures AllOk(e, m[k := r], ks[k := kind])
    ensures View(e, m[k := r], ks[k := kind]) == View(e, m, ks)[k := Meaning(e, r, kind)]
  {
  }

  /** The data of an account that a handler wrote is the encoding of its value, and as long as its `len()`. */
  lemma WrittenBytes(e: Env, r: RawAccount, kind: Kind)
    requires RawOk(e, r, kind)
    ensures match Meaning(e, r, kind).data
      case Plain(b) => r.data == b && (r.owner == e.programId ==> Zeroed(b))
      case MultisigData(v) => |r.data| == v.Len() && r.data == EncodeMultisig(v)
      case TransactionData(t) => |r.data| == t.Len() && r.data == EncodeTransaction(t) && WritableTransaction(t)
  {
    hide EncodeMultisig, EncodeTransaction, DecodeMultisig, DecodeTransaction, Writable, WritableTransaction;
    match kind
    case MultisigAccount =>
      MultisigRoundTrip(DecodeMultisig(r.data).value, r.data);
      MultisigLen(DecodeMultisig(r.data).value);
    case TransactionAccount =>
      TransactionRoundTrip(DecodeTransaction(r.data).value, r.data);
      TransactionLen(DecodeTransaction(r.data).value);
    case Foreign =>
  }

  /** Exact buffers: the data of an account the program wrote is as long as the encoding of what it holds, and is that encoding. */
  lemma ExactBuffers(e: Env, m: RawAccounts, ks: Kinds, k: Pubkey)
    requires AllOk(e, m, ks) && k in m && m[k].owner == e.programId
    ensures var a := View(e, m, ks)[k];
      match a.data
      case Plain(b) => Zeroed(b) && m[k].data == b
      case MultisigData(v) => |m[k].data| == v.Len() && m[k].data == EncodeMultisig(v)
      case TransactionData(t) => |m[k].data| == t.Len() && m[k].data == EncodeTransaction(t)
  {
    hide EncodeMultisig, EncodeTransaction, DecodeMultisig, DecodeTransaction, Writable, WritableTransaction;
    WrittenBytes(e, m[k], KindOf(ks, k));
  }

  /** What the bytes read as is what the account is expected to read as, whoever wrote it. */
  lemma ReadsAsMeant(e: Env, r: RawAccount, kind: Kind)
    requires RawOk(e, r, kind)
    ensures MultisigIn(r.data) == ExpectMultisig(Meaning(e, r, kind).data)
    ensures TransactionIn(r.data) == ExpectTransaction(Meaning(e, r, kind).data)
  {
    hide EncodeMultisig, EncodeTransaction, DecodeMultisig, DecodeTransaction, WritableTransaction;
    WrittenBytes(e, r, kind);
  }

  // ----- writing into a buffer -----

  /** A shorter value leaves the old tail of the buffer behind it. */
  function Overwrite(buffer: seq<u8>, bytes: seq<u8>): seq<u8>
    requires |bytes| <= |buffer|
  {
    bytes + buffer[|bytes|..]
  }

  /** Borsh's writer over a mutable slice: it cannot grow the buffer. */
  method SerializeInto(bytes: seq<u8>, buffer: array<u8>) returns (r: Result<(), Error>)
    modifies buffer
    ensures |bytes| > buffer.Length ==> r == Err(BufferTooSmall)
    ensures |bytes| <= buffer.Length ==> r == DONE && buffer[..] == Overwrite(old(buffer[..]), bytes)
  {
    if |bytes| > buffer.Length {
      return Err(BufferTooSmall);
    }
    var i := 0;
    while i < |bytes|
      invariant 0 <= i <= |bytes|
      invariant buffer[..i] == bytes[..i]
      invariant buffer[i..] == old(buffer[i..])
    {
      buffer[i] := bytes[i];
      i := i + 1;
    }
    assert bytes[..i] == bytes;
    assert buffer[..] == buffer[..i] + buffer[i..];
    assert old(buffer[i..]) == old(buffer[..])[i..];
    r := DONE;
  }

  lemma ExactWrite(buffer: seq<u8>, bytes: seq<u8>)
    requires |bytes| == |buffer|
    ensures Overwrite(buffer, bytes) == bytes
  {
  }

  /** Why the buffers must be exact: a value written over a buffer is read back if and only if it fills it. */
  lemma MultisigWriteIsReadable(buffer: seq<u8>, m: Multisig)
    requires Writable(m) && m.Len() <= |buffer|
    ensures |EncodeMultisig(m)| == m.Len()
    ensures DecodeMultisig(Overwrite(buffer, EncodeMultisig(m))) == Some(m) <==> m.Len() == |buffer|
    ensures m.Len() < |buffer| ==> DecodeMultisig(Overwrite(buffer, EncodeMultisig(m))).None?
  {
    MultisigLen(m);
    assert DecodeMultisig(EncodeMultisig(m) + buffer[m.Len()..]) == if m.Len() == |buffer| then Some(m) else None by {
      MultisigCodecLawful();
      B.TailIsRejected(MultisigCodec(), m, buffer[m.Len()..]);
      hide MultisigCodec;
    }
  }

  lemma TransactionWriteIsReadable(buffer: seq<u8>, t: Transaction)
    requires WritableTransaction(t) && t.Len() <= |buffer|
    ensures |EncodeTransaction(t)| == t.Len()
    ensures DecodeTransaction(Overwrite(buffer, EncodeTransaction(t))) == Some(t) <==> t.Len() == |buffer|
    ensures t.Len() < |buffer| ==> DecodeTransaction(Overwrite(buffer, EncodeTransaction(t))).None?
  {
    TransactionLen(t);
    assert DecodeTransaction(EncodeTransaction(t) + buffer[t.Len()..]) == if t.Len() == |buffer| then Some(t) else None by {
      TransactionCodecLawful();
      B.TailIsRejected(TransactionCodec(), t, buffer[t.Len()..]);
      hide TransactionCodec;
    }
  }

  // ----- values that fit are writable -----

  lemma ListsFit(m: Multisig)
    requires m.Len() <= MAX_CREATED_DATA
    ensures Writable(m)
  {
  }

  /** A multisig whose check accepts an argument has room for an owner, so it is not a zero-filled account. */
  lemma AcceptedHasRoom(m: Multisig, owners: seq<Pubkey>, threshold: u8)
    requires ValidateOwners(m, owners).None? || ValidateThreshold(threshold, m.owners).None?
    ensures Capacity(m) > 0
  {
    hide AllUnique;
  }

  lemma VotesStayWritable(t: Transaction, signers: seq<bool>)
    requires WritableTransaction(t) && |signers| == |t.signers|
    ensures WritableTransaction(t.(signers := signers))
  {
    hide InstructionDataCodec;
  }

  lemma ProposalWritable(q: Pubkey, ixs: seq<TransactionInstructionData>, signers: seq<bool>, seqno: u32)
    requires StoredInstructions().ok(ixs) && |signers| < TWO_32
    ensures WritableTransaction(Transaction(q, ixs, signers, seqno))
  {
    hide InstructionDataCodec;
  }

  lemma EncodedMultisigMeans(e: Env, owner: Pubkey, lamports: nat, m: Multisig)
    requires owner == e.programId && m.Len() <= MAX_CREATED_DATA
    ensures |EncodeMultisig(m)| == m.Len()
    ensures var r := RawAccount(owner, lamports, EncodeMultisig(m));
      RawOk(e, r, MultisigAccount) && Meaning(e, r, MultisigAccount) == Account(owner, lamports, MultisigData(m))
  {
    hide EncodeMultisig, DecodeMultisig, DecodeTransaction, Writable;
    ListsFit(m);
    MultisigLen(m);
    MultisigRoundTrip(m, []);
  }

  lemma EncodedTransactionMeans(e: Env, owner: Pubkey, lamports: nat, t: Transaction)
    requires owner == e.programId && t.Len() <= MAX_CREATED_DATA && WritableTransaction(t)
    ensures |EncodeTransaction(t)| == t.Len()
    ensures var r := RawAccount(owner, lamports, EncodeTransaction(t));
      RawOk(e, r, TransactionAccount) && Meaning(e, r, TransactionAccount) == Account(owner, lamports, TransactionData(t))
  {
    hide EncodeTransaction, DecodeTransaction, DecodeMultisig, WritableTransaction;
    TransactionLen(t);
    TransactionRoundTrip(t, []);
  }

  // ----- the ledger and the handlers -----

  class Ledger {
    const e: Env
    var accounts: RawAccounts
    ghost var kinds: Kinds

    ghost predicate Valid()
      reads this
    {
      AllOk(e, accounts, kinds)
    }

    ghost function Meant(): Accounts
      requires Valid()
      reads this
    {
      View(e, accounts, kinds)
    }

    constructor (e: Env, accounts: RawAccounts, ghost kinds: Kinds)
      requires AllOk(e, accounts, kinds)
      ensures Valid() && this.e == e && this.accounts == accounts && this.kinds == kinds
    {
      this.e := e;
      this.accounts := accounts;
      this.kinds := kinds;
    }

    /** Multisig::checked_deserialize on an account's data. */
    method LoadMultisig(k: Pubkey) returns (r: Result<Multisig, Error>)
      requires Valid()
      ensures r == MultisigIn(RawGet(e, accounts, k).data)
      ensures r == ExpectMultisig(Get(e, Meant(), k).data)
    {
      hide DecodeMultisig, DecodeTransaction;
      ViewGet(e, accounts, kinds, k);
      ReadsAsMeant(e, RawGet(e, accounts, k), KindOf(kinds, k));
      match DecodeMultisig(RawGet(e, accounts, k).data)
      case Some(m) => return Ok(m);
      case None => return Err(MalformedMultisigAccount);
    }

    method LoadTransaction(k: Pubkey) returns (r: Result<Transaction, Error>)
      requires Valid()
      ensures r == TransactionIn(RawGet(e, accounts, k).data)
      ensures r == ExpectTransaction(Get(e, Meant(), k).data)
    {
      hide DecodeMultisig, DecodeTransaction;
      ViewGet(e, accounts, kinds, k);
      ReadsAsMeant(e, RawGet(e, accounts, k), KindOf(kinds, k));
      match DecodeTransaction(RawGet(e, accounts, k).data)
      case Some(t) => return Ok(t);
      case None => return Err(MalformedTransactionAccount);
    }

    /** Borrow the account's data mutably and serialize into it. */
    method WriteData(k: Pubkey, bytes: seq<u8>) returns (r: Result<(), Error>)
      requires k in accounts
      modifies this`accounts
      ensures |bytes| > |old(accounts[k].data)| ==> r == Err(BufferTooSmall) && accounts == old(accounts)
      ensures |bytes| <= |old(accounts[k].data)| ==> r == DONE
      ensures |bytes| <= |old(accounts[k].data)| ==>
                accounts == old(accounts)[k := old(accounts[k]).(data := Overwrite(old(accounts[k].data), bytes))]
    {
      var data := accounts[k].data;
      var buffer := new u8[|data|](i requires 0 <= i < |data| => data[i]);
      assert buffer[..] == data;
      r := SerializeInto(bytes, buffer);
      if r.Ok? {
        accounts := accounts[k := accounts[k].(data := buffer[..])];
      }
    }

    /** Writing a multisig of the buffer's exact size leaves exactly that multisig. */
    method StoreMultisig(k: Pubkey, m: Multisig) returns (r: Result<(), Error>)
      requires Valid() && Holds(k, m)
      modifies this
      ensures r == DONE && Valid()
      ensures Meant() == PutData(e, old(Meant()), k, MultisigData(m))
      ensures Holds(k, m)
    {
      hide DecodeMultisig, DecodeTransaction, EncodeMultisig, Writable;
      ViewGet(e, accounts, kinds, k);
      var raw := accounts[k];
      EncodedMultisigMeans(e, raw.owner, raw.lamports, m);
      r := WriteData(k, EncodeMultisig(m));
      ExactWrite(raw.data, EncodeMultisig(m));
      kinds := kinds[k := MultisigAccount];
      ViewUpdate(e, old(accounts), old(kinds), k, raw.(data := EncodeMultisig(m)), MultisigAccount);
    }

    method StoreTransaction(k: Pubkey, t: Transaction) returns (r: Result<(), Error>)
      requires Valid() && k in accounts && accounts[k].owner == e.programId
      requires t.Len() == |accounts[k].data| <= MAX_CREATED_DATA && WritableTransaction(t)
      modifies this
      ensures r == DONE && Valid()
      ensures Meant() == PutData(e, old(Meant()), k, TransactionData(t))
    {
      hide DecodeMultisig, DecodeTransaction, EncodeTransaction, WritableTransaction;
      ViewGet(e, accounts, kinds, k);
      var raw := accounts[k];
      EncodedTransactionMeans(e, raw.owner, raw.lamports, t);
      r := WriteData(k, EncodeTransaction(t));
      ExactWrite(raw.data, EncodeTransaction(t));
      kinds := kinds[k := TransactionAccount];
      ViewUpdate(e, old(accounts), old(kinds), k, raw.(data := EncodeTransaction(t)), TransactionAccount);
    }

    /** The system program's create_account: a zeroed buffer of the given size, owned by this program. */
    method SystemCreate(payer: AccountMeta, target: AccountMeta, lamports: nat, space: nat) returns (r: Result<(), Error>)
      requires Valid()
      modifies this`accounts
      ensures r.Err? ==> accounts == old(accounts)
      ensures r.Ok? ==>
                payer.pubkey != target.pubkey && RawGet(e, old(accounts), payer.pubkey).lamports >= lamports
                && space <= MAX_CREATED_DATA && KindOf(kinds, payer.pubkey) == Foreign
                && accounts == old(accounts)
                     [payer.pubkey := RawGet(e, old(accounts), payer.pubkey).(lamports := RawGet(e, old(accounts), payer.pubkey).lamports - lamports)]
                     [target.pubkey := RawAccount(e.programId, lamports, Zeros(space))]
      ensures forall d :: SizeOf(d) == space ==>
                match CreateAccount(e, old(Meant()), payer, target, lamports, d)
                case Ok(_) => r.Ok?
                case Err(x) => r == Err(x)
    {
      hide DecodeMultisig, DecodeTransaction, SizeOf;
      ViewGet(e, accounts, kinds, payer.pubkey);
      ViewGet(e, accounts, kinds, target.pubkey);
      var from, to := RawGet(e, accounts, payer.pubkey), RawGet(e, accounts, target.pubkey);
      if !payer.isSigner || !payer.isWritable || !target.isSigner || !target.isWritable {
        return Err(PrivilegeEscalation);
      }
      if to.lamports > 0 || to.data != [] || to.owner != e.systemId {
        return Err(AccountAlreadyInUse);
      }
      if payer.pubkey == target.pubkey || from.owner != e.systemId || from.data != [] || from.lamports < lamports {
        return Err(InsufficientFunds);
      }
      if space > MAX_CREATED_DATA {
        return Err(InvalidDataLength);
      }
      accounts := accounts[payer.pubkey := from.(lamports := from.lamports - lamports)];
      accounts := accounts[target.pubkey := RawAccount(e.programId, lamports, Zeros(space))];
      r := DONE;
    }

    // ----- create_multisig and propose_transaction -----

    /** Create an account of the value's size and write the value into it. */
    method MakeMultisig(payer: AccountMeta, target: AccountMeta, m: Multisig) returns (r: Result<(), Error>)
      requires Valid()
      modifies this
      ensures Agrees(CreateAccount(e, old(Meant()), payer, target, e.rent(m.Len()), MultisigData(m)), r)
    {
      hide DecodeMultisig, DecodeTransaction, EncodeMultisig, Writable;
      r := SystemCreate(payer, target, e.rent(m.Len()), m.Len());
      assert SizeOf(MultisigData(m)) == m.Len();
      if r.Err? {
        return;
      }
      EncodedMultisigMeans(e, e.programId, e.rent(m.Len()), m);
      r := WriteData(target.pubkey, EncodeMultisig(m));
      ExactWrite(Zeros(m.Len()), EncodeMultisig(m));
      kinds := kinds[target.pubkey := MultisigAccount];
      CreatedMeans(e, old(accounts), accounts, old(kinds), payer, target, e.rent(m.Len()), accounts[target.pubkey], MultisigAccount, MultisigData(m));
    }

    method MakeTransaction(payer: AccountMeta, target: AccountMeta, t: Transaction) returns (r: Result<(), Error>)
      requires Valid() && WritableTransaction(t)
      modifies this
      ensures Agrees(CreateAccount(e, old(Meant()), payer, target, e.rent(t.Len()), TransactionData(t)), r)
    {
      hide DecodeMultisig, DecodeTransaction, EncodeTransaction, WritableTransaction;
      r := SystemCreate(payer, target, e.rent(t.Len()), t.Len());
      assert SizeOf(TransactionData(t)) == t.Len();
      if r.Err? {
        return;
      }
      EncodedTransactionMeans(e, e.programId, e.rent(t.Len()), t);
      r := WriteData(target.pubkey, EncodeTransaction(t));
      ExactWrite(Zeros(t.Len()), EncodeTransaction(t));
      kinds := kinds[target.pubkey := TransactionAccount];
      CreatedMeans(e, old(accounts), accounts, old(kinds), payer, target, e.rent(t.Len()), accounts[target.pubkey], TransactionAccount, TransactionData(t));
    }

    method CreateMultisig(metas: seq<AccountMeta>, owners: seq<Pubkey>, threshold: u8, nonce: u8) returns (r: Result<(), Error>)
      requires Valid()
      modifies this
      ensures Agrees(CreateMultisigStep(e, old(Meant()), metas, owners, threshold, nonce), r)
    {
      hide CreateAccount;
      if |metas| < 4 {
        return Err(NotEnoughAccountKeys);
      }
      var account, signer, payer, system := metas[0], metas[1], metas[2], metas[3];
      if system.pubkey != e.systemId {
        return Err(IncorrectProgramId);
      }
      if !AllUnique(owners) {
        return Err(UniqueOwners);
      }
      if ValidateThreshold(threshold, owners).Some? {
        return Err(InvalidThreshold);
      }
      if ValidatePda(e, signer.pubkey, account.pubkey, nonce).Some? {
        return Err(InvalidSeeds);
      }
      r := MakeMultisig(payer, account, Multisig(owners, threshold, nonce, 0, []));
    }

    method ProposeTransaction(metas: seq<AccountMeta>, instructions: seq<TransactionInstructionData>) returns (r: Result<(), Error>)
      requires Valid() && StoredInstructions().ok(instructions)
      modifies this
      ensures Agrees(ProposeStep(e, old(Meant()), metas, instructions), r)
    {
      hide DecodeMultisig, DecodeTransaction, WritableTransaction, StoredInstructions, CreateAccount;
      if |metas| < 5 {
        return Err(NotEnoughAccountKeys);
      }
      var ms, tx, proposer, payer, system := metas[0], metas[1], metas[2], metas[3], metas[4];
      ViewGet(e, accounts, kinds, ms.pubkey);
      if RawGet(e, accounts, ms.pubkey).owner != e.programId {
        return Err(AccountOwnedByWrongProgram);
      }
      if system.pubkey != e.systemId {
        return Err(IncorrectProgramId);
      }
      if !proposer.isSigner {
        return Err(ProposerNotSigner);
      }
      if instructions == [] {
        return Err(MissingInstructions);
      }
      var loaded := LoadMultisig(ms.pubkey);
      if loaded.Err? {
        return Err(loaded.error);
      }
      var m := loaded.value;
      var index := Position(m.owners, proposer.pubkey);
      if index.None? {
        return Err(InvalidOwner);
      }
      var signers := seq(|m.owners|, _ => false);
      signers := signers[index.value := true];
      var t := Transaction(ms.pubkey, instructions, signers, m.ownerSetSeqno);
      OwnersAreShort(e, accounts, kinds, ms.pubkey, m);
      ProposalWritable(ms.pubkey, instructions, signers, m.ownerSetSeqno);
      r := MakeTransaction(payer, tx, t);
    }

    // ----- approve_transaction -----

    method ApproveTransaction(metas: seq<AccountMeta>) returns (r: Result<(), Error>)
      requires Valid()
      modifies this
      ensures Agrees(ApproveStep(e, old(Meant()), metas), r)
    {
      hide DecodeMultisig, DecodeTransaction, EncodeTransaction, WritableTransaction;
      if |metas| < 3 {
        return Err(NotEnoughAccountKeys);
      }
      var ms, tx, approver := metas[0], metas[1], metas[2];
      var loaded := LoadMultisig(ms.pubkey);
      if loaded.Err? {
        return Err(loaded.error);
      }
      var found := LoadTransaction(tx.pubkey);
      if found.Err? {
        return Err(found.error);
      }
      var m, t := loaded.value, found.value;
      ViewGet(e, accounts, kinds, ms.pubkey);
      ViewGet(e, accounts, kinds, tx.pubkey);
      if RawGet(e, accounts, ms.pubkey).owner != e.programId || RawGet(e, accounts, tx.pubkey).owner != e.programId {
        return Err(AccountOwnedByWrongProgram);
      }
      if m.ownerSetSeqno != t.ownerSetSeqno {
        return Err(InvalidOwnerSetSequenceNumber);
      }
      if !approver.isSigner {
        return Err(ApproverNotSigner);
      }
      if !tx.isWritable {
        return Err(ImmutableTransactionAccount);
      }
      if t.multisig != ms.pubkey {
        return Err(InvalidTransactionAccount);
      }
      var index := Position(m.owners, approver.pubkey);
      if index.None? {
        return Err(InvalidOwner);
      }
      if index.value >= |t.signers| {
        return Err(IndexOutOfRange);
      }
      HeldTransaction(e, accounts, kinds, tx.pubkey, t);
      VotesStayWritable(t, t.signers[index.value := true]);
      t := t.(signers := t.signers[index.value := true]);
      r := StoreTransaction(tx.pubkey, t);
    }

    // ----- the administrative instructions -----

    method CheckAuthority(metas: seq<AccountMeta>) returns (r: Result<Multisig, Error>)
      requires Valid()
      ensures r == Authorise(e, Meant(), metas)
      ensures r.Ok? ==> |metas| >= 2 && (Capacity(r.value) > 0 ==> Holds(metas[0].pubkey, r.value))
    {
      hide DecodeMultisig, DecodeTransaction;
      if |metas| < 2 {
        return Err(NotEnoughAccountKeys);
      }
      r := LoadMultisig(metas[0].pubkey);
      if r.Err? {
        return;
      }
      ViewGet(e, accounts, kinds, metas[0].pubkey);
      if RawGet(e, accounts, metas[0].pubkey).owner != e.programId {
        return Err(AccountOwnedByWrongProgram);
      }
      var refused := ValidateSigner(e, metas[1], metas[0].pubkey, r.value.nonce);
      if refused.Some? {
        return Err(refused.value);
      }
      if Capacity(r.value) > 0 {
        HeldMultisig(e, accounts, kinds, metas[0].pubkey, r.value);
      }
    }

    /** k is the program's, and its buffer has exactly m's size. */
    ghost predicate Holds(k: Pubkey, m: Multisig)
      reads this
    {
      k in accounts && accounts[k].owner == e.programId && m.Len() == |accounts[k].data| <= MAX_CREATED_DATA
    }

    /** execute_set_owners: the fields are updated one by one, the padding length with wrapping arithmetic. */
    method ExecuteSetOwners(k: Pubkey, m: Multisig, owners: seq<Pubkey>) returns (r: Result<(), Error>, data: Multisig)
      requires Valid() && Holds(k, m) && ValidateOwners(m, owners).None?
      modifies this
      ensures r == DONE && Valid() && data == WithOwners(m, owners) && Holds(k, data)
      ensures Meant() == PutData(e, old(Meant()), k, MultisigData(data))
    {
      hide DecodeMultisig, DecodeTransaction, AllUnique;
      data := m;
      WrappedPaddingIsExact(m, owners);
      var paddingLen := WrappedPadding(|data.padding|, |data.owners|, |owners|);
      data := data.(padding := Zeros(paddingLen));
      data := data.(owners := owners);
      data := data.(ownerSetSeqno := WrapInc32(data.ownerSetSeqno));
      if AsU8(|data.owners|) < data.threshold {
        data := data.(threshold := AsU8(|data.owners|));
      }
      assert data.padding == WithOwners(m, owners).padding;
      r := StoreMultisig(k, data);
    }

    method ExecuteChangeThreshold(k: Pubkey, m: Multisig, threshold: u8) returns (r: Result<(), Error>, data: Multisig)
      requires Valid() && Holds(k, m)
      modifies this
      ensures r == DONE && Valid() && data == WithThreshold(m, threshold) && Holds(k, data)
      ensures Meant() == PutData(e, old(Meant()), k, MultisigData(data))
    {
      data := m.(threshold := threshold);
      r := StoreMultisig(k, data);
    }

    method SetOwners(metas: seq<AccountMeta>, owners: seq<Pubkey>) returns (r: Result<(), Error>)
      requires Valid()
      modifies this
      ensures Agrees(SetOwnersStep(e, old(Meant()), metas, owners), r)
    {
      hide Authorise, ValidateOwners, WithOwners, ExpectMultisig;
      var checked := CheckAuthority(metas);
      if checked.Err? {
        return Err(checked.error);
      }
      var refused := ValidateOwners(checked.value, owners);
      if refused.Some? {
        return Err(refused.value);
      }
      AcceptedHasRoom(checked.value, owners, 0);
      var data;
      r, data := ExecuteSetOwners(metas[0].pubkey, checked.value, owners);
    }

    method ChangeThreshold(metas: seq<AccountMeta>, threshold: u8) returns (r: Result<(), Error>)
      requires Valid()
      modifies this
      ensures Agrees(ChangeThresholdStep(e, old(Meant()), metas, threshold), r)
    {
      hide Authorise, ValidateThreshold;
      var checked := CheckAuthority(metas);
      if checked.Err? {
        return Err(checked.error);
      }
      var refused := ValidateThreshold(threshold, checked.value.owners);
      if refused.Some? {
        return Err(refused.value);
      }
      AcceptedHasRoom(checked.value, [], threshold);
      var data;
      r, data := ExecuteChangeThreshold(metas[0].pubkey, checked.value, threshold);
    }

    /** Two writes of the same buffer. */
    method SetOwnersAndChangeThreshold(metas: seq<AccountMeta>, owners: seq<Pubkey>, threshold: u8) returns (r: Result<(), Error>)
      requires Valid()
      modifies this
      ensures Agrees(SetOwnersAndChangeThresholdStep(e, old(Meant()), metas, owners, threshold), r)
    {
      hide Authorise, ValidateOwners, ValidateThreshold, WithOwners, WithThreshold;
      var checked := CheckAuthority(metas);
      if checked.Err? {
        return Err(checked.error);
      }
      var refused := ValidateOwners(checked.value, owners);
      if refused.Some? {
        return Err(refused.value);
      }
      refused := ValidateThreshold(threshold, owners);
      if refused.Some? {
        return Err(refused.value);
      }
      AcceptedHasRoom(checked.value, owners, threshold);
      var k := metas[0].pubkey;
      var data;
      r, data := ExecuteSetOwners(k, checked.value, owners);
      ghost var first := data;
      r, data := ExecuteChangeThreshold(k, data, threshold);
      PutTwice(e, old(Meant()), k, MultisigData(first), MultisigData(data));
    }

    // ----- closing -----

    /** close_account, write by write. */
    method CloseTransactionAccount(account: Pubkey, refundee: Pubkey) returns (r: Result<(), Error>)
      requires Valid() && account != refundee
      modifies this
      ensures Agrees(CloseAccount(e, old(Meant()), account, refundee), r)
    {
      hide DecodeMultisig, DecodeTransaction, AllOk, View;
      SystemIsAnother();
      ViewGet(e, accounts, kinds, account);
      ViewGet(e, accounts, kinds, refundee);
      var raw := RawGet(e, accounts, account);
      var lamports := raw.lamports;
      SetAccount(account, raw.(lamports := 0), KindOf(kinds, account));
      var to := RawGet(e, accounts, refundee);
      if to.lamports + lamports >= TWO_64 {
        return Err(AccountCloseFailure);
      }
      SetAccount(refundee, to.(lamports := to.lamports + lamports), KindOf(kinds, refundee));
      SetAccount(account, RawGet(e, accounts, account).(data := [], owner := e.systemId), Foreign);
      r := DONE;
    }

    lemma SystemIsAnother()
      requires Valid()
      ensures e.systemId != e.programId
    {
    }

    method SetAccount(k: Pubkey, raw: RawAccount, ghost kind: Kind)
      requires Valid() && RawOk(e, raw, kind)
      modifies this
      ensures Valid() && accounts == old(accounts)[k := raw] && kinds == old(kinds)[k := kind]
      ensures Meant() == old(Meant())[k := Meaning(e, raw, kind)]
    {
      hide RawOk, Meaning;
      ViewUpdate(e, accounts, kinds, k, raw, kind);
      accounts := accounts[k := raw];
      kinds := kinds[k := kind];
    }

    method CancelTransaction(metas: seq<AccountMeta>) returns (r: Result<(), Error>)
      requires Valid()
      modifies this
      ensures Agrees(CancelStep(e, old(Meant()), metas), r)
    {
      hide DecodeMultisig, DecodeTransaction, CloseAccount;
      if |metas| < 4 {
        return Err(NotEnoughAccountKeys);
      }
      var ms, tx, refundee, executor := metas[0], metas[1], metas[2], metas[3];
      ViewGet(e, accounts, kinds, ms.pubkey);
      ViewGet(e, accounts, kinds, tx.pubkey);
      if RawGet(e, accounts, ms.pubkey).owner != e.programId || RawGet(e, accounts, tx.pubkey).owner != e.programId {
        return Err(AccountOwnedByWrongProgram);
      }
      var loaded := LoadMultisig(ms.pubkey);
      if loaded.Err? {
        return Err(loaded.error);
      }
      var found := LoadTransaction(tx.pubkey);
      if found.Err? {
        return Err(found.error);
      }
      var m, t := loaded.value, found.value;
      if !(executor.isSigner && executor.pubkey in m.owners) {
        return Err(InvalidExecutor);
      }
      if m.ownerSetSeqno < t.ownerSetSeqno {
        return Err(InvalidOwnerSetSequenceNumber);
      }
      if t.multisig != ms.pubkey {
        return Err(InvalidTransactionAccount);
      }
      if !tx.isWritable {
        return Err(ImmutableTransactionAccount);
      }
      if refundee.pubkey == tx.pubkey {
        return Err(InvalidRefundeeAccount);
      }
      if !refundee.isWritable {
        return Err(ImmutableRefundeeAccount);
      }
      r := CloseTransactionAccount(tx.pubkey, refundee.pubkey);
    }

    // ----- execute_transaction -----

    method Validate(metas: seq<AccountMeta>) returns (r: Result<Validated, Error>)
      requires Valid()
      ensures r == ValidateExecute(e, Meant(), metas)
      ensures r.Ok? ==> r.value.account != r.value.refundee
    {
      hide DecodeMultisig, DecodeTransaction;
      if |metas| < 5 {
        return Err(NotEnoughAccountKeys);
      }
      var ms, signer, tx, refundee, executor := metas[0], metas[1], metas[2], metas[3], metas[4];
      ViewGet(e, accounts, kinds, ms.pubkey);
      ViewGet(e, accounts, kinds, tx.pubkey);
      if RawGet(e, accounts, ms.pubkey).owner != e.programId || RawGet(e, accounts, tx.pubkey).owner != e.programId {
        return Err(AccountOwnedByWrongProgram);
      }
      var loaded := LoadMultisig(ms.pubkey);
      if loaded.Err? {
        return Err(loaded.error);
      }
      var found := LoadTransaction(tx.pubkey);
      if found.Err? {
        return Err(found.error);
      }
      var m, t := loaded.value, found.value;
      if !(executor.isSigner && executor.pubkey in m.owners) {
        return Err(InvalidExecutor);
      }
      if m.ownerSetSeqno != t.ownerSetSeqno {
        return Err(InvalidOwnerSetSequenceNumber);
      }
      if ValidatePda(e, signer.pubkey, ms.pubkey, m.nonce).Some? {
        return Err(InvalidSeeds);
      }
      if !tx.isWritable {
        return Err(ImmutableTransactionAccount);
      }
      if t.multisig != ms.pubkey {
        return Err(InvalidTransactionAccount);
      }
      if refundee.pubkey == tx.pubkey {
        return Err(InvalidRefundeeAccount);
      }
      if !refundee.isWritable {
        return Err(ImmutableRefundeeAccount);
      }
      if AsU8(CountTrue(t.signers)) < m.threshold {
        return Err(NotEnoughSigners);
      }
      return Ok(Validated(signer.pubkey, tx.pubkey, refundee.pubkey, m, t));
    }

    /** One effect of another program. It cannot touch this program's accounts, save to credit them. */
    method Suffer(f: Effect) returns (r: Result<(), Error>)
      requires Valid()
      modifies this
      ensures Agrees(ApplyEffect(e, old(Meant()), f), r)
    {
      hide DecodeMultisig, DecodeTransaction, AllOk, View;
      match f
      case Move(from, to, amount) =>
        ViewGet(e, accounts, kinds, from);
        var a := RawGet(e, accounts, from);
        if a.owner == e.programId || a.lamports < amount {
          return Err(ExternalFailure);
        }
        SetAccount(from, a.(lamports := a.lamports - amount), KindOf(kinds, from));
        ViewGet(e, accounts, kinds, to);
        var b := RawGet(e, accounts, to);
        SetAccount(to, b.(lamports := b.lamports + amount), KindOf(kinds, to));
        r := DONE;
      case Rewrite(k, owner, bytes) =>
        ViewGet(e, accounts, kinds, k);
        var a := RawGet(e, accounts, k);
        if a.owner == e.programId || (owner == e.programId && !Zeroed(bytes)) {
          return Err(ExternalFailure);
        }
        SetAccount(k, RawAccount(owner, a.lamports, bytes), Foreign);
        r := DONE;
    }

    method SufferAll(fs: seq<Effect>) returns (r: Result<(), Error>)
      requires Valid()
      modifies this
      ensures Agrees(ApplyEffects(e, old(Meant()), fs), r)
    {
      hide ApplyEffect, AllOk, View;
      var i := 0;
      while i < |fs|
        invariant 0 <= i <= |fs| && Valid()
        invariant ApplyEffects(e, old(Meant()), fs) == ApplyEffects(e, Meant(), fs[i..])
      {
        assert fs[i..][1..] == fs[i + 1..];
        r := Suffer(fs[i]);
        if r.Err? {
          return;
        }
        i := i + 1;
      }
      r := DONE;
    }

    /** A nested call of this program: decode, then one of the three administrative handlers. */
    method RunAdmin(metas: seq<AccountMeta>, i: MultisigInstruction) returns (r: Result<(), Error>)
      requires Valid()
      modifies this
      ensures Agrees(Admin(e, old(Meant()), metas, i), r)
    {
      hide SetOwnersStep, ChangeThresholdStep, SetOwnersAndChangeThresholdStep, AllOk, View;
      match i
      case SetOwners(owners) => r := SetOwners(metas, owners);
      case ChangeThreshold(threshold) => r := ChangeThreshold(metas, threshold);
      case SetOwnersAndChangeThreshold(owners, threshold) => r := SetOwnersAndChangeThreshold(metas, owners, threshold);
      case _ => r := Err(SelfCallNotModelled);
    }

    method InvokeSignedOne(metas: seq<AccountMeta>, signer: Pubkey, ix: TransactionInstructionData, outcomes: Outcomes)
      returns (r: Result<(), Error>)
      requires Valid()
      modifies this
      ensures Agrees(InvokeSigned(e, old(Meant()), metas, signer, ix, outcomes), r)
    {
      hide Admin, AllOk, View, CheckPrivileges, DecodeInstruction, ApplyEffects;
      var call := ToInvocation(ix, signer);
      var refused := CheckPrivileges(metas, signer, call);
      if refused.Some? {
        return Err(refused.value);
      }
      if call.programId == e.programId {
        var decoded := DecodeInstruction(call.data);
        if decoded.None? {
          return Err(InvalidInstructionData);
        }
        r := RunAdmin(call.accounts, decoded.value);
      } else if outcomes == [] || outcomes[0].None? {
        r := Err(ExternalFailure);
      } else {
        r := SufferAll(outcomes[0].value);
      }
    }

    /** The stored instructions, from left to right. */
    method RunStored(metas: seq<AccountMeta>, signer: Pubkey, ixs: seq<TransactionInstructionData>, outcomes: Outcomes)
      returns (r: Result<(), Error>)
      requires Valid()
      modifies this
      ensures Agrees(RunBatch(e, old(Meant()), metas, signer, ixs, outcomes), r)
    {
      hide InvokeSigned, AllOk, View;
      var i := 0;
      var left := outcomes;
      while i < |ixs|
        invariant 0 <= i <= |ixs| && Valid()
        invariant RunBatch(e, old(Meant()), metas, signer, ixs, outcomes) == RunBatch(e, Meant(), metas, signer, ixs[i..], left)
      {
        assert ixs[i..][1..] == ixs[i + 1..];
        r := InvokeSignedOne(metas, signer, ixs[i], left);
        if r.Err? {
          return;
        }
        left := Rest(e, ixs[i], left);
        i := i + 1;
      }
      r := DONE;
    }

    method ExecuteTransaction(metas: seq<AccountMeta>, outcomes: Outcomes) returns (r: Result<(), Error>)
      requires Valid()
      modifies this
      ensures Agrees(ExecuteStep(e, old(Meant()), metas, outcomes), r)
    {
      hide ValidateExecute, RunBatch, CloseAccount, AllOk, View;
      var checked := Validate(metas);
      if checked.Err? {
        return Err(checked.error);
      }
      var v := checked.value;
      r := RunStored(metas, v.signer, v.transaction.instructions, outcomes);
      if r.Err? {
        return;
      }
      r := CloseTransactionAccount(v.account, v.refundee);
    }

    // ----- process_instruction -----

    method Handle(metas: seq<AccountMeta>, i: MultisigInstruction, outcomes: Outcomes) returns (r: Result<(), Error>)
      requires Valid() && WritableInstruction(i)
      modifies this
      ensures Agrees(Dispatch(e, old(Meant()), metas, i, outcomes), r)
    {
      hide CreateMultisigStep, ProposeStep, ApproveStep, ExecuteStep, CancelStep, Admin, AllOk, View, StoredInstructions;
      match i
      case CreateMultisig(owners, threshold, nonce) => r := CreateMultisig(metas, owners, threshold, nonce);
      case ProposeTransaction(instructions) => r := ProposeTransaction(metas, instructions);
      case ApproveTransaction => r := ApproveTransaction(metas);
      case ExecuteTransaction => r := ExecuteTransaction(metas, outcomes);
      case CancelTransaction => r := CancelTransaction(metas);
      case _ => r := RunAdmin(metas, i);
    }

    /**
     * One instruction from outside. On success the bytes mean exactly what the typed function gives; on failure
     * the error is the same and the runtime reverts every byte and balance.
     */
    method ProcessInstruction(metas: seq<AccountMeta>, data: seq<u8>, outcomes: Outcomes) returns (r: Result<(), Error>)
      requires Valid()
      modifies this
      ensures Valid()
      ensures match Process(e, old(Meant()), metas, data, outcomes)
        case Ok(s) => r == DONE && Meant() == s
        case Err(x) => r == Err(x) && accounts == old(accounts) && kinds == old(kinds)
    {
      hide Dispatch, AllOk, View, DecodeInstruction, WritableInstruction;
      var decoded := DecodeInstruction(data);
      if decoded.None? {
        return Err(InvalidInstructionData);
      }
      EncodeOfDecode(data);
      var saved := accounts;
      ghost var savedKinds := kinds;
      r := Handle(metas, decoded.value, outcomes);
      if r.Err? {
        accounts := saved;
        kinds := savedKinds;
      }
    }

    /** A whole run: its states are those of the typed model. */
    method RunCalls(calls: seq<Call>)
      requires Valid()
      modifies this
      ensures Valid() && Meant() == After(e, old(Meant()), calls).accounts
    {
      hide AllOk, View, Process, ApplyEffects, DecodeInstruction;
      var n := 0;
      assert calls[..0] == [];
      while n < |calls|
        invariant 0 <= n <= |calls| && Valid()
        invariant Meant() == After(e, old(Meant()), calls[..n]).accounts
      {
        ghost var w := After(e, old(Meant()), calls[..n]);
        assert calls[..n + 1][..n] == calls[..n];
        ProcessDecodes(e, w.accounts, calls[n]);
        match calls[n] {
          case Invoke(metas, data, outcomes) =>
            var r := ProcessInstruction(metas, data, outcomes);
          case Other(effects) =>
            var saved := accounts;
            ghost var savedKinds := kinds;
            var r := SufferAll(effects);
            if r.Err? {
              accounts := saved;
              kinds := savedKinds;
            }
        }
        n := n + 1;
      }
      assert calls[..n] == calls;
    }

    /** The method did what the function says, on what the bytes mean. */
    ghost predicate Agrees(step: Step, r: Result<(), Error>)
      reads this
    {
      match step
      case Ok(s) => r == DONE && Valid() && Meant() == s
      case Err(x) => r == Err(x)
    }
  }

  /** A call that is accepted has been decoded. */
  lemma ProcessDecodes(e: Env, s: Accounts, c: Call)
    ensures c.Invoke? && Process(e, s, c.metas, c.data, c.outcomes).Ok? ==> DecodeInstruction(c.data).Some?
  {
  }

  /** An account that no handler wrote, replaced by another such account. */
  lemma PaidMeans(e: Env, m: RawAccounts, ks: Kinds, k: Pubkey, raw: RawAccount)
    requires AllOk(e, m, ks) && KindOf(ks, k) == Foreign && RawOk(e, raw, Foreign)
    ensures AllOk(e, m[k := raw], ks) && View(e, m[k := raw], ks) == View(e, m, ks)[k := Meaning(e, raw, Foreign)]
  {
    hide RawOk, Meaning;
  }

  /** The account a creating handler leaves is the one the function creates. */
  lemma CreatedMeans(e: Env, before: RawAccounts, after: RawAccounts, ks: Kinds, payer: AccountMeta, target: AccountMeta,
                     lamports: nat, raw: RawAccount, kind: Kind, d: Data)
    requires AllOk(e, before, ks) && RawOk(e, raw, kind) && Meaning(e, raw, kind) == Account(e.programId, lamports, d)
    requires payer.pubkey != target.pubkey && RawGet(e, before, payer.pubkey).lamports >= lamports
    requires KindOf(ks, payer.pubkey) == Foreign
    requires CreateAccount(e, View(e, before, ks), payer, target, lamports, d).Ok?
    requires after == before
      [payer.pubkey := RawGet(e, before, payer.pubkey).(lamports := RawGet(e, before, payer.pubkey).lamports - lamports)]
      [target.pubkey := raw]
    ensures AllOk(e, after, ks[target.pubkey := kind])
    ensures View(e, after, ks[target.pubkey := kind]) == CreateAccount(e, View(e, before, ks), payer, target, lamports, d).value
  {
    hide DecodeMultisig, DecodeTransaction, SizeOf;
    ViewGet(e, before, ks, payer.pubkey);
    var from := RawGet(e, before, payer.pubkey);
    var paid := before[payer.pubkey := from.(lamports := from.lamports - lamports)];
    PaidMeans(e, before, ks, payer.pubkey, from.(lamports := from.lamports - lamports));
    ViewUpdate(e, paid, ks, target.pubkey, raw, kind);
  }

  lemma OwnersAreShort(e: Env, m: RawAccounts, ks: Kinds, k: Pubkey, v: Multisig)
    requires AllOk(e, m, ks) && MultisigIn(RawGet(e, m, k).data) == Ok(v)
    ensures |v.owners| < TWO_32
  {
    hide DecodeMultisig, EncodeMultisig, Writable;
    MultisigRoundTrip(v, RawGet(e, m, k).data);
    MultisigFields(v);
  }

  /** A multisig with room for an owner is read from an account of exactly its size, written by some handler. */
  lemma HeldMultisig(e: Env, m: RawAccounts, ks: Kinds, k: Pubkey, v: Multisig)
    requires AllOk(e, m, ks) && RawGet(e, m, k).owner == e.programId
    requires MultisigIn(RawGet(e, m, k).data) == Ok(v) && Capacity(v) > 0
    ensures k in m && v.Len() == |m[k].data| <= MAX_CREATED_DATA
  {
    hide DecodeMultisig, DecodeTransaction, EncodeMultisig, Writable;
    ViewGet(e, m, ks, k);
    MultisigRoundTrip(v, m[k].data);
    MultisigLen(v);
    if KindOf(ks, k) == Foreign {
      ZeroedMultisig(m[k].data);
    }
  }

  lemma HeldTransaction(e: Env, m: RawAccounts, ks: Kinds, k: Pubkey, t: Transaction)
    requires AllOk(e, m, ks) && RawGet(e, m, k).owner == e.programId
    requires TransactionIn(RawGet(e, m, k).data) == Ok(t) && t.signers != []
    ensures k in m && t.Len() == |m[k].data| <= MAX_CREATED_DATA && WritableTransaction(t)
  {
    hide DecodeMultisig, DecodeTransaction, EncodeTransaction, WritableTransaction;
    ViewGet(e, m, ks, k);
    TransactionRoundTrip(t, m[k].data);
    TransactionLen(t);
    if KindOf(ks, k) == Foreign {
      ZeroedTransaction(m[k].data);
    }
  }
}
