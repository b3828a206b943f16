/** The two account types the program stores, their byte layout and their hand-written lengths. */
module State {
  import opened Machine
  import B = Borsh

  datatype TransactionInstructionAccount = TransactionInstructionAccount(
    pubkey: Pubkey, isSigner: bool, isWritable: bool)

  datatype TransactionInstructionData = TransactionInstructionData(
    programId: Pubkey, accounts: seq<TransactionInstructionAccount>, data: seq<u8>)
  {
    function Len(): nat {
      32 + 4 + (32 + 1 + 1) * |accounts| + 4 + |data|
    }
  }

  datatype Multisig = Multisig(
    owners: seq<Pubkey>, threshold: u8, nonce: u8, ownerSetSeqno: u32, padding: seq<u8>)
  {
    function Len(): nat {
      4 + PUBKEY_BYTES * |owners| + 1 + 1 + 4 + 4 + |padding|
    }
  }

  datatype Transaction = Transaction(
    multisig: Pubkey, instructions: seq<TransactionInstructionData>, signers: seq<bool>, ownerSetSeqno: u32)
  {
    function Len(): nat {
      32 + 4 + SumLen(instructions) + 4 + |signers| + 4
    }
  }

  function SumLen(ixs: seq<TransactionInstructionData>): nat {
    if ixs == [] then 0 else ixs[0].Len() + SumLen(ixs[1..])
  }

  // ----- codecs -----

  function AccountCodec(): B.Codec<TransactionInstructionAccount> {
    B.Iso(B.Pair(B.Key(), B.Pair(B.Bool(), B.Bool())),
      (p: (Pubkey, (bool, bool))) => TransactionInstructionAccount(p.0, p.1.0, p.1.1),
      (a: TransactionInstructionAccount) => (a.pubkey, (a.isSigner, a.isWritable)))
  }

  function InstructionDataCodec(): B.Codec<TransactionInstructionData> {
    B.Iso(B.Pair(B.Key(), B.Pair(B.Vec(AccountCodec()), B.Vec(B.U8()))),
      (p: (Pubkey, (seq<TransactionInstructionAccount>, seq<u8>))) => TransactionInstructionData(p.0, p.1.0, p.1.1),
      (i: TransactionInstructionData) => (i.programId, (i.accounts, i.data)))
  }

  function MultisigCodec(): B.Codec<Multisig> {
    B.Iso(B.Pair(B.Vec(B.Key()), B.Pair(B.U8(), B.Pair(B.U8(), B.Pair(B.U32(), B.Vec(B.U8()))))),
      (p: (seq<Pubkey>, (u8, (u8, (u32, seq<u8>))))) => Multisig(p.0, p.1.0, p.1.1.0, p.1.1.1.0, p.1.1.1.1),
      (m: Multisig) => (m.owners, (m.threshold, (m.nonce, (m.ownerSetSeqno, m.padding)))))
  }

  function TransactionCodec(): B.Codec<Transaction> {
    B.Iso(B.Pair(B.Key(), B.Pair(B.Vec(InstructionDataCodec()), B.Pair(B.Vec(B.Bool()), B.U32()))),
      (p: (Pubkey, (seq<TransactionInstructionData>, (seq<bool>, u32)))) => Transaction(p.0, p.1.0, p.1.1.0, p.1.1.1),
      (t: Transaction) => (t.multisig, (t.instructions, (t.signers, t.ownerSetSeqno))))
  }

  lemma AccountCodecLawful()
    ensures B.Lawful(AccountCodec())
  {
    B.ScalarsLawful();
    B.PairLawful(B.Bool(), B.Bool());
    B.PairLawful(B.Key(), B.Pair(B.Bool(), B.Bool()));
    B.IsoLawful(B.Pair(B.Key(), B.Pair(B.Bool(), B.Bool())),
      (p: (Pubkey, (bool, bool))) => TransactionInstructionAccount(p.0, p.1.0, p.1.1),
      (a: TransactionInstructionAccount) => (a.pubkey, (a.isSigner, a.isWritable)));
  }

  lemma InstructionDataCodecLawful()
    ensures B.Lawful(InstructionDataCodec())
  {
    var accounts, bytes := B.Vec(AccountCodec()), B.Vec(B.U8());
    B.ScalarsLawful();
    AccountCodecLawful();
    B.VecLawful(AccountCodec());
    B.VecLawful(B.U8());
    B.PairLawful(accounts, bytes);
    B.PairLawful(B.Key(), B.Pair(accounts, bytes));
    B.IsoLawful(B.Pair(B.Key(), B.Pair(accounts, bytes)),
      (p: (Pubkey, (seq<TransactionInstructionAccount>, seq<u8>))) => TransactionInstructionData(p.0, p.1.0, p.1.1),
      (i: TransactionInstructionData) => (i.programId, (i.accounts, i.data)));
  }

  lemma MultisigCodecLawful()
    ensures B.Lawful(MultisigCodec())
  {
    var owners, bytes := B.Vec(B.Key()), B.Vec(B.U8());
    B.ScalarsLawful();
    B.U32Lawful();
    B.VecLawful(B.Key());
    B.VecLawful(B.U8());
    var tail := B.Pair(B.U32(), bytes);
    B.PairLawful(B.U32(), bytes);
    B.PairLawful(B.U8(), tail);
    B.PairLawful(B.U8(), B.Pair(B.U8(), tail));
    B.PairLawful(owners, B.Pair(B.U8(), B.Pair(B.U8(), tail)));
    B.IsoLawful(B.Pair(owners, B.Pair(B.U8(), B.Pair(B.U8(), tail))),
      (p: (seq<Pubkey>, (u8, (u8, (u32, seq<u8>))))) => Multisig(p.0, p.1.0, p.1.1.0, p.1.1.1.0, p.1.1.1.1),
      (m: Multisig) => (m.owners, (m.threshold, (m.nonce, (m.ownerSetSeqno, m.padding)))));
  }

  lemma TransactionCodecLawful()
    ensures B.Lawful(TransactionCodec())
  {
    var ixs, bools := B.Vec(InstructionDataCodec()), B.Vec(B.Bool());
    B.ScalarsLawful();
    B.U32Lawful();
    InstructionDataCodecLawful();
    B.VecLawful(InstructionDataCodec());
    B.VecLawful(B.Bool());
    B.PairLawful(bools, B.U32());
    B.PairLawful(ixs, B.Pair(bools, B.U32()));
    B.PairLawful(B.Key(), B.Pair(ixs, B.Pair(bools, B.U32())));
    B.IsoLawful(B.Pair(B.Key(), B.Pair(ixs, B.Pair(bools, B.U32()))),
      (p: (Pubkey, (seq<TransactionInstructionData>, (seq<bool>, u32)))) => Transaction(p.0, p.1.0, p.1.1.0, p.1.1.1),
      (t: Transaction) => (t.multisig, (t.instructions, (t.signers, t.ownerSetSeqno))));
  }

  // ----- what the program calls -----

  /** Borsh can write the value: every container has fewer than 2^32 elements. */
  predicate Writable(m: Multisig) {
    MultisigCodec().ok(m)
  }

  predicate WritableTransaction(t: Transaction) {
    TransactionCodec().ok(t)
  }

  function EncodeMultisig(m: Multisig): seq<u8> {
    MultisigCodec().enc(m)
  }

  function DecodeMultisig(b: seq<u8>): Option<Multisig> {
    B.TryFromSlice(MultisigCodec(), b)
  }

  function EncodeTransaction(t: Transaction): seq<u8> {
    TransactionCodec().enc(t)
  }

  function DecodeTransaction(b: seq<u8>): Option<Transaction> {
    B.TryFromSlice(TransactionCodec(), b)
  }

  // ----- round trips and lengths -----

  lemma MultisigRoundTrip(m: Multisig, b: seq<u8>)
    ensures Writable(m) ==> DecodeMultisig(EncodeMultisig(m)) == Some(m)
    ensures DecodeMultisig(b) == Some(m) ==> Writable(m) && EncodeMultisig(m) == b
  {
    MultisigCodecLawful();
    B.SliceRoundTrip(MultisigCodec(), m, b);
  }

  lemma TransactionRoundTrip(t: Transaction, b: seq<u8>)
    ensures WritableTransaction(t) ==> DecodeTransaction(EncodeTransaction(t)) == Some(t)
    ensures DecodeTransaction(b) == Some(t) ==> WritableTransaction(t) && EncodeTransaction(t) == b
  {
    TransactionCodecLawful();
    B.SliceRoundTrip(TransactionCodec(), t, b);
  }

  lemma {:induction false} FixedSizeElements<T>(c: B.Codec<T>, vs: seq<T>, size: nat)
    requires forall v: T :: |c.enc(v)| == size
    ensures |B.EncodeAll(c, vs)| == size * |vs|
  {
    if vs != [] {
      FixedSizeElements(c, vs[1..], size);
      assert size * |vs| == size + size * |vs[1..]|;
    }
  }

  /** A stored instruction can be written when its two containers are short enough. */
  lemma InstructionDataWritable(i: TransactionInstructionData)
    requires |i.accounts| < TWO_32 && |i.data| < TWO_32
    ensures InstructionDataCodec().ok(i)
  {
  }

  lemma InstructionDataLen(i: TransactionInstructionData)
    requires InstructionDataCodec().ok(i)
    ensures |InstructionDataCodec().enc(i)| == i.Len()
  {
    FixedSizeElements(AccountCodec(), i.accounts, 34);
    FixedSizeElements(B.U8(), i.data, 1);
  }

  lemma {:induction false} InstructionListLen(ixs: seq<TransactionInstructionData>)
    requires B.EachOk(InstructionDataCodec(), ixs)
    ensures |B.EncodeAll(InstructionDataCodec(), ixs)| == SumLen(ixs)
  {
    hide InstructionDataCodec;
    if ixs != [] {
      assert InstructionDataCodec().ok(ixs[0]);
      InstructionDataLen(ixs[0]);
      InstructionListLen(ixs[1..]);
    }
  }

  /** `len()` is the exact size of the encoding, for both account types. */
  lemma MultisigLen(m: Multisig)
    requires Writable(m)
    ensures |EncodeMultisig(m)| == m.Len()
  {
    FixedSizeElements(B.Key(), m.owners, 32);
    FixedSizeElements(B.U8(), m.padding, 1);
  }

  lemma TransactionLen(t: Transaction)
    requires WritableTransaction(t)
    ensures |EncodeTransaction(t)| == t.Len()
  {
    TransactionFields(t);
    assert |t.instructions| < TWO_32 && B.EachOk(InstructionDataCodec(), t.instructions);
    hide EncodeTransaction, WritableTransaction, InstructionDataCodec;
    InstructionListLen(t.instructions);
    FixedSizeElements(B.Bool(), t.signers, 1);
  }

  // ----- zero-filled data -----

  /** Zero-filled bytes read as no multisig but one without owners and without padding. */
  lemma ZeroedMultisig(b: seq<u8>)
    requires Zeroed(b) && DecodeMultisig(b).Some?
    ensures DecodeMultisig(b).value.owners == [] && DecodeMultisig(b).value.padding == []
  {
    var m := DecodeMultisig(b).value;
    MultisigRoundTrip(m, b);
    ZeroedOwners(m);
  }

  lemma MultisigFields(m: Multisig)
    ensures EncodeMultisig(m) ==
      B.Vec(B.Key()).enc(m.owners) + ([m.threshold] + ([m.nonce] + (B.LittleEndian(m.ownerSetSeqno) + B.Vec(B.U8()).enc(m.padding))))
    ensures Writable(m) ==> |m.owners| < TWO_32 && |m.padding| < TWO_32
  {
  }

  lemma ZeroedOwners(m: Multisig)
    requires Writable(m) && Zeroed(EncodeMultisig(m))
    ensures m.owners == [] && m.padding == []
  {
    hide EncodeMultisig, Writable, B.Vec, B.LittleEndian;
    MultisigFields(m);
    var owners, padding := B.Vec(B.Key()).enc(m.owners), B.Vec(B.U8()).enc(m.padding);
    var tail := B.LittleEndian(m.ownerSetSeqno) + padding;
    B.ZeroedVec(B.Key(), m.owners, [m.threshold] + ([m.nonce] + tail));
    ZeroedParts(owners, [m.threshold] + ([m.nonce] + tail));
    ZeroedParts([m.threshold], [m.nonce] + tail);
    ZeroedParts([m.nonce], tail);
    ZeroedParts(B.LittleEndian(m.ownerSetSeqno), padding);
    assert padding + [] == padding;
    B.ZeroedVec(B.U8(), m.padding, []);
  }

  /** Zero-filled bytes read as no transaction but one without flags, of the multisig at the zero address. */
  lemma ZeroedTransaction(b: seq<u8>)
    requires Zeroed(b) && DecodeTransaction(b).Some?
    ensures DecodeTransaction(b).value.multisig == ZERO_KEY && DecodeTransaction(b).value.signers == []
  {
    var t := DecodeTransaction(b).value;
    TransactionRoundTrip(t, b);
    ZeroedEncoding(t);
  }

  lemma TransactionFields(t: Transaction)
    ensures EncodeTransaction(t) ==
      t.multisig + (B.Vec(InstructionDataCodec()).enc(t.instructions) + (B.Vec(B.Bool()).enc(t.signers) + B.LittleEndian(t.ownerSetSeqno)))
    ensures WritableTransaction(t) ==> |t.instructions| < TWO_32 && |t.signers| < TWO_32
  {
    hide InstructionDataCodec;
  }

  lemma ZeroedParts(a: seq<u8>, b: seq<u8>)
    requires Zeroed(a + b)
    ensures Zeroed(a) && Zeroed(b)
  {
    assert forall i | 0 <= i < |a| :: a[i] == (a + b)[i];
    assert forall i | 0 <= i < |b| :: b[i] == (a + b)[|a| + i];
  }

  lemma ZeroedEncoding(t: Transaction)
    requires WritableTransaction(t) && Zeroed(EncodeTransaction(t))
    ensures t.multisig == ZERO_KEY && t.signers == []
  {
    hide EncodeTransaction, WritableTransaction, InstructionDataCodec, B.Vec, B.LittleEndian;
    TransactionFields(t);
    var ixs, flags := B.Vec(InstructionDataCodec()).enc(t.instructions), B.Vec(B.Bool()).enc(t.signers);
    var tail := flags + B.LittleEndian(t.ownerSetSeqno);
    ZeroedParts(t.multisig, ixs + tail);
    ZeroedParts(ixs, tail);
    B.ZeroedVec(B.Bool(), t.signers, B.LittleEndian(t.ownerSetSeqno));
  }

  lemma EmptyMultisigFields(m: Multisig)
    requires m == Multisig([], 0, 0, 0, [])
    ensures Writable(m)
    ensures B.Vec(B.Key()).enc(m.owners) == [0, 0, 0, 0] && B.Vec(B.U8()).enc(m.padding) == [0, 0, 0, 0]
    ensures B.LittleEndian(m.ownerSetSeqno) == [0, 0, 0, 0]
  {
  }

  /** The length at which zero-filled bytes do read as a multisig. */
  lemma ZeroedReadsAsMultisig()
    ensures DecodeMultisig(seq(14, _ => 0)) == Some(Multisig([], 0, 0, 0, []))
  {
    hide EncodeMultisig, DecodeMultisig, Writable, B.Vec, B.LittleEndian, B.Key, B.U8;
    var m := Multisig([], 0, 0, 0, []);
    EmptyMultisigFields(m);
    MultisigFields(m);
    MultisigRoundTrip(m, []);
    assert EncodeMultisig(m) == [0, 0, 0, 0] + ([0] + ([0] + ([0, 0, 0, 0] + [0, 0, 0, 0])));
    assert EncodeMultisig(m) == seq(14, _ => 0);
  }
}
