/**
 * The byte layouts written out, as the Borsh specification (borsh.io, section "Specification") and the declarations
 * of the program's types determine them: no codec appears in the definitions. The codecs are shown to write exactly
 * these bytes; that they read them back is their lawfulness.
 */
module Bytes {
  import opened Machine
  import opened State
  import opened Instructions
  import B = Borsh

  function Power(base: nat, n: nat): (r: nat)
    ensures base > 0 ==> r > 0
  {
    if n == 0 then 1 else base * Power(base, n - 1)
  }

  /** A u32: byte i is digit i in base 256. */
  function U32Bytes(v: u32): (r: seq<u8>) {
    seq(4, i requires 0 <= i < 4 => v / Power(256, i) % 256)
  }

  function BoolByte(b: bool): u8 {
    if b then 1 else 0
  }

  /** The bytes of the elements, one after the other. */
  function Flat<T>(vs: seq<T>, bytes: T -> seq<u8>): seq<u8> {
    if vs == [] then [] else bytes(vs[0]) + Flat(vs[1..], bytes)
  }

  function Same(b: seq<u8>): seq<u8> {
    b
  }

  function MultisigBytes(m: Multisig): seq<u8>
    requires |m.owners| < TWO_32 && |m.padding| < TWO_32
  {
    U32Bytes(|m.owners|) + Flat(m.owners, (k: Pubkey) => Same(k))
    + [m.threshold, m.nonce]
    + U32Bytes(m.ownerSetSeqno)
    + U32Bytes(|m.padding|) + m.padding
  }

  function AccountBytes(a: TransactionInstructionAccount): seq<u8> {
    a.pubkey + [BoolByte(a.isSigner), BoolByte(a.isWritable)]
  }

  function StoredBytes(ix: TransactionInstructionData): seq<u8> {
    if |ix.accounts| < TWO_32 && |ix.data| < TWO_32 then
      ix.programId
      + U32Bytes(|ix.accounts|) + Flat(ix.accounts, (a: TransactionInstructionAccount) => AccountBytes(a))
      + U32Bytes(|ix.data|) + ix.data
    else []
  }

  function ListBytes(ixs: seq<TransactionInstructionData>): seq<u8>
    requires |ixs| < TWO_32
  {
    U32Bytes(|ixs|) + Flat(ixs, (ix: TransactionInstructionData) => StoredBytes(ix))
  }

  function TransactionBytes(t: Transaction): seq<u8>
    requires |t.instructions| < TWO_32 && |t.signers| < TWO_32
  {
    t.multisig
    + ListBytes(t.instructions)
    + U32Bytes(|t.signers|) + Flat(t.signers, (b: bool) => [BoolByte(b)])
    + U32Bytes(t.ownerSetSeqno)
  }

  function KeysBytes(owners: seq<Pubkey>): seq<u8>
    requires |owners| < TWO_32
  {
    U32Bytes(|owners|) + Flat(owners, (k: Pubkey) => Same(k))
  }

  /** An instruction: its position in the enum, then its fields. */
  function InstructionBytes(i: MultisigInstruction): seq<u8>
    requires WritableInstruction(i)
  {
    WritableParts(i);
    match i
    case CreateMultisig(owners, threshold, nonce) => [0] + KeysBytes(owners) + [threshold, nonce]
    case SetOwners(owners) => [1] + KeysBytes(owners)
    case ChangeThreshold(threshold) => [2, threshold]
    case SetOwnersAndChangeThreshold(owners, threshold) => [3] + KeysBytes(owners) + [threshold]
    case ProposeTransaction(instructions) => [4] + ListBytes(instructions)
    case ApproveTransaction => [5]
    case ExecuteTransaction => [6]
    case CancelTransaction => [7]
  }

  lemma WritableParts(i: MultisigInstruction)
    requires WritableInstruction(i)
    ensures i.CreateMultisig? || i.SetOwners? || i.SetOwnersAndChangeThreshold? ==> |i.owners| < TWO_32
    ensures i.ProposeTransaction? ==> |i.instructions| < TWO_32 && B.EachOk(InstructionDataCodec(), i.instructions)
  {
    hide InstructionDataCodec;
  }

  // ----- integers -----

  lemma Powers()
    ensures Power(256, 0) == 1 && Power(256, 1) == 0x100 && Power(256, 2) == 0x1_0000 && Power(256, 3) == 0x100_0000
  {
    assert Power(256, 1) == 256 * Power(256, 0);
    assert Power(256, 2) == 256 * Power(256, 1);
    assert Power(256, 3) == 256 * Power(256, 2);
  }

  /** The codec's u32 is Borsh's: byte i is v / 256^i % 256. */
  lemma U32Written(v: u32)
    ensures B.LittleEndian(v) == U32Bytes(v)
    ensures forall i :: 0 <= i < 4 ==> B.LittleEndian(v)[i] == v / Power(256, i) % 256
  {
    Powers();
    var b := B.LittleEndian(v);
    assert b[0] == v % 0x100 && b[1] == v / 0x100 % 0x100 && b[2] == v / 0x1_0000 % 0x100 && b[3] == v / 0x100_0000;
    assert v / 0x100_0000 < 0x100;
    hide B.LittleEndian, Power;
    forall i | 0 <= i < 4 ensures b[i] == v / Power(256, i) % 256 {
    }
  }

  /** Its reader returns the sum of b[i] * 256^i. */
  lemma U32Read(b: seq<u8>)
    requires |b| >= 4
    ensures B.FromLittleEndian(b) == b[0] * Power(256, 0) + b[1] * Power(256, 1) + b[2] * Power(256, 2) + b[3] * Power(256, 3)
  {
    Powers();
  }

  // ----- containers -----

  lemma {:induction false} FlatIsEncodeAll<T>(c: B.Codec<T>, vs: seq<T>, bytes: T -> seq<u8>)
    requires forall i :: 0 <= i < |vs| ==> c.enc(vs[i]) == bytes(vs[i])
    ensures B.EncodeAll(c, vs) == Flat(vs, bytes)
  {
    if vs != [] {
      assert c.enc(vs[0]) == bytes(vs[0]);
      FlatIsEncodeAll(c, vs[1..], bytes);
    }
  }

  lemma {:induction false} BytesAreFlat(b: seq<u8>)
    ensures Flat(b, (x: u8) => [x]) == b
  {
    if b != [] {
      BytesAreFlat(b[1..]);
    }
  }

  lemma VecIs<T>(c: B.Codec<T>, vs: seq<T>, bytes: T -> seq<u8>)
    requires |vs| < TWO_32 && forall i :: 0 <= i < |vs| ==> c.enc(vs[i]) == bytes(vs[i])
    ensures B.Vec(c).enc(vs) == U32Bytes(|vs|) + Flat(vs, bytes)
  {
    U32Written(|vs|);
    FlatIsEncodeAll(c, vs, bytes);
    hide B.LittleEndian, U32Bytes, B.EncodeAll, Flat;
  }

  lemma KeysAre(owners: seq<Pubkey>)
    requires |owners| < TWO_32
    ensures B.Vec(B.Key()).enc(owners) == KeysBytes(owners)
  {
    hide U32Bytes, B.Vec, Flat;
    VecIs(B.Key(), owners, (k: Pubkey) => Same(k));
  }

  lemma DataIs(b: seq<u8>)
    requires |b| < TWO_32
    ensures B.Vec(B.U8()).enc(b) == U32Bytes(|b|) + b
  {
    hide U32Bytes, B.Vec, Flat;
    VecIs(B.U8(), b, (x: u8) => [x]);
    BytesAreFlat(b);
  }

  // ----- the layouts -----

  /** A multisig's data, byte by byte. */
  lemma MultisigLayout(m: Multisig)
    requires Writable(m)
    ensures |m.owners| < TWO_32 && |m.padding| < TWO_32 && EncodeMultisig(m) == MultisigBytes(m)
  {
    hide EncodeMultisig, Writable, B.Vec, U32Bytes, Flat, B.LittleEndian, B.Key, B.U8;
    MultisigFields(m);
    KeysAre(m.owners);
    DataIs(m.padding);
    U32Written(m.ownerSetSeqno);
    Joined(KeysBytes(m.owners), m.threshold, m.nonce, U32Bytes(m.ownerSetSeqno), U32Bytes(|m.padding|), m.padding);
  }

  lemma Joined(a: seq<u8>, x: u8, y: u8, b: seq<u8>, c: seq<u8>, d: seq<u8>)
    ensures a + ([x] + ([y] + (b + (c + d)))) == a + [x, y] + b + c + d
  {
  }

  /** The first four bytes are the number of owners, least significant first. */
  lemma MultisigBegins(m: Multisig)
    requires Writable(m)
    ensures |EncodeMultisig(m)| >= 4
    ensures var b, n := EncodeMultisig(m), |m.owners|;
      b[0] == n % 256 && b[1] == n / 256 % 256 && b[2] == n / 65536 % 256 && b[3] == n / 16777216 % 256
  {
    hide EncodeMultisig, Writable, Flat;
    MultisigLayout(m);
    Powers();
  }

  lemma AccountIs(a: TransactionInstructionAccount)
    ensures AccountCodec().enc(a) == AccountBytes(a)
  {
  }

  lemma AccountsAre(xs: seq<TransactionInstructionAccount>)
    requires |xs| < TWO_32
    ensures B.Vec(AccountCodec()).enc(xs) == U32Bytes(|xs|) + Flat(xs, (a: TransactionInstructionAccount) => AccountBytes(a))
  {
    hide U32Bytes, B.Vec, Flat, AccountCodec, AccountBytes;
    forall i | 0 <= i < |xs| ensures AccountCodec().enc(xs[i]) == AccountBytes(xs[i]) {
      AccountIs(xs[i]);
    }
    VecIs(AccountCodec(), xs, (a: TransactionInstructionAccount) => AccountBytes(a));
  }

  lemma StoredFields(ix: TransactionInstructionData)
    ensures InstructionDataCodec().ok(ix) ==> |ix.accounts| < TWO_32 && |ix.data| < TWO_32
    ensures InstructionDataCodec().enc(ix) == ix.programId + (B.Vec(AccountCodec()).enc(ix.accounts) + B.Vec(B.U8()).enc(ix.data))
  {
    hide AccountCodec;
  }

  lemma StoredIs(ix: TransactionInstructionData)
    requires InstructionDataCodec().ok(ix)
    ensures InstructionDataCodec().enc(ix) == StoredBytes(ix)
  {
    hide InstructionDataCodec, AccountCodec, B.Vec, U32Bytes, Flat, B.U8;
    StoredFields(ix);
    AccountsAre(ix.accounts);
    DataIs(ix.data);
    Paired(ix.programId, U32Bytes(|ix.accounts|), Flat(ix.accounts, (a: TransactionInstructionAccount) => AccountBytes(a)),
      U32Bytes(|ix.data|), ix.data);
  }

  lemma Paired(a: seq<u8>, b: seq<u8>, c: seq<u8>, d: seq<u8>, f: seq<u8>)
    ensures a + ((b + c) + (d + f)) == a + b + c + d + f
  {
  }

  lemma ListIs(ixs: seq<TransactionInstructionData>)
    requires |ixs| < TWO_32 && B.EachOk(InstructionDataCodec(), ixs)
    ensures B.Vec(InstructionDataCodec()).enc(ixs) == ListBytes(ixs)
  {
    hide InstructionDataCodec, B.Vec, U32Bytes, Flat, StoredBytes;
    forall i | 0 <= i < |ixs| ensures InstructionDataCodec().enc(ixs[i]) == StoredBytes(ixs[i]) {
      assert InstructionDataCodec().ok(ixs[i]);
      StoredIs(ixs[i]);
    }
    VecIs(InstructionDataCodec(), ixs, (ix: TransactionInstructionData) => StoredBytes(ix));
  }

  lemma FlagsAre(bits: seq<bool>)
    requires |bits| < TWO_32
    ensures B.Vec(B.Bool()).enc(bits) == U32Bytes(|bits|) + Flat(bits, (b: bool) => [BoolByte(b)])
  {
    hide U32Bytes, B.Vec, Flat;
    VecIs(B.Bool(), bits, (b: bool) => [BoolByte(b)]);
  }

  lemma TransactionParts(t: Transaction)
    requires WritableTransaction(t)
    ensures |t.instructions| < TWO_32 && |t.signers| < TWO_32 && B.EachOk(InstructionDataCodec(), t.instructions)
  {
    hide InstructionDataCodec;
  }

  /** A transaction's data, byte by byte. */
  lemma TransactionLayout(t: Transaction)
    requires WritableTransaction(t)
    ensures |t.instructions| < TWO_32 && |t.signers| < TWO_32 && EncodeTransaction(t) == TransactionBytes(t)
  {
    hide EncodeTransaction, WritableTransaction, B.Vec, U32Bytes, Flat, B.LittleEndian, InstructionDataCodec, ListBytes;
    TransactionFields(t);
    TransactionParts(t);
    ListIs(t.instructions);
    FlagsAre(t.signers);
    U32Written(t.ownerSetSeqno);
    Chained(t.multisig, ListBytes(t.instructions), U32Bytes(|t.signers|), Flat(t.signers, (b: bool) => [BoolByte(b)]), U32Bytes(t.ownerSetSeqno));
  }

  lemma Chained(a: seq<u8>, b: seq<u8>, c: seq<u8>, d: seq<u8>, f: seq<u8>)
    ensures a + (b + ((c + d) + f)) == a + b + (c + d) + f
    ensures a + b + (c + d) + f == a + b + c + d + f
  {
  }

  lemma KeysFields(owners: seq<Pubkey>, x: u8, y: u8)
    ensures CreateFields().enc((owners, (x, y))) == OwnersCodec().enc(owners) + [x, y]
    ensures OwnersThenByte().enc((owners, x)) == OwnersCodec().enc(owners) + [x]
    ensures OwnersCodec().enc(owners) == B.Vec(B.Key()).enc(owners)
  {
    hide B.Vec;
  }

  /** An instruction's data, byte by byte, discriminator included. */
  lemma InstructionLayout(i: MultisigInstruction)
    requires WritableInstruction(i)
    ensures EncodeInstruction(i) == InstructionBytes(i)
  {
    hide WritableInstruction, B.Vec, KeysBytes, ListBytes, CreateFields, OwnersThenByte, OwnersCodec, InstructionDataCodec;
    WritableParts(i);
    match i
    case CreateMultisig(owners, threshold, nonce) =>
      KeysFields(owners, threshold, nonce);
      KeysAre(owners);
    case SetOwners(owners) =>
      KeysFields(owners, 0, 0);
      KeysAre(owners);
    case ChangeThreshold(threshold) =>
    case SetOwnersAndChangeThreshold(owners, threshold) =>
      KeysFields(owners, threshold, 0);
      KeysAre(owners);
    case ProposeTransaction(instructions) => ListIs(instructions);
    case _ =>
  }
}
