/** The program's instruction enum and its byte form: one discriminant byte, then the variant's fields. */
module Instructions {
  import opened Machine
  import opened State
  import B = Borsh

  datatype MultisigInstruction =
    | CreateMultisig(owners: seq<Pubkey>, threshold: u8, nonce: u8)
    | SetOwners(owners: seq<Pubkey>)
    | ChangeThreshold(threshold: u8)
    | SetOwnersAndChangeThreshold(owners: seq<Pubkey>, threshold: u8)
    | ProposeTransaction(instructions: seq<TransactionInstructionData>)
    | ApproveTransaction
    | ExecuteTransaction
    | CancelTransaction

  function OwnersCodec(): B.Codec<seq<Pubkey>> {
    B.Vec(B.Key())
  }

  function OwnersThenByte(): B.Codec<(seq<Pubkey>, u8)> {
    B.Pair(OwnersCodec(), B.U8())
  }

  function CreateFields(): B.Codec<(seq<Pubkey>, (u8, u8))> {
    B.Pair(OwnersCodec(), B.Pair(B.U8(), B.U8()))
  }

  function StoredInstructions(): B.Codec<seq<TransactionInstructionData>> {
    B.Vec(InstructionDataCodec())
  }

  /** Borsh can write the instruction. */
  predicate WritableInstruction(i: MultisigInstruction) {
    match i
    case CreateMultisig(owners, threshold, nonce) => CreateFields().ok((owners, (threshold, nonce)))
    case SetOwners(owners) => OwnersCodec().ok(owners)
    case SetOwnersAndChangeThreshold(owners, threshold) => OwnersThenByte().ok((owners, threshold))
    case ProposeTransaction(instructions) => StoredInstructions().ok(instructions)
    case _ => true
  }

  /** The discriminant: the variant's position in the enum. */
  function Tag(i: MultisigInstruction): u8 {
    match i
    case CreateMultisig(_, _, _) => 0
    case SetOwners(_) => 1
    case ChangeThreshold(_) => 2
    case SetOwnersAndChangeThreshold(_, _) => 3
    case ProposeTransaction(_) => 4
    case ApproveTransaction => 5
    case ExecuteTransaction => 6
    case CancelTransaction => 7
  }

  function EncodeFields(i: MultisigInstruction): seq<u8> {
    match i
    case CreateMultisig(owners, threshold, nonce) => CreateFields().enc((owners, (threshold, nonce)))
    case SetOwners(owners) => OwnersCodec().enc(owners)
    case ChangeThreshold(threshold) => B.U8().enc(threshold)
    case SetOwnersAndChangeThreshold(owners, threshold) => OwnersThenByte().enc((owners, threshold))
    case ProposeTransaction(instructions) => StoredInstructions().enc(instructions)
    case _ => []
  }

  function EncodeInstruction(i: MultisigInstruction): seq<u8> {
    [Tag(i)] + EncodeFields(i)
  }

  function DecodeFields(tag: u8, fields: seq<u8>): Option<MultisigInstruction> {
    match tag
    case 0 => (
      match B.TryFromSlice(CreateFields(), fields)
      case None => None
      case Some(f) => Some(CreateMultisig(f.0, f.1.0, f.1.1)))
    case 1 => (
      match B.TryFromSlice(OwnersCodec(), fields)
      case None => None
      case Some(owners) => Some(SetOwners(owners)))
    case 2 => (
      match B.TryFromSlice(B.U8(), fields)
      case None => None
      case Some(threshold) => Some(ChangeThreshold(threshold)))
    case 3 => (
      match B.TryFromSlice(OwnersThenByte(), fields)
      case None => None
      case Some(f) => Some(SetOwnersAndChangeThreshold(f.0, f.1)))
    case 4 => (
      match B.TryFromSlice(StoredInstructions(), fields)
      case None => None
      case Some(instructions) => Some(ProposeTransaction(instructions)))
    case 5 => if fields == [] then Some(ApproveTransaction) else None
    case 6 => if fields == [] then Some(ExecuteTransaction) else None
    case 7 => if fields == [] then Some(CancelTransaction) else None
    case _ => None
  }

  function DecodeInstruction(b: seq<u8>): Option<MultisigInstruction> {
    if b == [] then None else DecodeFields(b[0], b[1..])
  }

  lemma FieldsLawful()
    ensures B.Lawful(OwnersCodec()) && B.Lawful(OwnersThenByte()) && B.Lawful(CreateFields())
    ensures B.Lawful(StoredInstructions()) && B.Lawful(B.U8())
  {
    B.ScalarsLawful();
    B.VecLawful(B.Key());
    B.PairLawful(OwnersCodec(), B.U8());
    B.PairLawful(B.U8(), B.U8());
    B.PairLawful(OwnersCodec(), B.Pair(B.U8(), B.U8()));
    InstructionDataCodecLawful();
    B.VecLawful(InstructionDataCodec());
  }

  /** The two directions of the round trip for one instruction's fields. */
  ghost predicate FieldsAgree(i: MultisigInstruction, b: seq<u8>) {
    && (WritableInstruction(i) ==> DecodeFields(Tag(i), EncodeFields(i)) == Some(i))
    && (DecodeFields(Tag(i), b) == Some(i) ==> WritableInstruction(i) && EncodeFields(i) == b)
  }

  lemma CreateFieldsAgree(i: MultisigInstruction, b: seq<u8>)
    requires i.CreateMultisig?
    ensures FieldsAgree(i, b)
  {
    hide CreateFields, B.Lawful;
    assert B.SliceAgrees(CreateFields(), (i.owners, (i.threshold, i.nonce)), b) by {
      FieldsLawful();
      B.SliceRoundTrip(CreateFields(), (i.owners, (i.threshold, i.nonce)), b);
    }
  }

  lemma SetOwnersFieldsAgree(i: MultisigInstruction, b: seq<u8>)
    requires i.SetOwners?
    ensures FieldsAgree(i, b)
  {
    hide OwnersCodec, B.Lawful;
    assert B.SliceAgrees(OwnersCodec(), i.owners, b) by {
      FieldsLawful();
      B.SliceRoundTrip(OwnersCodec(), i.owners, b);
    }
  }

  lemma ChangeThresholdFieldsAgree(i: MultisigInstruction, b: seq<u8>)
    requires i.ChangeThreshold?
    ensures FieldsAgree(i, b)
  {
    assert B.SliceAgrees(B.U8(), i.threshold, b) by {
      FieldsLawful();
      B.SliceRoundTrip(B.U8(), i.threshold, b);
    }
  }

  lemma CombinedFieldsAgree(i: MultisigInstruction, b: seq<u8>)
    requires i.SetOwnersAndChangeThreshold?
    ensures FieldsAgree(i, b)
  {
    hide OwnersThenByte, B.Lawful;
    assert B.SliceAgrees(OwnersThenByte(), (i.owners, i.threshold), b) by {
      FieldsLawful();
      B.SliceRoundTrip(OwnersThenByte(), (i.owners, i.threshold), b);
    }
  }

  lemma ProposeFieldsAgree(i: MultisigInstruction, b: seq<u8>)
    requires i.ProposeTransaction?
    ensures FieldsAgree(i, b)
  {
    hide StoredInstructions, B.Lawful;
    assert B.SliceAgrees(StoredInstructions(), i.instructions, b) by {
      FieldsLawful();
      B.SliceRoundTrip(StoredInstructions(), i.instructions, b);
    }
  }

  lemma FieldsRoundTrip(i: MultisigInstruction, b: seq<u8>)
    ensures FieldsAgree(i, b)
  {
    match i
    case CreateMultisig(_, _, _) => CreateFieldsAgree(i, b);
    case SetOwners(_) => SetOwnersFieldsAgree(i, b);
    case ChangeThreshold(_) => ChangeThresholdFieldsAgree(i, b);
    case SetOwnersAndChangeThreshold(_, _) => CombinedFieldsAgree(i, b);
    case ProposeTransaction(_) => ProposeFieldsAgree(i, b);
    case _ =>
  }

  lemma TagOfDecoded(tag: u8, fields: seq<u8>)
    requires DecodeFields(tag, fields).Some?
    ensures Tag(DecodeFields(tag, fields).value) == tag
  {
    hide CreateFields, OwnersCodec, OwnersThenByte, StoredInstructions, B.U8;
  }

  /** Decoding undoes encoding. */
  lemma DecodeOfEncode(i: MultisigInstruction)
    requires WritableInstruction(i)
    ensures DecodeInstruction(EncodeInstruction(i)) == Some(i)
  {
    var b := EncodeInstruction(i);
    assert b[0] == Tag(i) && b[1..] == EncodeFields(i);
    FieldsRoundTrip(i, b[1..]);
  }

  /** Every accepted byte string is the encoding of the instruction read from it. */
  lemma EncodeOfDecode(b: seq<u8>)
    requires DecodeInstruction(b).Some?
    ensures WritableInstruction(DecodeInstruction(b).value)
    ensures EncodeInstruction(DecodeInstruction(b).value) == b
  {
    var i := DecodeInstruction(b).value;
    TagOfDecoded(b[0], b[1..]);
    FieldsRoundTrip(i, b[1..]);
    assert b == [b[0]] + b[1..];
  }

  lemma CombinedWritable(owners: seq<Pubkey>, threshold: u8)
    requires |owners| < TWO_32
    ensures WritableInstruction(SetOwnersAndChangeThreshold(owners, threshold))
    ensures |EncodeInstruction(SetOwnersAndChangeThreshold(owners, threshold))| == 6 + 32 * |owners|
  {
    FixedSizeElements(B.Key(), owners, 32);
    assert |OwnersThenByte().enc((owners, threshold))| == 5 + 32 * |owners|;
  }

  lemma SetOwnersWritable(owners: seq<Pubkey>)
    requires |owners| < TWO_32
    ensures WritableInstruction(SetOwners(owners))
    ensures |EncodeInstruction(SetOwners(owners))| == 5 + 32 * |owners|
  {
    FixedSizeElements(B.Key(), owners, 32);
    assert |OwnersCodec().enc(owners)| == 4 + 32 * |owners|;
  }

  lemma OneStoredWritable(ix: TransactionInstructionData)
    requires |ix.accounts| < TWO_32 && |ix.data| < TWO_32
    ensures WritableInstruction(ProposeTransaction([ix]))
  {
    InstructionDataWritable(ix);
    hide InstructionDataCodec;
    assert B.EachOk(InstructionDataCodec(), [ix]);
  }
}
