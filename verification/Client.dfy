/**
 * The TypeScript client's encoders, as an interpreter of their borsh-js schemas, and the proof that the
 * bytes they produce are the bytes the program decodes to the same instruction.
 */
module Client {
  import opened Machine
  import opened State
  import I = Instructions
  import B = Borsh

  /** The property names used in the schemas. */
  datatype Name =
    | InstructionDiscriminator | Owners | Threshold | Nonce | Instructions
    | ProgramId | Accounts | Data | Key | IsSigner | IsWritable

  datatype Schema =
    | U8
    | Bool
    | FixedArray(elem: Schema, len: nat)
    | DynamicArray(elem: Schema)
    | Struct(fields: Fields)

  datatype Fields = End | Field(name: Name, schema: Schema, rest: Fields)

  /** The JavaScript values handed to the serializer. */
  datatype Value =
    | Number(n: int)
    | Boolean(b: bool)
    | Array(items: seq<Value>)
    | Object(properties: map<Name, Value>)

  /** A count of the given width, least significant byte first. */
  function CountBytes(n: nat, width: nat): (r: seq<u8>)
    ensures |r| == width
  {
    if width == 0 then [] else [n % 0x100] + CountBytes(n / 0x100, width - 1)
  }

  /** borsh.serialize: None where the library throws. */
  function Serialize(schema: Schema, v: Value): Option<seq<u8>>
    decreases schema, 0
  {
    match schema
    case U8 => if v.Number? then Some([v.n % 0x100]) else None
    case Bool => if v.Boolean? then Some([if v.b then 1 else 0]) else None
    case FixedArray(elem, len) =>
      if v.Array? && |v.items| == len then SerializeItems(elem, v.items) else None
    case DynamicArray(elem) => (
      if !v.Array? || |v.items| >= TWO_32 then None
      else
        match SerializeItems(elem, v.items)
        case None => None
        case Some(bytes) => Some(CountBytes(|v.items|, 4) + bytes))
    case Struct(fields) => if v.Object? then SerializeFields(fields, v.properties) else None
  }

  function SerializeItems(elem: Schema, items: seq<Value>): Option<seq<u8>>
    decreases elem, 1, |items|
  {
    if items == [] then Some([])
    else
      match Serialize(elem, items[0])
      case None => None
      case Some(first) =>
        match SerializeItems(elem, items[1..])
        case None => None
        case Some(rest) => Some(first + rest)
  }

  function SerializeFields(fields: Fields, properties: map<Name, Value>): Option<seq<u8>>
    decreases fields, 1
  {
    match fields
    case End => Some([])
    case Field(name, schema, rest) =>
      if name !in properties then None
      else
        match Serialize(schema, properties[name])
        case None => None
        case Some(first) =>
          match SerializeFields(rest, properties)
          case None => None
          case Some(others) => Some(first + others)
  }

  // ----- the schemas -----

  function KeySchema(): Schema {
    FixedArray(U8, 32)
  }

  function CreateMultisigSchema(): Schema {
    Struct(Field(InstructionDiscriminator, U8, Field(Owners, DynamicArray(KeySchema()),
      Field(Threshold, U8, Field(Nonce, U8, End)))))
  }

  function SetOwnersSchema(): Schema {
    Struct(Field(InstructionDiscriminator, U8, Field(Owners, DynamicArray(KeySchema()), End)))
  }

  function ChangeThresholdSchema(): Schema {
    Struct(Field(InstructionDiscriminator, U8, Field(Threshold, U8, End)))
  }

  function SetOwnersAndChangeThresholdSchema(): Schema {
    Struct(Field(InstructionDiscriminator, U8, Field(Owners, DynamicArray(KeySchema()), Field(Threshold, U8, End))))
  }

  function AccountSchema(): Schema {
    Struct(Field(Key, KeySchema(), Field(IsSigner, Bool, Field(IsWritable, Bool, End))))
  }

  function InstructionSchema(): Schema {
    Struct(Field(ProgramId, KeySchema(), Field(Accounts, DynamicArray(AccountSchema()), Field(Data, DynamicArray(U8), End))))
  }

  function ProposeTransactionSchema(): Schema {
    Struct(Field(InstructionDiscriminator, U8, Field(Instructions, DynamicArray(InstructionSchema()), End)))
  }

  /** approve, execute and cancel carry the discriminator alone. */
  function DiscriminatorSchema(): Schema {
    Struct(Field(InstructionDiscriminator, U8, End))
  }

  function SchemaOf(i: I.MultisigInstruction): Schema {
    match i
    case CreateMultisig(_, _, _) => CreateMultisigSchema()
    case SetOwners(_) => SetOwnersSchema()
    case ChangeThreshold(_) => ChangeThresholdSchema()
    case SetOwnersAndChangeThreshold(_, _) => SetOwnersAndChangeThresholdSchema()
    case ProposeTransaction(_) => ProposeTransactionSchema()
    case _ => DiscriminatorSchema()
  }

  // ----- the values the client builds -----

  /** Buffer: an array of numbers. */
  function BytesValue(b: seq<u8>): Value {
    Array(seq(|b|, i requires 0 <= i < |b| => Number(b[i])))
  }

  function OwnersValue(owners: seq<Pubkey>): Value {
    Array(seq(|owners|, i requires 0 <= i < |owners| => BytesValue(owners[i])))
  }

  function AccountValue(a: TransactionInstructionAccount): Value {
    Object(map[Key := BytesValue(a.pubkey), IsSigner := Boolean(a.isSigner), IsWritable := Boolean(a.isWritable)])
  }

  function AccountsValue(xs: seq<TransactionInstructionAccount>): Value {
    Array(seq(|xs|, i requires 0 <= i < |xs| => AccountValue(xs[i])))
  }

  function InstructionValue(ix: TransactionInstructionData): Value {
    Object(map[
      ProgramId := BytesValue(ix.programId),
      Accounts := AccountsValue(ix.accounts),
      Data := BytesValue(ix.data)])
  }

  function InstructionsValue(ixs: seq<TransactionInstructionData>): Value {
    Array(seq(|ixs|, i requires 0 <= i < |ixs| => InstructionValue(ixs[i])))
  }

  /** The client's own enumeration of discriminators. */
  function Discriminator(i: I.MultisigInstruction): int {
    match i
    case CreateMultisig(_, _, _) => 0
    case SetOwners(_) => 1
    case ChangeThreshold(_) => 2
    case SetOwnersAndChangeThreshold(_, _) => 3
    case ProposeTransaction(_) => 4
    case ApproveTransaction => 5
    case ExecuteTransaction => 6
    case CancelTransaction => 7
  }

  function ValueOf(i: I.MultisigInstruction): Value {
    var tag := Number(Discriminator(i));
    match i
    case CreateMultisig(owners, threshold, nonce) =>
      Object(map[InstructionDiscriminator := tag, Owners := OwnersValue(owners), Threshold := Number(threshold), Nonce := Number(nonce)])
    case SetOwners(owners) =>
      Object(map[InstructionDiscriminator := tag, Owners := OwnersValue(owners)])
    case ChangeThreshold(threshold) =>
      Object(map[InstructionDiscriminator := tag, Threshold := Number(threshold)])
    case SetOwnersAndChangeThreshold(owners, threshold) =>
      Object(map[InstructionDiscriminator := tag, Owners := OwnersValue(owners), Threshold := Number(threshold)])
    case ProposeTransaction(ixs) =>
      Object(map[InstructionDiscriminator := tag, Instructions := InstructionsValue(ixs)])
    case _ =>
      Object(map[InstructionDiscriminator := tag])
  }

  function ClientBytes(i: I.MultisigInstruction): Option<seq<u8>> {
    Serialize(SchemaOf(i), ValueOf(i))
  }

  // ----- agreement with the program's encoding -----

  lemma {:induction false} ItemsAgree<T>(c: B.Codec<T>, elem: Schema, xs: seq<T>, items: seq<Value>)
    requires |items| == |xs|
    requires forall i :: 0 <= i < |xs| ==> Serialize(elem, items[i]) == Some(c.enc(xs[i]))
    ensures SerializeItems(elem, items) == Some(B.EncodeAll(c, xs))
    decreases |xs|
  {
    if xs != [] {
      assert forall i :: 0 <= i < |xs[1..]| ==> items[1..][i] == items[i + 1] && xs[1..][i] == xs[i + 1];
      ItemsAgree(c, elem, xs[1..], items[1..]);
    }
  }

  lemma {:induction false} BytesAreThemselves(b: seq<u8>)
    ensures B.EncodeAll(B.U8(), b) == b
  {
    if b != [] {
      BytesAreThemselves(b[1..]);
    }
  }

  lemma BytesAgree(b: seq<u8>)
    ensures SerializeItems(U8, BytesValue(b).items) == Some(b)
  {
    ItemsAgree(B.U8(), U8, b, BytesValue(b).items);
    BytesAreThemselves(b);
  }

  lemma KeyAgrees(k: Pubkey)
    ensures Serialize(KeySchema(), BytesValue(k)) == Some(B.Key().enc(k))
  {
    BytesAgree(k);
  }

  /** The client's counts are the program's. */
  lemma CountAgrees(n: u32)
    ensures CountBytes(n, 4) == B.LittleEndian(n)
  {
    var a := n / 0x100;
    var b := a / 0x100;
    var c := b / 0x100;
    assert a == n / 0x100 && b == n / 0x1_0000 && c == n / 0x100_0000 && c % 0x100 == c;
    assert CountBytes(c, 1) == [c % 0x100] + CountBytes(c / 0x100, 0);
    assert CountBytes(b, 2) == [b % 0x100] + CountBytes(c, 1);
    assert CountBytes(a, 3) == [a % 0x100] + CountBytes(b, 2);
    assert CountBytes(n, 4) == [n % 0x100] + CountBytes(a, 3);
  }

  lemma ArrayAgrees<T>(c: B.Codec<T>, elem: Schema, xs: seq<T>, v: Value)
    requires v.Array? && |v.items| == |xs| < TWO_32
    requires forall i :: 0 <= i < |xs| ==> Serialize(elem, v.items[i]) == Some(c.enc(xs[i]))
    ensures Serialize(DynamicArray(elem), v) == Some(B.Vec(c).enc(xs))
  {
    hide CountBytes;
    ItemsAgree(c, elem, xs, v.items);
    CountAgrees(|xs|);
  }

  lemma OwnersAgree(owners: seq<Pubkey>)
    requires |owners| < TWO_32
    ensures Serialize(DynamicArray(KeySchema()), OwnersValue(owners)) == Some(I.OwnersCodec().enc(owners))
  {
    var v := OwnersValue(owners);
    forall i | 0 <= i < |owners| ensures Serialize(KeySchema(), v.items[i]) == Some(B.Key().enc(owners[i])) {
      KeyAgrees(owners[i]);
    }
    ArrayAgrees(B.Key(), KeySchema(), owners, v);
  }

  lemma FieldThen(name: Name, schema: Schema, rest: Fields, props: map<Name, Value>, first: seq<u8>, others: seq<u8>)
    requires name in props && Serialize(schema, props[name]) == Some(first)
    requires SerializeFields(rest, props) == Some(others)
    ensures SerializeFields(Field(name, schema, rest), props) == Some(first + others)
  {
  }

  lemma LastField(name: Name, schema: Schema, props: map<Name, Value>, bytes: seq<u8>)
    requires name in props && Serialize(schema, props[name]) == Some(bytes)
    ensures SerializeFields(Field(name, schema, End), props) == Some(bytes)
  {
    assert bytes + [] == bytes;
  }

  /** The property is there and has these bytes. */
  predicate Has(props: map<Name, Value>, name: Name, schema: Schema, bytes: seq<u8>) {
    name in props && Serialize(schema, props[name]) == Some(bytes)
  }

  lemma TwoFields(n1: Name, s1: Schema, n2: Name, s2: Schema, props: map<Name, Value>, b1: seq<u8>, b2: seq<u8>)
    requires Has(props, n1, s1, b1) && Has(props, n2, s2, b2)
    ensures SerializeFields(Field(n1, s1, Field(n2, s2, End)), props) == Some(b1 + b2)
  {
    LastField(n2, s2, props, b2);
    FieldThen(n1, s1, Field(n2, s2, End), props, b1, b2);
  }

  lemma ThreeFields(n1: Name, s1: Schema, n2: Name, s2: Schema, n3: Name, s3: Schema, props: map<Name, Value>,
                    b1: seq<u8>, b2: seq<u8>, b3: seq<u8>)
    requires Has(props, n1, s1, b1) && Has(props, n2, s2, b2) && Has(props, n3, s3, b3)
    ensures SerializeFields(Field(n1, s1, Field(n2, s2, Field(n3, s3, End))), props) == Some(b1 + (b2 + b3))
  {
    TwoFields(n2, s2, n3, s3, props, b2, b3);
    FieldThen(n1, s1, Field(n2, s2, Field(n3, s3, End)), props, b1, b2 + b3);
  }

  lemma AccountAgrees(a: TransactionInstructionAccount)
    ensures Serialize(AccountSchema(), AccountValue(a)) == Some(AccountCodec().enc(a))
  {
    KeyAgrees(a.pubkey);
    var props := AccountValue(a).properties;
    var s, w := B.Bool().enc(a.isSigner), B.Bool().enc(a.isWritable);
    ThreeFields(Key, KeySchema(), IsSigner, Bool, IsWritable, Bool, props, B.Key().enc(a.pubkey), s, w);
    assert AccountCodec().enc(a) == B.Key().enc(a.pubkey) + (s + w);
  }

  lemma AccountsAgree(xs: seq<TransactionInstructionAccount>)
    requires |xs| < TWO_32
    ensures Serialize(DynamicArray(AccountSchema()), AccountsValue(xs)) == Some(B.Vec(AccountCodec()).enc(xs))
  {
    hide AccountSchema, AccountCodec, AccountValue;
    var v := AccountsValue(xs);
    forall i | 0 <= i < |xs| ensures Serialize(AccountSchema(), v.items[i]) == Some(AccountCodec().enc(xs[i])) {
      AccountAgrees(xs[i]);
    }
    ArrayAgrees(AccountCodec(), AccountSchema(), xs, v);
  }

  lemma DataAgrees(b: seq<u8>)
    requires |b| < TWO_32
    ensures Serialize(DynamicArray(U8), BytesValue(b)) == Some(B.Vec(B.U8()).enc(b))
  {
    ArrayAgrees(B.U8(), U8, b, BytesValue(b));
  }

  lemma InstructionFields(ix: TransactionInstructionData, k: seq<u8>, a: seq<u8>, d: seq<u8>)
    requires k == B.Key().enc(ix.programId) && a == B.Vec(AccountCodec()).enc(ix.accounts) && d == B.Vec(B.U8()).enc(ix.data)
    ensures InstructionDataCodec().enc(ix) == k + (a + d)
  {
    hide AccountCodec, B.Vec;
  }

  lemma InstructionProperties(ix: TransactionInstructionData, k: seq<u8>, a: seq<u8>, d: seq<u8>)
    requires Serialize(KeySchema(), BytesValue(ix.programId)) == Some(k)
    requires Serialize(DynamicArray(AccountSchema()), AccountsValue(ix.accounts)) == Some(a)
    requires Serialize(DynamicArray(U8), BytesValue(ix.data)) == Some(d)
    ensures Has(InstructionValue(ix).properties, ProgramId, KeySchema(), k)
    ensures Has(InstructionValue(ix).properties, Accounts, DynamicArray(AccountSchema()), a)
    ensures Has(InstructionValue(ix).properties, Data, DynamicArray(U8), d)
  {
    hide AccountsValue, BytesValue, KeySchema, AccountSchema, SerializeItems;
  }

  lemma InstructionBytes(props: map<Name, Value>, k: seq<u8>, a: seq<u8>, d: seq<u8>)
    requires Has(props, ProgramId, KeySchema(), k) && Has(props, Data, DynamicArray(U8), d)
    requires Has(props, Accounts, DynamicArray(AccountSchema()), a)
    ensures Serialize(InstructionSchema(), Object(props)) == Some(k + (a + d))
  {
    hide KeySchema, AccountSchema, SerializeFields, Has;
    ThreeFields(ProgramId, KeySchema(), Accounts, DynamicArray(AccountSchema()), Data, DynamicArray(U8), props, k, a, d);
  }

  lemma InstructionAgrees(ix: TransactionInstructionData)
    requires |ix.accounts| < TWO_32 && |ix.data| < TWO_32
    ensures Serialize(InstructionSchema(), InstructionValue(ix)) == Some(InstructionDataCodec().enc(ix))
  {
    hide Serialize, KeySchema, AccountSchema, InstructionSchema, BytesValue, AccountsValue, Has, B.Vec, B.Key, AccountCodec, InstructionDataCodec;
    var k, a, d := B.Key().enc(ix.programId), B.Vec(AccountCodec()).enc(ix.accounts), B.Vec(B.U8()).enc(ix.data);
    InstructionFields(ix, k, a, d);
    KeyAgrees(ix.programId);
    AccountsAgree(ix.accounts);
    DataAgrees(ix.data);
    InstructionProperties(ix, k, a, d);
    InstructionBytes(InstructionValue(ix).properties, k, a, d);
  }

  lemma ShortContainers(ix: TransactionInstructionData)
    requires InstructionDataCodec().ok(ix)
    ensures |ix.accounts| < TWO_32 && |ix.data| < TWO_32
  {
  }

  lemma InstructionsAgree(ixs: seq<TransactionInstructionData>)
    requires |ixs| < TWO_32 && B.EachOk(InstructionDataCodec(), ixs)
    ensures Serialize(DynamicArray(InstructionSchema()), InstructionsValue(ixs)) == Some(I.StoredInstructions().enc(ixs))
  {
    hide InstructionSchema, InstructionDataCodec, InstructionValue;
    var v := InstructionsValue(ixs);
    forall i | 0 <= i < |ixs|
      ensures Serialize(InstructionSchema(), v.items[i]) == Some(InstructionDataCodec().enc(ixs[i]))
    {
      assert InstructionDataCodec().ok(ixs[i]);
      ShortContainers(ixs[i]);
      InstructionAgrees(ixs[i]);
    }
    ArrayAgrees(InstructionDataCodec(), InstructionSchema(), ixs, v);
  }

  // ----- instruction by instruction -----

  lemma CreateFieldBytes(owners: seq<Pubkey>, threshold: u8, nonce: u8)
    ensures I.CreateFields().enc((owners, (threshold, nonce))) == I.OwnersCodec().enc(owners) + ([threshold] + [nonce])
    ensures I.OwnersThenByte().enc((owners, threshold)) == I.OwnersCodec().enc(owners) + [threshold]
  {
    hide B.Vec;
  }

  /** The properties the client sets, with the bytes of the owner list given. */
  lemma OwnersProperties(i: I.MultisigInstruction, o: seq<u8>)
    requires i.CreateMultisig? || i.SetOwners? || i.SetOwnersAndChangeThreshold?
    requires Serialize(DynamicArray(KeySchema()), OwnersValue(i.owners)) == Some(o)
    ensures ValueOf(i).Object?
    ensures Has(ValueOf(i).properties, InstructionDiscriminator, U8, [I.Tag(i)])
    ensures Has(ValueOf(i).properties, Owners, DynamicArray(KeySchema()), o)
    ensures !i.SetOwners? ==> Has(ValueOf(i).properties, Threshold, U8, [i.threshold])
    ensures i.CreateMultisig? ==> Has(ValueOf(i).properties, Nonce, U8, [i.nonce])
  {
    hide KeySchema, OwnersValue, SerializeItems;
  }

  lemma CreateBytes(props: map<Name, Value>, tag: seq<u8>, o: seq<u8>, t: seq<u8>, n: seq<u8>)
    requires Has(props, InstructionDiscriminator, U8, tag) && Has(props, Owners, DynamicArray(KeySchema()), o)
    requires Has(props, Threshold, U8, t) && Has(props, Nonce, U8, n)
    ensures Serialize(CreateMultisigSchema(), Object(props)) == Some(tag + (o + (t + n)))
  {
    hide KeySchema, SerializeFields;
    ThreeFields(Owners, DynamicArray(KeySchema()), Threshold, U8, Nonce, U8, props, o, t, n);
    FieldThen(InstructionDiscriminator, U8, Field(Owners, DynamicArray(KeySchema()), Field(Threshold, U8, Field(Nonce, U8, End))),
      props, tag, o + (t + n));
  }

  lemma SetOwnersBytes(props: map<Name, Value>, tag: seq<u8>, o: seq<u8>)
    requires Has(props, InstructionDiscriminator, U8, tag) && Has(props, Owners, DynamicArray(KeySchema()), o)
    ensures Serialize(SetOwnersSchema(), Object(props)) == Some(tag + o)
  {
    hide KeySchema, SerializeFields, Has;
    TwoFields(InstructionDiscriminator, U8, Owners, DynamicArray(KeySchema()), props, tag, o);
  }

  lemma CombinedBytes(props: map<Name, Value>, tag: seq<u8>, o: seq<u8>, t: seq<u8>)
    requires Has(props, InstructionDiscriminator, U8, tag) && Has(props, Owners, DynamicArray(KeySchema()), o)
    requires Has(props, Threshold, U8, t)
    ensures Serialize(SetOwnersAndChangeThresholdSchema(), Object(props)) == Some(tag + (o + t))
  {
    hide KeySchema, SerializeFields, Has;
    ThreeFields(InstructionDiscriminator, U8, Owners, DynamicArray(KeySchema()), Threshold, U8, props, tag, o, t);
  }

  lemma OwnersInstructionAgrees(i: I.MultisigInstruction)
    requires i.CreateMultisig? || i.SetOwners? || i.SetOwnersAndChangeThreshold?
    requires |i.owners| < TWO_32
    ensures ClientBytes(i) == Some(I.EncodeInstruction(i))
  {
    hide KeySchema, OwnersValue, I.OwnersCodec, I.CreateFields, I.OwnersThenByte, Serialize, Has, ValueOf;
    hide CreateMultisigSchema, SetOwnersSchema, SetOwnersAndChangeThresholdSchema;
    var o := I.OwnersCodec().enc(i.owners);
    OwnersAgree(i.owners);
    OwnersProperties(i, o);
    var props := ValueOf(i).properties;
    match i
    case CreateMultisig(owners, threshold, nonce) =>
      CreateFieldBytes(owners, threshold, nonce);
      CreateBytes(props, [I.Tag(i)], o, [threshold], [nonce]);
    case SetOwners(owners) =>
      SetOwnersBytes(props, [I.Tag(i)], o);
    case SetOwnersAndChangeThreshold(owners, threshold) =>
      CreateFieldBytes(owners, threshold, 0);
      CombinedBytes(props, [I.Tag(i)], o, [threshold]);
  }

  lemma ProposeAgrees(i: I.MultisigInstruction)
    requires i.ProposeTransaction? && |i.instructions| < TWO_32 && B.EachOk(InstructionDataCodec(), i.instructions)
    ensures ClientBytes(i) == Some([I.Tag(i)] + I.StoredInstructions().enc(i.instructions))
  {
    hide InstructionsValue, InstructionSchema, I.StoredInstructions, InstructionDataCodec, SerializeFields, B.EachOk;
    InstructionsAgree(i.instructions);
    TwoFields(InstructionDiscriminator, U8, Instructions, DynamicArray(InstructionSchema()), ValueOf(i).properties,
      [I.Tag(i)], I.StoredInstructions().enc(i.instructions));
  }

  lemma ShortAgrees(i: I.MultisigInstruction)
    requires i.ChangeThreshold? || i.ApproveTransaction? || i.ExecuteTransaction? || i.CancelTransaction?
    ensures ClientBytes(i) == Some([I.Tag(i)] + if i.ChangeThreshold? then [i.threshold] else [])
  {
    var props := ValueOf(i).properties;
    if i.ChangeThreshold? {
      LastField(Threshold, U8, props, [i.threshold]);
      FieldThen(InstructionDiscriminator, U8, Field(Threshold, U8, End), props, [I.Tag(i)], [i.threshold]);
    } else {
      LastField(InstructionDiscriminator, U8, props, [I.Tag(i)]);
    }
  }

  /** The client's bytes are the program's encoding, for every instruction it can write. */
  lemma ClientAgrees(i: I.MultisigInstruction)
    requires I.WritableInstruction(i)
    ensures ClientBytes(i) == Some(I.EncodeInstruction(i))
  {
    hide ClientBytes, InstructionDataCodec;
    match i
    case CreateMultisig(_, _, _) => OwnersInstructionAgrees(i);
    case SetOwners(_) => OwnersInstructionAgrees(i);
    case SetOwnersAndChangeThreshold(_, _) => OwnersInstructionAgrees(i);
    case ProposeTransaction(_) => ProposeAgrees(i);
    case _ => ShortAgrees(i);
  }

  /** What the client sends, the program reads back as the same instruction. */
  lemma ClientToProgram(i: I.MultisigInstruction)
    requires I.WritableInstruction(i)
    ensures ClientBytes(i).Some? && I.DecodeInstruction(ClientBytes(i).value) == Some(i)
  {
    hide ClientBytes, I.EncodeInstruction, I.DecodeInstruction, I.WritableInstruction;
    ClientAgrees(i);
    I.DecodeOfEncode(i);
  }
}
