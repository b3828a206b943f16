/**
 * Borsh, as the Borsh specification (borsh.io, section "Specification") fixes it for the types this
 * program uses: u8, u32 (little endian), bool, 32-byte arrays, structs (fields in order) and dynamic
 * containers (u32 count, then the elements).
 *
 * A codec is a triple: which values can be written, how they are written, and how a prefix of a byte
 * string is read. `Lawful` is the whole contract: reading undoes writing whatever follows, and every
 * byte string that is accepted is the encoding of the value read (so encodings are unique).
 */
module Borsh {
  import opened Machine

  datatype Codec<!T> = Codec(
    ok: T -> bool,
    enc: T -> seq<u8>,
    dec: seq<u8> -> Option<(T, seq<u8>)>)

  ghost predicate Lawful<T(!new)>(c: Codec<T>) {
    && (forall v: T, rest: seq<u8> :: c.ok(v) ==> c.dec(c.enc(v) + rest) == Some((v, rest)))
    && (forall b: seq<u8> :: c.dec(b).Some? ==>
          c.ok(c.dec(b).value.0) && b == c.enc(c.dec(b).value.0) + c.dec(b).value.1)
  }

  // ----- scalars -----

  function U8(): Codec<u8> {
    Codec(
      (v: u8) => true,
      (v: u8) => [v],
      (b: seq<u8>) => if |b| < 1 then None else Some((b[0], b[1..])))
  }

  function Bool(): Codec<bool> {
    Codec(
      (v: bool) => true,
      (v: bool) => [if v then 1 else 0],
      (b: seq<u8>) => if |b| < 1 || b[0] > 1 then None else Some((b[0] == 1, b[1..])))
  }

  function LittleEndian(v: u32): (r: seq<u8>)
    ensures |r| == 4
  {
    [v % 0x100, v / 0x100 % 0x100, v / 0x1_0000 % 0x100, v / 0x100_0000]
  }

  function FromLittleEndian(b: seq<u8>): (r: u32)
    requires |b| >= 4
  {
    var b0: int, b1: int, b2: int, b3: int := b[0], b[1], b[2], b[3];
    b0 + 0x100 * b1 + 0x1_0000 * b2 + 0x100_0000 * b3
  }

  function U32(): Codec<u32> {
    Codec(
      (v: u32) => true,
      (v: u32) => LittleEndian(v),
      (b: seq<u8>) => if |b| < 4 then None else Some((FromLittleEndian(b), b[4..])))
  }

  function Key(): Codec<Pubkey> {
    Codec(
      (v: Pubkey) => true,
      (v: Pubkey) => v,
      (b: seq<u8>) => if |b| < 32 then None else var k: Pubkey := b[..32]; Some((k, b[32..])))
  }

  // ----- structs -----

  /** Two fields, one after the other. */
  function Pair<A, B>(a: Codec<A>, b: Codec<B>): Codec<(A, B)> {
    Codec(
      (v: (A, B)) => a.ok(v.0) && b.ok(v.1),
      (v: (A, B)) => a.enc(v.0) + b.enc(v.1),
      (s: seq<u8>) =>
        match a.dec(s)
        case None => None
        case Some((x, s1)) =>
          match b.dec(s1)
          case None => None
          case Some((y, s2)) => Some(((x, y), s2)))
  }

  /** The same bytes read as another type. */
  function Iso<A, B>(c: Codec<A>, to: A -> B, from: B -> A): Codec<B> {
    Codec(
      (v: B) => c.ok(from(v)),
      (v: B) => c.enc(from(v)),
      (s: seq<u8>) =>
        match c.dec(s)
        case None => None
        case Some((x, s1)) => Some((to(x), s1)))
  }

  // ----- dynamic containers -----

  function EncodeAll<T>(c: Codec<T>, vs: seq<T>): seq<u8> {
    if vs == [] then [] else c.enc(vs[0]) + EncodeAll(c, vs[1..])
  }

  function DecodeAll<T>(c: Codec<T>, n: nat, b: seq<u8>): (r: Option<(seq<T>, seq<u8>)>)
    ensures r.Some? ==> |r.value.0| == n
  {
    if n == 0 then Some(([], b))
    else
      match c.dec(b)
      case None => None
      case Some((v, b1)) =>
        match DecodeAll(c, n - 1, b1)
        case None => None
        case Some((vs, b2)) => Some(([v] + vs, b2))
  }


  /** Element-wise `ok`, in the executable form the codec stores. */
  predicate EachOk<T>(c: Codec<T>, vs: seq<T>) {
    forall i | 0 <= i < |vs| :: c.ok(vs[i])
  }

  /** Vec<T>: a u32 count, then the elements. A longer sequence than 2^32 - 1 cannot be written. */
  function Vec<T>(c: Codec<T>): Codec<seq<T>> {
    Codec(
      (vs: seq<T>) => |vs| < TWO_32 && EachOk(c, vs),
      (vs: seq<T>) => if |vs| < TWO_32 then LittleEndian(|vs|) + EncodeAll(c, vs) else [],
      (b: seq<u8>) => if |b| < 4 then None else DecodeAll(c, FromLittleEndian(b), b[4..]))
  }

  // ----- laws -----

  lemma LittleEndianReadsBack(v: u32, rest: seq<u8>)
    ensures FromLittleEndian(LittleEndian(v) + rest) == v
  {
    var w := v / 0x100;
    var x := w / 0x100;
    assert v / 0x1_0000 == x && v / 0x100_0000 == x / 0x100;
    assert v == 0x100 * w + v % 0x100 && w == 0x100 * x + w % 0x100 && x == 0x100 * (x / 0x100) + x % 0x100;
  }

  lemma QuotientAndDigit(q: nat, r: u8)
    ensures (0x100 * q + r) / 0x100 == q && (0x100 * q + r) % 0x100 == r
  {
  }

  lemma Digits(b0: u8, b1: u8, b2: u8, b3: u8, v: int)
    requires v == b0 + 0x100 * (b1 as int) + 0x1_0000 * (b2 as int) + 0x100_0000 * (b3 as int)
    ensures v % 0x100 == b0 && v / 0x100 % 0x100 == b1 && v / 0x1_0000 % 0x100 == b2 && v / 0x100_0000 == b3
  {
    var x: nat := b2 + 0x100 * (b3 as int);
    var w: nat := b1 + 0x100 * x;
    QuotientAndDigit(w, b0);
    QuotientAndDigit(x, b1);
    QuotientAndDigit(b3, b2);
    assert v / 0x1_0000 == v / 0x100 / 0x100 && v / 0x100_0000 == v / 0x1_0000 / 0x100;
  }

  lemma LittleEndianIsCanonical(b: seq<u8>)
    requires |b| >= 4
    ensures LittleEndian(FromLittleEndian(b)) == b[..4]
  {
    Digits(b[0], b[1], b[2], b[3], FromLittleEndian(b));
  }

  lemma ScalarsLawful()
    ensures Lawful(U8())
    ensures Lawful(Bool())
    ensures Lawful(Key())
  {
    forall v: Pubkey, rest: seq<u8> ensures Key().dec(Key().enc(v) + rest) == Some((v, rest)) {
      assert (v + rest)[..32] == v && (v + rest)[32..] == rest;
    }
  }

  lemma U32Lawful()
    ensures Lawful(U32())
  {
    var c := U32();
    forall v: u32, rest: seq<u8> ensures c.dec(c.enc(v) + rest) == Some((v, rest)) {
      LittleEndianReadsBack(v, rest);
      assert (LittleEndian(v) + rest)[4..] == rest;
    }
    forall b: seq<u8> | c.dec(b).Some?
      ensures b == c.enc(c.dec(b).value.0) + c.dec(b).value.1
    {
      LittleEndianIsCanonical(b);
      assert b == b[..4] + b[4..];
    }
  }

  lemma PairLawful<A(!new), B(!new)>(a: Codec<A>, b: Codec<B>)
    requires Lawful(a) && Lawful(b)
    ensures Lawful(Pair(a, b))
  {
    var c := Pair(a, b);
    forall v: (A, B), rest: seq<u8> | c.ok(v) ensures c.dec(c.enc(v) + rest) == Some((v, rest)) {
      assert c.enc(v) + rest == a.enc(v.0) + (b.enc(v.1) + rest);
    }
    forall s: seq<u8> | c.dec(s).Some?
      ensures c.ok(c.dec(s).value.0) && s == c.enc(c.dec(s).value.0) + c.dec(s).value.1
    {
      var (x, s1) := a.dec(s).value;
      var (y, s2) := b.dec(s1).value;
      assert s == a.enc(x) + (b.enc(y) + s2) == c.enc((x, y)) + s2;
    }
  }

  lemma IsoLawful<A(!new), B(!new)>(c: Codec<A>, to: A -> B, from: B -> A)
    requires Lawful(c)
    requires forall a :: from(to(a)) == a
    requires forall b :: to(from(b)) == b
    ensures Lawful(Iso(c, to, from))
  {
    var d := Iso(c, to, from);
    forall v: B, rest: seq<u8> | d.ok(v) ensures d.dec(d.enc(v) + rest) == Some((v, rest)) {
      assert d.enc(v) == c.enc(from(v));
      assert c.dec(c.enc(from(v)) + rest) == Some((from(v), rest));
    }
    forall s: seq<u8> | d.dec(s).Some?
      ensures d.ok(d.dec(s).value.0) && s == d.enc(d.dec(s).value.0) + d.dec(s).value.1
    {
      var (x, s1) := c.dec(s).value;
      assert d.dec(s) == Some((to(x), s1));
    }
  }

  lemma {:induction false} DecodeEncodeAll<T(!new)>(c: Codec<T>, vs: seq<T>, rest: seq<u8>)
    requires Lawful(c) && EachOk(c, vs)
    ensures DecodeAll(c, |vs|, EncodeAll(c, vs) + rest) == Some((vs, rest))
  {
    if vs == [] {
      assert EncodeAll(c, vs) + rest == rest;
    } else {
      var tail := EncodeAll(c, vs[1..]) + rest;
      assert EncodeAll(c, vs) + rest == c.enc(vs[0]) + tail;
      assert c.ok(vs[0]);
      DecodeEncodeAll(c, vs[1..], rest);
      assert [vs[0]] + vs[1..] == vs;
    }
  }

  lemma {:induction false} EncodeDecodeAll<T(!new)>(c: Codec<T>, n: nat, b: seq<u8>)
    requires Lawful(c)
    requires DecodeAll(c, n, b).Some?
    ensures var (vs, rest) := DecodeAll(c, n, b).value; EachOk(c, vs) && b == EncodeAll(c, vs) + rest
  {
    if n > 0 {
      var (v, b1) := c.dec(b).value;
      EncodeDecodeAll(c, n - 1, b1);
      var (vs, rest) := DecodeAll(c, n - 1, b1).value;
      assert ([v] + vs)[1..] == vs;
      assert b == c.enc(v) + (EncodeAll(c, vs) + rest);
    }
  }

  lemma VecReadsBack<T(!new)>(c: Codec<T>, vs: seq<T>, rest: seq<u8>)
    requires Lawful(c) && Vec(c).ok(vs)
    ensures Vec(c).dec(Vec(c).enc(vs) + rest) == Some((vs, rest))
  {
    hide LittleEndian, FromLittleEndian, DecodeAll, EncodeAll, Lawful;
    var tail := EncodeAll(c, vs) + rest;
    var b := Vec(c).enc(vs) + rest;
    assert b == LittleEndian(|vs|) + tail;
    LittleEndianReadsBack(|vs|, tail);
    assert b[4..] == tail;
    DecodeEncodeAll(c, vs, rest);
  }

  lemma Reassemble(b: seq<u8>, p: seq<u8>, e: seq<u8>, rest: seq<u8>)
    requires |b| >= 4 && p == b[..4] && b[4..] == e + rest
    ensures b == (p + e) + rest
  {
    assert b == b[..4] + b[4..];
  }

  lemma VecIsCanonical<T(!new)>(c: Codec<T>, b: seq<u8>)
    requires Lawful(c) && Vec(c).dec(b).Some?
    ensures var (vs, rest) := Vec(c).dec(b).value; Vec(c).ok(vs) && b == Vec(c).enc(vs) + rest
  {
    hide LittleEndian, FromLittleEndian, DecodeAll, EncodeAll, Lawful, EachOk;
    var n := FromLittleEndian(b);
    var (vs, rest) := DecodeAll(c, n, b[4..]).value;
    EncodeDecodeAll(c, n, b[4..]);
    assert LittleEndian(|vs|) == b[..4] by {
      LittleEndianIsCanonical(b);
    }
    Reassemble(b, LittleEndian(|vs|), EncodeAll(c, vs), rest);
  }

  lemma VecLawful<T(!new)>(c: Codec<T>)
    requires Lawful(c)
    ensures Lawful(Vec(c))
  {
    forall vs: seq<T>, rest: seq<u8> | Vec(c).ok(vs)
      ensures Vec(c).dec(Vec(c).enc(vs) + rest) == Some((vs, rest))
    {
      VecReadsBack(c, vs, rest);
    }
    forall b: seq<u8> | Vec(c).dec(b).Some?
      ensures Vec(c).ok(Vec(c).dec(b).value.0) && b == Vec(c).enc(Vec(c).dec(b).value.0) + Vec(c).dec(b).value.1
    {
      VecIsCanonical(c, b);
    }
  }

  // ----- whole slices -----

  /** try_from_slice: every byte must be consumed. */
  function TryFromSlice<T>(c: Codec<T>, b: seq<u8>): Option<T> {
    match c.dec(b)
    case None => None
    case Some((v, rest)) => if rest == [] then Some(v) else None
  }

  /** Writing then reading v gives v back, and b is accepted as v only if it is v's encoding. */
  ghost predicate SliceAgrees<T>(c: Codec<T>, v: T, b: seq<u8>) {
    && (c.ok(v) ==> TryFromSlice(c, c.enc(v)) == Some(v))
    && (TryFromSlice(c, b) == Some(v) ==> c.ok(v) && c.enc(v) == b)
  }

  lemma SliceRoundTrip<T(!new)>(c: Codec<T>, v: T, b: seq<u8>)
    requires Lawful(c)
    ensures SliceAgrees(c, v, b)
  {
    assert c.enc(v) + [] == c.enc(v);
  }

  /** A slice with anything left over behind the value is rejected. */
  lemma TailIsRejected<T(!new)>(c: Codec<T>, v: T, tail: seq<u8>)
    requires Lawful(c) && c.ok(v)
    ensures TryFromSlice(c, c.enc(v) + tail) == if tail == [] then Some(v) else None
  {
    assert c.dec(c.enc(v) + tail) == Some((v, tail));
  }

  /** A zero count announces an empty container. */
  lemma ZeroedVec<T>(c: Codec<T>, vs: seq<T>, rest: seq<u8>)
    requires |vs| < TWO_32 && Zeroed(Vec(c).enc(vs) + rest)
    ensures vs == []
  {
    LittleEndianReadsBack(|vs|, []);
    hide EncodeAll;
    var count := LittleEndian(|vs|);
    assert forall i | 0 <= i < 4 :: count[i] == (Vec(c).enc(vs) + rest)[i];
  }
}
