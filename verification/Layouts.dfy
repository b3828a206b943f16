/**
 * Telling the two account types apart. Neither layout carries a tag, so some byte strings read as both. What decides
 * is the address of the multisig that the transaction names: its first four bytes lie where the other layout has
 * its number of owners.
 */
module Layouts {
  import opened Machine
  import opened State
  import B = Borsh

  /** The first four bytes of an address as a Borsh count. */
  function Count(k: Pubkey): u32 {
    B.FromLittleEndian(k)
  }

  /** The data of a multisig with n owners and no padding. */
  function SpaceFor(n: nat): nat {
    14 + PUBKEY_BYTES * n
  }

  /** No data within the limit reads both as a multisig and as a transaction of the multisig at q. */
  predicate Clear(q: Pubkey, limit: nat) {
    SpaceFor(Count(q)) > limit
  }

  // ----- the overlap -----

  lemma MultisigStart(m: Multisig, b: seq<u8>)
    requires DecodeMultisig(b) == Some(m)
    ensures |b| == m.Len() && |m.owners| < TWO_32 && b[..4] == B.LittleEndian(|m.owners|)
  {
    hide EncodeMultisig, DecodeMultisig, Writable, B.LittleEndian, B.Vec, B.EncodeAll, B.Key, B.U8;
    MultisigRoundTrip(m, b);
    MultisigLen(m);
    MultisigFields(m);
    VecBytes(B.Key(), m.owners);
  }

  lemma TransactionStart(t: Transaction, b: seq<u8>)
    requires DecodeTransaction(b) == Some(t)
    ensures |b| == t.Len() && b[..32] == t.multisig
  {
    hide EncodeTransaction, DecodeTransaction, WritableTransaction, B.Vec, B.LittleEndian, InstructionDataCodec;
    TransactionRoundTrip(t, b);
    TransactionLen(t);
    TransactionFields(t);
  }

  /** What a byte string that reads as both says: the address named by the one counts the owners of the other. */
  lemma DecodesAsBoth(b: seq<u8>)
    requires DecodeMultisig(b).Some? && DecodeTransaction(b).Some?
    ensures var m, t := DecodeMultisig(b).value, DecodeTransaction(b).value;
      Count(t.multisig) == |m.owners| && SpaceFor(Count(t.multisig)) <= |b|
  {
    hide DecodeMultisig, DecodeTransaction, B.FromLittleEndian, B.LittleEndian;
    var m, t := DecodeMultisig(b).value, DecodeTransaction(b).value;
    MultisigStart(m, b);
    TransactionStart(t, b);
    B.LittleEndianReadsBack(|m.owners|, t.multisig[4..]);
    assert t.multisig[..4] == b[..4];
    assert t.multisig == t.multisig[..4] + t.multisig[4..];
  }

  // ----- every address that is not clear is hit -----

  /** A proposal of the multisig at q without instructions, approved by nobody. */
  function EmptyProposal(q: Pubkey, votes: nat): Transaction {
    Transaction(q, [], seq(votes, _ => false), 0)
  }

  /** Bytes cut into addresses. */
  function Keys(b: seq<u8>, n: nat): (r: seq<Pubkey>)
    requires |b| == PUBKEY_BYTES * n
    ensures |r| == n
  {
    if n == 0 then [] else var k: Pubkey := b[..32]; [k] + Keys(b[32..], n - 1)
  }

  lemma {:induction false} KeysEncode(b: seq<u8>, n: nat)
    requires |b| == PUBKEY_BYTES * n
    ensures B.EncodeAll(B.Key(), Keys(b, n)) == b
  {
    if n == 0 {
      assert b == [];
    } else {
      KeysEncode(b[32..], n - 1);
      assert Keys(b, n)[1..] == Keys(b[32..], n - 1);
      assert b == b[..32] + b[32..];
    }
  }

  /** The multisig whose bytes are b: n owners, threshold, nonce, sequence number, and an empty padding. */
  function MultisigFrom(b: seq<u8>, n: nat): Multisig
    requires |b| == SpaceFor(n)
  {
    Multisig(Keys(b[4..4 + PUBKEY_BYTES * n], n), b[4 + PUBKEY_BYTES * n], b[5 + PUBKEY_BYTES * n],
      B.FromLittleEndian(b[6 + PUBKEY_BYTES * n..]), [])
  }

  lemma ShortWritable(m: Multisig)
    requires |m.owners| < TWO_32 && |m.padding| < TWO_32
    ensures Writable(m)
  {
  }

  lemma VecBytes<T>(c: B.Codec<T>, vs: seq<T>)
    requires |vs| < TWO_32
    ensures B.Vec(c).enc(vs) == B.LittleEndian(|vs|) + B.EncodeAll(c, vs)
  {
  }

  lemma EmptyVecBytes<T>(c: B.Codec<T>)
    ensures B.Vec(c).enc([]) == B.LittleEndian(0)
  {
  }

  /** The bytes of a multisig without padding. */
  lemma UnpaddedBytes(m: Multisig)
    requires |m.owners| < TWO_32 && m.padding == []
    ensures EncodeMultisig(m) ==
      B.LittleEndian(|m.owners|) + (B.EncodeAll(B.Key(), m.owners)
        + ([m.threshold] + ([m.nonce] + (B.LittleEndian(m.ownerSetSeqno) + B.LittleEndian(0)))))
  {
    hide EncodeMultisig, B.Vec, B.LittleEndian, B.EncodeAll, B.Key, B.U8;
    MultisigFields(m);
    VecBytes(B.Key(), m.owners);
    EmptyVecBytes(B.U8());
    Regroup(B.LittleEndian(|m.owners|), B.EncodeAll(B.Key(), m.owners),
      [m.threshold] + ([m.nonce] + (B.LittleEndian(m.ownerSetSeqno) + B.LittleEndian(0))));
  }

  lemma Regroup(a: seq<u8>, b: seq<u8>, c: seq<u8>)
    ensures (a + b) + c == a + (b + c)
  {
  }

  lemma Cut(b: seq<u8>, i: nat)
    requires |b| == i + 14
    ensures b == b[..4] + (b[4..4 + i] + ([b[4 + i]] + ([b[5 + i]] + (b[6 + i..][..4] + b[10 + i..]))))
  {
  }

  /** Bytes that begin with the count n, have room for n owners and end with a zero count read as a multisig. */
  lemma ReadsAsMultisig(b: seq<u8>, n: nat)
    requires n < TWO_32 && |b| == SpaceFor(n) && b[..4] == B.LittleEndian(n) && b[|b| - 4..] == B.LittleEndian(0)
    ensures DecodeMultisig(b) == Some(MultisigFrom(b, n))
  {
    hide EncodeMultisig, DecodeMultisig, Writable, B.LittleEndian, B.FromLittleEndian, B.EncodeAll, Keys;
    var i, m := PUBKEY_BYTES * n, MultisigFrom(b, n);
    ShortWritable(m);
    UnpaddedBytes(m);
    KeysEncode(b[4..4 + i], n);
    B.LittleEndianIsCanonical(b[6 + i..]);
    Cut(b, i);
    MultisigRoundTrip(m, b);
  }

  /** Proposals that fit into an account can be written. */
  lemma {:induction false} SumLenBounds(ixs: seq<TransactionInstructionData>)
    ensures |ixs| <= SumLen(ixs) && forall ix :: ix in ixs ==> |ix.accounts| <= SumLen(ixs) && |ix.data| <= SumLen(ixs)
  {
    if ixs != [] {
      SumLenBounds(ixs[1..]);
      assert forall ix :: ix in ixs ==> ix == ixs[0] || ix in ixs[1..];
    }
  }

  lemma ShortTransactionWritable(t: Transaction)
    requires t.Len() < TWO_32
    ensures WritableTransaction(t)
  {
    SumLenBounds(t.instructions);
    forall i | 0 <= i < |t.instructions| ensures InstructionDataCodec().ok(t.instructions[i]) {
      assert t.instructions[i] in t.instructions;
      InstructionDataWritable(t.instructions[i]);
    }
    hide InstructionDataCodec;
  }

  lemma FirstAndLast(a: seq<u8>, b: seq<u8>, c: seq<u8>, d: seq<u8>)
    ensures var r := a + (b + (c + d)); |r| >= |d| && r[|r| - |d|..] == d && r[..|a|] == a
  {
  }

  lemma EmptyProposalBytes(q: Pubkey, votes: nat)
    requires 44 + votes < TWO_32
    ensures var t := EmptyProposal(q, votes);
      && WritableTransaction(t) && |EncodeTransaction(t)| == 44 + votes
      && EncodeTransaction(t)[..32] == q && EncodeTransaction(t)[40 + votes..] == B.LittleEndian(0)
  {
    hide EncodeTransaction, WritableTransaction, InstructionDataCodec, B.Vec, B.LittleEndian;
    var t := EmptyProposal(q, votes);
    assert t.Len() == 44 + votes;
    ShortTransactionWritable(t);
    TransactionLen(t);
    TransactionFields(t);
    FirstAndLast(t.multisig, B.Vec(InstructionDataCodec()).enc(t.instructions), B.Vec(B.Bool()).enc(t.signers), B.LittleEndian(0));
  }

  lemma CountOf(q: Pubkey)
    ensures q[..4] == B.LittleEndian(Count(q))
  {
    B.LittleEndianIsCanonical(q);
  }

  function OverlapBytes(q: Pubkey): seq<u8>
    requires Count(q) >= 1
  {
    EncodeTransaction(EmptyProposal(q, PUBKEY_BYTES * Count(q) - 30))
  }

  /** Data that reads as both, for an address whose count is at least 1: as a multisig with that many owners. */
  lemma Overlap(q: Pubkey)
    requires Count(q) >= 1 && SpaceFor(Count(q)) < TWO_32
    ensures |OverlapBytes(q)| == SpaceFor(Count(q))
    ensures DecodeTransaction(OverlapBytes(q)).Some? && DecodeTransaction(OverlapBytes(q)).value.multisig == q
    ensures DecodeMultisig(OverlapBytes(q)).Some? && |DecodeMultisig(OverlapBytes(q)).value.owners| == Count(q)
  {
    hide EncodeTransaction, DecodeTransaction, DecodeMultisig, WritableTransaction, B.LittleEndian, B.FromLittleEndian, Count;
    var n := Count(q);
    var b := OverlapBytes(q);
    CountOf(q);
    EmptyProposalBytes(q, PUBKEY_BYTES * n - 30);
    assert b[..4] == q[..4];
    ReadsAsMultisig(b, n);
    TransactionRoundTrip(EmptyProposal(q, PUBKEY_BYTES * n - 30), []);
  }

  /**
   * The exact condition. For an address whose count is not zero, some data within the limit reads both as a multisig
   * and as a transaction of the multisig at that address if and only if the address is not clear: a multisig with as
   * many owners as the count says would fit.
   */
  lemma ClearIsExact(q: Pubkey, limit: nat)
    requires Count(q) >= 1 && limit < TWO_32
    ensures !Clear(q, limit) <==>
              exists b :: |b| <= limit && DecodeMultisig(b).Some? && DecodeTransaction(b).Some?
                            && DecodeTransaction(b).value.multisig == q
  {
    hide DecodeMultisig, DecodeTransaction, OverlapBytes, Count;
    if !Clear(q, limit) {
      Overlap(q);
      var b := OverlapBytes(q);
      assert |b| <= limit && DecodeMultisig(b).Some? && DecodeTransaction(b).Some?;
    }
    if b :| |b| <= limit && DecodeMultisig(b).Some? && DecodeTransaction(b).Some? && DecodeTransaction(b).value.multisig == q {
      DecodesAsBoth(b);
    }
  }

  /** On a clear address the layouts cannot be mistaken for one another, whatever the count. */
  lemma ClearSeparates(b: seq<u8>, limit: nat)
    requires |b| <= limit && DecodeMultisig(b).Some? && DecodeTransaction(b).Some?
    ensures !Clear(DecodeTransaction(b).value.multisig, limit)
  {
    hide DecodeMultisig, DecodeTransaction, Count;
    DecodesAsBoth(b);
  }

  /** The zero address is not clear. */
  lemma ZeroIsNotClear(limit: nat)
    requires limit >= 14
    ensures !Clear(ZERO_KEY, limit)
  {
  }
}
