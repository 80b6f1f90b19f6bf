/** The received-chunk bitmap of the resume handshake: bit `c % 8` of byte `c / 8` stands for chunk `c`. */
module Bitmap {
  type Bits = seq<bv8>

  predicate ByteBit(b: bv8, k: nat)
    requires k < 8
  {
    b & (1 << k) != 0
  }

  /** Setting one bit of a byte sets that bit and no other. */
  lemma OrSetsOneBit(b: bv8, k: nat, j: nat)
    requires k < 8 && j < 8
    ensures ByteBit(b | (1 << k), j) <==> ByteBit(b, j) || j == k
  {
    var x: bv8, y: bv8 := 1 << k, 1 << j;
    assert (b | x) & y == (b & y) | (x & y);
    assert x & y == if j == k then y else 0 by {
      assert forall i: nat | i < 8 :: (1 as bv8) << i == Mask(i);
    }
  }

  function Mask(k: nat): bv8
    requires k < 8
  {
    match k
    case 0 => 1
    case 1 => 2
    case 2 => 4
    case 3 => 8
    case 4 => 16
    case 5 => 32
    case 6 => 64
    case 7 => 128
  }

  lemma ZeroHasNoBits(k: nat)
    requires k < 8
    ensures !ByteBit(0, k)
  {
  }

  /** Bit `c` of a bitmap; bits beyond its end read as unset. */
  predicate BitAt(bitmap: Bits, c: nat) {
    c / 8 < |bitmap| && ByteBit(bitmap[c / 8], c % 8)
  }

  /** The chunks below `total` whose bit is set. */
  function Decode(bitmap: Bits, total: nat): set<nat> {
    set c: nat | c < total && BitAt(bitmap, c)
  }

  /** Setting one bit in place; a number beyond the bitmap is ignored. */
  function WithBit(bitmap: Bits, c: nat): Bits {
    if c / 8 < |bitmap| then bitmap[c / 8 := bitmap[c / 8] | (1 << (c % 8))] else bitmap
  }

  lemma WithBitAt(bitmap: Bits, c: nat, d: nat)
    ensures BitAt(WithBit(bitmap, c), d) <==> BitAt(bitmap, d) || (d == c && c / 8 < |bitmap|)
  {
    if c / 8 < |bitmap| && d / 8 == c / 8 {
      OrSetsOneBit(bitmap[c / 8], c % 8, d % 8);
    }
  }

  /** The byte whose bit `k` says whether `base + k` is in the set. */
  function PackByte(completed: set<nat>, base: nat): bv8 {
    Pick(completed, base, 0) | Pick(completed, base, 1) | Pick(completed, base, 2) | Pick(completed, base, 3) |
    Pick(completed, base, 4) | Pick(completed, base, 5) | Pick(completed, base, 6) | Pick(completed, base, 7)
  }

  function Pick(completed: set<nat>, base: nat, k: nat): bv8
    requires k < 8
  {
    if base + k in completed then 1 << k else 0
  }

  /** The bitmap of a set: enough bytes for `total` chunks, members beyond the last byte dropped. */
  function Encode(completed: set<nat>, total: nat): (bitmap: Bits)
    ensures |bitmap| == (total + 7) / 8
  {
    seq((total + 7) / 8, i requires i >= 0 => PackByte(completed, 8 * i))
  }

  lemma PackByteBits(completed: set<nat>, base: nat, k: nat)
    requires k < 8
    ensures ByteBit(PackByte(completed, base), k) <==> base + k in completed
  {
    match k
    case 0 =>
    case 1 =>
    case 2 =>
    case 3 =>
    case 4 =>
    case 5 =>
    case 6 =>
    case 7 =>
  }

  lemma EncodeBits(completed: set<nat>, total: nat, c: nat)
    ensures BitAt(Encode(completed, total), c) <==> c in completed && c / 8 < (total + 7) / 8
  {
    if c / 8 < (total + 7) / 8 {
      PackByteBits(completed, 8 * (c / 8), c % 8);
    }
  }

  /** A byte is determined by its eight bits. */
  lemma SameBitsSameByte(a: bv8, b: bv8)
    requires forall k: nat | k < 8 :: ByteBit(a, k) <==> ByteBit(b, k)
    ensures a == b
  {
    assert ByteBit(a, 0) <==> ByteBit(b, 0);
    assert ByteBit(a, 1) <==> ByteBit(b, 1);
    assert ByteBit(a, 2) <==> ByteBit(b, 2);
    assert ByteBit(a, 3) <==> ByteBit(b, 3);
    assert ByteBit(a, 4) <==> ByteBit(b, 4);
    assert ByteBit(a, 5) <==> ByteBit(b, 5);
    assert ByteBit(a, 6) <==> ByteBit(b, 6);
    assert ByteBit(a, 7) <==> ByteBit(b, 7);
  }

  lemma SameBitsSameBitmap(a: Bits, b: Bits)
    requires |a| == |b|
    requires forall c: nat :: BitAt(a, c) <==> BitAt(b, c)
    ensures a == b
  {
    forall i | 0 <= i < |a| ensures a[i] == b[i] {
      forall k: nat | k < 8 ensures ByteBit(a[i], k) <==> ByteBit(b[i], k) {
        assert BitAt(a, 8 * i + k) <==> BitAt(b, 8 * i + k);
      }
      SameBitsSameByte(a[i], b[i]);
    }
  }

  /** Encodes a set, visiting its elements in an arbitrary order: the order does not show. */
  method EncodeReceivedBitmap(completed: set<nat>, total: nat) returns (bitmap: Bits)
    ensures bitmap == Encode(completed, total)
  {
    bitmap := seq((total + 7) / 8, _ => 0);
    var todo := completed;
    forall c: nat ensures !BitAt(bitmap, c) { ZeroHasNoBits(c % 8); }
    while todo != {}
      invariant todo <= completed
      invariant |bitmap| == (total + 7) / 8
      invariant forall c: nat :: BitAt(bitmap, c) <==> c in completed - todo && c / 8 < |bitmap|
      decreases |todo|
    {
      var chunk :| chunk in todo;
      ghost var before := bitmap;
      bitmap := WithBit(bitmap, chunk);
      todo := todo - {chunk};
      forall d: nat ensures BitAt(bitmap, d) <==> d in completed - todo && d / 8 < |bitmap| {
        WithBitAt(before, chunk, d);
      }
    }
    forall c: nat ensures BitAt(bitmap, c) <==> BitAt(Encode(completed, total), c) {
      EncodeBits(completed, total, c);
    }
    SameBitsSameBitmap(bitmap, Encode(completed, total));
  }

  /** Decodes by testing every chunk number below the total. */
  method DecodeReceivedBitmap(bitmap: Bits, total: nat) returns (completed: set<nat>)
    ensures completed == Decode(bitmap, total)
  {
    completed := {};
    for chunk := 0 to total
      invariant completed == Decode(bitmap, chunk)
    {
      if chunk / 8 < |bitmap| && ByteBit(bitmap[chunk / 8], chunk % 8) {
        completed := completed + {chunk};
      }
    }
  }

  /** Round trip for every set: decoding gives back exactly the members below the total. */
  lemma DecodeEncode(completed: set<nat>, total: nat)
    ensures Decode(Encode(completed, total), total) == set c | c in completed && c < total
  {
    forall c: nat ensures c in Decode(Encode(completed, total), total) <==> c in completed && c < total {
      EncodeBits(completed, total, c);
    }
  }

  /** Round trip for every byte string: decoding stays below the total, and encoding what was decoded
      agrees with the string on its first `total` bits and is clear behind them. */
  lemma EncodeDecode(bitmap: Bits, total: nat, c: nat)
    ensures forall d | d in Decode(bitmap, total) :: d < total
    ensures BitAt(Encode(Decode(bitmap, total), total), c) <==> c < total && BitAt(bitmap, c)
  {
    EncodeBits(Decode(bitmap, total), total, c);
  }
}
