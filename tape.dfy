/**
 * The growable bit tape (src/machine/turing_tape.rs): a double-ended queue of bytes, bit i living
 * in byte i / 8 at position i % 8 (bit 0 the least significant). Reading or writing beyond the
 * end appends zero bytes; growth at the front prepends whole bytes and so renumbers every bit by +8.
 */
module Tape {

  /** `1 << position` on a byte. */
  function Mask(position: nat): bv8
    requires position < 8
  {
    (1 as bv8) << position
  }

  /** Whether bit `position` of byte `b` is 1. */
  predicate ByteBit(b: bv8, position: nat)
    requires position < 8
  {
    b & Mask(position) != 0
  }

  /** `byte |= 1 << p` sets bit p and no other. */
  lemma OrMaskBits(b: bv8, p: nat, q: nat)
    requires p < 8 && q < 8
    ensures ByteBit(b | Mask(p), q) == (q == p || ByteBit(b, q))
  {
  }

  /** `byte &= !(1 << p)` clears bit p and no other. */
  lemma AndNotMaskBits(b: bv8, p: nat, q: nat)
    requires p < 8 && q < 8
    ensures ByteBit(b & !Mask(p), q) == (q != p && ByteBit(b, q))
  {
  }

  /** Setting a bit that is already 1 leaves the byte as it was. */
  lemma OrMaskKeeps(b: bv8, p: nat)
    requires p < 8 && ByteBit(b, p)
    ensures b | Mask(p) == b
  {
  }

  /** Clearing a bit that is already 0 leaves the byte as it was. */
  lemma AndNotMaskKeeps(b: bv8, p: nat)
    requires p < 8 && !ByteBit(b, p)
    ensures b & !Mask(p) == b
  {
  }

  /** `k` zero bytes, as pushed by the allocation loops. */
  function Zeros(k: nat): (r: seq<bv8>)
    ensures |r| == k
    ensures forall j | 0 <= j < k :: r[j] == 0
  {
    seq(k, _ => 0)
  }

  /** The bit at index i of a byte sequence; a byte not yet allocated reads as 0. */
  predicate BitAt(bytes: seq<bv8>, i: nat)
  {
    i / 8 < |bytes| && ByteBit(bytes[i / 8], i % 8)
  }

  /** A default (empty) tape reads 0 at every index. */
  lemma EmptyReadsZero(i: nat)
    ensures !BitAt([], i)
  {
  }

  /** Zero bytes read 0 at every index. */
  lemma ZerosReadZero(k: nat, i: nat)
    ensures !BitAt(Zeros(k), i)
  {
  }

  /**
   * `allocate_till_bit_index`: the bytes after making sure byte i / 8 exists. It never shrinks
   * the tape, grows it only by zero bytes on the right, and is a no-op when byte i / 8 exists.
   */
  function Covered(bytes: seq<bv8>, i: nat): (r: seq<bv8>)
    ensures |r| > i / 8 && |r| >= |bytes|
    ensures r[..|bytes|] == bytes
    ensures forall j | |bytes| <= j < |r| :: r[j] == 0
    ensures i / 8 < |bytes| ==> r == bytes
    ensures i / 8 >= |bytes| ==> |r| == i / 8 + 1
  {
    if i / 8 < |bytes| then bytes else bytes + Zeros(i / 8 - |bytes| + 1)
  }

  /** Growing on the right changes no bit. */
  lemma CoveredKeepsBits(bytes: seq<bv8>, i: nat, j: nat)
    ensures BitAt(Covered(bytes, i), j) == BitAt(bytes, j)
  {
    var r := Covered(bytes, i);
    if j / 8 < |bytes| {
      assert r[j / 8] == r[..|bytes|][j / 8];
    } else if j / 8 < |r| {
      assert r[j / 8] == 0;
    }
  }

  /** Covering twice covers up to the farther index. */
  lemma CoveredTwice(bytes: seq<bv8>, i: nat, k: nat)
    requires i <= k
    ensures Covered(Covered(bytes, i), k) == Covered(bytes, k)
  {
    var c := Covered(bytes, i);
    if k / 8 >= |c| {
      assert Covered(c, k) == c + Zeros(k / 8 - |c| + 1);
      if i / 8 >= |bytes| {
        assert c + Zeros(k / 8 - |c| + 1) == bytes + Zeros(k / 8 - |bytes| + 1);
      }
    }
  }

  /** `set`: the bytes after covering bit i and or-ing its mask into its byte. */
  function WithBitSet(bytes: seq<bv8>, i: nat): (r: seq<bv8>)
    ensures |r| == |Covered(bytes, i)|
  {
    var t := Covered(bytes, i);
    t[i / 8 := t[i / 8] | Mask(i % 8)]
  }

  /** `unset`: the bytes after covering bit i and and-ing the inverted mask into its byte. */
  function WithBitCleared(bytes: seq<bv8>, i: nat): (r: seq<bv8>)
    ensures |r| == |Covered(bytes, i)|
  {
    var t := Covered(bytes, i);
    t[i / 8 := t[i / 8] & !Mask(i % 8)]
  }

  /** After `set(i)`, bit i reads 1 and every other bit reads as before. */
  lemma WithBitSetReads(bytes: seq<bv8>, i: nat, j: nat)
    ensures BitAt(WithBitSet(bytes, i), j) == (j == i || BitAt(bytes, j))
  {
    var t := Covered(bytes, i);
    CoveredKeepsBits(bytes, i, j);
    if j / 8 == i / 8 {
      OrMaskBits(t[i / 8], i % 8, j % 8);
    }
  }

  /** After `unset(i)`, bit i reads 0 and every other bit reads as before. */
  lemma WithBitClearedReads(bytes: seq<bv8>, i: nat, j: nat)
    ensures BitAt(WithBitCleared(bytes, i), j) == (j != i && BitAt(bytes, j))
  {
    var t := Covered(bytes, i);
    CoveredKeepsBits(bytes, i, j);
    if j / 8 == i / 8 {
      AndNotMaskBits(t[i / 8], i % 8, j % 8);
    }
  }

  /** Setting a bit that already reads 1 leaves the bytes as covering alone leaves them. */
  lemma SetBackIsCover(bytes: seq<bv8>, i: nat)
    requires BitAt(bytes, i)
    ensures WithBitSet(bytes, i) == Covered(bytes, i)
  {
    var t := Covered(bytes, i);
    CoveredKeepsBits(bytes, i, i);
    OrMaskKeeps(t[i / 8], i % 8);
  }

  /** Clearing a bit that already reads 0 leaves the bytes as covering alone leaves them. */
  lemma ClearBackIsCover(bytes: seq<bv8>, i: nat)
    requires !BitAt(bytes, i)
    ensures WithBitCleared(bytes, i) == Covered(bytes, i)
  {
    var t := Covered(bytes, i);
    CoveredKeepsBits(bytes, i, i);
    AndNotMaskKeeps(t[i / 8], i % 8);
  }

  /**
   * `allocate_left(k)`: k zero bytes in front. The bit formerly at j now reads at j + 8k, and the
   * bits 0 .. 8k - 1 read 0.
   */
  lemma PrependedReads(bytes: seq<bv8>, k: nat, j: nat)
    ensures BitAt(Zeros(k) + bytes, j) == (j >= 8 * k && BitAt(bytes, j - 8 * k))
  {
    var r := Zeros(k) + bytes;
    if j >= 8 * k {
      assert (j - 8 * k) / 8 == j / 8 - k && (j - 8 * k) % 8 == j % 8;
      if j / 8 < |r| {
        assert r[j / 8] == bytes[j / 8 - k];
      }
    } else {
      assert j / 8 < k;
      assert r[j / 8] == 0;
    }
  }

  /** `allocate_right(k)`: k zero bytes at the back change no bit. */
  lemma AppendedReads(bytes: seq<bv8>, k: nat, j: nat)
    ensures BitAt(bytes + Zeros(k), j) == BitAt(bytes, j)
  {
    var r := bytes + Zeros(k);
    if |bytes| <= j / 8 < |r| {
      assert r[j / 8] == 0;
    }
  }

  /** The tape: a byte queue the machine grows on demand. */
  class TuringTape {

    var bytes: seq<bv8>

    /** `TuringTape::default()`: no bytes at all. */
    constructor ()
      ensures bytes == []
    {
      bytes := [];
    }

    /** `allocate_right(size)`: pushes `size` zero bytes at the back, one at a time. */
    method AllocateRight(size: nat)
      modifies this
      ensures bytes == old(bytes) + Zeros(size)
    {
      for k := 0 to size
        invariant bytes == old(bytes) + Zeros(k)
      {
        bytes := bytes + [0];
      }
    }

    /** `allocate_left(size)`: pushes `size` zero bytes at the front, one at a time. */
    method AllocateLeft(size: nat)
      modifies this
      ensures bytes == Zeros(size) + old(bytes)
    {
      for k := 0 to size
        invariant bytes == Zeros(k) + old(bytes)
      {
        bytes := [0] + bytes;
      }
    }

    /** `allocate_till_bit_index`: makes sure the byte holding bit `bitIndex` exists. */
    method AllocateTillBitIndex(bitIndex: nat)
      modifies this
      ensures bytes == Covered(old(bytes), bitIndex)
    {
      var byteIndex := bitIndex / 8;
      if byteIndex >= |bytes| {
        AllocateRight(byteIndex - |bytes| + 1);
      }
    }

    /**
     * `get_byte_index_and_position`: allocates the byte holding the bit, then splits the bit
     * index into that byte's index and the bit's position inside it.
     */
    method GetByteIndexAndPosition(bitIndex: nat) returns (byteIndex: nat, position: nat)
      modifies this
      ensures bytes == Covered(old(bytes), bitIndex)
      ensures byteIndex < |bytes| && position < 8
      ensures bitIndex == 8 * byteIndex + position
    {
      byteIndex := bitIndex / 8;
      if byteIndex >= |bytes| {
        AllocateRight(byteIndex - |bytes| + 1);
      }
      position := bitIndex % 8;
    }

    /** `read`: the bit at `bitIndex`; the tape may grow, which changes no bit. */
    method Read(bitIndex: nat) returns (bit: bool)
      modifies this
      ensures bytes == Covered(old(bytes), bitIndex)
      ensures bit == BitAt(old(bytes), bitIndex)
    {
      var byteIndex, position := GetByteIndexAndPosition(bitIndex);
      var byte := bytes[byteIndex];
      bit := byte & Mask(position) != 0;
      CoveredKeepsBits(old(bytes), bitIndex, bitIndex);
    }

    /** `set`: writes 1 at `bitIndex`. */
    method Set(bitIndex: nat)
      modifies this
      ensures bytes == WithBitSet(old(bytes), bitIndex)
    {
      var byteIndex, position := GetByteIndexAndPosition(bitIndex);
      bytes := bytes[byteIndex := bytes[byteIndex] | Mask(position)];
    }

    /** `unset`: writes 0 at `bitIndex`. */
    method Unset(bitIndex: nat)
      modifies this
      ensures bytes == WithBitCleared(old(bytes), bitIndex)
    {
      var byteIndex, position := GetByteIndexAndPosition(bitIndex);
      bytes := bytes[byteIndex := bytes[byteIndex] & !Mask(position)];
    }

    /** The derived `clone`: a new tape holding the same bytes. */
    method Clone() returns (t: TuringTape)
      ensures fresh(t) && t.bytes == bytes
    {
      t := new TuringTape();
      t.bytes := bytes;
    }
  }
}
