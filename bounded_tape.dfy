/**
 * The fixed-size bit tape (src/turing_tape.rs): `sizeBytes` bytes allocated up front, with the
 * same bit addressing as the growable tape, and an out-of-range error instead of growth.
 */
module BoundedTape {

  import opened Wrappers
  import opened Tape

  /** The error of an access at `bitIndex` on a tape of `sizeBytes` bytes. */
  datatype RangeError = OutOfRange(bitIndex: nat, sizeBytes: nat)

  datatype Unit = Unit

  /** The decimal digit `d` as a character. */
  function DigitChar(d: nat): (c: char)
    requires d < 10
    ensures '0' <= c <= '9' && c as int - '0' as int == d
  {
    ('0' as int + d) as char
  }

  /** A string of decimal digits. */
  predicate IsDecimal(s: string)
  {
    forall k | 0 <= k < |s| :: '0' <= s[k] <= '9'
  }

  /** The number a string of decimal digits denotes, most significant digit first. */
  function DecimalValue(s: string): nat
    requires IsDecimal(s)
  {
    if |s| == 0 then 0 else 10 * DecimalValue(s[..|s| - 1]) + (s[|s| - 1] as int - '0' as int)
  }

  /** How `format!` renders a number: its decimal digits, with no leading zero. */
  function Decimal(n: nat): (r: string)
    ensures |r| >= 1 && IsDecimal(r)
    ensures DecimalValue(r) == n
    ensures |r| > 1 ==> r[0] != '0'
    decreases n
  {
    if n < 10 then [DigitChar(n)]
    else
      var front := Decimal(n / 10);
      var r := front + [DigitChar(n % 10)];
      assert r[..|r| - 1] == front;
      r
  }

  /** The text of the range error, as `get_byte_index_and_position` formats it. */
  function Message(e: RangeError): string
  {
    "Bit index '" + Decimal(e.bitIndex) + "' out of range for '" + Decimal(e.sizeBytes) + "' bytes"
  }

  class BoundedTuringTape {

    const sizeBytes: nat
    const tape: array<bv8>

    ghost predicate Valid()
      reads this
    {
      tape.Length == sizeBytes
    }

    /** `TuringTape::new(size_bytes)`: `sizeBytes` zero bytes. */
    constructor (sizeBytes: nat)
      ensures Valid() && fresh(tape) && this.sizeBytes == sizeBytes
      ensures tape[..] == Zeros(sizeBytes)
    {
      this.sizeBytes := sizeBytes;
      tape := new bv8[sizeBytes](_ => 0);
      new;
      assert tape[..] == Zeros(sizeBytes);
    }

    /**
     * `get_byte_index_and_position`: the byte and position of a bit, or an out-of-range error
     * exactly when the byte lies beyond the tape.
     */
    function GetByteIndexAndPosition(bitIndex: nat): (r: Result<(nat, nat), RangeError>)
      ensures r.Ok? <==> bitIndex / 8 < sizeBytes
      ensures r.Ok? ==> r.value.0 < sizeBytes && r.value.1 < 8 && 8 * r.value.0 + r.value.1 == bitIndex
      ensures r.Err? ==> r.error == OutOfRange(bitIndex, sizeBytes)
    {
      var byteIndex := bitIndex / 8;
      if byteIndex >= sizeBytes then Err(OutOfRange(bitIndex, sizeBytes))
      else Ok((byteIndex, bitIndex % 8))
    }

    /** `read`: the bit at `bitIndex`, addressed as on the growable tape, or the range error. */
    function Read(bitIndex: nat): (r: Result<bool, RangeError>)
      requires Valid()
      reads this, tape
      ensures r.Ok? <==> bitIndex / 8 < sizeBytes
      ensures r.Ok? ==> r.value == BitAt(tape[..], bitIndex)
      ensures r.Err? ==> r.error == OutOfRange(bitIndex, sizeBytes)
    {
      match GetByteIndexAndPosition(bitIndex)
      case Err(e) => Err(e)
      case Ok((byteIndex, position)) => Ok(tape[byteIndex] & Mask(position) != 0)
    }

    /** `set`: writes 1 at an in-range `bitIndex`; out of range, reports and changes nothing. */
    method Set(bitIndex: nat) returns (r: Result<Unit, RangeError>)
      requires Valid()
      modifies tape
      ensures r.Ok? <==> bitIndex / 8 < sizeBytes
      ensures r.Ok? ==> tape[..] == WithBitSet(old(tape[..]), bitIndex)
      ensures r.Err? ==> r.error == OutOfRange(bitIndex, sizeBytes) && tape[..] == old(tape[..])
    {
      var located := GetByteIndexAndPosition(bitIndex);
      if located.Err? {
        return Err(located.error);
      }
      var (byteIndex, position) := located.value;
      tape[byteIndex] := tape[byteIndex] | Mask(position);
      r := Ok(Unit);
    }

    /** `unset`: writes 0 at an in-range `bitIndex`; out of range, reports and changes nothing. */
    method Unset(bitIndex: nat) returns (r: Result<Unit, RangeError>)
      requires Valid()
      modifies tape
      ensures r.Ok? <==> bitIndex / 8 < sizeBytes
      ensures r.Ok? ==> tape[..] == WithBitCleared(old(tape[..]), bitIndex)
      ensures r.Err? ==> r.error == OutOfRange(bitIndex, sizeBytes) && tape[..] == old(tape[..])
    {
      var located := GetByteIndexAndPosition(bitIndex);
      if located.Err? {
        return Err(located.error);
      }
      var (byteIndex, position) := located.value;
      tape[byteIndex] := tape[byteIndex] & !Mask(position);
      r := Ok(Unit);
    }
  }

  /** A fresh tape of n bytes reads 0 at every in-range bit. */
  lemma NewTapeReadsZero(t: BoundedTuringTape, i: nat)
    requires t.Valid() && t.tape[..] == Zeros(t.sizeBytes) && i / 8 < t.sizeBytes
    ensures t.Read(i) == Ok(false)
  {
    ZerosReadZero(t.sizeBytes, i);
  }

  /** On four bytes, bit 31 is the last addressable bit and bit 32 the first that fails. */
  lemma FourBytesBoundary(t: BoundedTuringTape)
    requires t.sizeBytes == 4
    ensures t.GetByteIndexAndPosition(31) == Ok((3, 7))
    ensures t.GetByteIndexAndPosition(32) == Err(OutOfRange(32, 4))
  {
  }

  /** A successful `set` then `read` gives 1 at the index and the old bit everywhere else. */
  lemma SetThenRead(before: seq<bv8>, after: seq<bv8>, i: nat, j: nat)
    requires i / 8 < |before| && after == WithBitSet(before, i)
    ensures |after| == |before|
    ensures BitAt(after, j) == (j == i || BitAt(before, j))
  {
    WithBitSetReads(before, i, j);
  }

  /** A successful `unset` then `read` gives 0 at the index and the old bit everywhere else. */
  lemma UnsetThenRead(before: seq<bv8>, after: seq<bv8>, i: nat, j: nat)
    requires i / 8 < |before| && after == WithBitCleared(before, i)
    ensures |after| == |before|
    ensures BitAt(after, j) == (j != i && BitAt(before, j))
  {
    WithBitClearedReads(before, i, j);
  }
}
