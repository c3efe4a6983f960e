/**
 * The fixed-size tape's own tests (src/turing_tape.rs), as methods on `BoundedTuringTape`:
 * a fresh tape, three bits set and every bit of four bytes read back, and the range errors.
 */
module BoundedTapeScenarios {

  import opened Wrappers
  import opened Tape
  import opened BoundedTape
  import opened TapeScenarios

  /** `test_initialization`: a tape made with 5 bytes has size 5 and five zero bytes. */
  method InitializationScenario() returns (size: nat, bytes: seq<bv8>)
    ensures size == 5 && bytes == [0, 0, 0, 0, 0]
  {
    var tape := new BoundedTuringTape(5);
    size := tape.sizeBytes;
    bytes := tape.tape[..];
    assert Zeros(5) == [0, 0, 0, 0, 0];
  }

  /** Setting bits 7, 13 and 19 of four zero bytes reads 1 exactly on them. */
  lemma FourByteMarkedReads(q: nat)
    ensures BitAt(WithBitSet(WithBitSet(WithBitSet(Zeros(4), 7), 13), 19), q) == Marked(q)
  {
    var b0 := WithBitSet(Zeros(4), 7);
    var b1 := WithBitSet(b0, 13);
    WithBitSetReads(Zeros(4), 7, q);
    WithBitSetReads(b0, 13, q);
    WithBitSetReads(b1, 19, q);
    ZerosReadZero(4, q);
  }

  /**
   * `test_set_unset_read` on a 4-byte tape: all four unwraps succeed (the three sets and the
   * unset of bit 3), reading bits 0 to 31 gives 1 exactly on bits 7, 13 and 19, and after the
   * unset bit 3 reads 0.
   */
  method BoundedSetUnsetReadScenario() returns (unwrapped: bool, bits: seq<bool>, afterUnset: Result<bool, RangeError>)
    ensures unwrapped
    ensures |bits| == 32 && forall i | 0 <= i < 32 :: bits[i] == Marked(i)
    ensures afterUnset == Ok(false)
  {
    var tape := new BoundedTuringTape(4);
    var set7 := tape.Set(7);
    var set13 := tape.Set(13);
    var set19 := tape.Set(19);
    unwrapped := set7.Ok? && set13.Ok? && set19.Ok?;
    forall q: nat ensures BitAt(tape.tape[..], q) == Marked(q) {
      FourByteMarkedReads(q);
    }

    bits := [];
    for i := 0 to 32
      invariant |bits| == i
      invariant forall j | 0 <= j < i :: bits[j] == Marked(j)
    {
      var bit := tape.Read(i);
      bits := bits + [bit.value];
    }

    ghost var before := tape.tape[..];
    var unset3 := tape.Unset(3);
    unwrapped := unwrapped && unset3.Ok?;
    afterUnset := tape.Read(3);
    WithBitClearedReads(before, 3, 3);
  }

  /** The message of a range error on a 4-byte tape whose bit index renders as `digits`. */
  lemma FourByteMessage(e: RangeError, digits: string)
    requires e.sizeBytes == 4 && Decimal(e.bitIndex) == digits
    ensures Message(e) == "Bit index '" + digits + "' out of range for '4' bytes"
  {
    assert Decimal(4) == "4";
  }

  /** A two-digit bit index renders as its two digits. */
  lemma TwoDigits(n: nat)
    requires 10 <= n < 100
    ensures Decimal(n) == [DigitChar(n / 10), DigitChar(n % 10)]
  {
  }

  /** The pieces of the message for bit 32 spell out the text the test compares with. */
  lemma Spelled32()
    ensures "Bit index '" + "32" + "' out of range for '4' bytes" == "Bit index '32' out of range for '4' bytes"
  {
  }

  /** The pieces of the message for bit 37 spell out the text the test compares with. */
  lemma Spelled37()
    ensures "Bit index '" + "37" + "' out of range for '4' bytes" == "Bit index '37' out of range for '4' bytes"
  {
  }

  /** The pieces of the message for bit 41 spell out the text the test compares with. */
  lemma Spelled41()
    ensures "Bit index '" + "41" + "' out of range for '4' bytes" == "Bit index '41' out of range for '4' bytes"
  {
  }

  /** The message `test_out_of_bounds` expects for reading bit 32. */
  lemma Message32(e: RangeError)
    requires e == OutOfRange(32, 4)
    ensures Message(e) == "Bit index '32' out of range for '4' bytes"
  {
    TwoDigits(e.bitIndex);
    FourByteMessage(e, "32");
    Spelled32();
  }

  /** The message `test_out_of_bounds` expects for setting bit 37. */
  lemma Message37(e: RangeError)
    requires e == OutOfRange(37, 4)
    ensures Message(e) == "Bit index '37' out of range for '4' bytes"
  {
    TwoDigits(e.bitIndex);
    FourByteMessage(e, "37");
    Spelled37();
  }

  /** The message `test_out_of_bounds` expects for unsetting bit 41. */
  lemma Message41(e: RangeError)
    requires e == OutOfRange(41, 4)
    ensures Message(e) == "Bit index '41' out of range for '4' bytes"
  {
    TwoDigits(e.bitIndex);
    FourByteMessage(e, "41");
    Spelled41();
  }

  /**
   * `test_out_of_bounds` on a 4-byte tape: bit 31 reads and sets, while reading bit 32, setting
   * bit 37 and unsetting bit 41 fail with the range error and its message.
   */
  method OutOfBoundsScenario() returns (read31: Result<bool, RangeError>, read32: Result<bool, RangeError>,
                                        set31: Result<Unit, RangeError>, set37: Result<Unit, RangeError>,
                                        set31Again: Result<Unit, RangeError>, unset41: Result<Unit, RangeError>)
    ensures read31.Ok? && set31.Ok? && set31Again.Ok?
    ensures read32.Err? && Message(read32.error) == "Bit index '32' out of range for '4' bytes"
    ensures set37.Err? && Message(set37.error) == "Bit index '37' out of range for '4' bytes"
    ensures unset41.Err? && Message(unset41.error) == "Bit index '41' out of range for '4' bytes"
  {
    var tape := new BoundedTuringTape(4);
    read31 := tape.Read(31);
    read32 := tape.Read(32);
    set31 := tape.Set(31);
    set37 := tape.Set(37);
    set31Again := tape.Set(31);
    unset41 := tape.Unset(41);
    Message32(read32.error);
    Message37(set37.error);
    Message41(unset41.error);
  }
}
