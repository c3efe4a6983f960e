/**
 * The growable tape's own test (src/machine/turing_tape.rs), as a method on a default
 * `TuringTape`: three bits set, every bit of the first four bytes read back, then one unset.
 */
module TapeScenarios {

  import opened Tape

  /** The bits `test_set_unset_read` sets. */
  predicate Marked(i: nat)
  {
    i == 7 || i == 13 || i == 19
  }

  /** Setting bits 7, 13 and 19 of an empty tape reads 1 exactly on them. */
  lemma MarkedReads(q: nat)
    ensures BitAt(WithBitSet(WithBitSet(WithBitSet([], 7), 13), 19), q) == Marked(q)
  {
    var b0 := WithBitSet([], 7);
    var b1 := WithBitSet(b0, 13);
    WithBitSetReads([], 7, q);
    WithBitSetReads(b0, 13, q);
    WithBitSetReads(b1, 19, q);
    EmptyReadsZero(q);
  }

  /**
   * `test_set_unset_read`: after setting bits 7, 13 and 19 of a default tape, reading bits 0 to
   * 31 gives 1 exactly on those three; unsetting bit 3 afterwards leaves it reading 0.
   */
  method SetUnsetReadScenario() returns (bits: seq<bool>, afterUnset: bool)
    ensures |bits| == 32 && forall i | 0 <= i < 32 :: bits[i] == Marked(i)
    ensures !afterUnset
  {
    var tape := new TuringTape();
    tape.Set(7);
    tape.Set(13);
    tape.Set(19);
    forall q: nat ensures BitAt(tape.bytes, q) == Marked(q) {
      MarkedReads(q);
    }

    bits := [];
    for i := 0 to 32
      invariant |bits| == i
      invariant forall j | 0 <= j < i :: bits[j] == Marked(j)
      invariant forall q: nat :: BitAt(tape.bytes, q) == Marked(q)
    {
      ghost var before := tape.bytes;
      var bit := tape.Read(i);
      forall q: nat ensures BitAt(tape.bytes, q) == Marked(q) {
        CoveredKeepsBits(before, i, q);
      }
      bits := bits + [bit];
    }

    ghost var before := tape.bytes;
    tape.Unset(3);
    afterUnset := tape.Read(3);
    WithBitClearedReads(before, 3, 3);
  }
}
