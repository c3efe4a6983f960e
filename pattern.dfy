/** A fixed-length bit pattern (src/compiler/structures/pattern.rs). */
module Patterns {

  import opened Wrappers

  /** The panic of indexing past the end of a pattern. */
  datatype IndexError = IndexOutOfBounds(index: nat, len: nat)

  datatype Pattern = Pattern(bits: seq<bool>) {

    /** `Pattern::new`. */
    static function New(bits: seq<bool>): (p: Pattern)
      ensures p.Get() == bits && p.Len() == |bits|
    {
      Pattern(bits)
    }

    /** `get`: the bits the pattern was made from. */
    function Get(): (r: seq<bool>)
      ensures Pattern(r) == this
    {
      bits
    }

    /** `len`. */
    function Len(): (r: nat)
      ensures r == |Get()|
    {
      |bits|
    }

    /** `get_at`: the bit at `index`, or the bounds-check failure; it never wraps around. */
    function GetAt(index: nat): (r: Result<bool, IndexError>)
      ensures r.Ok? <==> index < Len()
      ensures r.Ok? ==> r.value == Get()[index]
      ensures r.Err? ==> r.error == IndexOutOfBounds(index, Len())
    {
      if index < |bits| then Ok(bits[index]) else Err(IndexOutOfBounds(index, |bits|))
    }
  }

  /**
   * The bit the i-th step of a pass over the pattern addresses: taken from the back when the pass
   * moves left, so that the pattern keeps its left-to-right order on the tape.
   */
  function TargetBit(p: Pattern, i: nat, leftward: bool): (b: bool)
    requires i < p.Len()
    ensures leftward ==> p.GetAt(p.Len() - 1 - i) == Ok(b)
    ensures !leftward ==> p.GetAt(i) == Ok(b)
  {
    if leftward then p.bits[|p.bits| - 1 - i] else p.bits[i]
  }
}
