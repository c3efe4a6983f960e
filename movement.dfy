/** The head movement carried by an instruction (src/enums/movement.rs). */
module Movements {

  import opened Wrappers

  datatype Movement = Stay | Left | Right

  /** `Movement::default()`: the derived default is the variant marked `#[default]`. */
  function DefaultMovement(): (m: Movement)
    ensures m.Stay?
  {
    Stay
  }

  /** `get_code_string`: the one-letter code used when an instruction is rendered. */
  function CodeString(m: Movement): (code: string)
    ensures |code| == 1
    ensures m.Stay? <==> code == "S"
    ensures m.Left? <==> code == "L"
    ensures m.Right? <==> code == "R"
  {
    match m
    case Stay => "S"
    case Left => "L"
    case Right => "R"
  }

  /**
   * The inverse of CodeString, for the proofs: the source only renders codes and never reads
   * them back.
   */
  function FromCode(code: string): (m: Option<Movement>)
    ensures m.Some? <==> code in {"S", "L", "R"}
  {
    if code == "S" then Some(Stay)
    else if code == "L" then Some(Left)
    else if code == "R" then Some(Right)
    else None
  }

  /** The code of a movement reads back as that movement. */
  lemma CodeRoundTrip(m: Movement)
    ensures FromCode(CodeString(m)) == Some(m)
  {
  }

  /** A code that reads as a movement is that movement's code. */
  lemma FromCodeSound(code: string, m: Movement)
    requires FromCode(code) == Some(m)
    ensures CodeString(m) == code
  {
  }

  /** The three codes are pairwise distinct, so the code determines the movement. */
  lemma CodeStringInjective(m1: Movement, m2: Movement)
    ensures CodeString(m1) == CodeString(m2) <==> m1 == m2
  {
    CodeRoundTrip(m1);
    CodeRoundTrip(m2);
  }

  /** There are exactly three movements. */
  lemma ExactlyThreeMovements(m: Movement)
    ensures m == Stay || m == Left || m == Right
  {
  }
}
