/** One transition rule of the table (src/machine/instruction.rs). */
module Instructions {

  import opened Movements

  /**
   * In state `currentState` reading `readBit`: write `writeBit`, apply `movement`, go to `nextState`.
   * States are stored as bare identifiers, as in the source.
   */
  datatype Instruction = Instruction(
    currentState: nat,
    readBit: bool,
    writeBit: bool,
    movement: Movement,
    nextState: nat)
  {
    /** `Instruction::new`: no movement, and the next state is the current one (a self-loop). */
    static function New(currentState: nat, readBit: bool, writeBit: bool): (i: Instruction)
      ensures i.currentState == currentState && i.readBit == readBit && i.writeBit == writeBit
      ensures i.movement == DefaultMovement()
      ensures i.nextState == i.currentState
    {
      Instruction(currentState, readBit, writeBit, DefaultMovement(), currentState)
    }

    /** `with_movement`: a copy whose movement is replaced and whose other fields are kept. */
    function WithMovement(m: Movement): (i: Instruction)
      ensures i.movement == m
      ensures i.currentState == currentState && i.readBit == readBit
      ensures i.writeBit == writeBit && i.nextState == nextState
    {
      this.(movement := m)
    }

    /** `with_next_state`: a copy whose next state is replaced and whose other fields are kept. */
    function WithNextState(n: nat): (i: Instruction)
      ensures i.nextState == n
      ensures i.currentState == currentState && i.readBit == readBit
      ensures i.writeBit == writeBit && i.movement == movement
    {
      this.(nextState := n)
    }

    /** `get_read_bit_number`: the read bit as 0 or 1. */
    function ReadBitNumber(): (n: nat)
      ensures n <= 1
      ensures n == 1 <==> readBit
    {
      if readBit then 1 else 0
    }

    /** `get_write_bit_number`: the written bit as 0 or 1. */
    function WriteBitNumber(): (n: nat)
      ensures n <= 1
      ensures n == 1 <==> writeBit
    {
      if writeBit then 1 else 0
    }
  }

  /** The two builder steps touch different fields, so their order does not matter. */
  lemma WithersCommute(i: Instruction, m: Movement, n: nat)
    ensures i.WithMovement(m).WithNextState(n) == i.WithNextState(n).WithMovement(m)
  {
  }

  /** A second `with_movement` overrides the first. */
  lemma WithMovementLastWins(i: Instruction, m1: Movement, m2: Movement)
    ensures i.WithMovement(m1).WithMovement(m2) == i.WithMovement(m2)
  {
  }

  /** A second `with_next_state` overrides the first. */
  lemma WithNextStateLastWins(i: Instruction, n1: nat, n2: nat)
    ensures i.WithNextState(n1).WithNextState(n2) == i.WithNextState(n2)
  {
  }

  /** The builder chain the generator uses spells out every field of the instruction. */
  lemma BuilderChain(s: nat, r: bool, w: bool, m: Movement, n: nat)
    ensures Instruction.New(s, r, w).WithNextState(n).WithMovement(m) == Instruction(s, r, w, m, n)
    ensures Instruction.New(s, r, w).WithMovement(m).WithNextState(n) == Instruction(s, r, w, m, n)
  {
  }
}
