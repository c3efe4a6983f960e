/**
 * The concrete program builder (src/compiler/turing_compiler.rs): a counter handing out fresh
 * state identifiers, and the program accumulated so far.
 */
module Compiler {

  import opened Wrappers
  import opened States
  import opened Instructions
  import opened Programs

  class TuringCompiler {

    var currentState: nat
    const program: TuringProgram

    ghost predicate Valid()
      reads this, program
    {
      program.Valid()
    }

    /** `TuringCompiler::default()`: counter 0 and an empty program. */
    constructor ()
      ensures Valid() && fresh(program)
      ensures currentState == 0 && program.instructions == map[]
    {
      currentState := 0;
      program := new TuringProgram();
    }

    /** `allocate_state`: hands out the counter's value and increments it by exactly one. */
    method AllocateState() returns (s: State)
      modifies this
      ensures s == State(old(currentState)) && currentState == old(currentState) + 1
    {
      var newState := currentState;
      currentState := currentState + 1;
      s := State.New(newState);
    }

    /** `get_halt_state`: always the reserved sentinel `usize::MAX`. */
    function GetHaltState(): (s: State)
      ensures s == HALT && s.Get() == USIZE_MAX
    {
      State.New(USIZE_MAX)
    }

    /** `get_instruction`: a lookup in the accumulated program. */
    function GetInstruction(state: State, readBit: bool): (r: Option<Instruction>)
      reads this, program
      ensures r == Lookup(program.instructions, state.id, readBit)
    {
      program.Get(state.Get(), readBit)
    }

    /** `add_instruction`: exactly the program's own `add_instruction`. */
    method AddInstruction(i: Instruction)
      requires Valid()
      modifies program
      ensures Valid()
      ensures program.instructions == Insert(old(program.instructions), i)
    {
      program.AddInstruction(i);
    }

    /** `add_instructions`: one `add_instruction` after the other, in order. */
    method AddInstructions(batch: seq<Instruction>)
      requires Valid()
      modifies program
      ensures Valid()
      ensures program.instructions == InsertAll(old(program.instructions), batch)
    {
      for k := 0 to |batch|
        invariant Valid()
        invariant program.instructions == InsertAll(old(program.instructions), batch[..k])
      {
        assert batch[..k + 1][..k] == batch[..k];
        AddInstruction(batch[k]);
      }
      assert batch[..|batch|] == batch;
    }

    /** `get_program`: a copy, so later additions to the compiler do not reach it. */
    method GetProgram() returns (p: TuringProgram)
      requires Valid()
      ensures fresh(p) && p.Valid()
      ensures p.instructions == program.instructions
    {
      p := program.Clone();
    }
  }

  /** While the counter stays below `usize::MAX`, the state it hands out is never the halt state. */
  lemma AllocatedIsNotHalt(counter: nat)
    requires counter < USIZE_MAX
    ensures State(counter) != HALT
  {
  }
}
