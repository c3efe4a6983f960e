/**
 * The interpreter (src/machine/turing_machine.rs): a tape, a head position, a current state and a
 * program. One step reads the bit under the head, looks up (state, bit) and either applies the
 * instruction, stops cleanly in the halt state, or reports a dangling state.
 */
module Machine {

  import opened Wrappers
  import opened Movements
  import opened States
  import opened Instructions
  import opened Programs
  import opened Tape

  /** What the machine's fields hold between two steps. */
  datatype Config = Config(tape: seq<bv8>, head: nat, state: State)

  /** `move_right`: one cell right, allocating the byte that holds the new head. */
  function MovedRight(c: Config): Config
  {
    Config(Covered(c.tape, c.head + 1), c.head + 1, c.state)
  }

  /** `move_left`: one cell left; from cell 0, prepend a byte and land on its last bit, 7. */
  function MovedLeft(c: Config): Config
  {
    if c.head == 0 then Config(Zeros(1) + c.tape, 7, c.state)
    else Config(c.tape, c.head - 1, c.state)
  }

  /** The movement part of `process_instruction`; `Stay` does nothing. */
  function Moved(c: Config, m: Movement): Config
  {
    match m
    case Stay => c
    case Left => MovedLeft(c)
    case Right => MovedRight(c)
  }

  /** The write part of `process_instruction`: `set` or `unset` at the head. */
  function Written(c: Config, bit: bool): Config
  {
    Config(if bit then WithBitSet(c.tape, c.head) else WithBitCleared(c.tape, c.head), c.head, c.state)
  }

  /** `process_instruction` followed by the state update of `program_step`. */
  function Process(c: Config, i: Instruction): Config
  {
    Moved(Written(c, i.writeBit), i.movement).(state := State(i.nextState))
  }

  /** How a step ended: an instruction applied, a clean stop in the halt state, or a fault. */
  datatype StepOutcome = Continue | Stop | DanglingState

  datatype StepResult = StepResult(outcome: StepOutcome, config: Config)

  /** `program_step`. Reading the head's bit may grow the tape, whichever way the step ends. */
  function Step(t: Table, c: Config): StepResult
  {
    var afterRead := c.(tape := Covered(c.tape, c.head));
    match Lookup(t, c.state.id, BitAt(c.tape, c.head))
    case Some(i) => StepResult(Continue, Process(afterRead, i))
    case None =>
      if c.state.id == USIZE_MAX then StepResult(Stop, afterRead)
      else StepResult(DanglingState, afterRead)
  }

  /** How a run ended: halted cleanly, aborted on a dangling state, or ran out of fuel. */
  datatype RunOutcome = Halted | Dangling | OutOfFuel

  datatype RunResult = RunResult(outcome: RunOutcome, config: Config)

  /** `run_program` with at most `fuel` calls of `program_step`. */
  function Run(t: Table, c: Config, fuel: nat): RunResult
    decreases fuel, 1
  {
    if fuel == 0 then RunResult(OutOfFuel, c) else RunAfter(t, Step(t, c), fuel - 1)
  }

  /** The rest of a run once a step has produced `s`: go on only if it continued. */
  function RunAfter(t: Table, s: StepResult, fuel: nat): RunResult
    decreases fuel + 1, 0
  {
    match s.outcome
    case Continue => Run(t, s.config, fuel)
    case Stop => RunResult(Halted, s.config)
    case DanglingState => RunResult(Dangling, s.config)
  }

  /** The bits of a configuration after writing `bit` at its head. */
  ghost predicate WrittenView(c: Config, bit: bool, j: nat)
  {
    if j == c.head then bit else BitAt(c.tape, j)
  }

  /** `move_right` adds one to the head, covers it, and changes no bit. */
  lemma MovedRightFacts(c: Config, j: nat)
    ensures MovedRight(c).head == c.head + 1 && MovedRight(c).state == c.state
    ensures MovedRight(c).head / 8 < |MovedRight(c).tape|
    ensures BitAt(MovedRight(c).tape, j) == BitAt(c.tape, j)
  {
    CoveredKeepsBits(c.tape, c.head + 1, j);
  }

  /**
   * `move_left` at cell 0 lands on 7 and prepends a zero byte, so a bit formerly at j reads at
   * j + 8; at any other cell it subtracts one and leaves the tape alone.
   */
  lemma MovedLeftFacts(c: Config, j: nat)
    ensures MovedLeft(c).state == c.state
    ensures c.head == 0 ==> MovedLeft(c).head == 7
    ensures c.head == 0 ==> BitAt(MovedLeft(c).tape, j) == (j >= 8 && BitAt(c.tape, j - 8))
    ensures c.head > 0 ==> MovedLeft(c).head == c.head - 1 && MovedLeft(c).tape == c.tape
  {
    PrependedReads(c.tape, 1, j);
  }

  /**
   * A step with an instruction for (state, bit under the head) writes the instruction's bit at
   * the head, applies its movement and takes its next state; every other bit keeps its value
   * (shifted by 8 when the head moved left from cell 0).
   */
  lemma StepWithInstruction(t: Table, c: Config, i: Instruction, j: nat)
    requires Lookup(t, c.state.id, BitAt(c.tape, c.head)) == Some(i)
    ensures Step(t, c).outcome == Continue
    ensures Step(t, c).config.state == State(i.nextState)
    ensures i.movement == Stay ==> Step(t, c).config.head == c.head
    ensures i.movement == Right ==> Step(t, c).config.head == c.head + 1
    ensures i.movement == Left && c.head > 0 ==> Step(t, c).config.head == c.head - 1
    ensures i.movement == Left && c.head == 0 ==> Step(t, c).config.head == 7
    ensures !(i.movement == Left && c.head == 0) ==>
      BitAt(Step(t, c).config.tape, j) == WrittenView(c, i.writeBit, j)
    ensures i.movement == Left && c.head == 0 ==>
      BitAt(Step(t, c).config.tape, j) == (j >= 8 && WrittenView(c, i.writeBit, j - 8))
  {
    var afterRead := c.(tape := Covered(c.tape, c.head));
    var w := Written(afterRead, i.writeBit);
    assert Step(t, c) == StepResult(Continue, Process(afterRead, i));
    CoveredWrittenReads(c, i.writeBit, j);
    if j >= 8 {
      CoveredWrittenReads(c, i.writeBit, j - 8);
    }
    MovedRightFacts(w, j);
    MovedLeftFacts(w, j);
  }

  /** Covering the head's byte and then writing `bit` there reads as `WrittenView`. */
  lemma CoveredWrittenReads(c: Config, bit: bool, j: nat)
    ensures BitAt(Written(c.(tape := Covered(c.tape, c.head)), bit).tape, j) == WrittenView(c, bit, j)
  {
    CoveredKeepsBits(c.tape, c.head, j);
    if bit {
      WithBitSetReads(Covered(c.tape, c.head), c.head, j);
    } else {
      WithBitClearedReads(Covered(c.tape, c.head), c.head, j);
    }
  }

  /** With no instruction in the halt state, the step stops cleanly; head, state and bits stay. */
  lemma StepStopsInHalt(t: Table, c: Config, j: nat)
    requires Lookup(t, c.state.id, BitAt(c.tape, c.head)) == None && c.state == HALT
    ensures Step(t, c).outcome == Stop
    ensures Step(t, c).config.head == c.head && Step(t, c).config.state == c.state
    ensures BitAt(Step(t, c).config.tape, j) == BitAt(c.tape, j)
  {
    CoveredKeepsBits(c.tape, c.head, j);
  }

  /** With no instruction in any other state, the step is a dangling-state fault. */
  lemma StepDanglesElsewhere(t: Table, c: Config)
    requires Lookup(t, c.state.id, BitAt(c.tape, c.head)) == None && c.state != HALT
    ensures Step(t, c).outcome == DanglingState
  {
  }

  /** A run with fuel left continues exactly as the run from the configuration one step later. */
  lemma RunUnfold(t: Table, c: Config, fuel: nat)
    requires Step(t, c).outcome == Continue
    ensures Run(t, c, fuel + 1) == Run(t, Step(t, c).config, fuel)
  {
  }

  /**
   * How a run can end: with no fuel spent it is out of fuel where it started; a halted run sits
   * in the halt state with no instruction for the bit under its head, and a dangling run sits in
   * another state with no instruction for that bit.
   */
  lemma {:induction false} RunEnds(t: Table, c: Config, fuel: nat)
    ensures fuel == 0 ==> Run(t, c, fuel) == RunResult(OutOfFuel, c)
    ensures var r := Run(t, c, fuel).config;
      Run(t, c, fuel).outcome == Halted ==> r.state == HALT && Lookup(t, r.state.id, BitAt(r.tape, r.head)) == None
    ensures var r := Run(t, c, fuel).config;
      Run(t, c, fuel).outcome == Dangling ==> r.state != HALT && Lookup(t, r.state.id, BitAt(r.tape, r.head)) == None
    decreases fuel
  {
    if fuel > 0 {
      var s := Step(t, c);
      if s.outcome == Continue {
        RunEnds(t, s.config, fuel - 1);
      } else {
        CoveredKeepsBits(c.tape, c.head, c.head);
      }
    }
  }

  /** The machine: its fields are updated in place by every step. */
  class TuringMachine {

    var tape: TuringTape
    var head: nat
    var state: State
    var program: TuringProgram

    /** The configuration the fields currently hold. */
    ghost function Cfg(): Config
      reads this, tape
    {
      Config(tape.bytes, head, state)
    }

    /** `TuringMachine::default()`: empty tape, head 0, state 0, empty program. */
    constructor ()
      ensures fresh(tape) && fresh(program)
      ensures tape.bytes == [] && head == 0 && state == DefaultState()
      ensures program.instructions == map[]
    {
      tape := new TuringTape();
      head := 0;
      state := DefaultState();
      program := new TuringProgram();
    }

    /** `set_program` (and `with_program`): the machine now replays `p`. */
    method SetProgram(p: TuringProgram)
      modifies this
      ensures program == p && tape == old(tape) && head == old(head) && state == old(state)
    {
      program := p;
    }

    /** `set_tape` (and `with_tape`): the machine now works on `t`. */
    method SetTape(t: TuringTape)
      modifies this
      ensures tape == t && program == old(program) && head == old(head) && state == old(state)
    {
      tape := t;
    }

    /** `set_head`. */
    method SetHead(h: nat)
      modifies this
      ensures head == h && tape == old(tape) && program == old(program) && state == old(state)
    {
      head := h;
    }

    /** `read`: the bit under the head. */
    method Read() returns (bit: bool)
      modifies tape
      ensures bit == BitAt(old(tape.bytes), head)
      ensures tape.bytes == Covered(old(tape.bytes), head)
    {
      bit := tape.Read(head);
    }

    /** `set`: writes 1 under the head. */
    method Set()
      modifies tape
      ensures tape.bytes == WithBitSet(old(tape.bytes), head)
    {
      tape.Set(head);
    }

    /** `unset`: writes 0 under the head. */
    method Unset()
      modifies tape
      ensures tape.bytes == WithBitCleared(old(tape.bytes), head)
    {
      tape.Unset(head);
    }

    /** `move_right`. */
    method MoveRight()
      modifies this, tape
      ensures tape == old(tape) && program == old(program)
      ensures Cfg() == MovedRight(old(Cfg()))
    {
      head := head + 1;
      tape.AllocateTillBitIndex(head);
    }

    /** `move_left`. */
    method MoveLeft()
      modifies this, tape
      ensures tape == old(tape) && program == old(program)
      ensures Cfg() == MovedLeft(old(Cfg()))
    {
      if head == 0 {
        head := 7;
        tape.AllocateLeft(1);
      } else {
        head := head - 1;
      }
    }

    /** `process_instruction`: writes and moves, and returns the next state without taking it. */
    method ProcessInstruction(i: Instruction) returns (next: State)
      modifies this, tape
      ensures tape == old(tape) && program == old(program) && state == old(state)
      ensures Config(tape.bytes, head, next) == Process(old(Cfg()), i)
    {
      if i.writeBit {
        Set();
      } else {
        Unset();
      }
      match i.movement {
        case Left => MoveLeft();
        case Right => MoveRight();
        case Stay =>
      }
      next := State(i.nextState);
    }

    /** `program_step`; the panic on a dangling state is the `DanglingState` outcome. */
    method ProgramStep() returns (outcome: StepOutcome)
      modifies this, tape
      ensures tape == old(tape) && program == old(program)
      ensures StepResult(outcome, Cfg()) == Step(program.instructions, old(Cfg()))
    {
      var currentBit := Read();
      var current := program.Get(state.Get(), currentBit);
      match current {
        case None =>
          if state.Get() == USIZE_MAX {
            return Stop;
          } else {
            return DanglingState;
          }
        case Some(i) =>
          state := ProcessInstruction(i);
          outcome := Continue;
      }
    }

    /** `run_program`: steps until a step does not continue, here for at most `fuel` steps. */
    method RunProgram(fuel: nat) returns (outcome: RunOutcome)
      modifies this, tape
      ensures tape == old(tape) && program == old(program)
      ensures RunResult(outcome, Cfg()) == Run(program.instructions, old(Cfg()), fuel)
    {
      var remaining := fuel;
      while remaining > 0
        invariant tape == old(tape) && program == old(program)
        invariant Run(program.instructions, Cfg(), remaining) == Run(program.instructions, old(Cfg()), fuel)
        decreases remaining
      {
        var stepped := ProgramStep();
        if stepped == Stop {
          return Halted;
        } else if stepped == DanglingState {
          return Dangling;
        }
        remaining := remaining - 1;
      }
      outcome := OutOfFuel;
    }

    /** `reset_state_information`: a fresh empty tape, state 0 and head 0. */
    method ResetStateInformation()
      modifies this
      ensures fresh(tape) && tape.bytes == []
      ensures state == DefaultState() && head == 0 && program == old(program)
    {
      tape := new TuringTape();
      state := DefaultState();
      head := 0;
    }

    /** `reset_state_but_persist_tape`: only the state goes back to 0. */
    method ResetStateButPersistTape()
      modifies this
      ensures state == DefaultState()
      ensures tape == old(tape) && head == old(head) && program == old(program)
    {
      state := DefaultState();
    }
  }
}
