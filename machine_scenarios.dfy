/**
 * The machine's own tests (src/machine/turing_machine.rs), as methods on a fresh
 * `TuringMachine`: its head operations one call at a time, and a hand-written program run to
 * the halt.
 */
module MachineScenarios {

  import opened Movements
  import opened States
  import opened Instructions
  import opened Programs
  import opened Tape
  import opened Machine
  import opened Execution
  import opened Runs

  /** The tape `[0, 3]`: a prepended zero byte before a byte with bits 0 and 1 set reads 1 at cells 8 and 9 only. */
  lemma ShiftedBytesRead()
    ensures forall q: nat :: BitAt([0, 3], q) == (q == 8 || q == 9)
  {
    var three := WithBitSet(WithBitSet([0], 0), 1);
    assert [0, 3] == Zeros(1) + three;
    forall q: nat ensures BitAt([0, 3], q) == (q == 8 || q == 9) {
      PrependedReads(three, 1, q);
      if q >= 8 {
        WithBitSetReads(WithBitSet([0], 0), 1, q - 8);
        WithBitSetReads([0], 0, q - 8);
        ZerosReadZero(1, q - 8);
        assert [0] == Zeros(1);
      }
    }
  }

  /**
   * `test_head_functionalities`: on a fresh machine, the reads after set, unset, a move right,
   * a set, a move left and, after setting cell 0, a move left that prepends a byte: the two
   * bits set earlier, at cells 0 and 1, now sit at cells 8 and 9.
   */
  method HeadScenario() returns (heads: seq<nat>, bits: seq<bool>, bytes: seq<bv8>)
    ensures heads == [0, 1, 0, 7]
    ensures bits == [false, true, false, false, true, false, false]
    ensures bytes == [0, 3]
    ensures forall q: nat :: BitAt(bytes, q) == (q == 8 || q == 9)
  {
    var tm := new TuringMachine();
    var h0 := tm.head;
    var r0 := tm.Read();
    assert tm.tape.bytes == [0];
    tm.Set();
    assert tm.tape.bytes == [1];
    var r1 := tm.Read();
    tm.Unset();
    assert tm.tape.bytes == [0];
    var r2 := tm.Read();
    tm.MoveRight();
    assert tm.head == 1 && tm.tape.bytes == [0];
    var h1 := tm.head;
    var r3 := tm.Read();
    tm.Set();
    assert tm.tape.bytes == [2];
    var r4 := tm.Read();
    tm.MoveLeft();
    var h2 := tm.head;
    var r5 := tm.Read();
    tm.Set();
    assert tm.tape.bytes == [3];
    tm.MoveLeft();
    assert tm.head == 7 && tm.tape.bytes == [0, 3];
    var h3 := tm.head;
    var r6 := tm.Read();
    heads := [h0, h1, h2, h3];
    bits := [r0, r1, r2, r3, r4, r5, r6];
    bytes := tm.tape.bytes;
    ShiftedBytesRead();
  }

  /**
   * `test_run_program`'s program: in state 0, on a 0 write it back and move right, staying in
   * state 0; on a 1 write it back, stay and enter the halt state. A search for the first 1.
   */
  function SearchProgram(): (t: Table)
    ensures ScanSingleAt(t, State(0), HALT, true, Right, Stay)
    ensures forall b: bool :: Lookup(t, USIZE_MAX, b).None?
  {
    Insert(Insert(map[], Instruction(0, false, false, Right, 0)), Instruction(0, true, true, Stay, USIZE_MAX))
  }

  /** The search halts on the first 1 to the right of the head, `k` cells away, after `k + 2` steps and changes no bit. */
  lemma SearchRuns(tape: seq<bv8>, h: nat, k: nat, fuel: nat)
    requires forall q | h <= q < h + k :: !BitAt(tape, q)
    requires BitAt(tape, h + k) && fuel >= k + 2
    ensures Run(SearchProgram(), Config(tape, h, State(0)), fuel).outcome == Halted
    ensures Run(SearchProgram(), Config(tape, h, State(0)), fuel).config.head == h + k
    ensures forall q :: BitAt(Run(SearchProgram(), Config(tape, h, State(0)), fuel).config.tape, q) == BitAt(tape, q)
  {
    var t := SearchProgram();
    forall o | 0 <= o < k ensures BitAt(tape, Toward(h, o, Right)) != true {
    }
    var cs := ScanSingleChain(t, State(0), HALT, true, Right, Stay, tape, h, k);
    forall q ensures BitAt(Step(t, Last(cs)).config.tape, q) == BitAt(tape, q) {
      StepStopsInHalt(t, Last(cs), q);
    }
    RunToHalt(t, cs, fuel);
  }

  /** `test_run_program`'s program, built instruction by instruction the way the test builds it. */
  method BuildSearchProgram() returns (program: TuringProgram)
    ensures program.instructions == SearchProgram()
  {
    var instruction0 := Instruction.New(State(0).Get(), false, false).WithMovement(Right).WithNextState(State(0).Get());
    var instruction1 := Instruction.New(State(0).Get(), true, true).WithMovement(Stay).WithNextState(State(USIZE_MAX).Get());
    BuilderChain(0, false, false, Right, 0);
    BuilderChain(0, true, true, Stay, USIZE_MAX);
    program := new TuringProgram();
    program.AddInstruction(instruction0);
    program.AddInstruction(instruction1);
  }

  /** `test_run_program`'s machine: a tape with only cell 13 set, then the program, head on 0 in state 0. */
  method SearchMachine() returns (tm: TuringMachine)
    ensures fresh(tm) && fresh(tm.tape)
    ensures tm.program.instructions == SearchProgram()
    ensures tm.head == 0 && tm.state == State(0)
    ensures forall q: nat :: BitAt(tm.tape.bytes, q) == (q == 13)
  {
    var program := BuildSearchProgram();
    var tape := new TuringTape();
    tape.Set(13);
    forall q: nat ensures BitAt(tape.bytes, q) == (q == 13) {
      WithBitSetReads([], 13, q);
    }
    tm := new TuringMachine();
    tm.SetTape(tape);
    tm.SetProgram(program);
  }

  /** `test_run_program`: with only cell 13 set, the search from cell 0 halts on cell 13, which reads 1. */
  method RunProgramScenario() returns (head: nat, bit: bool)
    ensures head == 13 && bit
  {
    var tm := SearchMachine();
    SearchRuns(tm.tape.bytes, 0, 13, 15);
    var _ := tm.RunProgram(15);
    bit := tm.Read();
    head := tm.head;
  }
}
