/**
 * The repository's end-to-end tests, as methods: each builds a program with the compiler the
 * way the test does (a state for the block, then `halt(None)`, then the block from the first
 * state to the halt block), loads it into a fresh machine, runs it, and promises what the test
 * asserts. `run_program` runs until the program stops; here it is given a step budget that the
 * run theorems show is enough.
 */
module Scenarios {

  import opened Wrappers
  import opened Movements
  import opened States
  import opened Instructions
  import opened Programs
  import opened Patterns
  import opened Tape
  import opened Machine
  import opened Compiler
  import opened PrimitiveLayer
  import opened BaseLayer
  import opened PatternLayer
  import opened Execution
  import opened Runs

  /**
   * The tests' preamble: a fresh compiler allocates state 0 for the block under test, then
   * `halt(None)` allocates state 1 and emits the halt block there.
   */
  method Preamble() returns (c: TuringCompiler, blockState: State, done: State)
    ensures fresh(c) && fresh(c.program) && c.Valid()
    ensures blockState == State(0) && done == State(1) && c.currentState == 2
    ensures c.program.instructions == HaltTable()
  {
    c := new TuringCompiler();
    blockState := c.AllocateState();
    done := Halt(c, None);
  }

  /**
   * Load a program and a tape into a fresh machine, put the head on `h` and run it: the run
   * starts in state 0 and ends where the machine's `run_program` ends.
   */
  method RunOn(program: TuringProgram, bytes: seq<bv8>, h: nat, fuel: nat) returns (result: RunResult)
    ensures result == Run(program.instructions, Config(bytes, h, State(0)), fuel)
  {
    var tm := new TuringMachine();
    var tape := new TuringTape();
    tape.bytes := bytes;
    tm.SetTape(tape);
    tm.SetProgram(program);
    tm.SetHead(h);
    var outcome := tm.RunProgram(fuel);
    result := RunResult(outcome, Config(tm.tape.bytes, tm.head, tm.state));
  }

  /** The tests' preamble and one block: `allocate_state`, `halt(None)`, then `move_right_x(x)` between them. */
  method CompileMoveRightX(x: nat) returns (program: TuringProgram)
    requires 1 <= x
    ensures program.instructions == ChainProgram(MoveRightStep, x)
  {
    var c, moveState, done := Preamble();
    var _ := MoveRightX(c, x, Some(moveState), Some(done));
    program := c.GetProgram();
  }

  /** Compiling `move_right_x(x)` and running it from cell `h`: it halts `x` cells to the right, the tape unchanged. */
  method RunMoveRightX(x: nat, bytes: seq<bv8>, h: nat, fuel: nat) returns (outcome: RunOutcome, head: nat, after: seq<bv8>)
    requires 1 <= x < USIZE_MAX - 1 && fuel >= x + 2
    ensures outcome == Halted && head == h + x
    ensures forall q :: BitAt(after, q) == BitAt(bytes, q)
  {
    var program := CompileMoveRightX(x);
    var result := RunOn(program, bytes, h, fuel);
    MoveRightXRuns(x, bytes, h, fuel);
    outcome, head, after := result.outcome, result.config.head, result.config.tape;
  }

  /** `test_move_right_x`: 53 moves right from cell 0 end on cell 53. */
  method MoveRightXScenario() returns (outcome: RunOutcome, head: nat)
    ensures outcome == Halted && head == 53
  {
    var after;
    outcome, head, after := RunMoveRightX(53, [], 0, 55);
  }

  /** The tests' preamble, then `move_left_x(x)` from the first state to the halt block. */
  method CompileMoveLeftX(x: nat) returns (program: TuringProgram)
    requires 1 <= x
    ensures program.instructions == ChainProgram(MoveLeftStep, x)
  {
    var c, moveState, done := Preamble();
    var _ := MoveLeftX(c, x, Some(moveState), Some(done));
    program := c.GetProgram();
  }

  /** Compiling `move_left_x(x)` and running it from cell `h`: it halts on `LeftHead(h, x)`. */
  method RunMoveLeftX(x: nat, bytes: seq<bv8>, h: nat, fuel: nat) returns (outcome: RunOutcome, head: nat)
    requires 1 <= x < USIZE_MAX - 1 && fuel >= x + 2
    ensures outcome == Halted && head == LeftHead(h, x)
  {
    var program := CompileMoveLeftX(x);
    var result := RunOn(program, bytes, h, fuel);
    MoveLeftXRuns(x, bytes, h, fuel);
    outcome, head := result.outcome, result.config.head;
  }

  /** `test_move_left_x`: 5 moves left from cell 0 wrap once into a prepended byte and end on cell 3. */
  method MoveLeftXScenario() returns (outcome: RunOutcome, head: nat)
    ensures outcome == Halted && head == 3
  {
    outcome, head := RunMoveLeftX(5, [], 0, 7);
  }

  /** The tests' preamble, then `scan_single(target, d, final)` from the first state to the halt block. */
  method CompileScanSingle(target: bool, d: Movement, final: Movement) returns (program: TuringProgram)
    ensures program.instructions == ScanSingleProgram(target, d, final)
  {
    var c, scanState, done := Preamble();
    var _, _ := ScanSingle(c, target, d, final, Some(scanState), Some(done));
    program := c.GetProgram();
  }

  /**
   * Compiling `scan_single(target, d, final)` and running it from cell `h` on a tape whose first
   * `target` in direction `d` is `k` cells away: it halts there, moved once more by `final`, the tape unchanged.
   */
  method RunScanSingle(target: bool, d: Movement, final: Movement, bytes: seq<bv8>, h: nat, k: nat, fuel: nat)
    returns (outcome: RunOutcome, head: nat, after: seq<bv8>)
    requires d != Stay && (d == Left ==> k <= h) && fuel >= k + 3
    requires forall o | 0 <= o < k :: BitAt(bytes, Toward(h, o, d)) != target
    requires BitAt(bytes, Toward(h, k, d)) == target
    requires final == Left ==> Toward(h, k, d) > 0
    ensures outcome == Halted && head == Toward(Toward(h, k, d), 1, final)
    ensures forall q :: BitAt(after, q) == BitAt(bytes, q)
  {
    var program := CompileScanSingle(target, d, final);
    var result := RunOn(program, bytes, h, fuel);
    ScanSingleRuns(target, d, final, bytes, h, k, fuel);
    outcome, head, after := result.outcome, result.config.head, result.config.tape;
  }

  /** `test_scan_single`: scanning right for a 1 from cell 0 stops on the only set cell, 2763. */
  method ScanSingleScenario() returns (outcome: RunOutcome, head: nat)
    ensures outcome == Halted && head == 2763
  {
    var tape := new TuringTape();
    tape.Set(2763);
    forall o | 0 <= o <= 2763 ensures BitAt(tape.bytes, o) == (o == 2763) {
      WithBitSetReads([], 2763, o);
    }
    var after;
    outcome, head, after := RunScanSingle(true, Right, Stay, tape.bytes, 0, 2763, 2766);
  }

  /** The pattern of the pattern layer's tests: 1 1 0 0 0 1 0 1. */
  function TestPattern(): (p: Pattern)
    ensures p.Len() == 8
  {
    Pattern.New([true, true, false, false, false, true, false, true])
  }

  /** The tests' preamble, then `write_pattern(p, d, final)` from the first state to the halt block. */
  method CompileWritePattern(p: Pattern, d: Movement, final: Movement) returns (program: TuringProgram)
    requires 1 <= p.Len()
    ensures program.instructions == ChainProgram(WritePatternBit(p, d, final), p.Len())
  {
    var c, writeState, done := Preamble();
    var _ := WritePattern(c, p, d, final, Some(writeState), Some(done));
    program := c.GetProgram();
  }

  /** The first half of `test_write_pattern`: written rightward from cell 0 the pattern lands on cells 0 to 7, head on 7. */
  method WritePatternRightScenario() returns (head: nat, bytes: seq<bv8>)
    ensures head == 7 && forall q | 0 <= q < 8 :: BitAt(bytes, q) == TestPattern().bits[q]
  {
    var p := TestPattern();
    var outcome;
    outcome, head, bytes := RunWritePattern(p, Right, Stay, [], 0, 10);
    forall q | 0 <= q < 8 ensures BitAt(bytes, q) == p.bits[q] {
      assert Swept(0, 8, Right, q) && Offset(0, Right, q) == q;
    }
  }

  /**
   * Compiling `write_pattern(p, d, final)` and running it from cell `h`, with room to its left when
   * `d` is `Left`: it halts past the last written cell and the tape holds the pattern (`AfterWrite`).
   */
  method RunWritePattern(p: Pattern, d: Movement, final: Movement, bytes: seq<bv8>, h: nat, fuel: nat)
    returns (outcome: RunOutcome, head: nat, after: seq<bv8>)
    requires 1 <= p.Len() < USIZE_MAX - 1 && fuel >= p.Len() + 2
    requires d != Stay && (d == Left ==> p.Len() - 1 <= h)
    requires final == Left ==> Toward(h, p.Len() - 1, d) > 0
    ensures outcome == Halted && head == Toward(Toward(h, p.Len() - 1, d), 1, final)
    ensures forall q :: BitAt(after, q) == AfterWrite(bytes, p, d, 0, h, q)
  {
    var program := CompileWritePattern(p, d, final);
    var result := RunOn(program, bytes, h, fuel);
    WritePatternRuns(p, d, final, bytes, h, fuel);
    outcome, head, after := result.outcome, result.config.head, result.config.tape;
  }

  /**
   * Compiling `write_pattern(p, Left, final)` and running it from cell 0: the first move left
   * prepends a byte, so the pattern lands on cells `9 - |p|` to 8 (`AfterLeftWriteFromZero`).
   */
  method RunWritePatternLeftFromZero(p: Pattern, final: Movement, bytes: seq<bv8>, fuel: nat)
    returns (outcome: RunOutcome, head: nat, after: seq<bv8>)
    requires 2 <= p.Len() <= 9 && fuel >= p.Len() + 2
    requires final == Left ==> p.Len() < 9
    ensures outcome == Halted && head == Toward(9 - p.Len(), 1, final)
    ensures forall q :: BitAt(after, q) == AfterLeftWriteFromZero(bytes, p, q)
  {
    var program := CompileWritePattern(p, Left, final);
    var result := RunOn(program, bytes, 0, fuel);
    WritePatternLeftFromZeroRuns(p, final, bytes, fuel);
    outcome, head, after := result.outcome, result.config.head, result.config.tape;
  }

  /**
   * The second half, after the reset: written leftward from cell 0 the pattern lands in order
   * on cells 1 to 8, since the first move left prepends a byte, head on 1.
   */
  method WritePatternLeftScenario() returns (head: nat, bytes: seq<bv8>)
    ensures head == 1 && forall q | 1 <= q <= 8 :: BitAt(bytes, q) == TestPattern().bits[q - 1]
  {
    var p := TestPattern();
    var outcome;
    outcome, head, bytes := RunWritePatternLeftFromZero(p, Stay, [], 10);
  }

  /** The tape of `test_scan_pattern`: cells 4, 5, 9 and 11 set. */
  ghost predicate ScanTestBits(bytes: seq<bv8>)
  {
    forall q: nat :: BitAt(bytes, q) == (q == 4 || q == 5 || q == 9 || q == 11)
  }

  /** Setting cells 4, 5, 9 and 11 of an empty tape gives that tape. */
  method ScanTestTape() returns (tape: TuringTape)
    ensures ScanTestBits(tape.bytes)
  {
    tape := new TuringTape();
    tape.Set(4);
    tape.Set(5);
    tape.Set(9);
    tape.Set(11);
    forall q: nat ensures BitAt(tape.bytes, q) == (q == 4 || q == 5 || q == 9 || q == 11) {
      var b0 := WithBitSet([], 4);
      var b1 := WithBitSet(b0, 5);
      var b2 := WithBitSet(b1, 9);
      WithBitSetReads([], 4, q);
      WithBitSetReads(b0, 5, q);
      WithBitSetReads(b1, 9, q);
      WithBitSetReads(b2, 11, q);
    }
  }

  /** The tests' preamble, then `scan_pattern(p, d, final)` from the first state to the halt block. */
  method CompileScanPattern(p: Pattern, d: Movement, final: Movement) returns (program: TuringProgram)
    requires 1 <= p.Len()
    ensures program.instructions == ChainProgram(ScanPatternBit(p, d, final, State(0)), p.Len())
  {
    var c, scanState, done := Preamble();
    var _ := ScanPattern(c, p, d, final, Some(scanState), Some(done));
    program := c.GetProgram();
  }

  /**
   * Scanning that tape rightward from cell 0: the rounds from cells 0 to 3 each miss on their
   * first cell, and the round from cell 4 matches cells 4 to 11.
   */
  lemma RightScanRounds(bytes: seq<bv8>)
    requires ScanTestBits(bytes)
    ensures MissedRounds(bytes, TestPattern(), Right, [0, 1, 2, 3, 4])
    ensures FirstMismatch(bytes, TestPattern(), Right, 4, 0) == 8
  {
    var p := TestPattern();
    var starts: seq<nat> := [0, 1, 2, 3, 4];
    forall i | 0 <= i < 4 ensures MissedRound(bytes, p, Right, starts[i], starts[i + 1]) {
      assert !BitAt(bytes, Toward(starts[i], 0, Right));
    }
    forall o | 0 <= o < 8 ensures BitAt(bytes, Toward(4, o, Right)) == TargetBit(p, o, false) {
    }
    MatchesHaveNoMismatch(bytes, p, Right, 4, 0);
  }

  /**
   * Scanning it leftward from cell 15: the rounds from cells 15 to 12 each miss on their first
   * cell, and the round from cell 11 finds the pattern read backwards on cells 11 down to 4.
   */
  lemma LeftScanRounds(bytes: seq<bv8>)
    requires ScanTestBits(bytes)
    ensures MissedRounds(bytes, TestPattern(), Left, [15, 14, 13, 12, 11])
    ensures FirstMismatch(bytes, TestPattern(), Left, 11, 0) == 8
  {
    var p := TestPattern();
    var starts: seq<nat> := [15, 14, 13, 12, 11];
    forall i | 0 <= i < 4 ensures MissedRound(bytes, p, Left, starts[i], starts[i + 1]) {
      assert !BitAt(bytes, Toward(starts[i], 0, Left));
    }
    forall o | 0 <= o < 8 ensures BitAt(bytes, Toward(11, o, Left)) == TargetBit(p, o, true) {
    }
    MatchesHaveNoMismatch(bytes, p, Left, 11, 0);
  }

  /**
   * Compiling `scan_pattern(p, d, final)` and running it from `starts[0]`, where every round but the
   * last misses and the last matches: it halts past the match's last cell, the tape unchanged.
   */
  method RunScanPattern(p: Pattern, d: Movement, final: Movement, bytes: seq<bv8>, starts: seq<nat>, fuel: nat)
    returns (outcome: RunOutcome, head: nat, after: seq<bv8>)
    requires 1 <= p.Len() < USIZE_MAX - 1 && d != Stay
    requires |starts| >= 1 && MissedRounds(bytes, p, d, starts)
    requires MatchFits(p, d, final, starts[|starts| - 1])
    requires FirstMismatch(bytes, p, d, starts[|starts| - 1], 0) == p.Len()
    requires fuel >= RoundsBudget(|starts|, p.Len()) + 1
    ensures outcome == Halted && head == Toward(Toward(starts[|starts| - 1], p.Len() - 1, d), 1, final)
    ensures forall q :: BitAt(after, q) == BitAt(bytes, q)
  {
    var program := CompileScanPattern(p, d, final);
    var result := RunOn(program, bytes, starts[0], fuel);
    ScanPatternRuns(p, d, final, bytes, starts, fuel);
    outcome, head, after := result.outcome, result.config.head, result.config.tape;
  }

  /**
   * `test_scan_pattern`: on a tape with cells 4, 5, 9 and 11 set, scanning right from cell 0
   * halts on cell 11, the last cell of the match, and scanning left from cell 15 halts on cell 4.
   */
  method ScanPatternScenario() returns (rightHead: nat, leftHead: nat)
    ensures rightHead == 11 && leftHead == 4
  {
    var p := TestPattern();
    var tape := ScanTestTape();
    RightScanRounds(tape.bytes);
    var rightOutcome, rightAfter;
    rightOutcome, rightHead, rightAfter := RunScanPattern(p, Right, Stay, tape.bytes, [0, 1, 2, 3, 4], 42);
    LeftScanRounds(tape.bytes);
    var leftOutcome, leftAfter;
    leftOutcome, leftHead, leftAfter := RunScanPattern(p, Left, Stay, tape.bytes, [15, 14, 13, 12, 11], 42);
  }

  /** The tests' preamble, then `move_left` (move left, writing back the bit read) from the first state to the halt block. */
  method CompileMoveLeft() returns (program: TuringProgram)
    ensures program.instructions == BlockProgram(false, true, Left)
  {
    var c, blockState, done := Preamble();
    var _, _ := MoveLeft(c, Some(blockState), Some(done));
    program := c.GetProgram();
  }

  /** The tests' preamble, then `move_right` (move right, writing back the bit read) from the first state to the halt block. */
  method CompileMoveRight() returns (program: TuringProgram)
    ensures program.instructions == BlockProgram(false, true, Right)
  {
    var c, blockState, done := Preamble();
    var _, _ := MoveRight(c, Some(blockState), Some(done));
    program := c.GetProgram();
  }

  /** The tests' preamble, then `mark` (write 1 and stay) from the first state to the halt block. */
  method CompileMark() returns (program: TuringProgram)
    ensures program.instructions == BlockProgram(true, true, Stay)
  {
    var c, blockState, done := Preamble();
    var _, _ := Mark(c, Some(blockState), Some(done));
    program := c.GetProgram();
  }

  /** The tests' preamble, then `mark_and_move_right` (write 1 and move right) from the first state to the halt block. */
  method CompileMarkAndMoveRight() returns (program: TuringProgram)
    ensures program.instructions == BlockProgram(true, true, Right)
  {
    var c, blockState, done := Preamble();
    var _, _ := MarkAndMoveRight(c, Some(blockState), Some(done));
    program := c.GetProgram();
  }

  /** The tests' preamble, then `mark_and_move_left` (write 1 and move left) from the first state to the halt block. */
  method CompileMarkAndMoveLeft() returns (program: TuringProgram)
    ensures program.instructions == BlockProgram(true, true, Left)
  {
    var c, blockState, done := Preamble();
    var _, _ := MarkAndMoveLeft(c, Some(blockState), Some(done));
    program := c.GetProgram();
  }

  /** The tests' preamble, then `unmark_and_move_right` (write 0 and move right) from the first state to the halt block. */
  method CompileUnmarkAndMoveRight() returns (program: TuringProgram)
    ensures program.instructions == BlockProgram(false, false, Right)
  {
    var c, blockState, done := Preamble();
    var _, _ := UnmarkAndMoveRight(c, Some(blockState), Some(done));
    program := c.GetProgram();
  }

  /** The tests' preamble, then `unmark_and_move_left` (write 0 and move left) from the first state to the halt block. */
  method CompileUnmarkAndMoveLeft() returns (program: TuringProgram)
    ensures program.instructions == BlockProgram(false, false, Left)
  {
    var c, blockState, done := Preamble();
    var _, _ := UnmarkAndMoveLeft(c, Some(blockState), Some(done));
    program := c.GetProgram();
  }

  /** Load a primitive block's program with a tape, head on `h`, and run it to the halt. */
  method RunBlock(program: TuringProgram, w0: bool, w1: bool, m: Movement, bytes: seq<bv8>, h: nat)
    returns (head: nat, after: seq<bv8>)
    requires program.instructions == BlockProgram(w0, w1, m)
    ensures head == HeadAfter(h, m)
    ensures forall q :: BitAt(after, q) == AfterBlock(bytes, h, m, if BitAt(bytes, h) then w1 else w0, q)
  {
    var result := RunOn(program, bytes, h, 3);
    BlockRuns(w0, w1, m, bytes, h, 3);
    head, after := result.config.head, result.config.tape;
  }

  /** `test_move_left` and `test_move_right`: from cell 0 a move left lands on cell 7, a move right on cell 1. */
  method MoveScenario() returns (leftHead: nat, rightHead: nat)
    ensures leftHead == 7 && rightHead == 1
  {
    var leftward := CompileMoveLeft();
    var leftBytes, rightBytes;
    leftHead, leftBytes := RunBlock(leftward, false, true, Left, [], 0);
    var rightward := CompileMoveRight();
    rightHead, rightBytes := RunBlock(rightward, false, true, Right, [], 0);
  }

  /** `test_mark`: marking cell 0 of an empty tape leaves the head there on a 1. */
  method MarkScenario() returns (head: nat, bytes: seq<bv8>)
    ensures head == 0 && BitAt(bytes, 0)
  {
    var program := CompileMark();
    head, bytes := RunBlock(program, true, true, Stay, [], 0);
  }

  /** `test_mark_and_move_right`: cell 0 reads 1, cell 1 reads 0, head on 1. */
  method MarkAndMoveRightScenario() returns (head: nat, bytes: seq<bv8>)
    ensures head == 1 && BitAt(bytes, 0) && !BitAt(bytes, 1)
  {
    var program := CompileMarkAndMoveRight();
    head, bytes := RunBlock(program, true, true, Right, [], 0);
  }

  /** `test_mark_and_move_left`: the mark on cell 0 is shifted to cell 8 by the prepended byte; cell 7 reads 0, head on 7. */
  method MarkAndMoveLeftScenario() returns (head: nat, bytes: seq<bv8>)
    ensures head == 7 && !BitAt(bytes, 7) && BitAt(bytes, 8)
  {
    var program := CompileMarkAndMoveLeft();
    head, bytes := RunBlock(program, true, true, Left, [], 0);
  }

  /** A tape with only cell 0 set, as `set(0)` on an empty tape leaves it. */
  method FirstCellTape() returns (bytes: seq<bv8>)
    ensures BitAt(bytes, 0) && forall q: nat | q > 0 :: !BitAt(bytes, q)
  {
    var tape := new TuringTape();
    tape.Set(0);
    bytes := tape.bytes;
    forall q: nat ensures BitAt(bytes, q) == (q == 0) {
      WithBitSetReads([], 0, q);
    }
  }

  /** `test_unmark_and_move_right`: on a tape with cell 0 set, cells 0 and 1 read 0 afterwards, head on 1. */
  method UnmarkAndMoveRightScenario() returns (head: nat, bytes: seq<bv8>)
    ensures head == 1 && !BitAt(bytes, 0) && !BitAt(bytes, 1)
  {
    var tape := FirstCellTape();
    var program := CompileUnmarkAndMoveRight();
    head, bytes := RunBlock(program, false, false, Right, tape, 0);
  }

  /** `test_unmark_and_move_left`: cell 0 is cleared and shifted to cell 8; cells 7 and 8 read 0, head on 7. */
  method UnmarkAndMoveLeftScenario() returns (head: nat, bytes: seq<bv8>)
    ensures head == 7 && !BitAt(bytes, 7) && !BitAt(bytes, 8)
  {
    var tape := FirstCellTape();
    var program := CompileUnmarkAndMoveLeft();
    head, bytes := RunBlock(program, false, false, Left, tape, 0);
  }

  /** `test_unmark`'s program: `mark` from state 0 to 1, `unmark` from 1 to the halt block in state 2. */
  function MarkUnmarkProgram(): (t: Table)
    ensures forall b: bool :: Lookup(t, 0, b) == Some(Instruction(0, b, true, Stay, 1))
    ensures forall b: bool :: Lookup(t, 1, b) == Some(Instruction(1, b, false, Stay, 2))
    ensures HaltsAt(t, State(2))
  {
    Emit(Emit(Emit(map[], State(2), false, true, Stay, Stay, HALT, HALT),
              State(0), true, true, Stay, Stay, State(1), State(1)),
         State(1), false, false, Stay, Stay, State(2), State(2))
  }

  /** Marking and then unmarking a cell halts after 4 steps with the head in place and that cell reading 0. */
  lemma MarkUnmarkRuns(tape: seq<bv8>, h: nat, fuel: nat)
    requires fuel >= 4
    ensures Run(MarkUnmarkProgram(), Config(tape, h, State(0)), fuel).outcome == Halted
    ensures Run(MarkUnmarkProgram(), Config(tape, h, State(0)), fuel).config.head == h
    ensures forall q :: BitAt(Run(MarkUnmarkProgram(), Config(tape, h, State(0)), fuel).config.tape, q)
                        == (q != h && BitAt(tape, q))
  {
    var t := MarkUnmarkProgram();
    var mark := BlockStep(t, State(0), State(1), true, true, Stay, tape, h);
    var unmark := BlockStep(t, State(1), State(2), false, false, Stay, mark[1].tape, h);
    PathJoin(t, mark, unmark);
    var marked := mark + unmark[1..];
    var tail := HaltTail(t, State(2), unmark[1].tape, h);
    PathJoin(t, marked, tail);
    RunToHalt(t, marked + tail[1..], fuel);
  }

  /** `test_unmark`'s compilation: two states, the halt block, then `mark` and `unmark` chained through them. */
  method CompileMarkUnmark() returns (program: TuringProgram)
    ensures program.instructions == MarkUnmarkProgram()
  {
    var c := new TuringCompiler();
    var markState := c.AllocateState();
    var unmarkState := c.AllocateState();
    var done := Halt(c, None);
    assert markState == State(0) && unmarkState == State(1) && done == State(2);
    ghost var halting := c.program.instructions;
    var _, _ := Mark(c, Some(markState), Some(unmarkState));
    ghost var marking := c.program.instructions;
    assert marking == Emit(halting, State(0), true, true, Stay, Stay, State(1), State(1));
    var _, _ := Unmark(c, Some(unmarkState), Some(done));
    assert c.program.instructions == Emit(marking, State(1), false, false, Stay, Stay, State(2), State(2));
    program := c.GetProgram();
  }

  /** `test_unmark`: `mark` then `unmark` on cell 0 of an empty tape leave the head there on a 0. */
  method MarkUnmarkScenario() returns (head: nat, bytes: seq<bv8>)
    ensures head == 0 && !BitAt(bytes, 0)
  {
    var program := CompileMarkUnmark();
    var result := RunOn(program, [], 0, 4);
    MarkUnmarkRuns([], 0, 4);
    head, bytes := result.config.head, result.config.tape;
  }

  /**
   * `test_branch`'s program: state 0 branches, moving right and staying on 0, moving left to
   * state 1 on 1; state 1 is a `move_left` to the halt block in state 2.
   */
  function BranchProgram(): (t: Table)
    ensures BranchAt(t)
  {
    Emit(Emit(Emit(map[], State(2), false, true, Stay, Stay, HALT, HALT),
              State(0), false, true, Right, Left, State(0), State(1)),
         State(1), false, true, Left, Left, State(2), State(2))
  }

  /**
   * The entries `test_branch` runs through: state 0 writes back what it reads and moves right on 0
   * (staying in 0) or left on 1 (going to 1); state 1 writes back and moves left into state 2.
   */
  ghost predicate BranchAt(t: Table)
  {
    && (forall b: bool :: Lookup(t, 0, b) == Some(Instruction(0, b, b, if b then Left else Right, if b then 1 else 0)))
    && (forall b: bool :: Lookup(t, 1, b) == Some(Instruction(1, b, b, Left, 2)))
  }

  /** `test_branch`'s compilation: two states, the halt block, the branch, then `move_left` from state 1. */
  method CompileBranch() returns (program: TuringProgram)
    ensures program.instructions == BranchProgram()
  {
    var c := new TuringCompiler();
    var checkIfOne := c.AllocateState();
    var moveLeft := c.AllocateState();
    var done := Halt(c, None);
    assert checkIfOne == State(0) && moveLeft == State(1) && done == State(2);
    ghost var halting := c.program.instructions;
    var _, _, _ := Branch(c, Some(checkIfOne), Some(moveLeft), Some(checkIfOne), Left, Right);
    ghost var branching := c.program.instructions;
    assert branching == Emit(halting, State(0), false, true, Right, Left, State(0), State(1));
    var _, _ := MoveLeft(c, Some(moveLeft), Some(done));
    assert c.program.instructions == Emit(branching, State(1), false, true, Left, Left, State(2), State(2));
    program := c.GetProgram();
  }

  /** The tape reads 1 on cell `k` and 0 everywhere else. */
  ghost predicate OnlyCell(bytes: seq<bv8>, k: nat)
  {
    forall q: nat :: BitAt(bytes, q) == (q == k)
  }

  /**
   * One step of `test_branch`'s program on a tape with only cell 5 set: state 0 walks right up to
   * cell 5, turns left into state 1 there, and state 1 moves left into the halt block.
   */
  lemma BranchStep(t: Table, c: Config)
    requires BranchAt(t) && OnlyCell(c.tape, 5)
    requires (c.state == State(0) && c.head <= 5) || (c.state == State(1) && c.head >= 1)
    ensures Step(t, c).outcome == Continue && OnlyCell(Step(t, c).config.tape, 5)
    ensures Step(t, c).config.head == if c.state == State(0) && c.head < 5 then c.head + 1 else c.head - 1
    ensures Step(t, c).config.state ==
      if c.state == State(1) then State(2) else if c.head < 5 then State(0) else State(1)
  {
    var bit := BitAt(c.tape, c.head);
    var i := Lookup(t, c.state.id, bit).value;
    StepWithInstruction(t, c, i, 0);
    forall q: nat ensures BitAt(Step(t, c).config.tape, q) == (q == 5) {
      StepWithInstruction(t, c, i, q);
    }
  }

  /** Where `test_branch`'s head is after `k` steps: right from 0 up to 5, then back left. */
  function BranchHead(k: nat): nat
    requires k <= 7
  {
    if k <= 5 then k else 10 - k
  }

  /** The heads `test_branch` checks after each of its first `k` steps. */
  function BranchHeads(k: nat): (r: seq<nat>)
    requires k <= 7
    ensures |r| == k
  {
    if k == 0 then [] else BranchHeads(k - 1) + [BranchHead(k)]
  }

  /** `test_branch`'s state after `k` steps: scanning in 0, then `move_left` in 1, then the halt block in 2. */
  function BranchState(k: nat): State
  {
    if k <= 5 then State(0) else if k == 6 then State(1) else State(2)
  }

  /** The head and state `BranchStep` moves to from `BranchHead(k)` and `BranchState(k)` are those of step `k + 1`. */
  lemma BranchAdvance(k: nat, head: nat, state: State)
    requires k < 7
    requires head == (if BranchState(k) == State(0) && BranchHead(k) < 5 then BranchHead(k) + 1 else BranchHead(k) - 1)
    requires state == (if BranchState(k) == State(1) then State(2) else if BranchHead(k) < 5 then State(0) else State(1))
    ensures head == BranchHead(k + 1) && state == BranchState(k + 1)
  {
  }

  /** One `program_step` of the machine through `test_branch`'s program, as step `k + 1` of the test. */
  method BranchMachineStep(tm: TuringMachine, k: nat)
    requires k < 7 && BranchAt(tm.program.instructions) && OnlyCell(tm.tape.bytes, 5)
    requires tm.head == BranchHead(k) && tm.state == BranchState(k)
    modifies tm, tm.tape
    ensures tm.program == old(tm.program) && tm.tape == old(tm.tape) && OnlyCell(tm.tape.bytes, 5)
    ensures tm.head == BranchHead(k + 1) && tm.state == BranchState(k + 1)
  {
    BranchStep(tm.program.instructions, tm.Cfg());
    var _ := tm.ProgramStep();
    BranchAdvance(k, tm.head, tm.state);
  }

  /** `test_branch`'s machine: the compiled program loaded, a tape with only cell 5 set, head on 0 in state 0. */
  method BranchMachine() returns (tm: TuringMachine)
    ensures fresh(tm) && fresh(tm.tape)
    ensures tm.program.instructions == BranchProgram() && OnlyCell(tm.tape.bytes, 5)
    ensures tm.head == 0 && tm.state == State(0)
  {
    var program := CompileBranch();
    var tape := FifthCellTape();
    tm := LoadMachine(program, tape);
  }

  /** A tape with only cell 5 set, as `set(5)` on an empty tape leaves it. */
  method FifthCellTape() returns (tape: TuringTape)
    ensures fresh(tape) && OnlyCell(tape.bytes, 5)
  {
    tape := new TuringTape();
    tape.Set(5);
    forall q: nat ensures BitAt(tape.bytes, q) == (q == 5) {
      WithBitSetReads([], 5, q);
    }
  }

  /** A new machine given `program` and `tape`, head on 0 in state 0. */
  method LoadMachine(program: TuringProgram, tape: TuringTape) returns (tm: TuringMachine)
    ensures fresh(tm) && tm.program == program && tm.tape == tape
    ensures tm.head == 0 && tm.state == State(0)
  {
    tm := new TuringMachine();
    tm.SetProgram(program);
    tm.SetTape(tape);
  }

  /** `test_branch`: stepping the machine one instruction at a time, the head visits 1, 2, 3, 4, 5, 4, 3. */
  method BranchScenario() returns (heads: seq<nat>)
    ensures heads == [1, 2, 3, 4, 5, 4, 3]
  {
    var tm := BranchMachine();
    ghost var tape := tm.tape;
    heads := [];
    var k := 0;
    while k < 7
      invariant 0 <= k <= 7 && heads == BranchHeads(k)
      invariant tm.tape == tape && BranchAt(tm.program.instructions) && OnlyCell(tape.bytes, 5)
      invariant tm.head == BranchHead(k) && tm.state == BranchState(k)
      modifies tm, tape
    {
      BranchMachineStep(tm, k);
      heads := heads + [tm.head];
      k := k + 1;
    }
    BranchHeadsOfTest();
  }

  /** The seven heads `test_branch` checks. */
  lemma BranchHeadsOfTest()
    ensures BranchHeads(7) == [1, 2, 3, 4, 5, 4, 3]
  {
    assert BranchHeads(3) == [1, 2, 3];
    assert BranchHeads(5) == [1, 2, 3, 4, 5];
  }
}
