/**
 * Compile, then run: the programs the layer operations emit, followed by a `halt` block the way
 * the repository's tests set them up, replayed by `run_program`. Each theorem states how the run
 * ends: it halts, with the head and the bits where the operation promises them.
 */
module Runs {

  import opened Wrappers
  import opened Movements
  import opened States
  import opened Instructions
  import opened Programs
  import opened Patterns
  import opened Tape
  import opened Machine
  import opened PrimitiveLayer
  import opened BaseLayer
  import opened Execution

  /** State `done` is a `halt` block: it writes the bit back, stays and enters the halt state, which has no entry. */
  ghost predicate HaltsAt(t: Table, done: State)
  {
    && (forall b: bool :: Lookup(t, done.id, b) == Some(Instruction(done.id, b, b, Stay, USIZE_MAX)))
    && (forall b: bool :: Lookup(t, USIZE_MAX, b) == None)
  }

  /**
   * Entering a `halt` block: one step into the halt state with head and bits as they were, and
   * there the next step stops cleanly.
   */
  lemma HaltTail(t: Table, done: State, tape: seq<bv8>, h: nat) returns (cs: seq<Config>)
    requires HaltsAt(t, done)
    ensures |cs| == 2 && Path(t, cs) && cs[0] == Config(tape, h, done)
    ensures Step(t, Last(cs)).outcome == Stop
    ensures Step(t, Last(cs)).config.head == h && Step(t, Last(cs)).config.state == HALT
    ensures forall q :: BitAt(Step(t, Last(cs)).config.tape, q) == BitAt(tape, q)
  {
    var c := Config(tape, h, done);
    var bit := BitAt(tape, h);
    var i := Instruction(done.id, bit, bit, Stay, USIZE_MAX);
    StepWithInstruction(t, c, i, 0);
    var c1 := Step(t, c).config;
    cs := [c, c1];
    assert Last(cs) == c1;
    forall q ensures BitAt(Step(t, c1).config.tape, q) == BitAt(tape, q) {
      StepWithInstruction(t, c, i, q);
      StepStopsInHalt(t, c1, q);
    }
  }

  /** A run that follows a path and then stops halts, with the configuration of the stopping step. */
  lemma RunToHalt(t: Table, cs: seq<Config>, fuel: nat)
    requires |cs| >= 1 && Path(t, cs) && Step(t, Last(cs)).outcome == Stop && fuel >= |cs|
    ensures Run(t, cs[0], fuel) == RunResult(Halted, Step(t, Last(cs)).config)
  {
    RunAlong(t, cs, fuel - (|cs| - 1));
  }

  /** The table of the tests' preamble: state 0 allocated for the block, then `halt(None)` allocating state 1. */
  function HaltTable(): (t: Table)
    ensures HaltsAt(t, State(1))
  {
    Emit(map[], State(1), false, true, Stay, Stay, HALT, HALT)
  }

  /** The tests' program for a chained block of `n` iterations from state 0 to the `halt` block in state 1. */
  function ChainProgram(body: IterationBody, n: nat): Table
    requires 1 <= n && body.Fits(n)
  {
    ChainTable(HaltTable(), body, n, Some(State(0)), Some(State(1)), 2, n)
  }

  /** The boundary states of that block: 0, then the fresh states 2, 3, ..., then 1. */
  function ChainProgramBounds(n: nat): (bounds: seq<State>)
    requires 1 <= n
    ensures |bounds| == n + 1 && bounds[0] == State(0) && bounds[n] == State(1)
  {
    Bounds(n, Some(State(0)), Some(State(1)), 2)
  }

  /**
   * In the tests' program the block is a chain from state 0 to state 1, and state 1 is still the
   * `halt` block: no chain boundary reuses 1 or the halt state.
   */
  lemma ChainProgramFacts(body: IterationBody, n: nat)
    requires 1 <= n < USIZE_MAX - 1 && body.Fits(n)
    ensures ChainAt(ChainProgram(body, n), body, ChainProgramBounds(n))
    ensures HaltsAt(ChainProgram(body, n), State(1))
  {
    ChainTableIsChain(HaltTable(), body, n, Some(State(0)), Some(State(1)), 2);
    forall q: nat, b: bool | q == 1 || q == USIZE_MAX
      ensures Lookup(ChainProgram(body, n), q, b) == Lookup(HaltTable(), q, b)
    {
      forall i | 0 <= i < n ensures ChainBound(n, Some(State(0)), Some(State(1)), 2, i).id != q {
      }
      ChainTableOther(HaltTable(), body, n, Some(State(0)), Some(State(1)), 2, n, q, b);
    }
  }

  /**
   * `move_right_x(x)` then `halt`: from any tape and head `h` the run halts after `x + 2` steps
   * with the head on `h + x` and no bit changed.
   */
  lemma MoveRightXRuns(x: nat, tape: seq<bv8>, h: nat, fuel: nat)
    requires 1 <= x < USIZE_MAX - 1 && fuel >= x + 2
    ensures Run(ChainProgram(MoveRightStep, x), Config(tape, h, State(0)), fuel).outcome == Halted
    ensures Run(ChainProgram(MoveRightStep, x), Config(tape, h, State(0)), fuel).config.head == h + x
    ensures forall q :: BitAt(Run(ChainProgram(MoveRightStep, x), Config(tape, h, State(0)), fuel).config.tape, q)
                        == BitAt(tape, q)
  {
    var t := ChainProgram(MoveRightStep, x);
    ChainProgramFacts(MoveRightStep, x);
    var chain := MoveRightChain(t, ChainProgramBounds(x), 0, tape, h);
    var tail := HaltTail(t, State(1), Last(chain).tape, h + x);
    PathJoin(t, chain, tail);
    RunToHalt(t, chain + tail[1..], fuel);
  }

  /**
   * `move_left_x(x)` then `halt`: the run halts after `x + 2` steps with the head `x` cells
   * further left, wrapping to a fresh byte's cell 7 whenever it leaves cell 0.
   */
  lemma MoveLeftXRuns(x: nat, tape: seq<bv8>, h: nat, fuel: nat)
    requires 1 <= x < USIZE_MAX - 1 && fuel >= x + 2
    ensures Run(ChainProgram(MoveLeftStep, x), Config(tape, h, State(0)), fuel).outcome == Halted
    ensures Run(ChainProgram(MoveLeftStep, x), Config(tape, h, State(0)), fuel).config.head == LeftHead(h, x)
  {
    var t := ChainProgram(MoveLeftStep, x);
    ChainProgramFacts(MoveLeftStep, x);
    var chain := MoveLeftChain(t, ChainProgramBounds(x), 0, tape, h);
    var tail := HaltTail(t, State(1), Last(chain).tape, LeftHead(h, x));
    PathJoin(t, chain, tail);
    RunToHalt(t, chain + tail[1..], fuel);
  }

  /**
   * `move_right_x(x)` and then `move_left_x(x)` from where it stopped bring the head back to
   * where it started.
   */
  lemma MoveRightThenLeftRuns(x: nat, tape: seq<bv8>, h: nat, fuel: nat)
    requires 1 <= x < USIZE_MAX - 1 && fuel >= x + 2
    ensures var right := Run(ChainProgram(MoveRightStep, x), Config(tape, h, State(0)), fuel).config;
            var left := Run(ChainProgram(MoveLeftStep, x), Config(right.tape, right.head, State(0)), fuel);
            left.outcome == Halted && left.config.head == h
  {
    MoveRightXRuns(x, tape, h, fuel);
    var right := Run(ChainProgram(MoveRightStep, x), Config(tape, h, State(0)), fuel).config;
    MoveLeftXRuns(x, right.tape, right.head, fuel);
  }

  /**
   * `write_pattern(p, d, final)` then `halt`, walking right or leftward with room to spare: the
   * run halts after `|p| + 2` steps with the pattern written on the cells the walk visits, every
   * other bit as it was, and the head moved `final` past the last written cell.
   */
  lemma WritePatternRuns(p: Pattern, d: Movement, final: Movement, tape: seq<bv8>, h: nat, fuel: nat)
    requires 1 <= p.Len() < USIZE_MAX - 1 && fuel >= p.Len() + 2
    requires d != Stay && (d == Left ==> p.Len() - 1 <= h)
    requires final == Left ==> Toward(h, p.Len() - 1, d) > 0
    ensures Run(ChainProgram(WritePatternBit(p, d, final), p.Len()), Config(tape, h, State(0)), fuel).outcome == Halted
    ensures Run(ChainProgram(WritePatternBit(p, d, final), p.Len()), Config(tape, h, State(0)), fuel).config.head
            == Toward(Toward(h, p.Len() - 1, d), 1, final)
    ensures forall q :: BitAt(Run(ChainProgram(WritePatternBit(p, d, final), p.Len()), Config(tape, h, State(0)), fuel).config.tape, q)
                        == AfterWrite(tape, p, d, 0, h, q)
  {
    var n := p.Len();
    var t := ChainProgram(WritePatternBit(p, d, final), n);
    ChainProgramFacts(WritePatternBit(p, d, final), n);
    var chain := WriteChain(t, ChainProgramBounds(n), p, d, final, 0, tape, h);
    var tail := HaltTail(t, State(1), Last(chain).tape, Last(chain).head);
    PathJoin(t, chain, tail);
    RunToHalt(t, chain + tail[1..], fuel);
  }

  /**
   * The bits a leftward `write_pattern` of `n` bits (2 to 9) leaves when it starts on cell 0:
   * the first move left prepends a byte, so the pattern lands in order on cells `9 - n .. 8`,
   * cells left of it read 0 and the old bits sit 8 cells further right.
   */
  ghost function AfterLeftWriteFromZero(tape: seq<bv8>, p: Pattern, q: nat): bool
    requires 2 <= p.Len() <= 9
  {
    if 9 - p.Len() <= q <= 8 then p.bits[q - (9 - p.Len())] else q >= 9 && BitAt(tape, q - 8)
  }

  /**
   * `write_pattern(p, Left, final)` then `halt` from cell 0: the first iteration writes the last
   * pattern bit on cell 0 and moves left into a prepended byte, landing on cell 7; the rest of
   * the pattern follows leftwards from there.
   */
  lemma WritePatternLeftFromZeroRuns(p: Pattern, final: Movement, tape: seq<bv8>, fuel: nat)
    requires 2 <= p.Len() <= 9 && fuel >= p.Len() + 2
    requires final == Left ==> p.Len() < 9
    ensures Run(ChainProgram(WritePatternBit(p, Left, final), p.Len()), Config(tape, 0, State(0)), fuel).outcome == Halted
    ensures Run(ChainProgram(WritePatternBit(p, Left, final), p.Len()), Config(tape, 0, State(0)), fuel).config.head
            == Toward(9 - p.Len(), 1, final)
    ensures forall q :: BitAt(Run(ChainProgram(WritePatternBit(p, Left, final), p.Len()), Config(tape, 0, State(0)), fuel).config.tape, q)
                        == AfterLeftWriteFromZero(tape, p, q)
  {
    var n := p.Len();
    var t := ChainProgram(WritePatternBit(p, Left, final), n);
    var bounds := ChainProgramBounds(n);
    ChainProgramFacts(WritePatternBit(p, Left, final), n);
    var first := WriteLeftWrapIteration(t, bounds, p, final, tape);
    var chain := WriteChain(t, bounds, p, Left, final, 1, first[1].tape, 7);
    PathJoin(t, first, chain);
    var written := first + chain[1..];
    var tail := HaltTail(t, State(1), Last(written).tape, Last(written).head);
    PathJoin(t, written, tail);
    RunToHalt(t, written + tail[1..], fuel);
    forall q: nat ensures BitAt(Last(chain).tape, q) == AfterLeftWriteFromZero(tape, p, q) {
      LeftWriteFromZeroBits(tape, first[1].tape, p, q);
    }
  }

  /** The bits after the wrapping first iteration and the rest of a leftward write from cell 7 read as `AfterLeftWriteFromZero`. */
  lemma LeftWriteFromZeroBits(tape: seq<bv8>, mid: seq<bv8>, p: Pattern, q: nat)
    requires 2 <= p.Len() <= 9
    requires forall q: nat :: BitAt(mid, q) == (q >= 8 && if q == 8 then TargetBit(p, 0, true) else BitAt(tape, q - 8))
    ensures AfterWrite(mid, p, Left, 1, 7, q) == AfterLeftWriteFromZero(tape, p, q)
  {
  }

  /**
   * A matching scan round from `s` stays on the tape: it moves `d` off its first `|p| - 1` cells
   * and `final` off its last one, and none of those moves is a move left off cell 0.
   */
  predicate MatchFits(p: Pattern, d: Movement, final: Movement, s: nat)
  {
    && 1 <= p.Len()
    && (d == Left ==> p.Len() - 1 <= s)
    && (final == Left ==> Toward(s, p.Len() - 1, d) > 0)
  }

  /**
   * A `scan_pattern` round from `s` meets a mismatch, and the next round begins on `next`, one
   * cell past it; a leftward round meets it right of cell 0, so its move `d` stays on the tape.
   */
  ghost predicate MissedRound(tape: seq<bv8>, p: Pattern, d: Movement, s: nat, next: nat)
  {
    && (d == Left ==> p.Len() <= s + 1)
    && FirstMismatch(tape, p, d, s, 0) < p.Len()
    && (d == Left ==> FirstMismatch(tape, p, d, s, 0) < s)
    && next == Toward(s, FirstMismatch(tape, p, d, s, 0) + 1, d)
  }

  /** `starts` are the cells consecutive `scan_pattern` rounds begin on: every round but the last misses. */
  ghost predicate MissedRounds(tape: seq<bv8>, p: Pattern, d: Movement, starts: seq<nat>)
  {
    forall i {:trigger MissedRound(tape, p, d, starts[i], starts[i + 1])} | 0 <= i < |starts| - 1 ::
      MissedRound(tape, p, d, starts[i], starts[i + 1])
  }

  /**
   * Consecutive rounds of a `scan_pattern` chain, from round `r` of `starts` on, on a tape `cur`
   * that reads as `tape`: after the missed rounds, the last one matches, and the run reaches the
   * chain's last boundary past that round's last cell, with no bit changed.
   */
  lemma {:induction false} ScanRounds(t: Table, bounds: seq<State>, p: Pattern, d: Movement, final: Movement,
                                      tape: seq<bv8>, starts: seq<nat>, r: nat, cur: seq<bv8>)
    returns (cs: seq<Config>)
    requires |bounds| >= 2 && ChainAt(t, ScanPatternBit(p, d, final, bounds[0]), bounds) && d != Stay
    requires r < |starts| && MissedRounds(tape, p, d, starts)
    requires MatchFits(p, d, final, starts[|starts| - 1])
    requires FirstMismatch(tape, p, d, starts[|starts| - 1], 0) == p.Len()
    requires forall q :: BitAt(cur, q) == BitAt(tape, q)
    ensures Path(t, cs) && |cs| >= 1 && |cs| <= RoundsBudget(|starts| - r, p.Len())
    ensures cs[0] == Config(cur, starts[r], bounds[0])
    ensures Last(cs).state == bounds[|bounds| - 1]
    ensures Last(cs).head == Toward(Toward(starts[|starts| - 1], p.Len() - 1, d), 1, final)
    ensures forall q :: BitAt(Last(cs).tape, q) == BitAt(tape, q)
    decreases |starts| - r
  {
    var h := starts[r];
    if r == |starts| - 1 {
      cs := ScanRoundFrom(t, bounds, p, d, final, tape, cur, h, true, h);
    } else {
      assert MissedRound(tape, p, d, h, starts[r + 1]);
      var round := ScanRoundFrom(t, bounds, p, d, final, tape, cur, h, false, starts[r + 1]);
      var rest := ScanRounds(t, bounds, p, d, final, tape, starts, r + 1, Last(round).tape);
      PathJoin(t, round, rest);
      cs := round + rest[1..];
    }
  }

  /**
   * One round of `ScanRounds` from `h` on a tape reading as `tape`: a matching round reaches the
   * chain's last boundary past the match, a missed one returns to the first boundary on `next`.
   */
  lemma ScanRoundFrom(t: Table, bounds: seq<State>, p: Pattern, d: Movement, final: Movement,
                      tape: seq<bv8>, cur: seq<bv8>, h: nat, matched: bool, next: nat)
    returns (round: seq<Config>)
    requires |bounds| >= 2 && ChainAt(t, ScanPatternBit(p, d, final, bounds[0]), bounds) && d != Stay
    requires matched ==> MatchFits(p, d, final, h) && FirstMismatch(tape, p, d, h, 0) == p.Len()
    requires !matched ==> MissedRound(tape, p, d, h, next)
    requires forall q :: BitAt(cur, q) == BitAt(tape, q)
    ensures Path(t, round) && 2 <= |round| <= p.Len() + 1 && round[0] == Config(cur, h, bounds[0])
    ensures forall q :: BitAt(Last(round).tape, q) == BitAt(tape, q)
    ensures matched ==> Last(round).state == bounds[|bounds| - 1]
    ensures matched ==> Last(round).head == Toward(Toward(h, p.Len() - 1, d), 1, final)
    ensures !matched ==> Last(round).state == bounds[0] && Last(round).head == next
  {
    FirstMismatchSameBits(cur, tape, p, d, h, 0);
    round := ScanRound(t, bounds, p, d, final, cur, h);
  }

  /** Configurations a run of `k` scan rounds of `len` iterations each visits at most: `k * len + 1`. */
  function RoundsBudget(k: nat, len: nat): nat
  {
    if k == 0 then 1 else len + RoundsBudget(k - 1, len)
  }

  /** The first mismatch of a round depends only on the bits the tape reads. */
  lemma {:induction false} FirstMismatchSameBits(a: seq<bv8>, b: seq<bv8>, p: Pattern, d: Movement, h: nat, k: nat)
    requires k <= p.Len() && (d == Left ==> p.Len() <= h + 1)
    requires forall q :: BitAt(a, q) == BitAt(b, q)
    ensures FirstMismatch(a, p, d, h, k) == FirstMismatch(b, p, d, h, k)
    decreases p.Len() - k
  {
    if k < p.Len() {
      var cell := Toward(h, k, d);
      assert BitAt(a, cell) == BitAt(b, cell);
      FirstMismatchSameBits(a, b, p, d, h, k + 1);
    }
  }

  /**
   * `scan_pattern(p, d, final)` then `halt`, restarting in the block's own start state: from the
   * first round's cell the run goes through the missed rounds `starts` and halts after the round
   * that matches, with the head moved `final` past that round's last cell and no bit changed.
   */
  lemma ScanPatternRuns(p: Pattern, d: Movement, final: Movement, tape: seq<bv8>, starts: seq<nat>, fuel: nat)
    requires 1 <= p.Len() < USIZE_MAX - 1 && d != Stay
    requires |starts| >= 1 && MissedRounds(tape, p, d, starts)
    requires MatchFits(p, d, final, starts[|starts| - 1])
    requires FirstMismatch(tape, p, d, starts[|starts| - 1], 0) == p.Len()
    requires fuel >= RoundsBudget(|starts|, p.Len()) + 1
    ensures Run(ChainProgram(ScanPatternBit(p, d, final, State(0)), p.Len()), Config(tape, starts[0], State(0)), fuel).outcome
            == Halted
    ensures Run(ChainProgram(ScanPatternBit(p, d, final, State(0)), p.Len()), Config(tape, starts[0], State(0)), fuel).config.head
            == Toward(Toward(starts[|starts| - 1], p.Len() - 1, d), 1, final)
    ensures forall q :: BitAt(Run(ChainProgram(ScanPatternBit(p, d, final, State(0)), p.Len()), Config(tape, starts[0], State(0)), fuel).config.tape, q)
                        == BitAt(tape, q)
  {
    var body := ScanPatternBit(p, d, final, State(0));
    var t := ChainProgram(body, p.Len());
    ChainProgramFacts(body, p.Len());
    var rounds := ScanRounds(t, ChainProgramBounds(p.Len()), p, d, final, tape, starts, 0, tape);
    var tail := HaltTail(t, State(1), Last(rounds).tape, Last(rounds).head);
    PathJoin(t, rounds, tail);
    RunToHalt(t, rounds + tail[1..], fuel);
  }

  /** Cells that hold every expected bit from iteration `k` on leave no mismatch from `k`. */
  lemma {:induction false} MatchesHaveNoMismatch(tape: seq<bv8>, p: Pattern, d: Movement, h: nat, k: nat)
    requires k <= p.Len() && (d == Left ==> p.Len() <= h + 1)
    requires forall o | k <= o < p.Len() :: BitAt(tape, Toward(h, o, d)) == TargetBit(p, o, d == Left)
    ensures FirstMismatch(tape, p, d, h, k) == p.Len()
    decreases p.Len() - k
  {
    if k < p.Len() {
      MatchesHaveNoMismatch(tape, p, d, h, k + 1);
    }
  }

  /**
   * What `write_pattern(p, d, _)` wrote from `h` is exactly what `scan_pattern(p, d, _)` from `h`
   * looks for: a round there meets no mismatch.
   */
  lemma WrittenPatternMatches(tape: seq<bv8>, written: seq<bv8>, p: Pattern, d: Movement, h: nat)
    requires d != Stay && (d == Left ==> p.Len() <= h + 1)
    requires forall q :: BitAt(written, q) == AfterWrite(tape, p, d, 0, h, q)
    ensures FirstMismatch(written, p, d, h, 0) == p.Len()
  {
    forall o | 0 <= o < p.Len() ensures BitAt(written, Toward(h, o, d)) == TargetBit(p, o, d == Left) {
      assert Swept(h, p.Len(), d, Toward(h, o, d)) && Offset(h, d, Toward(h, o, d)) == o;
    }
    MatchesHaveNoMismatch(written, p, d, h, 0);
  }

  /**
   * Write, then scan for what was written: a `write_pattern` block followed by a `scan_pattern`
   * block for the same pattern and direction, started on the cell the write started on, halts in
   * a single round at the pattern's end with the pattern still on the tape.
   */
  lemma WriteThenScanRuns(p: Pattern, d: Movement, final: Movement, tape: seq<bv8>, h: nat, fuel: nat)
    requires 1 <= p.Len() < USIZE_MAX - 1 && d != Stay && (d == Left ==> p.Len() - 1 <= h)
    requires final == Left ==> Toward(h, p.Len() - 1, d) > 0
    requires fuel >= p.Len() + 2
    ensures Run(ChainProgram(ScanPatternBit(p, d, final, State(0)), p.Len()),
                Config(Run(ChainProgram(WritePatternBit(p, d, final), p.Len()), Config(tape, h, State(0)), fuel).config.tape,
                       h, State(0)), fuel).outcome == Halted
    ensures Run(ChainProgram(ScanPatternBit(p, d, final, State(0)), p.Len()),
                Config(Run(ChainProgram(WritePatternBit(p, d, final), p.Len()), Config(tape, h, State(0)), fuel).config.tape,
                       h, State(0)), fuel).config.head == Toward(Toward(h, p.Len() - 1, d), 1, final)
    ensures forall q ::
      BitAt(Run(ChainProgram(ScanPatternBit(p, d, final, State(0)), p.Len()),
                Config(Run(ChainProgram(WritePatternBit(p, d, final), p.Len()), Config(tape, h, State(0)), fuel).config.tape,
                       h, State(0)), fuel).config.tape, q)
      == AfterWrite(tape, p, d, 0, h, q)
  {
    WritePatternRuns(p, d, final, tape, h, fuel);
    var written := Run(ChainProgram(WritePatternBit(p, d, final), p.Len()), Config(tape, h, State(0)), fuel).config.tape;
    WrittenPatternMatches(tape, written, p, d, h);
    ScanPatternRuns(p, d, final, written, [h], fuel);
  }

  /**
   * A leftward write then scan from cell `|p| - 1`: the scan's match ends on cell 0 without
   * leaving the tape, and with `final` Stay the run halts there.
   */
  lemma WriteThenScanToCellZero(p: Pattern, tape: seq<bv8>, fuel: nat)
    requires 1 <= p.Len() < USIZE_MAX - 1 && fuel >= p.Len() + 2
    ensures Run(ChainProgram(ScanPatternBit(p, Left, Stay, State(0)), p.Len()),
                Config(Run(ChainProgram(WritePatternBit(p, Left, Stay), p.Len()), Config(tape, p.Len() - 1, State(0)), fuel).config.tape,
                       p.Len() - 1, State(0)), fuel).outcome == Halted
    ensures Run(ChainProgram(ScanPatternBit(p, Left, Stay, State(0)), p.Len()),
                Config(Run(ChainProgram(WritePatternBit(p, Left, Stay), p.Len()), Config(tape, p.Len() - 1, State(0)), fuel).config.tape,
                       p.Len() - 1, State(0)), fuel).config.head == 0
  {
    var h := p.Len() - 1;
    assert Toward(Toward(h, p.Len() - 1, Left), 1, Stay) == 0;
    WriteThenScanRuns(p, Left, Stay, tape, h, fuel);
  }

  /**
   * `scan_pattern([1, 1], Right, Left)` from cell 0 with cells 1 and 2 set: the round from 0
   * misses, the round from 1 matches, and the final move left goes from cell 2 back to cell 1.
   */
  lemma ScanFromCellZeroFinalLeft(tape: seq<bv8>, fuel: nat)
    requires !BitAt(tape, 0) && BitAt(tape, 1) && BitAt(tape, 2) && fuel >= 6
    ensures Run(ChainProgram(ScanPatternBit(Pattern([true, true]), Right, Left, State(0)), 2), Config(tape, 0, State(0)), fuel).outcome
            == Halted
    ensures Run(ChainProgram(ScanPatternBit(Pattern([true, true]), Right, Left, State(0)), 2), Config(tape, 0, State(0)), fuel).config.head
            == 1
  {
    var p := Pattern([true, true]);
    assert TargetBit(p, 0, false) && TargetBit(p, 1, false);
    assert FirstMismatch(tape, p, Right, 0, 0) == 0;
    assert MissedRound(tape, p, Right, 0, 1);
    assert FirstMismatch(tape, p, Right, 1, 0) == 2 by {
      assert Toward(1, 0, Right) == 1 && Toward(1, 1, Right) == 2;
    }
    ScanPatternRuns(p, Right, Left, tape, [0, 1], fuel);
  }

  /** The tests' program for `scan_single(target, d, final)` from state 0 to the `halt` block in state 1. */
  function ScanSingleProgram(target: bool, d: Movement, final: Movement): (t: Table)
    ensures ScanSingleAt(t, State(0), State(1), target, d, final) && HaltsAt(t, State(1))
  {
    Emit(HaltTable(), State(0), false, true, OnRead(false, target, final, d), OnRead(true, target, final, d),
         OnRead(false, target, State(1), State(0)), OnRead(true, target, State(1), State(0)))
  }

  /**
   * `scan_single(target, d, final)` then `halt`: from `h`, with the first `target` bit in
   * direction `d` `k` cells away, the run halts after `k + 3` steps with the head moved `final`
   * off that cell and no bit changed.
   */
  lemma ScanSingleRuns(target: bool, d: Movement, final: Movement, tape: seq<bv8>, h: nat, k: nat, fuel: nat)
    requires d != Stay && (d == Left ==> k <= h) && fuel >= k + 3
    requires forall o | 0 <= o < k :: BitAt(tape, Toward(h, o, d)) != target
    requires BitAt(tape, Toward(h, k, d)) == target
    requires final == Left ==> Toward(h, k, d) > 0
    ensures Run(ScanSingleProgram(target, d, final), Config(tape, h, State(0)), fuel).outcome == Halted
    ensures Run(ScanSingleProgram(target, d, final), Config(tape, h, State(0)), fuel).config.head
            == Toward(Toward(h, k, d), 1, final)
    ensures forall q :: BitAt(Run(ScanSingleProgram(target, d, final), Config(tape, h, State(0)), fuel).config.tape, q)
                        == BitAt(tape, q)
  {
    var t := ScanSingleProgram(target, d, final);
    var loop := ScanSingleChain(t, State(0), State(1), target, d, final, tape, h, k);
    var tail := HaltTail(t, State(1), Last(loop).tape, Last(loop).head);
    PathJoin(t, loop, tail);
    RunToHalt(t, loop + tail[1..], fuel);
  }

  /**
   * The endless loop of `scan_single` to the right: when no cell from `h` on holds `target`,
   * the run never stops, whatever fuel it is given.
   */
  lemma {:induction false} ScanSingleRightDiverges(target: bool, final: Movement, tape: seq<bv8>, h: nat, fuel: nat)
    requires forall q: nat :: q >= h ==> BitAt(tape, q) != target
    ensures Run(ScanSingleProgram(target, Right, final), Config(tape, h, State(0)), fuel).outcome == OutOfFuel
    decreases fuel
  {
    if fuel > 0 {
      var t := ScanSingleProgram(target, Right, final);
      var c1 := ScanSingleStep(t, State(0), State(1), target, Right, final, tape, h);
      assert forall q: nat :: q >= h + 1 ==> BitAt(c1.tape, q) != target;
      RunUnfold(t, Config(tape, h, State(0)), fuel - 1);
      ScanSingleRightDiverges(target, final, c1.tape, h + 1, fuel - 1);
    }
  }

  /**
   * The endless loop of `scan_single` to the left for a 1: when no cell up to `h` holds a 1,
   * the run crosses cell 0, prepends zero bytes for ever and never stops.
   */
  lemma {:induction false} ScanSingleLeftDiverges(final: Movement, tape: seq<bv8>, h: nat, fuel: nat)
    requires forall q: nat :: q <= h ==> !BitAt(tape, q)
    ensures Run(ScanSingleProgram(true, Left, final), Config(tape, h, State(0)), fuel).outcome == OutOfFuel
    decreases fuel
  {
    if fuel > 0 {
      var t := ScanSingleProgram(true, Left, final);
      var c := Config(tape, h, State(0));
      var i := Instruction(0, false, false, Left, 0);
      assert Lookup(t, 0, BitAt(tape, h)) == Some(i);
      StepWithInstruction(t, c, i, 0);
      var c1 := Step(t, c).config;
      forall q: nat | q <= c1.head ensures !BitAt(c1.tape, q) {
        StepWithInstruction(t, c, i, q);
      }
      RunUnfold(t, c, fuel - 1);
      ScanSingleLeftDiverges(final, c1.tape, c1.head, fuel - 1);
    }
  }

  /**
   * A scan for a 0 to the right always finds one, since every cell past the tape reads 0: the
   * first one lies `k` cells from `h`, no further than the end of the tape.
   */
  lemma {:induction false} FirstZeroAhead(tape: seq<bv8>, h: nat) returns (k: nat)
    ensures forall o | 0 <= o < k :: BitAt(tape, Toward(h, o, Right))
    ensures !BitAt(tape, h + k)
    ensures h + k <= if h < 8 * |tape| then 8 * |tape| else h
    decreases 8 * |tape| - h
  {
    if !BitAt(tape, h) {
      k := 0;
    } else {
      var rest := FirstZeroAhead(tape, h + 1);
      k := rest + 1;
      forall o | 0 <= o < k ensures BitAt(tape, Toward(h, o, Right)) {
        if o > 0 {
          assert Toward(h, o, Right) == Toward(h + 1, o - 1, Right);
        }
      }
    }
  }

  /**
   * So only a scan for a 1 can loop for ever to the right: `scan_single(false, Right, final)`
   * halts within `8 * |tape| + 3` steps, on the first 0 from `h`, with no bit changed.
   */
  lemma ScanZeroRightHalts(final: Movement, tape: seq<bv8>, h: nat, fuel: nat) returns (k: nat)
    requires final == Left ==> h > 0 || BitAt(tape, h)
    requires fuel >= 8 * |tape| + 3
    ensures !BitAt(tape, h + k) && forall o | 0 <= o < k :: BitAt(tape, Toward(h, o, Right))
    ensures Run(ScanSingleProgram(false, Right, final), Config(tape, h, State(0)), fuel).outcome == Halted
    ensures Run(ScanSingleProgram(false, Right, final), Config(tape, h, State(0)), fuel).config.head
            == Toward(h + k, 1, final)
    ensures forall q :: BitAt(Run(ScanSingleProgram(false, Right, final), Config(tape, h, State(0)), fuel).config.tape, q)
                        == BitAt(tape, q)
  {
    k := FirstZeroAhead(tape, h);
    ScanSingleRuns(false, Right, final, tape, h, k, fuel);
  }

  /** The tests' program for a primitive block from state 0 to the `halt` block in state 1: write `w0` or `w1`, move `m`. */
  function BlockProgram(w0: bool, w1: bool, m: Movement): (t: Table)
    ensures HaltsAt(t, State(1))
    ensures forall b: bool :: Lookup(t, 0, b) == Some(Instruction(0, b, if b then w1 else w0, m, 1))
  {
    Emit(HaltTable(), State(0), w0, w1, m, m, State(1), State(1))
  }

  /**
   * A primitive block then `halt`: the run halts after 3 steps, with the head moved once and
   * only the head's cell rewritten (everything shifted 8 cells right after a move left from 0).
   */
  lemma BlockRuns(w0: bool, w1: bool, m: Movement, tape: seq<bv8>, h: nat, fuel: nat)
    requires fuel >= 3
    ensures Run(BlockProgram(w0, w1, m), Config(tape, h, State(0)), fuel).outcome == Halted
    ensures Run(BlockProgram(w0, w1, m), Config(tape, h, State(0)), fuel).config.head == HeadAfter(h, m)
    ensures forall q :: BitAt(Run(BlockProgram(w0, w1, m), Config(tape, h, State(0)), fuel).config.tape, q)
                        == AfterBlock(tape, h, m, if BitAt(tape, h) then w1 else w0, q)
  {
    var t := BlockProgram(w0, w1, m);
    var step := BlockStep(t, State(0), State(1), w0, w1, m, tape, h);
    var tail := HaltTail(t, State(1), step[1].tape, step[1].head);
    PathJoin(t, step, tail);
    RunToHalt(t, step + tail[1..], fuel);
  }
}
