/**
 * What the compiled blocks do when the machine runs them: each lemma follows the machine's
 * `program_step` through the instructions a layer operation emitted and states where the head,
 * the state and the bits are afterwards.
 */
module Execution {

  import opened Wrappers
  import opened Movements
  import opened States
  import opened Instructions
  import opened Programs
  import opened Patterns
  import opened Tape
  import opened Machine
  import opened BaseLayer

  /** A stretch of a run: every configuration steps, and continues, to the next one. */
  ghost predicate Path(t: Table, cs: seq<Config>)
  {
    forall i {:trigger Step(t, cs[i])} | 0 <= i < |cs| - 1 :: Step(t, cs[i]) == StepResult(Continue, cs[i + 1])
  }

  function Last(cs: seq<Config>): Config
    requires |cs| > 0
  {
    cs[|cs| - 1]
  }

  /** Running along a path of k + 1 configurations spends k steps and lands on its last one. */
  lemma {:induction false} RunAlong(t: Table, cs: seq<Config>, fuel: nat)
    requires |cs| >= 1 && Path(t, cs)
    ensures Run(t, cs[0], fuel + (|cs| - 1)) == Run(t, Last(cs), fuel)
    decreases |cs|
  {
    if |cs| > 1 {
      var rest := cs[1..];
      assert Path(t, rest) by {
        forall i | 0 <= i < |rest| - 1 ensures Step(t, rest[i]) == StepResult(Continue, rest[i + 1]) {
          assert rest[i] == cs[i + 1] && rest[i + 1] == cs[i + 2];
        }
      }
      assert Step(t, cs[0]) == StepResult(Continue, cs[1]);
      RunUnfold(t, cs[0], fuel + (|cs| - 2));
      RunAlong(t, rest, fuel);
      assert rest[0] == cs[1] && Last(rest) == Last(cs);
    }
  }

  /** A step that continues into the start of a path extends the path by one configuration. */
  lemma PathCons(t: Table, c: Config, rest: seq<Config>)
    requires |rest| >= 1 && Path(t, rest) && Step(t, c) == StepResult(Continue, rest[0])
    ensures Path(t, [c] + rest) && ([c] + rest)[0] == c && Last([c] + rest) == Last(rest)
    ensures |[c] + rest| == |rest| + 1
  {
    var cs := [c] + rest;
    forall i | 0 <= i < |cs| - 1 ensures Step(t, cs[i]) == StepResult(Continue, cs[i + 1]) {
      if i > 0 {
        assert cs[i] == rest[i - 1] && cs[i + 1] == rest[i];
      }
    }
  }

  /** Two paths, the second starting where the first ends, make one. */
  lemma PathJoin(t: Table, a: seq<Config>, b: seq<Config>)
    requires |a| >= 1 && |b| >= 1 && Path(t, a) && Path(t, b) && Last(a) == b[0]
    ensures Path(t, a + b[1..]) && (a + b[1..])[0] == a[0] && Last(a + b[1..]) == Last(b)
    ensures |a + b[1..]| == |a| + |b| - 1
  {
    var ab := a + b[1..];
    forall i | 0 <= i < |ab| - 1 ensures Step(t, ab[i]) == StepResult(Continue, ab[i + 1]) {
      if i < |a| - 1 {
        assert ab[i] == a[i] && ab[i + 1] == a[i + 1];
      } else {
        assert ab[i] == b[i - |a| + 1] && ab[i + 1] == b[i - |a| + 2];
      }
    }
  }

  /** The boundary states of a finished chain, in order. */
  function Bounds(n: nat, start: Option<State>, end: Option<State>, counter: nat): (r: seq<State>)
    requires 1 <= n
    ensures |r| == n + 1
    ensures forall j | 0 <= j <= n :: r[j] == ChainBound(n, start, end, counter, j)
  {
    seq(n + 1, j requires 0 <= j <= n => ChainBound(n, start, end, counter, j))
  }

  /** The table holds the two instructions of every iteration of a chain at its boundary state. */
  ghost predicate ChainAt(t: Table, body: IterationBody, bounds: seq<State>)
  {
    && 2 <= |bounds|
    && body.Fits(|bounds| - 1)
    && forall i: nat, b: bool {:trigger Lookup(t, bounds[i].id, b)} | i < |bounds| - 1 ::
         Lookup(t, bounds[i].id, b) == Some(BodyInstruction(body, |bounds| - 1, i, bounds[i], bounds[i + 1], b))
  }

  /** A finished `chained_loop` whose start predates its allocations is such a chain. */
  lemma ChainTableIsChain(t: Table, body: IterationBody, n: nat, start: Option<State>, end: Option<State>,
                          counter: nat)
    requires 1 <= n && body.Fits(n)
    requires start.Some? ==> start.value.id < counter
    ensures ChainAt(ChainTable(t, body, n, start, end, counter, n), body, Bounds(n, start, end, counter))
  {
    var bounds := Bounds(n, start, end, counter);
    forall i: nat, b: bool | i < n
      ensures Lookup(ChainTable(t, body, n, start, end, counter, n), bounds[i].id, b)
              == Some(BodyInstruction(body, n, i, bounds[i], bounds[i + 1], b))
    {
      ChainTableAt(t, body, n, start, end, counter, n, i, b);
    }
  }

  /** The cell `k` moves in direction `d` away from `h`; a leftward walk here never passes cell 0. */
  function Toward(h: nat, k: nat, d: Movement): (r: nat)
    requires d == Left ==> k <= h
    ensures d == Right ==> r == h + k
    ensures d == Left ==> r == h - k
    ensures d == Stay ==> r == h
  {
    match d
    case Right => h + k
    case Left => h - k
    case Stay => h
  }

  /**
   * The head after `k` left moves from `h`: it counts down to 0, and every move left from cell 0
   * lands on cell 7 of a freshly prepended byte.
   */
  function LeftHead(h: nat, k: nat): (r: nat)
    ensures k <= h ==> r == h - k
    ensures k > h ==> r < 8 && (r - (h - k)) % 8 == 0
  {
    if k <= h then h - k else (h - k) % 8
  }

  /** Whether cell `q` is one of the `k` cells a walk from `h` in direction `d` visits. */
  predicate Swept(h: nat, k: nat, d: Movement, q: nat)
  {
    match d
    case Right => h <= q < h + k
    case Left => q <= h && h - q < k
    case Stay => 0 < k && q == h
  }

  /** How many moves in direction `d` lead from `h` to a swept cell `q`. */
  function Offset(h: nat, d: Movement, q: nat): nat
    requires if d == Right then h <= q else q <= h
  {
    if d == Right then q - h else h - q
  }

  /** `move_right` iteration `j` of a chain: one cell right, on to the next boundary, no bit changed. */
  lemma MoveRightIteration(t: Table, bounds: seq<State>, j: nat, tape: seq<bv8>, h: nat)
    returns (step: seq<Config>)
    requires ChainAt(t, MoveRightStep, bounds) && j < |bounds| - 1
    ensures |step| == 2 && Path(t, step) && step[0] == Config(tape, h, bounds[j])
    ensures step[1].head == h + 1 && step[1].state == bounds[j + 1]
    ensures forall q :: BitAt(step[1].tape, q) == BitAt(tape, q)
  {
    var c := Config(tape, h, bounds[j]);
    var i := BodyInstruction(MoveRightStep, |bounds| - 1, j, c.state, bounds[j + 1], BitAt(tape, h));
    StepWithInstruction(t, c, i, 0);
    forall q ensures BitAt(Step(t, c).config.tape, q) == BitAt(tape, q) {
      StepWithInstruction(t, c, i, q);
    }
    step := [c, Step(t, c).config];
  }

  /**
   * A chain of `move_right`s, entered at boundary `j` with the head on `h`, walks one cell right
   * per remaining iteration to the last boundary and changes no bit.
   */
  lemma {:induction false} MoveRightChain(t: Table, bounds: seq<State>, j: nat, tape: seq<bv8>, h: nat)
    returns (cs: seq<Config>)
    requires ChainAt(t, MoveRightStep, bounds) && j < |bounds|
    ensures |cs| == |bounds| - j && Path(t, cs)
    ensures cs[0] == Config(tape, h, bounds[j])
    ensures Last(cs).head == h + (|bounds| - 1 - j) && Last(cs).state == bounds[|bounds| - 1]
    ensures forall q :: BitAt(Last(cs).tape, q) == BitAt(tape, q)
    decreases |bounds| - j
  {
    if j == |bounds| - 1 {
      cs := [Config(tape, h, bounds[j])];
    } else {
      var step := MoveRightIteration(t, bounds, j, tape, h);
      var rest := MoveRightChain(t, bounds, j + 1, step[1].tape, h + 1);
      PathJoin(t, step, rest);
      cs := step + rest[1..];
    }
  }

  /** `move_left` iteration `j` of a chain: one cell left (cell 7 of a new byte from cell 0). */
  lemma MoveLeftIteration(t: Table, bounds: seq<State>, j: nat, tape: seq<bv8>, h: nat)
    returns (step: seq<Config>)
    requires ChainAt(t, MoveLeftStep, bounds) && j < |bounds| - 1
    ensures |step| == 2 && Path(t, step) && step[0] == Config(tape, h, bounds[j])
    ensures step[1].head == (if h > 0 then h - 1 else 7) && step[1].state == bounds[j + 1]
  {
    var c := Config(tape, h, bounds[j]);
    var i := BodyInstruction(MoveLeftStep, |bounds| - 1, j, c.state, bounds[j + 1], BitAt(tape, h));
    StepWithInstruction(t, c, i, 0);
    step := [c, Step(t, c).config];
  }

  /**
   * A chain of `move_left`s, entered at boundary `j` with the head on `h`, walks one cell left
   * per remaining iteration, wrapping to cell 7 of a new byte whenever it leaves cell 0.
   */
  lemma {:induction false} MoveLeftChain(t: Table, bounds: seq<State>, j: nat, tape: seq<bv8>, h: nat)
    returns (cs: seq<Config>)
    requires ChainAt(t, MoveLeftStep, bounds) && j < |bounds|
    ensures |cs| == |bounds| - j && Path(t, cs)
    ensures cs[0] == Config(tape, h, bounds[j])
    ensures Last(cs).head == LeftHead(h, |bounds| - 1 - j) && Last(cs).state == bounds[|bounds| - 1]
    decreases |bounds| - j
  {
    if j == |bounds| - 1 {
      cs := [Config(tape, h, bounds[j])];
    } else {
      var step := MoveLeftIteration(t, bounds, j, tape, h);
      var k := |bounds| - 1 - (j + 1);
      assert LeftHead(step[1].head, k) == LeftHead(h, k + 1) by {
        if h == 0 && k > 7 {
          assert (7 - k) % 8 == (0 - (k + 1)) % 8;
        }
      }
      var rest := MoveLeftChain(t, bounds, j + 1, step[1].tape, step[1].head);
      PathJoin(t, step, rest);
      cs := step + rest[1..];
    }
  }

  /**
   * The bits after the pattern iterations `j ..` have written, walking `d` from cell `h`:
   * the cell of iteration `k` holds the pattern bit that iteration addresses; every other cell
   * keeps its bit.
   */
  ghost function AfterWrite(tape: seq<bv8>, p: Pattern, d: Movement, j: nat, h: nat, q: nat): bool
    requires j <= p.Len()
  {
    if Swept(h, p.Len() - j, d, q) then TargetBit(p, j + Offset(h, d, q), d == Left) else BitAt(tape, q)
  }

  /**
   * Pattern iteration `j` of a chain reads the head's bit and takes the instruction `i` emitted
   * for it: it writes `i`'s bit at the head, moves as `i` says and takes `i`'s next state.
   */
  lemma PatternIteration(t: Table, body: IterationBody, bounds: seq<State>, j: nat, tape: seq<bv8>, h: nat)
    returns (step: seq<Config>, i: Instruction)
    requires ChainAt(t, body, bounds) && j < |bounds| - 1
    requires body.WritePatternBit? || body.ScanPatternBit?
    requires BodyInstruction(body, |bounds| - 1, j, bounds[j], bounds[j + 1], BitAt(tape, h)).movement == Left ==> h > 0
    ensures i == BodyInstruction(body, |bounds| - 1, j, bounds[j], bounds[j + 1], BitAt(tape, h))
    ensures |step| == 2 && Path(t, step) && step[0] == Config(tape, h, bounds[j])
    ensures step[1].head == Toward(h, 1, i.movement) && step[1].state == State(i.nextState)
    ensures forall q :: BitAt(step[1].tape, q) == if q == h then i.writeBit else BitAt(tape, q)
  {
    var c := Config(tape, h, bounds[j]);
    i := BodyInstruction(body, |bounds| - 1, j, c.state, bounds[j + 1], BitAt(tape, h));
    StepWithInstruction(t, c, i, 0);
    forall q ensures BitAt(Step(t, c).config.tape, q) == if q == h then i.writeBit else BitAt(tape, q) {
      StepWithInstruction(t, c, i, q);
    }
    step := [c, Step(t, c).config];
  }

  /**
   * `write_pattern` iteration `j`: writes the pattern bit it addresses at the head, moves `d`
   * (`final` on the last iteration) and goes on to the next boundary.
   */
  lemma WriteIteration(t: Table, bounds: seq<State>, p: Pattern, d: Movement, final: Movement,
                       j: nat, tape: seq<bv8>, h: nat)
    returns (step: seq<Config>)
    requires ChainAt(t, WritePatternBit(p, d, final), bounds) && j < |bounds| - 1
    requires IterationMovement(|bounds| - 1, j, d, final) == Left ==> h > 0
    ensures |step| == 2 && Path(t, step) && step[0] == Config(tape, h, bounds[j])
    ensures step[1].head == Toward(h, 1, IterationMovement(|bounds| - 1, j, d, final))
    ensures step[1].state == bounds[j + 1]
    ensures forall q :: BitAt(step[1].tape, q) == if q == h then TargetBit(p, j, d == Left) else BitAt(tape, q)
  {
    var i;
    step, i := PatternIteration(t, WritePatternBit(p, d, final), bounds, j, tape, h);
  }

  /**
   * The first iteration of a leftward `write_pattern` of two or more bits from cell 0: it writes
   * the pattern's last bit on cell 0, and its move left prepends a byte, so that bit and every
   * old bit now sit 8 cells further right and the head lands on cell 7.
   */
  lemma WriteLeftWrapIteration(t: Table, bounds: seq<State>, p: Pattern, final: Movement, tape: seq<bv8>)
    returns (step: seq<Config>)
    requires ChainAt(t, WritePatternBit(p, Left, final), bounds) && 3 <= |bounds|
    ensures |step| == 2 && Path(t, step) && step[0] == Config(tape, 0, bounds[0])
    ensures step[1].head == 7 && step[1].state == bounds[1]
    ensures forall q: nat :: BitAt(step[1].tape, q) == (q >= 8 && if q == 8 then TargetBit(p, 0, true) else BitAt(tape, q - 8))
  {
    var c := Config(tape, 0, bounds[0]);
    var i := BodyInstruction(WritePatternBit(p, Left, final), |bounds| - 1, 0, bounds[0], bounds[1], BitAt(tape, 0));
    StepWithInstruction(t, c, i, 0);
    forall q: nat ensures BitAt(Step(t, c).config.tape, q) == (q >= 8 && if q == 8 then TargetBit(p, 0, true) else BitAt(tape, q - 8)) {
      StepWithInstruction(t, c, i, q);
    }
    step := [c, Step(t, c).config];
  }

  /**
   * A `write_pattern` chain, entered at boundary `j` with the head on `h`, writes the bits of
   * iterations `j ..` on consecutive cells in direction `d`, moves `final` after the last one
   * and reaches the last boundary. Leftward writes here stay right of cell 0.
   */
  lemma {:induction false} WriteChain(t: Table, bounds: seq<State>, p: Pattern, d: Movement, final: Movement,
                                      j: nat, tape: seq<bv8>, h: nat)
    returns (cs: seq<Config>)
    requires ChainAt(t, WritePatternBit(p, d, final), bounds) && j < |bounds| - 1
    requires d != Stay
    requires d == Left ==> |bounds| - 2 - j <= h
    requires final == Left ==> Toward(h, |bounds| - 2 - j, d) > 0
    ensures |cs| == |bounds| - j && Path(t, cs)
    ensures cs[0] == Config(tape, h, bounds[j])
    ensures Last(cs).state == bounds[|bounds| - 1]
    ensures Last(cs).head == Toward(Toward(h, |bounds| - 2 - j, d), 1, final)
    ensures forall q :: BitAt(Last(cs).tape, q) == AfterWrite(tape, p, d, j, h, q)
    decreases |bounds| - j
  {
    var step := WriteIteration(t, bounds, p, d, final, j, tape, h);
    if j == |bounds| - 2 {
      cs := step;
      forall q ensures BitAt(step[1].tape, q) == AfterWrite(tape, p, d, j, h, q) {
        AfterWriteLast(tape, step[1].tape, p, d, j, h, q);
      }
    } else {
      var rest := WriteChain(t, bounds, p, d, final, j + 1, step[1].tape, step[1].head);
      PathJoin(t, step, rest);
      cs := step + rest[1..];
      forall q ensures BitAt(Last(cs).tape, q) == AfterWrite(tape, p, d, j, h, q) {
        AfterWriteShift(tape, step[1].tape, p, d, j, h, q);
      }
    }
  }

  /** The bits left by the last iteration alone. */
  lemma AfterWriteLast(tape: seq<bv8>, written: seq<bv8>, p: Pattern, d: Movement, j: nat, h: nat, q: nat)
    requires j + 1 == p.Len() && d != Stay
    requires BitAt(written, q) == if q == h then TargetBit(p, j, d == Left) else BitAt(tape, q)
    ensures BitAt(written, q) == AfterWrite(tape, p, d, j, h, q)
  {
  }

  /** The bits left by iterations `j ..` are those left by `j + 1 ..` once iteration `j` has written its cell. */
  lemma AfterWriteShift(tape: seq<bv8>, written: seq<bv8>, p: Pattern, d: Movement, j: nat, h: nat, q: nat)
    requires j + 1 < p.Len() && d != Stay && (d == Left ==> h > 0)
    requires forall q' :: BitAt(written, q') == if q' == h then TargetBit(p, j, d == Left) else BitAt(tape, q')
    ensures AfterWrite(written, p, d, j + 1, Toward(h, 1, d), q) == AfterWrite(tape, p, d, j, h, q)
  {
  }

  /**
   * In a scan round from cell `h` in direction `d`, the first iteration at or after `k` whose
   * cell does not hold the pattern bit it expects; `p.Len()` when every one of them matches.
   */
  function FirstMismatch(tape: seq<bv8>, p: Pattern, d: Movement, h: nat, k: nat): (m: nat)
    requires k <= p.Len() && (d == Left ==> p.Len() <= h + 1)
    ensures k <= m <= p.Len()
    ensures m < p.Len() ==> BitAt(tape, Toward(h, m, d)) != TargetBit(p, m, d == Left)
    decreases p.Len() - k
  {
    if k == p.Len() then k
    else if BitAt(tape, Toward(h, k, d)) != TargetBit(p, k, d == Left) then k
    else FirstMismatch(tape, p, d, h, k + 1)
  }

  /**
   * `scan_pattern` iteration `j` on the bit it expects: it writes the bit back, moves `d`
   * (`final` on the last iteration) and goes on to the next boundary.
   */
  lemma ScanHit(t: Table, bounds: seq<State>, p: Pattern, d: Movement, final: Movement,
                j: nat, tape: seq<bv8>, cell: nat)
    returns (step: seq<Config>)
    requires j < |bounds| - 1 && ChainAt(t, ScanPatternBit(p, d, final, bounds[0]), bounds)
    requires BitAt(tape, cell) == TargetBit(p, j, d == Left)
    requires IterationMovement(|bounds| - 1, j, d, final) == Left ==> cell > 0
    ensures |step| == 2 && Path(t, step) && step[0] == Config(tape, cell, bounds[j])
    ensures step[1].head == Toward(cell, 1, IterationMovement(|bounds| - 1, j, d, final))
    ensures step[1].state == bounds[j + 1]
    ensures forall q :: BitAt(step[1].tape, q) == BitAt(tape, q)
  {
    var i;
    step, i := PatternIteration(t, ScanPatternBit(p, d, final, bounds[0]), bounds, j, tape, cell);
  }

  /**
   * `scan_pattern` iteration `j` on the other bit: it writes the bit back, moves `d` and goes
   * back to the restart state, the first boundary.
   */
  lemma ScanMiss(t: Table, bounds: seq<State>, p: Pattern, d: Movement, final: Movement,
                 j: nat, tape: seq<bv8>, cell: nat)
    returns (step: seq<Config>)
    requires j < |bounds| - 1 && ChainAt(t, ScanPatternBit(p, d, final, bounds[0]), bounds)
    requires BitAt(tape, cell) != TargetBit(p, j, d == Left)
    requires d == Left ==> cell > 0
    ensures |step| == 2 && Path(t, step) && step[0] == Config(tape, cell, bounds[j])
    ensures step[1].head == Toward(cell, 1, d) && step[1].state == bounds[0]
    ensures forall q :: BitAt(step[1].tape, q) == BitAt(tape, q)
  {
    var i;
    step, i := PatternIteration(t, ScanPatternBit(p, d, final, bounds[0]), bounds, j, tape, cell);
  }

  /**
   * Whether, in a scan round from cell `h` in direction `d`, the cells of iterations
   * `j .. k - 1` hold the pattern bits those iterations expect.
   */
  ghost predicate MatchesFrom(tape: seq<bv8>, p: Pattern, d: Movement, h: nat, j: nat, k: nat)
    requires j <= k <= p.Len() && (d == Left ==> p.Len() <= h + 1)
  {
    forall o | j <= o < k :: BitAt(tape, Toward(h, o, d)) == TargetBit(p, o, d == Left)
  }

  /**
   * The rest of a `scan_pattern` round from cell `h`, entered at boundary `j`, when every
   * remaining cell holds its expected bit: it reaches the last boundary with the head moved
   * `final` past the round's last cell, and changes no bit.
   */
  lemma {:induction false} ScanMatchChain(t: Table, bounds: seq<State>, p: Pattern, d: Movement, final: Movement,
                                          j: nat, tape: seq<bv8>, h: nat)
    returns (cs: seq<Config>)
    requires j < |bounds| - 1 && ChainAt(t, ScanPatternBit(p, d, final, bounds[0]), bounds)
    requires d != Stay && (d == Left ==> |bounds| - 2 <= h)
    requires final == Left ==> Toward(h, |bounds| - 2, d) > 0
    requires MatchesFrom(tape, p, d, h, j, p.Len())
    ensures Path(t, cs) && |cs| == p.Len() - j + 1
    ensures cs[0] == Config(tape, Toward(h, j, d), bounds[j])
    ensures Last(cs).state == bounds[|bounds| - 1]
    ensures Last(cs).head == Toward(Toward(h, p.Len() - 1, d), 1, final)
    ensures forall q :: BitAt(Last(cs).tape, q) == BitAt(tape, q)
    decreases |bounds| - j
  {
    var step := ScanHit(t, bounds, p, d, final, j, tape, Toward(h, j, d));
    if j == |bounds| - 2 {
      cs := step;
    } else {
      assert step[1].head == Toward(h, j + 1, d);
      var rest := ScanMatchChain(t, bounds, p, d, final, j + 1, step[1].tape, h);
      PathJoin(t, step, rest);
      cs := step + rest[1..];
    }
  }

  /**
   * The rest of a `scan_pattern` round from cell `h`, entered at boundary `j`, when iteration
   * `m` is the first to find the other bit: it returns to the first boundary with the head one
   * cell past that of iteration `m`, and changes no bit.
   */
  lemma {:induction false} ScanMismatchChain(t: Table, bounds: seq<State>, p: Pattern, d: Movement, final: Movement,
                                             j: nat, m: nat, tape: seq<bv8>, h: nat)
    returns (cs: seq<Config>)
    requires j <= m < |bounds| - 1 && ChainAt(t, ScanPatternBit(p, d, final, bounds[0]), bounds)
    requires d != Stay && (d == Left ==> |bounds| - 2 <= h && m < h)
    requires MatchesFrom(tape, p, d, h, j, m)
    requires BitAt(tape, Toward(h, m, d)) != TargetBit(p, m, d == Left)
    ensures Path(t, cs) && |cs| == m - j + 2
    ensures cs[0] == Config(tape, Toward(h, j, d), bounds[j])
    ensures Last(cs).state == bounds[0] && Last(cs).head == Toward(h, m + 1, d)
    ensures forall q :: BitAt(Last(cs).tape, q) == BitAt(tape, q)
    decreases m - j
  {
    var cell := Toward(h, j, d);
    if j == m {
      assert Toward(cell, 1, d) == Toward(h, j + 1, d);
      cs := ScanMiss(t, bounds, p, d, final, j, tape, cell);
    } else {
      var step := ScanHit(t, bounds, p, d, final, j, tape, cell);
      assert step[1].head == Toward(h, j + 1, d);
      var rest := ScanMismatchChain(t, bounds, p, d, final, j + 1, m, step[1].tape, h);
      PathJoin(t, step, rest);
      cs := step + rest[1..];
    }
  }

  /**
   * A whole `scan_pattern` round from cell `h` at the first boundary: when the round's cells
   * hold the pattern it reaches the last boundary past the round's last cell; otherwise it is
   * back at the first boundary one cell past the first mismatch. No bit changes.
   */
  lemma ScanRound(t: Table, bounds: seq<State>, p: Pattern, d: Movement, final: Movement, tape: seq<bv8>, h: nat)
    returns (cs: seq<Config>)
    requires |bounds| >= 2 && ChainAt(t, ScanPatternBit(p, d, final, bounds[0]), bounds)
    requires d != Stay && (d == Left ==> |bounds| - 2 <= h)
    requires FirstMismatch(tape, p, d, h, 0) == p.Len() && final == Left ==> Toward(h, p.Len() - 1, d) > 0
    requires FirstMismatch(tape, p, d, h, 0) < p.Len() && d == Left ==> FirstMismatch(tape, p, d, h, 0) < h
    ensures Path(t, cs) && 2 <= |cs| <= p.Len() + 1 && cs[0] == Config(tape, h, bounds[0])
    ensures forall q :: BitAt(Last(cs).tape, q) == BitAt(tape, q)
    ensures FirstMismatch(tape, p, d, h, 0) == p.Len() ==>
      Last(cs).state == bounds[|bounds| - 1] && Last(cs).head == Toward(Toward(h, p.Len() - 1, d), 1, final)
    ensures FirstMismatch(tape, p, d, h, 0) < p.Len() ==>
      Last(cs).state == bounds[0] && Last(cs).head == Toward(h, FirstMismatch(tape, p, d, h, 0) + 1, d)
  {
    var m := FirstMismatch(tape, p, d, h, 0);
    forall o | 0 <= o < m ensures BitAt(tape, Toward(h, o, d)) == TargetBit(p, o, d == Left) {
      FirstMismatchIsFirst(tape, p, d, h, 0, o);
    }
    if m == p.Len() {
      cs := ScanMatchChain(t, bounds, p, d, final, 0, tape, h);
    } else {
      cs := ScanMismatchChain(t, bounds, p, d, final, 0, m, tape, h);
    }
  }

  /** Every iteration before the first mismatch finds its expected bit. */
  lemma {:induction false} FirstMismatchIsFirst(tape: seq<bv8>, p: Pattern, d: Movement, h: nat, k: nat, o: nat)
    requires k <= p.Len() && (d == Left ==> p.Len() <= h + 1)
    requires k <= o < FirstMismatch(tape, p, d, h, k)
    ensures BitAt(tape, Toward(h, o, d)) == TargetBit(p, o, d == Left)
    decreases p.Len() - k
  {
    if o > k {
      FirstMismatchIsFirst(tape, p, d, h, k + 1, o);
    }
  }

  /**
   * State `s` is a `scan_single` loop: it writes back the bit it reads; on `target` it moves
   * `final` and leaves for `e`, on the other bit it moves `d` and stays in `s`.
   */
  ghost predicate ScanSingleAt(t: Table, s: State, e: State, target: bool, d: Movement, final: Movement)
  {
    forall b: bool :: Lookup(t, s.id, b) == Some(Instruction(s.id, b, b, OnRead(b, target, final, d), OnRead(b, target, e, s).id))
  }

  /**
   * One step of a `scan_single` loop on cell `h`: on `target` it moves `final` and leaves for `e`,
   * otherwise it moves `d` and stays in `s`; no bit changes.
   */
  lemma ScanSingleStep(t: Table, s: State, e: State, target: bool, d: Movement, final: Movement,
                       tape: seq<bv8>, h: nat)
    returns (c1: Config)
    requires ScanSingleAt(t, s, e, target, d, final)
    requires BitAt(tape, h) != target ==> (d == Left ==> h > 0)
    requires BitAt(tape, h) == target ==> (final == Left ==> h > 0)
    ensures Step(t, Config(tape, h, s)) == StepResult(Continue, c1)
    ensures BitAt(tape, h) == target ==> c1.state == e && c1.head == Toward(h, 1, final)
    ensures BitAt(tape, h) != target ==> c1.state == s && c1.head == Toward(h, 1, d)
    ensures forall q :: BitAt(c1.tape, q) == BitAt(tape, q)
  {
    var c := Config(tape, h, s);
    var bit := BitAt(tape, h);
    var i := Instruction(s.id, bit, bit, OnRead(bit, target, final, d), OnRead(bit, target, e, s).id);
    StepWithInstruction(t, c, i, 0);
    c1 := Step(t, c).config;
    forall q ensures BitAt(c1.tape, q) == BitAt(tape, q) {
      StepWithInstruction(t, c, i, q);
    }
  }

  /**
   * A `scan_single` loop entered on cell `h` whose first `target` bit in direction `d` lies `k`
   * cells away: it steps over the `k` other cells, moves `final` off the target cell and
   * reaches `e`, changing no bit.
   */
  lemma {:induction false} ScanSingleChain(t: Table, s: State, e: State, target: bool, d: Movement, final: Movement,
                                           tape: seq<bv8>, h: nat, k: nat)
    returns (cs: seq<Config>)
    requires ScanSingleAt(t, s, e, target, d, final) && d != Stay && (d == Left ==> k <= h)
    requires forall o | 0 <= o < k :: BitAt(tape, Toward(h, o, d)) != target
    requires BitAt(tape, Toward(h, k, d)) == target
    requires final == Left ==> Toward(h, k, d) > 0
    ensures |cs| == k + 2 && Path(t, cs) && cs[0] == Config(tape, h, s)
    ensures Last(cs).state == e && Last(cs).head == Toward(Toward(h, k, d), 1, final)
    ensures forall q :: BitAt(Last(cs).tape, q) == BitAt(tape, q)
    decreases k
  {
    var c := Config(tape, h, s);
    if k > 0 {
      assert BitAt(tape, Toward(h, 0, d)) != target;
    }
    var c1 := ScanSingleStep(t, s, e, target, d, final, tape, h);
    if k == 0 {
      cs := [c, c1];
    } else {
      var next := Toward(h, 1, d);
      forall o | 0 <= o < k - 1 ensures BitAt(c1.tape, Toward(next, o, d)) != target {
        assert Toward(next, o, d) == Toward(h, o + 1, d);
      }
      assert Toward(next, k - 1, d) == Toward(h, k, d);
      var rest := ScanSingleChain(t, s, e, target, d, final, c1.tape, next, k - 1);
      PathCons(t, c, rest);
      cs := [c] + rest;
    }
  }

  /**
   * The bits after a one-instruction step at `h` that writes `w` and moves `m`: only cell `h`
   * changes, and a move left from cell 0 prepends a byte, shifting every bit 8 cells right.
   */
  ghost function AfterBlock(tape: seq<bv8>, h: nat, m: Movement, w: bool, q: nat): bool
  {
    if m == Left && h == 0 then q >= 8 && (if q == 8 then w else BitAt(tape, q - 8))
    else if q == h then w else BitAt(tape, q)
  }

  /** The head after a move `m` from `h`: a move left from cell 0 lands on cell 7 of the prepended byte. */
  function HeadAfter(h: nat, m: Movement): (r: nat)
    ensures m == Right ==> r == h + 1
    ensures m == Stay ==> r == h
    ensures m == Left ==> r == if h == 0 then 7 else h - 1
  {
    if m == Left && h == 0 then 7 else Toward(h, 1, m)
  }

  /** `HeadAfter` is the head arithmetic of the machine's own move: it agrees with `Moved`. */
  lemma HeadAfterIsMoved(c: Config, m: Movement)
    ensures Moved(c, m).head == HeadAfter(c.head, m)
  {
    if m == Left {
      assert Moved(c, m) == MovedLeft(c);
    }
  }

  /**
   * A primitive block in state `s`: on reading 0 it writes `w0`, on 1 it writes `w1`; either
   * way it moves `m` and goes to `e`. One step through it from `h`.
   */
  lemma BlockStep(t: Table, s: State, e: State, w0: bool, w1: bool, m: Movement, tape: seq<bv8>, h: nat)
    returns (step: seq<Config>)
    requires forall b: bool :: Lookup(t, s.id, b) == Some(Instruction(s.id, b, if b then w1 else w0, m, e.id))
    ensures |step| == 2 && Path(t, step) && step[0] == Config(tape, h, s)
    ensures step[1].state == e && step[1].head == HeadAfter(h, m)
    ensures forall q :: BitAt(step[1].tape, q) == AfterBlock(tape, h, m, if BitAt(tape, h) then w1 else w0, q)
  {
    var c := Config(tape, h, s);
    var bit := BitAt(tape, h);
    var i := Instruction(s.id, bit, if bit then w1 else w0, m, e.id);
    StepWithInstruction(t, c, i, 0);
    forall q ensures BitAt(Step(t, c).config.tape, q) == AfterBlock(tape, h, m, i.writeBit, q) {
      StepWithInstruction(t, c, i, q);
    }
    step := [c, Step(t, c).config];
  }
}
