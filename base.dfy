/**
 * The base layer (src/compiler/layers/base.rs): `chained_loop` repeats one iteration builder `n`
 * times, threading each iteration's end state into the next iteration's start; `move_right_x`,
 * `move_left_x` and `scan_single` are built on it and on `branch`. The two helpers the pattern
 * layer calls, `branch_when` and `write_and_move`, live here as well.
 */
module BaseLayer {

  import opened Wrappers
  import opened Movements
  import opened States
  import opened Instructions
  import opened Programs
  import opened Patterns
  import opened Compiler
  import opened PrimitiveLayer

  /** The panic of `chained_loop` with zero iterations: `loop_start.unwrap()` on `None`. */
  datatype LoopError = EmptyLoop

  /**
   * The iteration builders handed to `chained_loop`, one constructor per closure in the layers:
   * a single `move_right`, a single `move_left`, one bit of `write_pattern`, and one bit of
   * `scan_pattern` (whose mismatches return to `restart`, the scan's start state).
   */
  datatype IterationBody =
    | MoveRightStep
    | MoveLeftStep
    | WritePatternBit(pattern: Pattern, writeMovement: Movement, finalMovement: Movement)
    | ScanPatternBit(pattern: Pattern, scanMovement: Movement, finalMovement: Movement, restart: State)
  {
    /** The pattern closures index their pattern, so they run exactly once per pattern bit. */
    predicate Fits(n: nat)
    {
      (WritePatternBit? || ScanPatternBit?) ==> pattern.Len() == n
    }
  }

  /** Every iteration but the last moves `regular`; the last moves `final`. */
  function IterationMovement(n: nat, i: nat, regular: Movement, final: Movement): (m: Movement)
    requires i < n
    ensures i + 1 < n ==> m == regular
    ensures i + 1 == n ==> m == final
  {
    if i < n - 1 then regular else final
  }

  /**
   * The instruction iteration `i` of `n` emits for its start state `s` on reading `bit`, when
   * its end state is `e`.
   */
  function BodyInstruction(body: IterationBody, n: nat, i: nat, s: State, e: State, bit: bool): (r: Instruction)
    requires i < n && body.Fits(n)
    ensures r.currentState == s.id && r.readBit == bit
    ensures r.nextState == e.id || (body.ScanPatternBit? && r.nextState == body.restart.id)
    ensures !body.WritePatternBit? ==> r.writeBit == bit
  {
    match body
    case MoveRightStep => Instruction(s.id, bit, bit, Right, e.id)
    case MoveLeftStep => Instruction(s.id, bit, bit, Left, e.id)
    case WritePatternBit(p, wm, fm) =>
      Instruction(s.id, bit, TargetBit(p, i, wm == Left), IterationMovement(n, i, wm, fm), e.id)
    case ScanPatternBit(p, sm, fm, restart) =>
      if bit == TargetBit(p, i, sm == Left) then Instruction(s.id, bit, bit, IterationMovement(n, i, sm, fm), e.id)
      else Instruction(s.id, bit, bit, sm, restart.id)
  }

  /** The table after iteration `i` of `n` emitted its two instructions for `s`. */
  function EmitIteration(t: Table, body: IterationBody, n: nat, i: nat, s: State, e: State): (r: Table)
    requires i < n && body.Fits(n)
    ensures r.Keys == t.Keys + {(s.id, false), (s.id, true)}
  {
    t[(s.id, false) := BodyInstruction(body, n, i, s, e, false)][(s.id, true) := BodyInstruction(body, n, i, s, e, true)]
  }

  /** What a branch on `target` does on reading `bit`: the match choice or the mismatch choice. */
  function OnRead<T>(bit: bool, target: bool, onMatch: T, onMismatch: T): (r: T)
    ensures bit == target ==> r == onMatch
    ensures bit != target ==> r == onMismatch
  {
    if bit == target then onMatch else onMismatch
  }

  /**
   * `branch_when`: a `branch` dispatched on the target bit, as `scan_single` does. Reading
   * `target` moves `matchMovement` to the match state, reading the other bit moves
   * `mismatchMovement` to the mismatch state; states are resolved in the order the dispatched
   * `branch` takes its arguments.
   */
  method BranchWhen(c: TuringCompiler, target: bool, matchMovement: Movement, mismatchMovement: Movement,
                    currentState: Option<State>, matchNext: Option<State>, mismatchNext: Option<State>)
    returns (branchState: State, matchState: State, mismatchState: State)
    requires c.Valid()
    modifies c, c.program
    ensures c.Valid()
    ensures branchState == Resolved(currentState, old(c.currentState))
    ensures target ==> matchState == Resolved(matchNext, CounterAfter(currentState, old(c.currentState)))
    ensures target ==> (mismatchState ==
      Resolved(mismatchNext, CounterAfter(matchNext, CounterAfter(currentState, old(c.currentState)))))
    ensures !target ==> mismatchState == Resolved(mismatchNext, CounterAfter(currentState, old(c.currentState)))
    ensures !target ==> (matchState ==
      Resolved(matchNext, CounterAfter(mismatchNext, CounterAfter(currentState, old(c.currentState)))))
    ensures c.currentState ==
      CounterAfter(matchNext, CounterAfter(mismatchNext, CounterAfter(currentState, old(c.currentState))))
    ensures c.program.instructions == Emit(old(c.program.instructions), branchState, false, true,
      OnRead(false, target, matchMovement, mismatchMovement), OnRead(true, target, matchMovement, mismatchMovement),
      OnRead(false, target, matchState, mismatchState), OnRead(true, target, matchState, mismatchState))
  {
    if target {
      branchState, matchState, mismatchState :=
        Branch(c, currentState, matchNext, mismatchNext, matchMovement, mismatchMovement);
    } else {
      branchState, mismatchState, matchState :=
        Branch(c, currentState, mismatchNext, matchNext, mismatchMovement, matchMovement);
    }
  }

  /**
   * `write_and_move`: for either bit read, write `bit` and move `movement` to the next state, by
   * dispatching to `mark`/`unmark` or the matching `*_and_move_*` primitive.
   */
  method WriteAndMove(c: TuringCompiler, bit: bool, movement: Movement,
                      currentState: Option<State>, nextState: Option<State>)
    returns (current: State, next: State)
    requires c.Valid()
    modifies c, c.program
    ensures c.Valid()
    ensures ResolvedPair(currentState, nextState, old(c.currentState), current, next, c.currentState)
    ensures c.program.instructions == Emit(old(c.program.instructions), current, bit, bit, movement, movement, next, next)
  {
    match movement
    case Stay =>
      if bit {
        current, next := Mark(c, currentState, nextState);
      } else {
        current, next := Unmark(c, currentState, nextState);
      }
    case Right =>
      if bit {
        current, next := MarkAndMoveRight(c, currentState, nextState);
      } else {
        current, next := UnmarkAndMoveRight(c, currentState, nextState);
      }
    case Left =>
      if bit {
        current, next := MarkAndMoveLeft(c, currentState, nextState);
      } else {
        current, next := UnmarkAndMoveLeft(c, currentState, nextState);
      }
  }

  /** Runs the builder of iteration `i` of `n` between the given boundaries. */
  method BuildIteration(c: TuringCompiler, body: IterationBody, n: nat, i: nat,
                        iterStart: Option<State>, iterEnd: Option<State>)
    returns (s: State, e: State)
    requires i < n && body.Fits(n)
    requires c.Valid()
    modifies c, c.program
    ensures c.Valid()
    ensures ResolvedPair(iterStart, iterEnd, old(c.currentState), s, e, c.currentState)
    ensures c.program.instructions == EmitIteration(old(c.program.instructions), body, n, i, s, e)
  {
    match body
    case MoveRightStep =>
      s, e := MoveRight(c, iterStart, iterEnd);
    case MoveLeftStep =>
      s, e := MoveLeft(c, iterStart, iterEnd);
    case WritePatternBit(p, wm, fm) =>
      var target := if wm == Left then p.GetAt(p.Len() - i - 1) else p.GetAt(i);
      assert target == Ok(TargetBit(p, i, wm == Left));
      if i < p.Len() - 1 {
        s, e := WriteAndMove(c, target.value, wm, iterStart, iterEnd);
      } else {
        s, e := WriteAndMove(c, target.value, fm, iterStart, iterEnd);
      }
    case ScanPatternBit(p, sm, fm, restart) =>
      var target := if sm == Left then p.GetAt(p.Len() - i - 1) else p.GetAt(i);
      assert target == Ok(TargetBit(p, i, sm == Left));
      var ignored;
      if i < p.Len() - 1 {
        s, e, ignored := BranchWhen(c, target.value, sm, sm, iterStart, iterEnd, Some(restart));
      } else {
        s, e, ignored := BranchWhen(c, target.value, fm, sm, iterStart, iterEnd, Some(restart));
      }
  }

  /**
   * The boundary states of a chain of `n` iterations started with counter `counter`: boundary 0
   * is the chain's start, boundary `n` its end, and boundary `j` in between is the end of
   * iteration `j - 1` and the start of iteration `j`, a state allocated by iteration `j - 1`.
   */
  function ChainBound(n: nat, start: Option<State>, end: Option<State>, counter: nat, j: nat): (r: State)
    requires 1 <= n && j <= n
    ensures j == 0 ==> r == Resolved(start, counter)
    ensures 0 < j < n ==> CounterAfter(start, counter) <= r.id < CounterAfter(start, counter) + n - 1
  {
    var afterStart := CounterAfter(start, counter);
    if j == 0 then Resolved(start, counter)
    else if j == n then Resolved(end, afterStart + n - 1)
    else State(afterStart + j - 1)
  }

  /** The counter after the first `k` iterations of such a chain. */
  function ChainCounter(n: nat, start: Option<State>, end: Option<State>, counter: nat, k: nat): (r: nat)
    requires 1 <= n && k <= n
    ensures counter <= r
    ensures k == n ==> r == counter + (n - 1) + (if start.None? then 1 else 0) + (if end.None? then 1 else 0)
  {
    var afterStart := CounterAfter(start, counter);
    if k == 0 then counter
    else if k < n then afterStart + k
    else CounterAfter(end, afterStart + n - 1)
  }

  /** The table after the first `k` iterations of such a chain, each from its boundary to the next. */
  function ChainTable(t: Table, body: IterationBody, n: nat, start: Option<State>, end: Option<State>,
                      counter: nat, k: nat): (r: Table)
    requires 1 <= n && k <= n && body.Fits(n)
    ensures t.Keys <= r.Keys
    ensures k > 0 ==> (ChainBound(n, start, end, counter, k - 1).id, false) in r
    ensures k > 0 ==> (ChainBound(n, start, end, counter, k - 1).id, true) in r
    decreases k
  {
    if k == 0 then t
    else EmitIteration(ChainTable(t, body, n, start, end, counter, k - 1), body, n, k - 1,
                       ChainBound(n, start, end, counter, k - 1), ChainBound(n, start, end, counter, k))
  }

  /**
   * Iteration `i` of a chain, given the boundaries `chained_loop` passes it, starts at boundary
   * `i`, ends at boundary `i + 1` and leaves the counter where the chain's closed form says.
   */
  lemma ChainStep(n: nat, start: Option<State>, end: Option<State>, counter: nat, i: nat,
                  iterStart: Option<State>, iterEnd: Option<State>, s: State, e: State, after: nat)
    requires i < n
    requires iterStart == if i == 0 then start else Some(ChainBound(n, start, end, counter, i))
    requires iterEnd == if i == n - 1 then end else None
    requires ResolvedPair(iterStart, iterEnd, ChainCounter(n, start, end, counter, i), s, e, after)
    ensures s == ChainBound(n, start, end, counter, i)
    ensures e == ChainBound(n, start, end, counter, i + 1)
    ensures after == ChainCounter(n, start, end, counter, i + 1)
  {
  }

  /** Emitting iteration `k` between its two boundaries extends the chain's table by one iteration. */
  lemma ChainTableNext(t: Table, body: IterationBody, n: nat, start: Option<State>, end: Option<State>,
                       counter: nat, k: nat, s: State, e: State, before: Table, after: Table)
    requires k < n && body.Fits(n)
    requires s == ChainBound(n, start, end, counter, k) && e == ChainBound(n, start, end, counter, k + 1)
    requires before == ChainTable(t, body, n, start, end, counter, k)
    requires after == EmitIteration(before, body, n, k, s, e)
    ensures after == ChainTable(t, body, n, start, end, counter, k + 1)
  {
  }

  /**
   * The `build_iteration` call of loop round `i` of `chained_loop` (for `n >= 2`): round 0 starts
   * at the chain's start, the others where the previous round ended, and only the last round
   * ends at the chain's end. Round `i` adds iteration `i` of the closed form.
   */
  method ChainIteration(c: TuringCompiler, body: IterationBody, n: nat, i: nat, startState: Option<State>,
                        endState: Option<State>, prevIterEnd: Option<State>, ghost counter0: nat,
                        ghost table0: Table)
    returns (iterStart: State, iterEnd: State)
    requires c.Valid() && body.Fits(n) && 2 <= n && i < n
    requires c.currentState == ChainCounter(n, startState, endState, counter0, i)
    requires c.program.instructions == ChainTable(table0, body, n, startState, endState, counter0, i)
    requires 0 < i ==> prevIterEnd == Some(ChainBound(n, startState, endState, counter0, i))
    modifies c, c.program
    ensures c.Valid()
    ensures iterStart == ChainBound(n, startState, endState, counter0, i)
    ensures iterEnd == ChainBound(n, startState, endState, counter0, i + 1)
    ensures c.currentState == ChainCounter(n, startState, endState, counter0, i + 1)
    ensures c.program.instructions == ChainTable(table0, body, n, startState, endState, counter0, i + 1)
  {
    ghost var before := c.program.instructions;
    ghost var startArg, endArg;
    if i == 0 {
      startArg, endArg := startState, None;
      iterStart, iterEnd := BuildIteration(c, body, n, i, startState, None);
    } else if i == n - 1 {
      startArg, endArg := prevIterEnd, endState;
      iterStart, iterEnd := BuildIteration(c, body, n, i, prevIterEnd, endState);
    } else {
      startArg, endArg := prevIterEnd, None;
      iterStart, iterEnd := BuildIteration(c, body, n, i, prevIterEnd, None);
    }
    ChainStep(n, startState, endState, counter0, i, startArg, endArg, iterStart, iterEnd, c.currentState);
    ChainTableNext(table0, body, n, startState, endState, counter0, i, iterStart, iterEnd,
                   before, c.program.instructions);
  }

  /**
   * `chained_loop`: runs the builder `n` times; iteration 0 starts at `startState`, every later
   * iteration starts where the previous one ended, and only the last one ends at `endState`.
   * It returns the first iteration's start and the last iteration's end; with `n == 0` the
   * final `unwrap` panics.
   */
  method ChainedLoop(c: TuringCompiler, n: nat, startState: Option<State>, endState: Option<State>,
                     body: IterationBody)
    returns (r: Result<(State, State), LoopError>)
    requires c.Valid() && body.Fits(n)
    modifies c, c.program
    ensures c.Valid()
    ensures n == 0 ==> r == Err(EmptyLoop)
    ensures n == 0 ==> c.currentState == old(c.currentState) && c.program.instructions == old(c.program.instructions)
    ensures n >= 1 ==> r == Ok((ChainBound(n, startState, endState, old(c.currentState), 0),
                                ChainBound(n, startState, endState, old(c.currentState), n)))
    ensures n >= 1 ==> c.currentState == ChainCounter(n, startState, endState, old(c.currentState), n)
    ensures n >= 1 ==> (c.program.instructions ==
      ChainTable(old(c.program.instructions), body, n, startState, endState, old(c.currentState), n))
  {
    ghost var counter0 := c.currentState;
    ghost var table0 := c.program.instructions;
    if n == 1 {
      var iterStart, iterEnd := BuildIteration(c, body, 1, 0, startState, endState);
      ChainStep(n, startState, endState, counter0, 0, startState, endState, iterStart, iterEnd, c.currentState);
      return Ok((iterStart, iterEnd));
    }

    var prevIterEnd: Option<State> := None;
    var loopStart: Option<State> := None;
    var loopEnd: Option<State> := None;

    for i := 0 to n
      invariant c.Valid()
      invariant n == 0 ==> c.currentState == counter0 && c.program.instructions == table0
      invariant n >= 1 ==> c.currentState == ChainCounter(n, startState, endState, counter0, i)
      invariant n >= 1 ==> c.program.instructions == ChainTable(table0, body, n, startState, endState, counter0, i)
      invariant 0 < i ==> prevIterEnd == Some(ChainBound(n, startState, endState, counter0, i))
      invariant 0 < i ==> loopStart == Some(ChainBound(n, startState, endState, counter0, 0))
      invariant i == 0 ==> loopStart.None?
      invariant i < n ==> loopEnd.None?
      invariant 0 < i == n ==> loopEnd == Some(ChainBound(n, startState, endState, counter0, n))
    {
      var iterStart, iterEnd := ChainIteration(c, body, n, i, startState, endState, prevIterEnd, counter0, table0);

      if i == 0 {
        loopStart := Some(iterStart);
      }
      if i == n - 1 {
        loopEnd := Some(iterEnd);
      }

      prevIterEnd := Some(iterEnd);
    }

    if loopStart.None? || loopEnd.None? {
      return Err(EmptyLoop);
    }
    r := Ok((loopStart.value, loopEnd.value));
  }

  /**
   * A chain of one iteration is that iteration alone, run from the caller's start to the
   * caller's end, each resolved the way the iteration itself would resolve them.
   */
  lemma ChainOfOne(t: Table, body: IterationBody, start: Option<State>, end: Option<State>, counter: nat)
    requires body.Fits(1)
    ensures ChainBound(1, start, end, counter, 0) == Resolved(start, counter)
    ensures ChainBound(1, start, end, counter, 1) == Resolved(end, CounterAfter(start, counter))
    ensures ChainCounter(1, start, end, counter, 1) == CounterAfter(end, CounterAfter(start, counter))
    ensures ChainTable(t, body, 1, start, end, counter, 1)
      == EmitIteration(t, body, 1, 0, Resolved(start, counter), Resolved(end, CounterAfter(start, counter)))
  {
  }

  /**
   * The boundaries of a chain whose given start predates the chain's first allocation are
   * pairwise distinct (the end is not a key of the chain, so it is left out).
   */
  lemma ChainBoundsDistinct(n: nat, start: Option<State>, end: Option<State>, counter: nat, i: nat, j: nat)
    requires i < j < n
    requires start.Some? ==> start.value.id < counter
    ensures ChainBound(n, start, end, counter, i).id != ChainBound(n, start, end, counter, j).id
  {
  }

  /** A lookup after emitting an iteration: its start state's two keys are new, the rest unchanged. */
  lemma EmitLookup(t: Table, body: IterationBody, n: nat, i: nat, s: State, e: State, q: nat, b: bool)
    requires i < n && body.Fits(n)
    ensures Lookup(EmitIteration(t, body, n, i, s, e), q, b)
      == if q == s.id then Some(BodyInstruction(body, n, i, s, e, b)) else Lookup(t, q, b)
  {
  }

  /** In the finished chain, boundary `j` holds exactly the two instructions of iteration `j`. */
  lemma {:induction false} ChainTableAt(t: Table, body: IterationBody, n: nat, start: Option<State>,
                                        end: Option<State>, counter: nat, k: nat, j: nat, b: bool)
    requires 1 <= n && j < k <= n && body.Fits(n)
    requires start.Some? ==> start.value.id < counter
    ensures Lookup(ChainTable(t, body, n, start, end, counter, k), ChainBound(n, start, end, counter, j).id, b)
      == Some(BodyInstruction(body, n, j, ChainBound(n, start, end, counter, j), ChainBound(n, start, end, counter, j + 1), b))
    decreases k
  {
    var prev := ChainTable(t, body, n, start, end, counter, k - 1);
    var last := ChainBound(n, start, end, counter, k - 1);
    var bj := ChainBound(n, start, end, counter, j);
    EmitLookup(prev, body, n, k - 1, last, ChainBound(n, start, end, counter, k), bj.id, b);
    if j == k - 1 {
      assert ChainBound(n, start, end, counter, j + 1) == ChainBound(n, start, end, counter, k);
    } else {
      ChainTableAt(t, body, n, start, end, counter, k - 1, j, b);
      ChainBoundsDistinct(n, start, end, counter, j, k - 1);
    }
  }

  /** A state that is no boundary of the first `k` iterations keeps the entries it had before. */
  lemma {:induction false} ChainTableOther(t: Table, body: IterationBody, n: nat, start: Option<State>,
                                           end: Option<State>, counter: nat, k: nat, q: nat, b: bool)
    requires 1 <= n && k <= n && body.Fits(n)
    requires forall i :: 0 <= i < k ==> ChainBound(n, start, end, counter, i).id != q
    ensures Lookup(ChainTable(t, body, n, start, end, counter, k), q, b) == Lookup(t, q, b)
    decreases k
  {
    if k > 0 {
      ChainTableOther(t, body, n, start, end, counter, k - 1, q, b);
      EmitLookup(ChainTable(t, body, n, start, end, counter, k - 1), body, n, k - 1,
                 ChainBound(n, start, end, counter, k - 1), ChainBound(n, start, end, counter, k), q, b);
      assert ChainBound(n, start, end, counter, k - 1).id != q;
    }
  }

  /**
   * `move_right_x`: resolves its two boundaries, then chains `x` single `move_right`s from the
   * first to the second through `x - 1` fresh intermediate states; `x == 0` panics.
   */
  method MoveRightX(c: TuringCompiler, x: nat, currentState: Option<State>, nextState: Option<State>)
    returns (r: Result<(State, State), LoopError>)
    requires c.Valid()
    modifies c, c.program
    ensures c.Valid()
    ensures x == 0 <==> r.Err?
    ensures x >= 1 ==> r == Ok((Resolved(currentState, old(c.currentState)),
                               Resolved(nextState, CounterAfter(currentState, old(c.currentState)))))
    ensures x >= 1 ==> c.currentState == CounterAfter(nextState, CounterAfter(currentState, old(c.currentState))) + x - 1
    ensures x >= 1 ==> (c.program.instructions ==
      ChainTable(old(c.program.instructions), MoveRightStep, x, Some(r.value.0), Some(r.value.1),
                 CounterAfter(nextState, CounterAfter(currentState, old(c.currentState))), x))
  {
    var startState := ResolveOrAllocate(c, currentState);
    var endState := ResolveOrAllocate(c, nextState);
    r := ChainedLoop(c, x, Some(startState), Some(endState), MoveRightStep);
  }

  /**
   * `move_left_x`: resolves its two boundaries, then chains `x` single `move_left`s from the
   * first to the second through `x - 1` fresh intermediate states; `x == 0` panics.
   */
  method MoveLeftX(c: TuringCompiler, x: nat, currentState: Option<State>, nextState: Option<State>)
    returns (r: Result<(State, State), LoopError>)
    requires c.Valid()
    modifies c, c.program
    ensures c.Valid()
    ensures x == 0 <==> r.Err?
    ensures x >= 1 ==> r == Ok((Resolved(currentState, old(c.currentState)),
                               Resolved(nextState, CounterAfter(currentState, old(c.currentState)))))
    ensures x >= 1 ==> c.currentState == CounterAfter(nextState, CounterAfter(currentState, old(c.currentState))) + x - 1
    ensures x >= 1 ==> (c.program.instructions ==
      ChainTable(old(c.program.instructions), MoveLeftStep, x, Some(r.value.0), Some(r.value.1),
                 CounterAfter(nextState, CounterAfter(currentState, old(c.currentState))), x))
  {
    var startState := ResolveOrAllocate(c, currentState);
    var endState := ResolveOrAllocate(c, nextState);
    r := ChainedLoop(c, x, Some(startState), Some(endState), MoveLeftStep);
  }

  /**
   * `scan_single`: one state that, reading anything but `target`, writes it back, moves
   * `scanMovement` and stays; reading `target` it moves `finalMovement` to the end state.
   */
  method ScanSingle(c: TuringCompiler, target: bool, scanMovement: Movement, finalMovement: Movement,
                    currentState: Option<State>, nextState: Option<State>)
    returns (startState: State, endState: State)
    requires c.Valid()
    modifies c, c.program
    ensures c.Valid()
    ensures ResolvedPair(currentState, nextState, old(c.currentState), startState, endState, c.currentState)
    ensures c.program.instructions == Emit(old(c.program.instructions), startState, false, true,
      OnRead(false, target, finalMovement, scanMovement), OnRead(true, target, finalMovement, scanMovement),
      OnRead(false, target, endState, startState), OnRead(true, target, endState, startState))
  {
    startState := ResolveOrAllocate(c, currentState);
    endState := ResolveOrAllocate(c, nextState);

    if target {
      var _, _, _ := Branch(c, Some(startState), Some(endState), Some(startState), finalMovement, scanMovement);
    } else {
      var _, _, _ := Branch(c, Some(startState), Some(startState), Some(endState), scanMovement, finalMovement);
    }
  }
}
