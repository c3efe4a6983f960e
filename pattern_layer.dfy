/**
 * The pattern layer (src/compiler/layers/pattern.rs): writing and scanning a whole bit pattern,
 * one `chained_loop` iteration per pattern bit. Passes that move left take the pattern from its
 * back, so that the bits keep their left-to-right order on the tape.
 */
module PatternLayer {

  import opened Wrappers
  import opened Movements
  import opened States
  import opened Programs
  import opened Patterns
  import opened Compiler
  import opened PrimitiveLayer
  import opened BaseLayer

  /**
   * `write_pattern`: resolves its boundaries, then chains one `write_and_move` per pattern bit;
   * every bit but the last moves `writeMovement`, the last moves `finalMovement`. An empty
   * pattern panics inside `chained_loop`.
   */
  method WritePattern(c: TuringCompiler, pattern: Pattern, writeMovement: Movement, finalMovement: Movement,
                      currentState: Option<State>, nextState: Option<State>)
    returns (r: Result<(State, State), LoopError>)
    requires c.Valid()
    modifies c, c.program
    ensures c.Valid()
    ensures pattern.Len() == 0 <==> r.Err?
    ensures pattern.Len() >= 1 ==> r == Ok((Resolved(currentState, old(c.currentState)),
                                           Resolved(nextState, CounterAfter(currentState, old(c.currentState)))))
    ensures pattern.Len() >= 1 ==>
      c.currentState == CounterAfter(nextState, CounterAfter(currentState, old(c.currentState))) + pattern.Len() - 1
    ensures pattern.Len() >= 1 ==> (c.program.instructions ==
      ChainTable(old(c.program.instructions), WritePatternBit(pattern, writeMovement, finalMovement), pattern.Len(),
                 Some(r.value.0), Some(r.value.1), CounterAfter(nextState, CounterAfter(currentState, old(c.currentState))),
                 pattern.Len()))
  {
    var startState := ResolveOrAllocate(c, currentState);
    var endState := ResolveOrAllocate(c, nextState);

    r := ChainedLoop(c, pattern.Len(), Some(startState), Some(endState),
                     WritePatternBit(pattern, writeMovement, finalMovement));
  }

  /**
   * `scan_pattern`: resolves its boundaries, then chains one `branch_when` per pattern bit: a
   * match moves on to the next iteration (the last one with `finalMovement`, into the end state),
   * a mismatch moves `scanMovement` and returns to the start state. An empty pattern panics
   * inside `chained_loop`.
   */
  method ScanPattern(c: TuringCompiler, pattern: Pattern, scanMovement: Movement, finalMovement: Movement,
                     currentState: Option<State>, nextState: Option<State>)
    returns (r: Result<(State, State), LoopError>)
    requires c.Valid()
    modifies c, c.program
    ensures c.Valid()
    ensures pattern.Len() == 0 <==> r.Err?
    ensures pattern.Len() >= 1 ==> r == Ok((Resolved(currentState, old(c.currentState)),
                                           Resolved(nextState, CounterAfter(currentState, old(c.currentState)))))
    ensures pattern.Len() >= 1 ==>
      c.currentState == CounterAfter(nextState, CounterAfter(currentState, old(c.currentState))) + pattern.Len() - 1
    ensures pattern.Len() >= 1 ==> (c.program.instructions ==
      ChainTable(old(c.program.instructions), ScanPatternBit(pattern, scanMovement, finalMovement, r.value.0),
                 pattern.Len(), Some(r.value.0), Some(r.value.1),
                 CounterAfter(nextState, CounterAfter(currentState, old(c.currentState))), pattern.Len()))
  {
    var startState := ResolveOrAllocate(c, currentState);
    var endState := ResolveOrAllocate(c, nextState);

    var loop := ChainedLoop(c, pattern.Len(), Some(startState), Some(endState),
                            ScanPatternBit(pattern, scanMovement, finalMovement, startState));
    if loop.Err? {
      return Err(loop.error);
    }
    r := Ok((startState, endState));
  }
}
