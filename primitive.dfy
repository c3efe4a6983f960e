/**
 * The primitive layer (src/compiler/layers/primitive.rs). Every operation resolves its optional
 * boundary states (a given state is used as is, a missing one is freshly allocated, in argument
 * order) and emits exactly two instructions for its current state, one per bit read.
 */
module PrimitiveLayer {

  import opened Wrappers
  import opened Movements
  import opened States
  import opened Instructions
  import opened Programs
  import opened Compiler

  /** The state an optional boundary resolves to when the counter stands at `counter`. */
  function Resolved(s: Option<State>, counter: nat): (r: State)
    ensures s.Some? ==> r == s.value
    ensures s.None? ==> r.id == counter
  {
    if s.Some? then s.value else State(counter)
  }

  /** The counter after resolving an optional boundary: one more when a state was allocated. */
  function CounterAfter(s: Option<State>, counter: nat): (r: nat)
    ensures r == if s.Some? then counter else counter + 1
  {
    if s.Some? then counter else counter + 1
  }

  /** The states and counter of resolving `current`, then `next`, from counter `before`. */
  ghost predicate ResolvedPair(current: Option<State>, next: Option<State>, before: nat,
                               s: State, n: State, after: nat)
  {
    && s == Resolved(current, before)
    && n == Resolved(next, CounterAfter(current, before))
    && after == CounterAfter(next, CounterAfter(current, before))
  }

  /**
   * The table after emitting the two instructions of state `cur`: on reading 0 write `w0`, move
   * `m0`, go to `n0`; on reading 1 write `w1`, move `m1`, go to `n1`. Exactly the two keys of
   * `cur` are set and every other key keeps its entry.
   */
  function Emit(t: Table, cur: State, w0: bool, w1: bool, m0: Movement, m1: Movement,
                n0: State, n1: State): (r: Table)
    ensures r.Keys == t.Keys + {(cur.id, false), (cur.id, true)}
    ensures Lookup(r, cur.id, false) == Some(Instruction(cur.id, false, w0, m0, n0.id))
    ensures Lookup(r, cur.id, true) == Some(Instruction(cur.id, true, w1, m1, n1.id))
    ensures forall s: nat, b: bool :: s != cur.id ==> Lookup(r, s, b) == Lookup(t, s, b)
  {
    Insert(Insert(t, Instruction(cur.id, false, w0, m0, n0.id)), Instruction(cur.id, true, w1, m1, n1.id))
  }

  /** The `unwrap_or_else(|| self.allocate_state())` the operations apply to each boundary. */
  method ResolveOrAllocate(c: TuringCompiler, s: Option<State>) returns (r: State)
    modifies c
    ensures r == Resolved(s, old(c.currentState))
    ensures c.currentState == CounterAfter(s, old(c.currentState))
  {
    if s.Some? {
      r := s.value;
    } else {
      r := c.AllocateState();
    }
  }

  /** Builds the two instructions of `cur` the way the source does and adds them as a batch. */
  method EmitPair(c: TuringCompiler, cur: State, w0: bool, w1: bool, m0: Movement, m1: Movement,
                  n0: State, n1: State)
    requires c.Valid()
    modifies c.program
    ensures c.Valid()
    ensures c.program.instructions == Emit(old(c.program.instructions), cur, w0, w1, m0, m1, n0, n1)
  {
    var instruction0 := Instruction.New(cur.Get(), false, w0).WithNextState(n0.Get()).WithMovement(m0);
    var instruction1 := Instruction.New(cur.Get(), true, w1).WithNextState(n1.Get()).WithMovement(m1);
    InsertAllTwo(c.program.instructions, instruction0, instruction1);
    c.AddInstructions([instruction0, instruction1]);
  }

  /** `move_left`: for either bit, write it back, move left, go to the next state. */
  method MoveLeft(c: TuringCompiler, currentState: Option<State>, nextState: Option<State>)
    returns (moveState: State, next: State)
    requires c.Valid()
    modifies c, c.program
    ensures c.Valid()
    ensures ResolvedPair(currentState, nextState, old(c.currentState), moveState, next, c.currentState)
    ensures c.program.instructions == Emit(old(c.program.instructions), moveState, false, true, Left, Left, next, next)
  {
    moveState := ResolveOrAllocate(c, currentState);
    next := ResolveOrAllocate(c, nextState);
    EmitPair(c, moveState, false, true, Left, Left, next, next);
  }

  /** `move_right`: for either bit, write it back, move right, go to the next state. */
  method MoveRight(c: TuringCompiler, currentState: Option<State>, nextState: Option<State>)
    returns (moveState: State, next: State)
    requires c.Valid()
    modifies c, c.program
    ensures c.Valid()
    ensures ResolvedPair(currentState, nextState, old(c.currentState), moveState, next, c.currentState)
    ensures c.program.instructions == Emit(old(c.program.instructions), moveState, false, true, Right, Right, next, next)
  {
    moveState := ResolveOrAllocate(c, currentState);
    next := ResolveOrAllocate(c, nextState);
    EmitPair(c, moveState, false, true, Right, Right, next, next);
  }

  /**
   * `branch`: on reading 1 go to `stateMarked` moving `movementMarked`, on reading 0 go to
   * `stateUnmarked` moving `movementUnmarked`; the bit read is written back.
   */
  method Branch(c: TuringCompiler, currentState: Option<State>, stateMarked: Option<State>,
                stateUnmarked: Option<State>, movementMarked: Movement, movementUnmarked: Movement)
    returns (branchState: State, marked: State, unmarked: State)
    requires c.Valid()
    modifies c, c.program
    ensures c.Valid()
    ensures branchState == Resolved(currentState, old(c.currentState))
    ensures marked == Resolved(stateMarked, CounterAfter(currentState, old(c.currentState)))
    ensures unmarked == Resolved(stateUnmarked, CounterAfter(stateMarked, CounterAfter(currentState, old(c.currentState))))
    ensures c.currentState == CounterAfter(stateUnmarked, CounterAfter(stateMarked, CounterAfter(currentState, old(c.currentState))))
    ensures c.program.instructions ==
      Emit(old(c.program.instructions), branchState, false, true, movementUnmarked, movementMarked, unmarked, marked)
  {
    branchState := ResolveOrAllocate(c, currentState);
    marked := ResolveOrAllocate(c, stateMarked);
    unmarked := ResolveOrAllocate(c, stateUnmarked);
    EmitPair(c, branchState, false, true, movementUnmarked, movementMarked, unmarked, marked);
  }

  /** `mark`: for either bit, write 1, stay, go to the next state. */
  method Mark(c: TuringCompiler, currentState: Option<State>, nextState: Option<State>)
    returns (markingState: State, next: State)
    requires c.Valid()
    modifies c, c.program
    ensures c.Valid()
    ensures ResolvedPair(currentState, nextState, old(c.currentState), markingState, next, c.currentState)
    ensures c.program.instructions == Emit(old(c.program.instructions), markingState, true, true, Stay, Stay, next, next)
  {
    markingState := ResolveOrAllocate(c, currentState);
    next := ResolveOrAllocate(c, nextState);
    EmitPair(c, markingState, true, true, Stay, Stay, next, next);
  }

  /** `unmark`: for either bit, write 0, stay, go to the next state. */
  method Unmark(c: TuringCompiler, currentState: Option<State>, nextState: Option<State>)
    returns (unmarkingState: State, next: State)
    requires c.Valid()
    modifies c, c.program
    ensures c.Valid()
    ensures ResolvedPair(currentState, nextState, old(c.currentState), unmarkingState, next, c.currentState)
    ensures c.program.instructions == Emit(old(c.program.instructions), unmarkingState, false, false, Stay, Stay, next, next)
  {
    unmarkingState := ResolveOrAllocate(c, currentState);
    next := ResolveOrAllocate(c, nextState);
    EmitPair(c, unmarkingState, false, false, Stay, Stay, next, next);
  }

  /** `halt`: for either bit, write it back, stay, go to the halt state. */
  method Halt(c: TuringCompiler, currentState: Option<State>) returns (newState: State)
    requires c.Valid()
    modifies c, c.program
    ensures c.Valid()
    ensures newState == Resolved(currentState, old(c.currentState))
    ensures c.currentState == CounterAfter(currentState, old(c.currentState))
    ensures c.program.instructions == Emit(old(c.program.instructions), newState, false, true, Stay, Stay, HALT, HALT)
  {
    newState := ResolveOrAllocate(c, currentState);
    var haltState := c.GetHaltState();
    EmitPair(c, newState, false, true, Stay, Stay, haltState, haltState);
  }

  /** `mark_and_move_right`: for either bit, write 1, move right, go to the next state. */
  method MarkAndMoveRight(c: TuringCompiler, currentState: Option<State>, nextState: Option<State>)
    returns (current: State, next: State)
    requires c.Valid()
    modifies c, c.program
    ensures c.Valid()
    ensures ResolvedPair(currentState, nextState, old(c.currentState), current, next, c.currentState)
    ensures c.program.instructions == Emit(old(c.program.instructions), current, true, true, Right, Right, next, next)
  {
    current := ResolveOrAllocate(c, currentState);
    next := ResolveOrAllocate(c, nextState);
    EmitPair(c, current, true, true, Right, Right, next, next);
  }

  /** `mark_and_move_left`: for either bit, write 1, move left, go to the next state. */
  method MarkAndMoveLeft(c: TuringCompiler, currentState: Option<State>, nextState: Option<State>)
    returns (current: State, next: State)
    requires c.Valid()
    modifies c, c.program
    ensures c.Valid()
    ensures ResolvedPair(currentState, nextState, old(c.currentState), current, next, c.currentState)
    ensures c.program.instructions == Emit(old(c.program.instructions), current, true, true, Left, Left, next, next)
  {
    current := ResolveOrAllocate(c, currentState);
    next := ResolveOrAllocate(c, nextState);
    EmitPair(c, current, true, true, Left, Left, next, next);
  }

  /** `unmark_and_move_right`: for either bit, write 0, move right, go to the next state. */
  method UnmarkAndMoveRight(c: TuringCompiler, currentState: Option<State>, nextState: Option<State>)
    returns (current: State, next: State)
    requires c.Valid()
    modifies c, c.program
    ensures c.Valid()
    ensures ResolvedPair(currentState, nextState, old(c.currentState), current, next, c.currentState)
    ensures c.program.instructions == Emit(old(c.program.instructions), current, false, false, Right, Right, next, next)
  {
    current := ResolveOrAllocate(c, currentState);
    next := ResolveOrAllocate(c, nextState);
    EmitPair(c, current, false, false, Right, Right, next, next);
  }

  /** `unmark_and_move_left`: for either bit, write 0, move left, go to the next state. */
  method UnmarkAndMoveLeft(c: TuringCompiler, currentState: Option<State>, nextState: Option<State>)
    returns (current: State, next: State)
    requires c.Valid()
    modifies c, c.program
    ensures c.Valid()
    ensures ResolvedPair(currentState, nextState, old(c.currentState), current, next, c.currentState)
    ensures c.program.instructions == Emit(old(c.program.instructions), current, false, false, Left, Left, next, next)
  {
    current := ResolveOrAllocate(c, currentState);
    next := ResolveOrAllocate(c, nextState);
    EmitPair(c, current, false, false, Left, Left, next, next);
  }
}
