# simple-turing-machine, compile-then-execute core, in Dafny

This project models the core of simple-turing-machine and proves properties of it. The
system compiles a two-symbol Turing machine and then runs it. It has two halves.

**The interpreter:**
- `State`, `Movement` and `Instruction` are values.
- `TuringProgram` is a sparse transition table keyed by (state, bit read). Re-adding an
  instruction for a key overwrites the old one.
- The machine's tape is a growable queue of bytes addressed by bit index. Bit `i` lives in byte
  `i / 8` at position `i % 8`. A move left from cell 0 prepends a whole byte, so every bit
  already on the tape is renumbered by +8.
- A second, bounded tape has a fixed number of bytes and reports an out-of-range error instead
  of growing.
- `TuringMachine` reads the bit under the head and looks up (state, bit). With an instruction
  it writes, moves and changes state. With no instruction it stops cleanly in the halt state
  (`usize::MAX`), and faults with a dangling state anywhere else.

**The generator:**
- `TuringCompiler` hands out fresh state identifiers from a counter and accumulates the
  program.
- The primitive layer has ten operations. Each resolves its optional boundary states: a given
  state is used as is, a missing one is freshly allocated. Each then emits exactly the two
  instructions of its current state, one per bit read.
- The base layer has `chained_loop`, which threads each iteration's end state into the next
  iteration's start. On top of it sit `move_right_x`, `move_left_x` and the self-looping
  `scan_single`.
- The pattern layer has `write_pattern` and `scan_pattern`. `scan_pattern` is a naive
  restart-on-mismatch search.

**Modules, one per source file:**
- The value types are `Movements`, `States`, `Instructions` and `Patterns`, written as
  datatypes and pure functions.
- The in-place classes are `Programs` (`TuringProgram`), `Tape` (the growable tape over
  `seq<bv8>`), `BoundedTape` (over an `array<bv8>`), `Compiler` and `Machine`.
- `Machine` also holds the pure step semantics: `Step` and a fuelled `Run` over a `Config`.
  `TuringMachine`'s methods are proved against them.
- `PrimitiveLayer`, `BaseLayer` and `PatternLayer` are methods on a `TuringCompiler`. Each one
  states the exact table it leaves behind.

**Proof modules:**
- `Execution` proves what one emitted block does when the machine runs it.
- `Runs` composes those blocks into whole runs that halt, stating where the head ends and what
  the tape holds.
- `Scenarios`, `MachineScenarios`, `TapeScenarios` and `BoundedTapeScenarios` replay the
  repository's own unit tests with the compiler, machine and tape classes. Each one proves the
  test's expected head positions and bits, and for the bounded tape its results and error
  messages.

## Model

| member | source | states |
|---|---|---|
| Movements.DefaultMovement | src/enums/movement.rs:3-10 | the default movement is `Stay` |
| Movements.CodeString | src/enums/movement.rs:13-19 | `get_code_string` is one character: "S" exactly for Stay, "L" exactly for Left, "R" exactly for Right |
| Movements.FromCode | src/enums/movement.rs:13-19 | a proof-side inverse of `get_code_string` (the source has no decoder): it accepts exactly "S", "L" and "R" |
| Movements.CodeRoundTrip | src/enums/movement.rs:13-19 | the proof-side inverse `FromCode` of `get_code_string(m)` gives back `m`, so no two movements share a code |
| Movements.FromCodeSound | src/enums/movement.rs:13-19 | through the proof-side inverse: any string that `FromCode` maps to `m` is `m`'s code string |
| Movements.CodeStringInjective | src/enums/movement.rs:13-19 | two movements have the same code string iff they are equal |
| Movements.ExactlyThreeMovements | src/enums/movement.rs:5-10 | every movement is Stay, Left or Right |
| States.State.New | src/machine/state.rs:7-9 | `State::new(v)` wraps exactly `v` |
| States.State.Get | src/machine/state.rs:11-13 | `get` returns the identifier the state is made of |
| States.DefaultState | src/machine/state.rs:3-4 | the derived default state has identifier 0 |
| States.NewThenGet | src/machine/state.rs:7-13 | `State::new(v).get() == v` |
| States.GetThenNew | src/machine/state.rs:7-13 | `State::new(s.get()) == s`, so `new` and `get` are inverse |
| States.EqualIffSameId | src/machine/state.rs:3-4 | two states are equal iff their identifiers are |
| Instructions.Instruction.New | src/machine/instruction.rs:14-22 | `new(s, r, w)` holds s, r and w, movement Stay, and next state s (a self-loop) |
| Instructions.Instruction.WithMovement | src/machine/instruction.rs:24-27 | `with_movement(m)` sets the movement to m and keeps every other field |
| Instructions.Instruction.WithNextState | src/machine/instruction.rs:29-32 | `with_next_state(n)` sets the next state to n and keeps every other field |
| Instructions.Instruction.ReadBitNumber | src/machine/instruction.rs:34-40 | the read-bit number is 0 or 1, and 1 exactly when the read bit is set |
| Instructions.Instruction.WriteBitNumber | src/machine/instruction.rs:42-48 | the write-bit number is 0 or 1, and 1 exactly when the write bit is set |
| Instructions.WithersCommute | src/machine/instruction.rs:24-32 | `with_movement` and `with_next_state` commute |
| Instructions.WithMovementLastWins | src/machine/instruction.rs:24-27 | of two `with_movement` calls only the last counts |
| Instructions.WithNextStateLastWins | src/machine/instruction.rs:29-32 | of two `with_next_state` calls only the last counts |
| Instructions.BuilderChain | src/machine/instruction.rs:14-32 | `new(s, r, w)` with next state n and movement m, in either order, is the instruction (s, r, w, m, n) |
| Programs.Lookup | src/machine/turing_program.rs:11-13 | `get` finds an instruction exactly when the key is in the table, and it is the stored one |
| Programs.Insert | src/machine/turing_program.rs:15-20 | after inserting `i`, its key finds `i`; every other key finds what it found before; the key set gains exactly `i`'s key |
| Programs.InsertAll | src/compiler/layers/program_builder.rs:8 | inserting a batch adds exactly the batch's keys |
| Programs.InsertAllTwo | src/compiler/layers/program_builder.rs:8 | a batch of two is the two inserts in order |
| Programs.EmptyHasNoEntry | src/machine/turing_program.rs:5-8 | the default program has no entry for any (state, bit) |
| Programs.InsertKeepsWellKeyed | src/machine/turing_program.rs:15-20 | inserting keeps every stored instruction under its own (current state, read bit) key |
| Programs.InsertOverwrites | src/machine/turing_program.rs:16-19 | re-adding an instruction with the same key replaces the earlier one |
| Programs.InsertAllKeepsWellKeyed | src/compiler/layers/program_builder.rs:8 | inserting a batch keeps every instruction under its own key |
| Programs.TuringProgram.constructor | src/machine/turing_program.rs:5-8 | the default program is empty |
| Programs.TuringProgram.Get | src/machine/turing_program.rs:11-13 | `get` is a lookup in the table and changes nothing |
| Programs.TuringProgram.AddInstruction | src/machine/turing_program.rs:15-20 | `add_instruction` replaces the table with the insert and keeps it well keyed |
| Programs.TuringProgram.Clone | src/machine/turing_program.rs:5 | a clone is a fresh program with the same table |
| Patterns.Pattern.New | src/compiler/structures/pattern.rs:5-19 | `get()` returns exactly the bits given to `new`, and `len()` is their count |
| Patterns.Pattern.Get | src/compiler/structures/pattern.rs:9-11 | `get()` is the pattern's bit sequence: a pattern rebuilt from it is the same pattern |
| Patterns.Pattern.Len | src/compiler/structures/pattern.rs:17-19 | `len()` is the number of bits `get()` returns |
| Patterns.Pattern.GetAt | src/compiler/structures/pattern.rs:13-15 | `get_at(i)` is the i-th bit iff i < len; past the end it fails with the index and length, never wrapping |
| Patterns.TargetBit | src/compiler/layers/pattern.rs:23-27 | pass step i addresses pattern bit i, or bit len - 1 - i when the pass moves left |
| Compiler.TuringCompiler.constructor | src/compiler/turing_compiler.rs:8-12 | a default compiler has counter 0 and an empty program |
| Compiler.TuringCompiler.AllocateState | src/compiler/turing_compiler.rs:21-25 | `allocate_state` returns the counter's value and increments it by exactly one |
| Compiler.TuringCompiler.GetHaltState | src/compiler/turing_compiler.rs:27-29 | the halt state is `State(usize::MAX)` |
| Compiler.TuringCompiler.GetInstruction | src/compiler/turing_compiler.rs:31-33 | `get_instruction` is a lookup in the accumulated program |
| Compiler.TuringCompiler.AddInstruction | src/compiler/turing_compiler.rs:35-37 | `add_instruction` has exactly the effect of the program's `add_instruction` |
| Compiler.TuringCompiler.AddInstructions | src/compiler/layers/program_builder.rs:8 | `add_instructions` adds the batch one instruction after the other |
| Compiler.TuringCompiler.GetProgram | src/compiler/turing_compiler.rs:15-17 | `get_program` returns a fresh copy of the accumulated table, which later additions cannot reach |
| Compiler.AllocatedIsNotHalt | src/compiler/turing_compiler.rs:21-29 | no state allocated while the counter is below `usize::MAX` is the halt state |
| Tape.OrMaskBits | src/machine/turing_tape.rs:33-37 | `byte \|= 1 << p` sets position p and keeps every other position |
| Tape.AndNotMaskBits | src/machine/turing_tape.rs:39-43 | `byte &= !(1 << p)` clears position p and keeps every other position |
| Tape.OrMaskKeeps | src/machine/turing_tape.rs:33-37 | setting a bit that is already 1 leaves the byte as it was |
| Tape.AndNotMaskKeeps | src/machine/turing_tape.rs:39-43 | clearing a bit that is already 0 leaves the byte as it was |
| Tape.Zeros | src/machine/turing_tape.rs:69-79 | k zero bytes, as the allocation loops push them |
| Tape.Mask | src/machine/turing_tape.rs:30 | the mask `1 << position` on a byte (a definition; `OrMaskBits` and `AndNotMaskBits` state what it selects) |
| Tape.ByteBit | src/machine/turing_tape.rs:30 | `byte & (1 << position) != 0`, the masked read (a definition; `OrMaskBits` and `AndNotMaskBits` state its properties) |
| Tape.BitAt | src/machine/turing_tape.rs:27-31 | defines the bit `read` addresses: position i % 8 of byte i / 8 under the mask 1 << position, where a byte not yet allocated reads 0 (a definition; the lemmas below state its properties) |
| Tape.EmptyReadsZero | src/machine/turing_tape.rs:27-31 | a default tape reads 0 at every index |
| Tape.ZerosReadZero | src/machine/turing_tape.rs:69-79 | freshly allocated bytes read 0 at every index |
| Tape.Covered | src/machine/turing_tape.rs:10-15 | covering bit i leaves more than i / 8 bytes, only appends zero bytes, never shrinks, and changes nothing when byte i / 8 exists |
| Tape.CoveredKeepsBits | src/machine/turing_tape.rs:10-15 | growth on the right changes no bit |
| Tape.CoveredTwice | src/machine/turing_tape.rs:10-15 | covering i and then a farther k is covering k |
| Tape.WithBitSet | src/machine/turing_tape.rs:33-37 | the tape after `set(i)` has the covered length |
| Tape.WithBitCleared | src/machine/turing_tape.rs:39-43 | the tape after `unset(i)` has the covered length |
| Tape.WithBitSetReads | src/machine/turing_tape.rs:27-37 | after `set(i)`, `read(i)` is 1 and every other bit reads as before |
| Tape.WithBitClearedReads | src/machine/turing_tape.rs:27-43 | after `unset(i)`, `read(i)` is 0 and every other bit reads as before |
| Tape.SetBackIsCover | src/machine/turing_tape.rs:33-37 | setting a bit that reads 1 only grows the tape |
| Tape.ClearBackIsCover | src/machine/turing_tape.rs:39-43 | clearing a bit that reads 0 only grows the tape |
| Tape.PrependedReads | src/machine/turing_tape.rs:69-73 | after `allocate_left(k)`, a bit formerly at j reads at j + 8k, and bits 0 to 8k - 1 read 0 |
| Tape.AppendedReads | src/machine/turing_tape.rs:75-79 | `allocate_right(k)` changes no bit |
| Tape.TuringTape.constructor | src/machine/turing_tape.rs:4-7 | the default tape holds no bytes |
| Tape.TuringTape.AllocateRight | src/machine/turing_tape.rs:75-79 | `allocate_right(k)` appends k zero bytes |
| Tape.TuringTape.AllocateLeft | src/machine/turing_tape.rs:69-73 | `allocate_left(k)` prepends k zero bytes |
| Tape.TuringTape.AllocateTillBitIndex | src/machine/turing_tape.rs:10-15 | the bytes become exactly `Covered(old bytes, i)` |
| Tape.TuringTape.GetByteIndexAndPosition | src/machine/turing_tape.rs:17-25 | bit i is byte i / 8 at position i % 8, and that byte now exists |
| Tape.TuringTape.Read | src/machine/turing_tape.rs:27-31 | `read(i)` returns bit i of the old tape and only grows the tape |
| Tape.TuringTape.Set | src/machine/turing_tape.rs:33-37 | the bytes become `WithBitSet(old bytes, i)` |
| Tape.TuringTape.Unset | src/machine/turing_tape.rs:39-43 | the bytes become `WithBitCleared(old bytes, i)` |
| Tape.TuringTape.Clone | src/machine/turing_tape.rs:4 | a clone is a fresh tape with the same bytes |
| TapeScenarios.MarkedReads | src/machine/turing_tape.rs:88-99 | setting bits 7, 13 and 19 of an empty tape makes exactly those read 1 |
| TapeScenarios.SetUnsetReadScenario | src/machine/turing_tape.rs:87-103 | after setting 7, 13 and 19, reads of bits 0 to 31 give 1 exactly there; after `unset(3)`, bit 3 reads 0 |
| BoundedTape.BoundedTuringTape.constructor | src/turing_tape.rs:7-12 | `new(n)` holds n zero bytes |
| BoundedTape.BoundedTuringTape.GetByteIndexAndPosition | src/turing_tape.rs:14-22 | bit i locates to byte i / 8 at position i % 8 iff i / 8 < size; otherwise an out-of-range error naming i and the size |
| BoundedTape.BoundedTuringTape.Read | src/turing_tape.rs:24-28 | `read(i)` is bit i iff it is in range, else the out-of-range error |
| BoundedTape.BoundedTuringTape.Set | src/turing_tape.rs:30-35 | an in-range `set` writes 1 at i; an out-of-range one reports the error and leaves the tape unchanged |
| BoundedTape.BoundedTuringTape.Unset | src/turing_tape.rs:37-42 | an in-range `unset` writes 0 at i; an out-of-range one reports the error and leaves the tape unchanged |
| BoundedTape.NewTapeReadsZero | src/turing_tape.rs:50-54 | a new tape reads 0 at every in-range bit |
| BoundedTape.FourBytesBoundary | src/turing_tape.rs:76-102 | on four bytes, bit 31 is byte 3 position 7 and bit 32 is out of range |
| BoundedTape.SetThenRead | src/turing_tape.rs:57-73 | after an in-range `set(i)` the length is unchanged, bit i reads 1 and every other bit as before |
| BoundedTape.UnsetThenRead | src/turing_tape.rs:57-73 | after an in-range `unset(i)` the length is unchanged, bit i reads 0 and every other bit as before |
| BoundedTape.Decimal | src/turing_tape.rs:17 | how `format!` renders a number: at least one decimal digit, no leading zero, and the digits denote the number back |
| BoundedTape.Message | src/turing_tape.rs:17 | defines the range error's text, "Bit index '<index>' out of range for '<size>' bytes" (a definition; the `BoundedTapeScenarios.Message…` lemmas evaluate it) |
| BoundedTapeScenarios.InitializationScenario | src/turing_tape.rs:50-54 | a tape made with 5 bytes has size 5 and five zero bytes |
| BoundedTapeScenarios.FourByteMarkedReads | src/turing_tape.rs:58-69 | setting bits 7, 13 and 19 of four zero bytes makes exactly those bits read 1 |
| BoundedTapeScenarios.BoundedSetUnsetReadScenario | src/turing_tape.rs:57-73 | on a 4-byte tape every unwrap succeeds (the three sets and `unset(3)`), reads of bits 0 to 31 give 1 exactly at 7, 13 and 19, and after `unset(3)` bit 3 reads 0 |
| BoundedTapeScenarios.Message32 | src/turing_tape.rs:80-85 | the error for bit 32 on 4 bytes reads "Bit index '32' out of range for '4' bytes" |
| BoundedTapeScenarios.Message37 | src/turing_tape.rs:88-93 | the error for bit 37 on 4 bytes reads "Bit index '37' out of range for '4' bytes" |
| BoundedTapeScenarios.Message41 | src/turing_tape.rs:96-101 | the error for bit 41 on 4 bytes reads "Bit index '41' out of range for '4' bytes" |
| BoundedTapeScenarios.OutOfBoundsScenario | src/turing_tape.rs:76-102 | on a 4-byte tape, reading and setting bit 31 succeed; reading 32, setting 37 and unsetting 41 fail with the range error and the test's message text |
| Machine.MovedRight | src/machine/turing_machine.rs:74-77 | defines `move_right`: head + 1, with the tape grown to hold the new head (a definition; `MovedRightFacts` states its properties) |
| Machine.MovedLeft | src/machine/turing_machine.rs:79-86 | defines `move_left`: head − 1, or from cell 0 a prepended zero byte and head 7 (a definition; `MovedLeftFacts` states its properties) |
| Machine.Moved | src/machine/turing_machine.rs:137-141 | defines the movement match of `process_instruction`: left, right, or nothing for Stay (a definition; `Execution.HeadAfterIsMoved` states its head) |
| Machine.Written | src/machine/turing_machine.rs:131-135 | defines the write of `process_instruction`: `set` at the head for a 1, `unset` for a 0 (a definition; `CoveredWrittenReads` states its bits) |
| Machine.Process | src/machine/turing_machine.rs:126-143 | defines `process_instruction` and the state update of `program_step`: write, then move, then take the next state (a definition; `StepWithInstruction` states its effect) |
| Machine.Step | src/machine/turing_machine.rs:88-128 | defines `program_step`: read the head's bit (growing the tape), look up (state, bit), then continue, stop in the halt state or fault (a definition; the three `Step…` lemmas state its cases) |
| Machine.Run | src/machine/turing_machine.rs:146-152 | defines `run_program` with at most `fuel` steps (a definition; `RunUnfold` and `RunEnds` state its properties) |
| Machine.RunAfter | src/machine/turing_machine.rs:147 | defines the loop condition of `run_program`: go on after a continuing step; a stop ends the run halted and a fault ends it dangling (a definition) |
| Machine.RunEnds | src/machine/turing_machine.rs:88-152 | with no fuel the run is out of fuel where it started; a halted run ends in the halt state with no instruction for the bit under the head; a dangling run ends in another state with no instruction for that bit |
| Machine.MovedRightFacts | src/machine/turing_machine.rs:74-77 | `move_right` adds one to the head, covers the new head and changes no bit |
| Machine.MovedLeftFacts | src/machine/turing_machine.rs:79-86 | `move_left` at 0 lands on 7 and shifts every bit by +8; elsewhere it subtracts one and leaves the tape alone |
| Machine.StepWithInstruction | src/machine/turing_machine.rs:88-144 | with an instruction for (state, bit), a step continues: it writes the instruction's bit at the head, moves as told (7 from cell 0 leftward, with the shift) and takes the next state |
| Machine.CoveredWrittenReads | src/machine/turing_machine.rs:62-72 | reading and then writing `bit` at the head changes only the head's bit |
| Machine.StepStopsInHalt | src/machine/turing_machine.rs:91-94 | with no instruction in the halt state, a step stops and keeps head, state and every bit |
| Machine.StepDanglesElsewhere | src/machine/turing_machine.rs:95-97 | with no instruction in any other state, a step is a dangling-state fault |
| Machine.RunUnfold | src/machine/turing_machine.rs:146-152 | a run that continues is the run from the next configuration with one step less |
| Machine.TuringMachine.constructor | src/machine/turing_machine.rs:155-167 | the default machine has an empty tape, head 0, state 0 and an empty program |
| Machine.TuringMachine.SetProgram | src/machine/turing_machine.rs:50-52 | `set_program` replaces only the program |
| Machine.TuringMachine.SetTape | src/machine/turing_machine.rs:54-56 | `set_tape` replaces only the tape |
| Machine.TuringMachine.SetHead | src/machine/turing_machine.rs:58-60 | `set_head` replaces only the head |
| Machine.TuringMachine.Read | src/machine/turing_machine.rs:62-64 | `read` returns the bit under the head and only grows the tape |
| Machine.TuringMachine.Set | src/machine/turing_machine.rs:66-68 | `set` writes 1 under the head |
| Machine.TuringMachine.Unset | src/machine/turing_machine.rs:70-72 | `unset` writes 0 under the head |
| Machine.TuringMachine.MoveRight | src/machine/turing_machine.rs:74-77 | the configuration becomes `MovedRight` of the old one |
| Machine.TuringMachine.MoveLeft | src/machine/turing_machine.rs:79-86 | the configuration becomes `MovedLeft` of the old one |
| Machine.TuringMachine.ProcessInstruction | src/machine/turing_machine.rs:130-144 | it writes and moves as `Process` says, and returns the next state without taking it |
| Machine.TuringMachine.ProgramStep | src/machine/turing_machine.rs:88-128 | the outcome and new configuration are those of `Step` on the old configuration |
| Machine.TuringMachine.RunProgram | src/machine/turing_machine.rs:146-152 | the outcome and new configuration are those of `Run` with the same fuel |
| Machine.TuringMachine.ResetStateInformation | src/machine/turing_machine.rs:40-44 | a fresh empty tape, state 0 and head 0; the program stays |
| Machine.TuringMachine.ResetStateButPersistTape | src/machine/turing_machine.rs:46-48 | only the state changes, back to 0 |
| MachineScenarios.ShiftedBytesRead | src/machine/turing_machine.rs:192-195 | the tape `[0, 3]` the head test ends with reads 1 at cells 8 and 9 and 0 everywhere else |
| MachineScenarios.HeadScenario | src/machine/turing_machine.rs:173-197 | the heads and reads the head-functionalities test checks, including the 7 after a move left from 0, and the final tape `[0, 3]`: the bits set at cells 0 and 1 now read at cells 8 and 9 |
| MachineScenarios.SearchProgram | src/machine/turing_machine.rs:201-209 | the test's program scans right over 0s and, on a 1, stays and enters the halt state, which has no entry |
| MachineScenarios.SearchRuns | src/machine/turing_machine.rs:199-223 | from `h`, with the first 1 at `h + k`, the search halts on `h + k` and changes no bit |
| MachineScenarios.BuildSearchProgram | src/machine/turing_machine.rs:201-212 | adding the test's two instructions builds that program |
| MachineScenarios.SearchMachine | src/machine/turing_machine.rs:214-218 | the test's machine has only cell 13 set, head 0, state 0 |
| MachineScenarios.RunProgramScenario | src/machine/turing_machine.rs:199-223 | `run_program` stops with the head on 13, which reads 1 |
| PrimitiveLayer.Resolved | src/compiler/layers/primitive.rs:9-10 | a given boundary state is used as is; a missing one is the counter's next state |
| PrimitiveLayer.CounterAfter | src/compiler/layers/primitive.rs:9-10 | resolving a missing boundary allocates one state; a given one allocates none (a definition; `ResolveOrAllocate` is proved against it and `BaseLayer.ChainCounter` sums it over a chain) |
| PrimitiveLayer.Emit | src/compiler/layers/primitive.rs:8-21 | the two instructions of the current state are added, one per bit read, and every other key is unchanged |
| PrimitiveLayer.ResolveOrAllocate | src/compiler/layers/primitive.rs:9-10 | `unwrap_or_else(allocate_state)`: the resolved state and the counter after it |
| PrimitiveLayer.EmitPair | src/compiler/layers/primitive.rs:12-20 | building both instructions with the builders and adding them as a batch emits exactly them |
| PrimitiveLayer.MoveLeft | src/compiler/layers/primitive.rs:8-21 | `move_left`: both bits written back, move Left, go to next |
| PrimitiveLayer.MoveRight | src/compiler/layers/primitive.rs:24-37 | `move_right`: both bits written back, move Right, go to next |
| PrimitiveLayer.Branch | src/compiler/layers/primitive.rs:40-61 | `branch`: on 0 go to the unmarked state with its movement, on 1 to the marked state with its movement; the bit is written back; the three states are resolved in argument order |
| PrimitiveLayer.Mark | src/compiler/layers/primitive.rs:64-75 | `mark`: write 1 on both bits, stay, go to next |
| PrimitiveLayer.Unmark | src/compiler/layers/primitive.rs:78-89 | `unmark`: write 0 on both bits, stay, go to next |
| PrimitiveLayer.Halt | src/compiler/layers/primitive.rs:92-103 | `halt`: both bits written back, stay, go to the halt state |
| PrimitiveLayer.MarkAndMoveRight | src/compiler/layers/primitive.rs:105-118 | write 1 on both bits, move Right, go to next |
| PrimitiveLayer.MarkAndMoveLeft | src/compiler/layers/primitive.rs:120-133 | write 1 on both bits, move Left, go to next |
| PrimitiveLayer.UnmarkAndMoveRight | src/compiler/layers/primitive.rs:135-148 | write 0 on both bits, move Right, go to next |
| PrimitiveLayer.UnmarkAndMoveLeft | src/compiler/layers/primitive.rs:150-163 | write 0 on both bits, move Left, go to next |
| BaseLayer.IterationMovement | src/compiler/layers/pattern.rs:28-42 | every iteration but the last moves the regular way; the last moves the final way |
| BaseLayer.OnRead | src/compiler/layers/base.rs:113-129 | the target bit takes the match choice, the other bit the mismatch choice |
| BaseLayer.BodyInstruction | src/compiler/layers/pattern.rs:22-87 | the instruction a `chained_loop` closure emits for one bit: it is keyed by the iteration's start state and that bit, goes to the iteration's end (a scan mismatch goes back to the scan's start), and writes the bit back unless it is a pattern write |
| BaseLayer.EmitIteration | src/compiler/layers/base.rs:44-51 | one iteration adds exactly the two keys (start, 0) and (start, 1) to the table; `EmitLookup` states their instructions |
| BaseLayer.BranchWhen | src/compiler/layers/pattern.rs:68-87 | `branch_when` is the `branch` dispatched on the target bit: the target bit takes the match movement and state, the other the mismatch ones |
| BaseLayer.WriteAndMove | src/compiler/layers/pattern.rs:28-42 | `write_and_move(bit, m)`: both bits write `bit`, move m, go to next |
| BaseLayer.BuildIteration | src/compiler/layers/base.rs:44-51 | one iteration of a chain emits its body's two instructions between the boundaries it resolved |
| BaseLayer.ChainBound | src/compiler/layers/base.rs:36-61 | boundary 0 is the resolved start; every inner boundary is one of the n − 1 states the loop allocates after the start is resolved |
| BaseLayer.ChainCounter | src/compiler/layers/base.rs:36-61 | the counter never goes down, and a whole chain allocates its n − 1 inner states plus one state per missing boundary |
| BaseLayer.ChainTable | src/compiler/layers/base.rs:44-61 | after k iterations the table keeps every key it had and holds both keys of the start state of iteration k − 1 |
| BaseLayer.ChainStep | src/compiler/layers/base.rs:44-61 | iteration i, given the boundaries `chained_loop` passes it, starts at boundary i, ends at boundary i + 1 and leaves the counter where the closed form says |
| BaseLayer.ChainTableNext | src/compiler/layers/base.rs:44-61 | one more iteration extends the chain's table by that iteration's instructions |
| BaseLayer.ChainIteration | src/compiler/layers/base.rs:44-61 | one pass of the loop body moves the counter and table from iteration i's closed form to iteration i + 1's |
| BaseLayer.ChainedLoop | src/compiler/layers/base.rs:29-64 | n = 0 fails and changes nothing; otherwise it returns (first boundary, last boundary) and leaves the whole chain's table and counter |
| BaseLayer.ChainOfOne | src/compiler/layers/base.rs:36-38 | a chain of one iteration is that iteration alone between the caller's start and end |
| BaseLayer.ChainBoundsDistinct | src/compiler/layers/base.rs:44-61 | a chain's iteration start states are pairwise distinct |
| BaseLayer.EmitLookup | src/compiler/layers/base.rs:44-51 | after an iteration, its start state's keys hold its instructions and every other key is unchanged |
| BaseLayer.ChainTableAt | src/compiler/layers/base.rs:44-61 | in a chain's table, every iteration's start state holds that iteration's instructions |
| BaseLayer.ChainTableOther | src/compiler/layers/base.rs:44-61 | a chain leaves every key outside its start states unchanged |
| BaseLayer.MoveRightX | src/compiler/layers/base.rs:67-81 | `move_right_x(x)`: x = 0 fails; otherwise it returns the resolved boundaries and emits a chain of x `move_right`s, allocating x - 1 states in between |
| BaseLayer.MoveLeftX | src/compiler/layers/base.rs:84-98 | `move_left_x(x)`: x = 0 fails; otherwise it returns the resolved boundaries and emits a chain of x `move_left`s |
| BaseLayer.ScanSingle | src/compiler/layers/base.rs:102-132 | `scan_single`: the target bit goes to the end state with the final movement; the other bit loops on the start state with the scan movement; both are written back |
| PatternLayer.WritePattern | src/compiler/layers/pattern.rs:7-45 | an empty pattern fails; otherwise it returns the resolved boundaries and emits one `write_and_move` per pattern bit, chained from start to end |
| PatternLayer.ScanPattern | src/compiler/layers/pattern.rs:47-93 | an empty pattern fails; otherwise it returns the resolved boundaries and emits one `branch_when` per bit, whose mismatches return to the start state |
| Execution.RunAlong | src/machine/turing_machine.rs:146-152 | a run along a path of k + 1 configurations spends k steps and lands on its last one |
| Execution.PathCons | src/machine/turing_machine.rs:88-100 | a step that continues into a path extends it |
| Execution.PathJoin | src/machine/turing_machine.rs:146-152 | two paths that meet make one |
| Execution.Bounds | src/compiler/layers/base.rs:44-63 | a finished chain's boundary states, first and last as `chained_loop` returns them |
| Execution.ChainTableIsChain | src/compiler/layers/base.rs:44-61 | a finished chain holds each iteration's instructions at its boundary |
| Execution.Toward | src/machine/turing_machine.rs:74-86 | the cell k moves away in a direction (a definition; `MoveRightChain` and `ScanSingleChain` state where the machine's moves take the head in its terms) |
| Execution.LeftHead | src/machine/turing_machine.rs:79-86 | the head after k moves left counts down to 0 and then wraps within the fresh byte |
| Execution.MoveRightIteration | src/compiler/layers/primitive.rs:24-37 | one `move_right` iteration moves one cell right to the next boundary, no bit changed |
| Execution.MoveRightChain | src/compiler/layers/base.rs:67-81 | the rest of a `move_right` chain walks one cell right per iteration, no bit changed |
| Execution.MoveLeftIteration | src/compiler/layers/primitive.rs:8-21 | one `move_left` iteration moves one cell left, wrapping to 7 at cell 0 |
| Execution.MoveLeftChain | src/compiler/layers/base.rs:84-98 | the rest of a `move_left` chain lands on `LeftHead` |
| Execution.PatternIteration | src/compiler/layers/pattern.rs:15-42 | a pattern iteration applies the instruction emitted for the bit it reads |
| Execution.WriteIteration | src/compiler/layers/pattern.rs:23-42 | a `write_pattern` iteration writes its pattern bit and moves on |
| Execution.WriteLeftWrapIteration | src/compiler/layers/pattern.rs:23-42 | a leftward write's first iteration from cell 0 writes the last bit and shifts everything 8 cells right |
| Execution.WriteChain | src/compiler/layers/pattern.rs:7-45 | a `write_pattern` chain writes the pattern on consecutive cells and ends `final` past the last one |
| Execution.AfterWriteLast | src/compiler/layers/pattern.rs:23-42 | the bits left by the last write iteration alone |
| Execution.AfterWriteShift | src/compiler/layers/pattern.rs:23-42 | the bits left by iterations j onward, once iteration j has written its cell |
| Execution.FirstMismatch | src/compiler/layers/pattern.rs:63-87 | the first iteration of a scan round whose cell lacks the expected bit, or the length when all match |
| Execution.ScanHit | src/compiler/layers/pattern.rs:68-84 | a `scan_pattern` iteration on the expected bit moves on to the next boundary |
| Execution.ScanMiss | src/compiler/layers/pattern.rs:68-87 | a `scan_pattern` iteration on the other bit moves the scan way and returns to the start state |
| Execution.ScanMatchChain | src/compiler/layers/pattern.rs:47-93 | a round whose remaining cells all match reaches the end state `final` past its last cell |
| Execution.ScanMismatchChain | src/compiler/layers/pattern.rs:47-93 | a round with a first mismatch returns to the start state one cell past it |
| Execution.ScanRound | src/compiler/layers/pattern.rs:47-93 | a whole scan round either reaches the end past the pattern or restarts past the first mismatch, changing no bit |
| Execution.FirstMismatchIsFirst | src/compiler/layers/pattern.rs:63-87 | every iteration before the first mismatch finds its expected bit |
| Execution.ScanSingleStep | src/compiler/layers/base.rs:113-129 | one step of a `scan_single` loop: on the target it leaves moving `final`, otherwise it moves the scan way and stays |
| Execution.ScanSingleChain | src/compiler/layers/base.rs:102-132 | a `scan_single` loop crosses the non-target cells and leaves from the first target cell, changing no bit |
| Execution.HeadAfter | src/machine/turing_machine.rs:74-86 | the head after one movement, 7 when moving left from 0 (a definition; `HeadAfterIsMoved` ties it to the machine's move) |
| Execution.HeadAfterIsMoved | src/machine/turing_machine.rs:74-86 | `HeadAfter` is the head `Moved` gives, for every configuration and movement |
| Execution.BlockStep | src/compiler/layers/primitive.rs:8-163 | one step through a primitive block writes its bit for the bit read, moves and leaves |
| Runs.HaltTail | src/compiler/layers/primitive.rs:92-103 | entering a `halt` block takes one step into the halt state, then the run stops with head and bits unchanged |
| Runs.RunToHalt | src/machine/turing_machine.rs:146-152 | a run along a path that then stops halts with the stopping configuration |
| Runs.HaltTable | src/compiler/layers/primitive.rs:92-103 | the tests' preamble makes state 1 a `halt` block |
| Runs.ChainProgram | src/compiler/layers/base.rs:29-64 | the table the tests' preamble plus one chained block emits (a definition; the `Scenarios.Compile*` methods prove the compiler emits it and `ChainProgramFacts` states its lookups) |
| Runs.ChainProgramBounds | src/compiler/layers/base.rs:44-63 | the tests' chains run from state 0 to the halt block in state 1 |
| Runs.ChainProgramFacts | src/compiler/layers/base.rs:29-64 | the tests' compiled chain is a chain, followed by a `halt` block |
| Runs.MoveRightXRuns | src/compiler/layers/base.rs:67-81 | `move_right_x(x)` then `halt` halts with the head x cells right and no bit changed |
| Runs.MoveLeftXRuns | src/compiler/layers/base.rs:84-98 | `move_left_x(x)` then `halt` halts on `LeftHead(h, x)` |
| Runs.MoveRightThenLeftRuns | src/compiler/layers/base.rs:67-98 | `move_right_x(x)` and then `move_left_x(x)` bring the head back to where it started |
| Runs.WritePatternRuns | src/compiler/layers/pattern.rs:7-45 | `write_pattern` then `halt` halts with the pattern on the walked cells, every other bit unchanged, and the head `final` past the last written cell |
| Runs.WritePatternLeftFromZeroRuns | src/compiler/layers/pattern.rs:7-45 | a leftward `write_pattern` from cell 0 halts with the pattern in left-to-right order after the byte it prepends |
| Runs.LeftWriteFromZeroBits | src/compiler/layers/pattern.rs:23-42 | the bits of that leftward write, in terms of the original tape |
| Runs.ScanRounds | src/compiler/layers/pattern.rs:47-93 | failed rounds restart one cell further on, and the first matching round reaches the end |
| Runs.ScanRoundFrom | src/compiler/layers/pattern.rs:47-93 | one scan round, matched or missed, on a tape with the same bits |
| Runs.FirstMismatchSameBits | src/compiler/layers/pattern.rs:63-87 | tapes with the same bits have the same first mismatch |
| Runs.ScanPatternRuns | src/compiler/layers/pattern.rs:47-93 | `scan_pattern` then `halt` halts `final` past the first occurrence that the restart-on-mismatch search meets, changing no bit |
| Runs.MatchesHaveNoMismatch | src/compiler/layers/pattern.rs:63-87 | when every cell matches there is no mismatch |
| Runs.WrittenPatternMatches | src/compiler/layers/pattern.rs:7-93 | what `write_pattern` wrote is what `scan_pattern` looks for from the same cell |
| Runs.WriteThenScanRuns | src/compiler/layers/pattern.rs:7-93 | `write_pattern` then `scan_pattern` from the same start halts in one round at the pattern's end, with the pattern still on the tape, for every start the write itself accepts |
| Runs.WriteThenScanToCellZero | src/compiler/layers/pattern.rs:7-93 | a leftward write and scan from cell `|p| - 1` match down to cell 0 and halt there without leaving the tape |
| Runs.ScanFromCellZeroFinalLeft | src/compiler/layers/pattern.rs:47-93 | `scan_pattern([1, 1], Right, Left)` from cell 0 with cells 1 and 2 set misses once, matches from cell 1, and halts on cell 1 after the final move left |
| Runs.ScanSingleProgram | src/compiler/layers/base.rs:102-132 | the tests' `scan_single` program is a scan loop from state 0 into the `halt` block |
| Runs.ScanSingleRuns | src/compiler/layers/base.rs:102-132 | `scan_single` then `halt` halts `final` past the first target cell in the scan direction, changing no bit |
| Runs.ScanSingleRightDiverges | src/compiler/layers/base.rs:101-132 | the documented endless loop: with no target cell from the head rightwards, the run is out of fuel for every fuel |
| Runs.ScanSingleLeftDiverges | src/compiler/layers/base.rs:101-132 | the endless loop to the left: with no 1 up to the head, the run crosses cell 0, keeps prepending zero bytes, and is out of fuel for every fuel |
| Runs.FirstZeroAhead | src/machine/turing_tape.rs:27-31 | every tape has a first 0 at or after any cell, no further than its end, since unallocated cells read 0 |
| Runs.ScanZeroRightHalts | src/compiler/layers/base.rs:101-132 | so a rightward scan for 0 never loops: it halts within `8 * |tape| + 3` steps, `final` past the first 0, with no bit changed |
| Runs.BlockProgram | src/compiler/layers/primitive.rs:8-163 | a single primitive block from state 0 into the `halt` block |
| Runs.BlockRuns | src/compiler/layers/primitive.rs:8-163 | a primitive block then `halt` halts after one write and one move |
| Scenarios.Preamble | src/compiler/layers/base.rs:179-181 | the tests' preamble: state 0 allocated, then `halt(None)` in state 1 |
| Scenarios.RunOn | src/machine/turing_machine.rs:146-152 | loading a program and a tape into a machine and running it gives `Run` |
| Scenarios.CompileMoveRightX | src/compiler/layers/base.rs:179-185 | the test's compilation builds the `move_right_x` chain program |
| Scenarios.RunMoveRightX | src/compiler/layers/base.rs:67-81 | the compiled `move_right_x(x)` halts x cells right, the bits unchanged |
| Scenarios.MoveRightXScenario | src/compiler/layers/base.rs:178-188 | `test_move_right_x`: the head ends on 53 |
| Scenarios.CompileMoveLeftX | src/compiler/layers/base.rs:192-198 | the test's compilation builds the `move_left_x` chain program |
| Scenarios.RunMoveLeftX | src/compiler/layers/base.rs:84-98 | the compiled `move_left_x(x)` halts on `LeftHead(h, x)` |
| Scenarios.MoveLeftXScenario | src/compiler/layers/base.rs:191-201 | `test_move_left_x`: the head ends on 3 |
| Scenarios.CompileScanSingle | src/compiler/layers/base.rs:205-213 | the test's compilation builds the `scan_single` program |
| Scenarios.RunScanSingle | src/compiler/layers/base.rs:102-132 | the compiled `scan_single` halts past the first target cell, bits unchanged |
| Scenarios.ScanSingleScenario | src/compiler/layers/base.rs:204-216 | `test_scan_single`: the head ends on 2763 |
| Scenarios.TestPattern | src/compiler/layers/pattern.rs:107 | the tests' pattern has 8 bits |
| Scenarios.CompileWritePattern | src/compiler/layers/pattern.rs:111-118 | the test's compilation builds the `write_pattern` chain program |
| Scenarios.WritePatternRightScenario | src/compiler/layers/pattern.rs:110-128 | written rightward from 0, the pattern is on cells 0 to 7 with the head on 7 |
| Scenarios.RunWritePattern | src/compiler/layers/pattern.rs:7-45 | the compiled `write_pattern` halts with the pattern written and the head `final` past it |
| Scenarios.RunWritePatternLeftFromZero | src/compiler/layers/pattern.rs:7-45 | the compiled leftward `write_pattern` from cell 0 halts with the pattern after the prepended byte |
| Scenarios.WritePatternLeftScenario | src/compiler/layers/pattern.rs:133-151 | written leftward from 0, the pattern is in order on cells 1 to 8 with the head on 1 |
| Scenarios.ScanTestTape | src/compiler/layers/pattern.rs:157-161 | the test's tape has cells 4, 5, 9 and 11 set |
| Scenarios.CompileScanPattern | src/compiler/layers/pattern.rs:165-172 | the test's compilation builds the `scan_pattern` chain program |
| Scenarios.RightScanRounds | src/compiler/layers/pattern.rs:164-174 | scanning right from 0, rounds 0 to 3 fail and the round from 4 matches |
| Scenarios.LeftScanRounds | src/compiler/layers/pattern.rs:179-190 | scanning left from 15, rounds 15 to 12 fail and the round from 11 matches |
| Scenarios.RunScanPattern | src/compiler/layers/pattern.rs:47-93 | the compiled `scan_pattern` halts past the first match, bits unchanged |
| Scenarios.ScanPatternScenario | src/compiler/layers/pattern.rs:155-191 | `test_scan_pattern`: the right scan halts on 11, the left scan on 4 |
| Scenarios.CompileMoveLeft | src/compiler/layers/primitive.rs:175-181 | the test's compilation builds a `move_left` block |
| Scenarios.CompileMoveRight | src/compiler/layers/primitive.rs:189-195 | the test's compilation builds a `move_right` block |
| Scenarios.CompileMark | src/compiler/layers/primitive.rs:243-249 | the test's compilation builds a `mark` block |
| Scenarios.CompileMarkAndMoveRight | src/compiler/layers/primitive.rs:273-280 | the test's compilation builds a `mark_and_move_right` block |
| Scenarios.CompileMarkAndMoveLeft | src/compiler/layers/primitive.rs:289-296 | the test's compilation builds a `mark_and_move_left` block |
| Scenarios.CompileUnmarkAndMoveRight | src/compiler/layers/primitive.rs:306-311 | the test's compilation builds an `unmark_and_move_right` block |
| Scenarios.CompileUnmarkAndMoveLeft | src/compiler/layers/primitive.rs:325-330 | the test's compilation builds an `unmark_and_move_left` block |
| Scenarios.RunBlock | src/compiler/layers/primitive.rs:8-163 | a compiled primitive block halts after its write and move |
| Scenarios.MoveScenario | src/compiler/layers/primitive.rs:174-199 | `test_move_left` ends on 7 and `test_move_right` on 1 |
| Scenarios.MarkScenario | src/compiler/layers/primitive.rs:242-253 | `test_mark`: head 0 on a 1 |
| Scenarios.MarkAndMoveRightScenario | src/compiler/layers/primitive.rs:272-285 | `test_mark_and_move_right`: cell 0 reads 1, cell 1 reads 0, head 1 |
| Scenarios.MarkAndMoveLeftScenario | src/compiler/layers/primitive.rs:288-302 | `test_mark_and_move_left`: head 7, cell 7 reads 0, the mark now on cell 8 |
| Scenarios.FirstCellTape | src/compiler/layers/primitive.rs:313-314 | `set(0)` on an empty tape leaves only cell 0 set |
| Scenarios.UnmarkAndMoveRightScenario | src/compiler/layers/primitive.rs:305-321 | `test_unmark_and_move_right`: cells 0 and 1 read 0, head 1 |
| Scenarios.UnmarkAndMoveLeftScenario | src/compiler/layers/primitive.rs:324-340 | `test_unmark_and_move_left`: cells 7 and 8 read 0, head 7 |
| Scenarios.MarkUnmarkProgram | src/compiler/layers/primitive.rs:257-263 | `test_unmark`'s program: `mark` from 0 to 1, `unmark` from 1 to the halt block in 2 |
| Scenarios.MarkUnmarkRuns | src/compiler/layers/primitive.rs:64-89 | marking then unmarking a cell halts with the head in place and that cell reading 0, others unchanged |
| Scenarios.CompileMarkUnmark | src/compiler/layers/primitive.rs:257-265 | the test's compilation builds that program |
| Scenarios.MarkUnmarkScenario | src/compiler/layers/primitive.rs:256-269 | `test_unmark`: head 0 on a 0 |
| Scenarios.BranchProgram | src/compiler/layers/primitive.rs:203-217 | `test_branch`'s program scans right on 0 in state 0, turns left on 1 into state 1, then moves left into state 2 |
| Scenarios.CompileBranch | src/compiler/layers/primitive.rs:203-217 | the test's compilation builds that program |
| Scenarios.BranchStep | src/compiler/layers/primitive.rs:40-61 | one step of that program on a tape with only cell 5 set, as the branch dictates |
| Scenarios.BranchHeads | src/compiler/layers/primitive.rs:225-238 | the heads the test checks after its first k steps |
| Scenarios.BranchAdvance | src/compiler/layers/primitive.rs:225-238 | the step of `BranchStep` from step k's head and state lands on step k + 1's |
| Scenarios.BranchMachineStep | src/machine/turing_machine.rs:88-128 | one `program_step` of the test's machine takes it from step k to step k + 1 |
| Scenarios.BranchMachine | src/compiler/layers/primitive.rs:219-224 | the test's machine: the compiled program, only cell 5 set, head 0, state 0 |
| Scenarios.FifthCellTape | src/compiler/layers/primitive.rs:219-220 | `set(5)` on an empty tape leaves only cell 5 set |
| Scenarios.LoadMachine | src/machine/turing_machine.rs:23-31 | `with_tape` and `with_program` on a default machine: head 0, state 0 |
| Scenarios.BranchScenario | src/compiler/layers/primitive.rs:202-239 | `test_branch`: the head visits 1, 2, 3, 4, 5, 4, 3 |
| Scenarios.BranchHeadsOfTest | src/compiler/layers/primitive.rs:225-238 | the seven heads the test checks are 1, 2, 3, 4, 5, 4, 3 |

## Left out

- `run_program` loops until a step does not continue, and may never stop. `Machine.Run` and
  `Machine.TuringMachine.RunProgram` take a fuel bound instead, with a third outcome,
  `OutOfFuel`.
- Panics are modelled as error values:
  - the dangling-state panic of `program_step` is the `DanglingState` outcome;
  - `loop_start.unwrap()` in `chained_loop` with zero iterations is `Err(EmptyLoop)`;
  - `get_at` past the end is `Err(IndexOutOfBounds)`.
  The panic message texts are not modelled.
- Machine-word widths are not modelled:
  - the head and the state counter are unbounded `nat`s, so `usize` overflow is not modelled;
  - the halt state is the constant `usize::MAX` of a 64-bit target;
  - the run lemmas require the counter to stay below it.
- `Scenarios.BranchProgram`: `test_branch`'s compiled table is stated only through the entries
  the run uses. It fixes state 0's and state 1's instructions, not every key of the table.
- `Runs.MoveLeftXRuns` and `Scenarios.RunMoveLeftX` state where the head ends but not the bits.
  A run that crosses cell 0 prepends bytes and renumbers every bit, and the lemma does not track
  that.
- `Runs.WritePatternRuns` covers two cases: rightward writes, and leftward writes that stay right
  of cell 0. `Runs.WritePatternLeftFromZeroRuns` covers leftward writes from cell 0 of patterns
  of 2 to 9 bits. Leftward writes that cross cell 0 from further right are not covered.
- `Runs.ScanPatternRuns` (and `Runs.ScanRounds`, `Runs.ScanRoundFrom`, `Execution.ScanRound`)
  exclude the runs with a move left off cell 0. Those runs prepend a byte and renumber every bit,
  which the lemmas do not track.
  - A missed round must meet its mismatch right of cell 0.
  - The matching round must start at cell `|p| - 1` or further right when leftward, and its
    final move must not leave cell 0 leftward.
  - A leftward missed round must also start at cell `|p| - 1` or further right. So a round that
    starts nearer cell 0 and misses before reaching it is not covered, although it stays on the
    tape.
  - The scan direction must not be `Stay`.
- `Runs.ScanSingleRuns` requires no move left off cell 0, during the scan or in the final move,
  and a scan direction other than `Stay`.
- `Runs.ScanSingleRuns` covers the scans that find their target. Of the scans that do not, the
  rightward ones (`Runs.ScanSingleRightDiverges`) and the leftward ones for a 1
  (`Runs.ScanSingleLeftDiverges`) are proved never to stop. A leftward scan for a 0 with only 1s
  up to the head crosses cell 0 and stops on the prepended byte; that run is not stated.
- `Scenarios.RunScanSingle` carries the requires of `Runs.ScanSingleRuns`: a scan direction
  other than `Stay`, no crossing of cell 0 moving left, and no final move left off cell 0.
- `Scenarios.RunWritePattern` carries the requires of `Runs.WritePatternRuns`: a direction other
  than `Stay`, no leftward write that crosses cell 0, and no final move left off cell 0.
- `Scenarios.RunWritePatternLeftFromZero` carries the requires of
  `Runs.WritePatternLeftFromZeroRuns`: patterns of 2 to 9 bits only, and no final move left
  off cell 0.
- `Scenarios.RunScanPattern` carries the requires of `Runs.ScanPatternRuns`: a scan direction
  other than `Stay`, and no move left off cell 0 in any round or in the final move.
- `Runs.ScanZeroRightHalts` excludes a start on cell 0 that reads 0 with `final` Left. That
  final move leaves cell 0 leftward and prepends a byte, and the lemma does not state the
  shifted bits.
- `test_chained_loop`'s closure, which allocates a state and chains `mark`/`unmark` inside one
  iteration, is not modelled. The closures `chained_loop` takes are represented by the four
  iteration bodies the layers use (`BaseLayer.IterationBody`).
- `chained_loop` is declared with a three-argument closure, but the pattern layer calls it with
  the iteration index as a fourth argument. The model follows the indexed form.
- `branch_when` and `write_and_move` are called by the pattern layer but defined nowhere in the
  repository. They are modelled from their call sites:
  - `branch_when` is `branch` dispatched on the target bit, as in `scan_single`;
  - `write_and_move` writes the given bit for either bit read and moves.
- `add_instructions` is declared in src/compiler/layers/program_builder.rs but has no
  implementation. It is modelled as one `add_instruction` after the other.
- `PatternLayer` is not implemented for `TuringCompiler` in the repository. The model runs it on
  the compiler anyway.
- `Instruction` stores plain integers as states, while the layers pass `State`s. Both are the same
  identifier in the model.
- The text rendering of the tape (`get_string`), debug mode (`with_debug_mode`, the printing,
  `sleep` and `DisplayStyle`) and serde serialisation are not modelled. They are rendering,
  timing and persistence only, and never change execution.
- `main.rs` is not part of this model: it is example wiring with debug output.
- Logic gates, an adder and a no-progress counter for non-termination are not part of this
  model, because the repository's code has none of them. Non-termination is handled only by the
  fuel bound.
- Aliasing between a machine's tape and a tape object held elsewhere is not modelled. The scenario
  methods hand each machine a fresh tape.
