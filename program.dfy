/** The sparse transition table keyed by (state, read bit) (src/machine/turing_program.rs). */
module Programs {

  import opened Wrappers
  import opened Instructions

  /** The key of the table: a state identifier and the bit read. */
  type Key = (nat, bool)

  /** The table held by a program: at most one instruction per key. */
  type Table = map<Key, Instruction>

  function KeyOf(i: Instruction): Key
  {
    (i.currentState, i.readBit)
  }

  /** `TuringProgram::get`: the instruction for (state, readBit), if any. */
  function Lookup(t: Table, state: nat, readBit: bool): (r: Option<Instruction>)
    ensures r.Some? <==> (state, readBit) in t
    ensures r.Some? ==> r.value == t[(state, readBit)]
  {
    if (state, readBit) in t then Some(t[(state, readBit)]) else None
  }

  /**
   * `HashMap::insert` under the instruction's own key: afterwards the key yields the
   * instruction, whatever it held before, and no other key changes.
   */
  function Insert(t: Table, i: Instruction): (r: Table)
    ensures Lookup(r, i.currentState, i.readBit) == Some(i)
    ensures forall s: nat, b: bool :: (s, b) != KeyOf(i) ==> Lookup(r, s, b) == Lookup(t, s, b)
    ensures r.Keys == t.Keys + {KeyOf(i)}
  {
    t[KeyOf(i) := i]
  }

  /** Several instructions inserted one after the other, in order. */
  function InsertAll(t: Table, batch: seq<Instruction>): (r: Table)
    ensures r.Keys == t.Keys + set i | i in batch :: KeyOf(i)
    decreases |batch|
  {
    if batch == [] then t else Insert(InsertAll(t, batch[..|batch| - 1]), batch[|batch| - 1])
  }

  /** Inserting a batch of two is inserting the first, then the second. */
  lemma InsertAllTwo(t: Table, i0: Instruction, i1: Instruction)
    ensures InsertAll(t, [i0, i1]) == Insert(Insert(t, i0), i1)
  {
    assert [i0, i1][..1] == [i0];
    assert [i0][..0] == [];
    assert InsertAll(t, []) == t;
    assert InsertAll(t, [i0]) == Insert(t, i0);
  }

  /** Every stored instruction sits under its own (current state, read bit). */
  ghost predicate WellKeyed(t: Table)
  {
    forall k | k in t :: KeyOf(t[k]) == k
  }

  /** The default program has no entry for any key. */
  lemma EmptyHasNoEntry(state: nat, readBit: bool)
    ensures Lookup(map[], state, readBit) == None
  {
  }

  /** Inserting keeps every instruction under its own key. */
  lemma InsertKeepsWellKeyed(t: Table, i: Instruction)
    requires WellKeyed(t)
    ensures WellKeyed(Insert(t, i))
  {
  }

  /** Re-inserting under the same key overwrites: only the last instruction remains. */
  lemma InsertOverwrites(t: Table, i1: Instruction, i2: Instruction)
    requires KeyOf(i1) == KeyOf(i2)
    ensures Insert(Insert(t, i1), i2) == Insert(t, i2)
  {
  }

  /** Inserting a sequence keeps every instruction under its own key. */
  lemma {:induction false} InsertAllKeepsWellKeyed(t: Table, batch: seq<Instruction>)
    requires WellKeyed(t)
    ensures WellKeyed(InsertAll(t, batch))
    decreases |batch|
  {
    if batch != [] {
      InsertAllKeepsWellKeyed(t, batch[..|batch| - 1]);
      InsertKeepsWellKeyed(InsertAll(t, batch[..|batch| - 1]), batch[|batch| - 1]);
    }
  }

  /** A program: the table the compiler accumulates and the machine replays. */
  class TuringProgram {

    var instructions: Table

    ghost predicate Valid()
      reads this
    {
      WellKeyed(instructions)
    }

    /** `TuringProgram::default()`. */
    constructor ()
      ensures instructions == map[] && Valid()
    {
      instructions := map[];
    }

    /** `get`: a lookup, which reads the table and changes nothing. */
    function Get(state: nat, readBit: bool): (r: Option<Instruction>)
      reads this
      ensures r == Lookup(instructions, state, readBit)
    {
      Lookup(instructions, state, readBit)
    }

    /** `add_instruction`: inserts in place under the instruction's key. */
    method AddInstruction(i: Instruction)
      requires Valid()
      modifies this
      ensures Valid()
      ensures instructions == Insert(old(instructions), i)
    {
      instructions := instructions[KeyOf(i) := i];
      InsertKeepsWellKeyed(old(instructions), i);
    }

    /** The derived `clone`: a new program holding the same table. */
    method Clone() returns (p: TuringProgram)
      requires Valid()
      ensures fresh(p) && p.Valid()
      ensures p.instructions == instructions
    {
      p := new TuringProgram();
      p.instructions := instructions;
    }
  }
}
