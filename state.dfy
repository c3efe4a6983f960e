/** Control states of the machine (src/machine/state.rs). */
module States {

  /** `usize::MAX` on a 64-bit target: the identifier reserved for the halt state. */
  const USIZE_MAX: nat := 0xFFFF_FFFF_FFFF_FFFF

  /** A state wraps a non-negative identifier; equality is that of the identifiers. */
  datatype State = State(id: nat) {

    /** `State::new`. */
    static function New(value: nat): (s: State)
      ensures s.id == value
    {
      State(value)
    }

    /** `State::get`. */
    function Get(): (value: nat)
      ensures State(value) == this
    {
      id
    }
  }

  /** The derived default state wraps 0. */
  function DefaultState(): (s: State)
    ensures s.Get() == 0
  {
    State(0)
  }

  /** The state the machine halts in when it finds no instruction. */
  const HALT: State := State(USIZE_MAX)

  /** `new` then `get` gives back the value. */
  lemma NewThenGet(value: nat)
    ensures State.New(value).Get() == value
  {
  }

  /** `get` then `new` gives back the state, so the two are inverse. */
  lemma GetThenNew(s: State)
    ensures State.New(s.Get()) == s
  {
  }

  /** Two states are equal exactly when their identifiers are. */
  lemma EqualIffSameId(s1: State, s2: State)
    ensures s1 == s2 <==> s1.Get() == s2.Get()
  {
  }
}
