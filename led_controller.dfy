/**
 * The LED controller of the unit-test fixtures: a pin number that never
 * changes and one bit of state that the commands set, clear or flip.
 */
module LedController {
  import opened Bits

  /** A state-changing command of the controller. */
  datatype LedCommand = Toggle | TurnOn | TurnOff

  /** The tracked state after one command. */
  function Step(on: bool, c: LedCommand): (r: bool)
    ensures c == TurnOn ==> r
    ensures c == TurnOff ==> !r
    ensures c == Toggle ==> r != on
  {
    match c
    case Toggle => !on
    case TurnOn => true
    case TurnOff => false
  }

  /** The tracked state after the commands, in order. */
  function Run(on: bool, cs: seq<LedCommand>): bool
    decreases |cs|
  {
    if cs == [] then on else Run(Step(on, cs[0]), cs[1..])
  }

  /** Running two command sequences one after the other is running their concatenation. */
  lemma {:induction false} RunAppend(on: bool, a: seq<LedCommand>, b: seq<LedCommand>)
    ensures Run(on, a + b) == Run(Run(on, a), b)
    decreases |a|
  {
    if a != [] {
      assert (a + b)[1..] == a[1..] + b;
      RunAppend(Step(on, a[0]), a[1..], b);
    } else {
      assert a + b == b;
    }
  }

  /** `n` copies of one command. */
  function Repeat(c: LedCommand, n: nat): (r: seq<LedCommand>)
    ensures |r| == n
    ensures forall i :: 0 <= i < n ==> r[i] == c
  {
    if n == 0 then [] else [c] + Repeat(c, n - 1)
  }

  /** After `n` toggles the state has flipped exactly when `n` is odd; from off, it is on exactly then. */
  lemma {:induction false} TogglesParity(on: bool, n: nat)
    ensures Run(on, Repeat(Toggle, n)) == (if n % 2 == 1 then !on else on)
    ensures Run(false, Repeat(Toggle, n)) == (n % 2 == 1)
    decreases n
  {
    if n > 0 {
      assert Repeat(Toggle, n)[1..] == Repeat(Toggle, n - 1);
      TogglesParity(!on, n - 1);
      TogglesParity(true, n - 1);
    }
  }

  /** Two toggles restore the state; repeating turnOn or turnOff changes nothing more. */
  lemma CommandAlgebra(on: bool)
    ensures Run(on, [Toggle, Toggle]) == on
    ensures Run(on, [TurnOn, TurnOn]) == Run(on, [TurnOn]) == true
    ensures Run(on, [TurnOff, TurnOff]) == Run(on, [TurnOff]) == false
  {
    assert [Toggle, Toggle] == Repeat(Toggle, 2);
    TogglesParity(on, 2);
  }

  /** A command sequence ending in turnOn or turnOff leaves exactly that state, whatever came before. */
  lemma LastCommandWins(on: bool, cs: seq<LedCommand>, c: LedCommand)
    requires c != Toggle
    ensures Run(on, cs + [c]) == (c == TurnOn)
  {
    RunAppend(on, cs, [c]);
  }

  /** The fixture's LedController: `pin` is fixed at construction. */
  class LedController {
    const pin: U32
    var state: bool

    /** A new controller is off. */
    constructor(pin: U32)
      ensures this.pin == pin && !state
    {
      this.pin := pin;
      state := false;
    }

    /** init does nothing to the controller. */
    method Init()
      ensures state == old(state)
    {
    }

    method Toggle()
      modifies this
      ensures state == Step(old(state), LedCommand.Toggle)
    {
      state := !state;
    }

    method TurnOn()
      modifies this
      ensures state == Step(old(state), LedCommand.TurnOn)
    {
      state := true;
    }

    method TurnOff()
      modifies this
      ensures state == Step(old(state), LedCommand.TurnOff)
    {
      state := false;
    }

    /** isOn reports the tracked state and changes nothing. */
    method IsOn() returns (on: bool)
      ensures on == state
    {
      on := state;
    }
  }
}
