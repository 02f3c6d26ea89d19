/** `useToggle`: one boolean state cell with three setters. */
module UseToggle {

  /** One `useToggle(initialValue)` instance. */
  class ToggleState {
    var value: bool

    /** The first render: the initial value as given, `false` when none is. */
    constructor (initialValue: bool := false)
      ensures value == initialValue
    {
      value := initialValue;
    }

    /** `setValue(prev => !prev)`. */
    method Toggle()
      modifies this
      ensures value == !old(value)
    {
      value := !value;
    }

    method SetTrue()
      modifies this
      ensures value
    {
      value := true;
    }

    method SetFalse()
      modifies this
      ensures !value
    {
      value := false;
    }
  }

  /** Without an argument the toggle starts `false`; with one it starts at that value. */
  method InitialValues(given: bool) returns (byDefault: bool, supplied: bool)
    ensures !byDefault && supplied == given
  {
    var a := new ToggleState();
    var b := new ToggleState(given);
    byDefault, supplied := a.value, b.value;
  }

  /** Two toggles restore the original value. */
  method ToggleTwice(initialValue: bool) returns (once: bool, twice: bool)
    ensures once == !initialValue && twice == initialValue
  {
    var t := new ToggleState(initialValue);
    t.Toggle();
    once := t.value;
    t.Toggle();
    twice := t.value;
  }

  /** `setTrue` and `setFalse` give their value whatever came before, and repeating them changes nothing. */
  method SettersIdempotent(initialValue: bool) returns (setOnce: bool, setAgain: bool, clearedOnce: bool, clearedAgain: bool)
    ensures setOnce && setAgain
    ensures !clearedOnce && !clearedAgain
  {
    var t := new ToggleState(initialValue);
    t.SetTrue();
    setOnce := t.value;
    t.SetTrue();
    setAgain := t.value;
    t.SetFalse();
    clearedOnce := t.value;
    t.SetFalse();
    clearedAgain := t.value;
  }
}
