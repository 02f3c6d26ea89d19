/**
 * `usePrevious`: each render returns what the ref holds, and the effect then
 * stores the value just rendered, so the output lags the input by one render.
 */
module UsePrevious {
  import opened Common

  /** The reference output for renders with `inputs`: `undefined`, then each input but the last. */
  function Lagged<T>(inputs: seq<T>): (outputs: seq<Option<T>>)
  {
    if inputs == [] then []
    else [None] + seq(|inputs| - 1, i requires 0 <= i < |inputs| - 1 => Some(inputs[i]))
  }

  /** The output of the render that follows renders with `inputs`. */
  function Last<T>(inputs: seq<T>): (last: Option<T>)
  {
    if inputs == [] then None else Some(inputs[|inputs| - 1])
  }

  /** Rendering once more appends what the ref holds, the last input so far. */
  lemma LaggedAppend<T>(inputs: seq<T>, value: T)
    ensures Lagged(inputs + [value]) == Lagged(inputs) + [Last(inputs)]
  {
    var xs := inputs + [value];
    if inputs != [] {
      assert |Lagged(xs)| == |Lagged(inputs) + [Last(inputs)]|;
      forall i | 0 <= i < |Lagged(xs)| ensures Lagged(xs)[i] == (Lagged(inputs) + [Last(inputs)])[i] {
        if 0 < i < |inputs| {
          assert Lagged(xs)[i] == Some(xs[i - 1]) && xs[i - 1] == inputs[i - 1];
        }
      }
    }
  }

  /**
   * An independent, functional reading of the render step: replaying renders
   * one by one, starting from a ref that holds `ref`. `Previous.Render` is
   * proved to keep its outputs equal to `Replay(None, inputs)`.
   */
  function Replay<T>(ref: Option<T>, inputs: seq<T>): (outputs: seq<Option<T>>)
    decreases inputs
  {
    if inputs == [] then [] else [ref] + Replay(Some(inputs[0]), inputs[1..])
  }

  /** From mount, render k returns the input of render k - 1: the outputs are `[undefined] ++ inputs[..n-1]`. */
  lemma {:induction false} ReplayIsLagged<T>(inputs: seq<T>)
    ensures Replay(None, inputs) == Lagged(inputs)
    ensures |Replay(None, inputs)| == |inputs|
    ensures forall k :: 0 < k < |inputs| ==> Replay(None, inputs)[k] == Some(inputs[k - 1])
  {
    ReplayFrom(None, inputs);
  }

  lemma {:induction false} ReplayFrom<T>(ref: Option<T>, inputs: seq<T>)
    ensures |Replay(ref, inputs)| == |inputs|
    ensures inputs != [] ==> Replay(ref, inputs) == [ref] + Lagged(inputs)[1..]
    decreases inputs
  {
    if inputs != [] {
      var rest := inputs[1..];
      ReplayFrom(Some(inputs[0]), rest);
      if rest != [] {
        forall i | 0 <= i < |rest| ensures Replay(Some(inputs[0]), rest)[i] == Lagged(inputs)[1..][i] {
          if i > 0 {
            assert Lagged(rest)[1..][i - 1] == Some(rest[i - 1]);
          }
        }
      }
    }
  }

  /** One `usePrevious(value)` instance. */
  class Previous<T(==)> {
    /** `ref.current`; `None` is `undefined`. */
    var current: Option<T>
    /** The dependency the effect last ran with, as React records it. */
    var deps: Option<T>
    ghost var inputs: seq<T>
    ghost var outputs: seq<Option<T>>

    ghost predicate Valid()
      reads this
    {
      && deps == current
      && current == Last(inputs)
      && outputs == Lagged(inputs)
    }

    /** The hook before its first render. */
    constructor ()
      ensures Valid() && inputs == [] && current == None
    {
      current := None;
      deps := None;
      inputs := [];
      outputs := [];
    }

    /** A render with `value`: return the ref, then run the effect unless `value` equals the last dependency. */
    method Render(value: T) returns (previous: Option<T>)
      requires Valid()
      modifies this
      ensures Valid()
      ensures previous == old(current) && current == Some(value)
      ensures inputs == old(inputs) + [value] && outputs == old(outputs) + [previous]
      ensures outputs == Replay(None, inputs)
    {
      previous := current;
      if deps != Some(value) {
        current := Some(value);
      }
      deps := Some(value);
      LaggedAppend(inputs, value);
      inputs := inputs + [value];
      outputs := outputs + [previous];
      ReplayIsLagged(inputs);
    }
  }

  /** Renders with 0, 1, 2, 3 return undefined, 0, 1, 2. */
  method RenderCounter() returns (outputs: seq<Option<int>>)
    ensures outputs == [None, Some(0), Some(1), Some(2)]
  {
    var hook := new Previous<int>();
    var a := hook.Render(0);
    var b := hook.Render(1);
    var c := hook.Render(2);
    var d := hook.Render(3);
    outputs := [a, b, c, d];
  }

  /** Equal consecutive inputs skip the effect, yet the output still lags. */
  method RenderRepeated<T(==)>(x: T, y: T) returns (outputs: seq<Option<T>>)
    ensures outputs == [None, Some(x), Some(x), Some(y)]
  {
    var hook := new Previous<T>();
    var a := hook.Render(x);
    var b := hook.Render(x);
    var c := hook.Render(y);
    var d := hook.Render(y);
    outputs := [a, b, c, d];
  }

  /** The value returned is the very object passed earlier: for a class type, `==` is reference identity. */
  class Box {}

  method ReturnsSameObject(first: Box, second: Box) returns (previous: Option<Box>)
    ensures previous == Some(first)
  {
    var hook := new Previous<Box>();
    var _ := hook.Render(first);
    previous := hook.Render(second);
  }
}
