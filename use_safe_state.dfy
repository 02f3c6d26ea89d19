/**
 * `useSafeState`: a state cell whose setter is ignored once the component has
 * unmounted. The state is an untyped JavaScript value; `None` stands for `null`.
 */
module UseSafeState {
  import opened Common

  /** One `useSafeState(initialValue)` instance over values of type `Option<T>`. */
  class SafeState<T> {
    var state: Option<T>
    /** `isMounted.current`. */
    var isMounted: bool

    /** The first render: the initial value as given, `null` when none is; the ref starts `true`. */
    constructor (initialValue: Option<T> := None)
      ensures state == initialValue && isMounted
    {
      state := initialValue;
      isMounted := true;
    }

    /** `setStateSafe`: passes the value or updater to React while mounted, and does nothing after. */
    method SetStateSafe(action: SetStateAction<Option<T>>)
      modifies this`state
      ensures state == if isMounted then Apply(action, old(state)) else old(state)
    {
      if isMounted {
        state := Apply(action, state);
      }
    }

    /** The effect's cleanup: the flag becomes `false`; nothing sets it back. */
    method Unmount()
      modifies this`isMounted
      ensures !isMounted
    {
      isMounted := false;
    }
  }

  /** With no argument the state starts `null`. */
  method DefaultIsNull<T>() returns (initial: Option<T>)
    ensures initial == None
  {
    var hook := new SafeState<T>();
    initial := hook.state;
  }

  /** While mounted a value is stored, and an updater is applied to the previous state. */
  method SetWhileMounted(initial: int, v: int) returns (afterValue: Option<int>, afterUpdater: Option<int>)
    ensures afterValue == Some(v) && afterUpdater == Some(v + 1)
  {
    var hook := new SafeState<int>(Some(initial));
    hook.SetStateSafe(Value(Some(v)));
    afterValue := hook.state;
    hook.SetStateSafe(Updater((prev: Option<int>) => if prev.Some? then Some(prev.value + 1) else prev));
    afterUpdater := hook.state;
  }

  /** After unmount every setter call leaves the state as it was, and the hook stays unmounted. */
  method SetAfterUnmount<T>(initial: Option<T>, action: SetStateAction<Option<T>>) returns (after: Option<T>, mounted: bool)
    ensures after == initial && !mounted
  {
    var hook := new SafeState<T>(initial);
    hook.Unmount();
    hook.SetStateSafe(action);
    hook.SetStateSafe(action);
    after, mounted := hook.state, hook.isMounted;
  }
}
