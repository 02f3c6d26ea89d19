/** Small value types shared by the hook models. */
module Common {

  /** A JavaScript value that may be absent (`null` or `undefined`). */
  datatype Option<+T> = None | Some(value: T)

  /** The result of a browser call that may throw: the returned value, or the thrown exception. */
  datatype Result<+T> = Ok(value: T) | Threw

  /** Whether a statement sequence ran to its end or stopped at a thrown exception. */
  datatype Outcome = Completed | Aborted

  /**
   * The argument of a React state setter: either the next state itself, or an
   * updater that React applies to the previous state.
   */
  datatype SetStateAction<!T> = Value(next: T) | Updater(update: T -> T)

  /** The state React holds after a setter call with `action` on state `prev`. */
  function Apply<T>(action: SetStateAction<T>, prev: T): (next: T)
  {
    match action
    case Value(v) => v
    case Updater(f) => f(prev)
  }
}
