/** Failure-compatible result and option types shared by the other modules. */
module Wrappers {

  /** An optional value, used where Python would return None. */
  datatype Option<+T> = None | Some(value: T)

  /** The outcome of a Python expression: its value, or the exception it raises. */
  datatype Result<+T, +E> = Success(value: T) | Failure(error: E) {

    predicate IsFailure() {
      Failure?
    }

    function PropagateFailure<U>(): Result<U, E>
      requires Failure?
    {
      Failure(error)
    }

    function Extract(): T
      requires Success?
    {
      value
    }
  }
}
