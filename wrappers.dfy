/** Optional values and results, standing for the Maybe type and for thrown exceptions. */
module Wrappers {

  /** IMaybe: Just(value) is Some(value), Nothing is None. */
  datatype Option<+T> = None | Some(value: T)

  /** The outcome of a step that may throw: Failure carries what was thrown. */
  datatype Result<+T, +E> = Success(value: T) | Failure(error: E) {

    predicate IsFailure() {
      Failure?
    }

    function PropagateFailure<U>(): Result<U, E>
      requires Failure?
    {
      Failure(error)
    }

    function Extract(): T
      requires Success?
    {
      value
    }
  }
}
