/** Optional values and error returns shared by every model. */
module Wrappers {

  datatype Option<+T> = None | Some(value: T)

  /** A value, or the error the source throws instead. */
  datatype Result<+T, +E> = Success(value: T) | Failure(error: E) {
    predicate IsFailure() {
      Failure?
    }

    function PropagateFailure<U>(): Result<U, E>
      requires Failure?
    {
      Failure(error)
    }

    function Extract(): T
      requires Success?
    {
      value
    }
  }
}
