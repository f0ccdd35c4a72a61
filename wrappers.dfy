/** Option and Result, the failure-compatible wrappers used by every service model. */
module Wrappers {

  datatype Option<+T> = None | Some(value: T)

  /** A thrown `Error` of the source becomes `Failure`; a returned value becomes `Success`. */
  datatype Result<+R, +E> = Success(value: R) | Failure(error: E) {
    predicate IsFailure() { Failure? }

    function PropagateFailure<U>(): Result<U, E>
      requires Failure?
    {
      Failure(error)
    }

    function Extract(): R
      requires Success?
    {
      value
    }
  }
}
