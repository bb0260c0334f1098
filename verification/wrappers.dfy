/** Failure-compatible wrappers used throughout the model: an optional value
    (Go's nil-able error and nil-able hasher) and a result that carries the
    message of a construction-time panic. */
module Wrappers {

  datatype Option<+T> = None | Some(value: T)

  datatype Result<+R> = Success(value: R) | Failure(error: string) {

    predicate IsFailure() {
      Failure?
    }

    function PropagateFailure<U>(): Result<U>
      requires Failure?
    {
      Failure(error)
    }

    function Extract(): R
      requires Success?
    {
      value
    }
  }

  /** Outcome of a check that can only pass or fail with a message. */
  datatype Outcome = Pass | Fail(error: string) {

    predicate IsFailure() {
      Fail?
    }

    function PropagateFailure<U>(): Result<U>
      requires Fail?
    {
      Failure(error)
    }
  }
}
