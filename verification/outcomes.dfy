/** Failure-compatible wrappers used throughout the model: an optional value and a
    result that is either a value or an error. Both work with Dafny's `:-` operator. */
module Outcomes {

  /** A value that may be absent (a JSON field the API did not send). */
  datatype Option<+T> = None | Some(value: T)

  /** The outcome of an operation that can fail with an error of type `E`. */
  datatype Result<+T, +E> = Success(value: T) | Failure(error: E) {

    predicate IsFailure() {
      Failure?
    }

    function PropagateFailure<U>(): Result<U, E>
      requires Failure?
    {
      Failure(error)
    }

    function Extract(): T
      requires Success?
    {
      value
    }
  }
}
