/** Option and Result: the Go code's `*T` pointers and `(value, error)` returns. */
module Wrappers {

  /** A value that may be absent (a nil pointer in the Go code). */
  datatype Option<+T> = None | Some(value: T)

  /** A successful value or an error, with the `:-` failure protocol. */
  datatype Result<+R, +E> = Success(value: R) | Failure(error: E) {

    predicate IsFailure() {
      Failure?
    }

    function PropagateFailure<U>(): Result<U, E>
      requires Failure?
    {
      Failure(error)
    }

    function Extract(): R
      requires Success?
    {
      value
    }
  }
}
