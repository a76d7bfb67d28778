/** Failure-compatible datatypes shared by the model. */
module Wrappers {

  /** A value that may be absent: a JavaScript `undefined`/`null` is `None`. */
  datatype Option<+T> = None | Some(value: T)

  /** Either a value or the error the source would throw instead. */
  datatype Result<+R, +E> = Success(value: R) | Failure(error: E) {

    predicate IsFailure() {
      Failure?
    }

    function PropagateFailure<U>(): Result<U, E>
      requires Failure?
    {
      Failure(error)
    }

    function Extract(): R
      requires Success?
    {
      value
    }
  }
}
