/** Option and Result, the failure-compatible wrappers used by every codec. */
module Outcomes {

  datatype Option<+T> = None | Some(value: T)

  /** Success carries a value, Failure the error the Python code would raise. */
  datatype Result<+T, +E> = Success(value: T) | Failure(error: E) {

    predicate IsFailure() {
      Failure?
    }

    function PropagateFailure<U>(): Result<U, E>
      requires Failure?
    {
      Failure(error)
    }

    function Extract(): T
      requires Success?
    {
      value
    }
  }
}
