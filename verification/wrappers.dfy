/** Option and Result, the two failure-compatible wrappers the rest of the model uses. */
module Wrappers {

  /** A value that may be absent: Python's `None` or a `dict` lookup that raises `KeyError`. */
  datatype Option<+T> = None | Some(value: T) {
    predicate IsFailure() { None? }

    function PropagateFailure<U>(): Option<U>
      requires None?
    {
      None
    }

    function Extract(): T
      requires Some?
    {
      value
    }
  }

  /** A computation that either succeeds or stops with an error message. */
  datatype Result<+R> = Success(value: R) | Failure(error: string) {
    predicate IsFailure() { Failure? }

    function PropagateFailure<U>(): Result<U>
      requires Failure?
    {
      Failure(error)
    }

    function Extract(): R
      requires Success?
    {
      value
    }
  }
}
