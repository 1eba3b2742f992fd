/** Failure-compatible Option and Result types used throughout the model. */
module Wrappers {

  /** A value that may be absent, as Python's `None` or a missing dictionary entry. */
  datatype Option<+T> = None | Some(value: T)

  /** The outcome of an operation that either yields a value or fails with an error,
      where the source raises an exception or reports an error key. */
  datatype Result<+T, +E> = Ok(value: T) | Err(error: E) {

    predicate IsFailure() {
      Err?
    }

    function PropagateFailure<U>(): Result<U, E>
      requires Err?
    {
      Err(error)
    }

    function Extract(): T
      requires Ok?
    {
      value
    }
  }
}
