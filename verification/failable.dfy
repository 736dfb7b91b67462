/** Failure-compatible wrappers used by the parsing layer: an optional value and a result that
    carries either a value or the error the Python code would raise. Both work with `:-`. */
module Failable {

  /** A value that may be absent, like a Python argument that may be `None`. */
  datatype Option<+T> = None | Some(value: T)

  /** Either a computed value or the error that interrupts the computation. */
  datatype Result<+T, +E> = Ok(value: T) | Err(error: E) {

    predicate IsFailure() {
      Err?
    }

    function PropagateFailure<U>(): Result<U, E>
      requires Err?
    {
      Err(error)
    }

    function Extract(): T
      requires Ok?
    {
      value
    }
  }
}
