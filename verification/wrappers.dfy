/** Option and Result, the two failure-carrying shapes the server's code uses. */
module Wrappers {

  datatype Option<+T> = None | Some(value: T)

  /** A Result supports `:-`, standing for Rust's `?` operator. */
  datatype Result<+T, +E> = Ok(value: T) | Err(error: E) {

    predicate IsFailure() {
      Err?
    }

    function PropagateFailure<U>(): Result<U, E>
      requires Err?
    {
      Err(error)
    }

    function Extract(): T
      requires Ok?
    {
      value
    }
  }
}
