/** Option and Result, the two outcomes the dispatcher distinguishes. */
module Wrappers {

  datatype Option<+T> = None | Some(value: T)

  /** `Err` is an unrecoverable failure (a Rust panic), never a "no match". */
  datatype Result<+T, +E> = Ok(value: T) | Err(error: E) {
    predicate IsFailure() {
      Err?
    }

    function PropagateFailure<U>(): Result<U, E>
      requires Err?
    {
      Err(error)
    }

    function Extract(): T
      requires Ok?
    {
      value
    }
  }
}
