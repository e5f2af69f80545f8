/** Option, Result and Outcome values used for the source's optional fields and raised errors. */
module Wrappers {

  datatype Option<+T> = None | Some(value: T)

  /** A value, or the error the source would raise instead of returning it. */
  datatype Result<+T, +E> = Ok(value: T) | Err(error: E) {
    predicate IsFailure() { Err? }

    function PropagateFailure<U>(): Result<U, E>
      requires Err?
    {
      Err(error)
    }

    function Extract(): T
      requires Ok?
    {
      value
    }
  }

  /** The outcome of an operation whose only result is "no exception was raised". */
  datatype Outcome<+E> = Pass | Fail(error: E)
}
