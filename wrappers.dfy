/** Option and Result: the model's stand-ins for Java's null and for thrown exceptions. */
module Wrappers {

  datatype Option<+T> = None | Some(value: T)

  /** The result of a check that either passes or fails with an error. */
  datatype Outcome<+E> = Pass | Fail(error: E)

  datatype Result<+T, +E> = Ok(value: T) | Err(error: E) {

    predicate IsFailure() {
      Err?
    }

    function PropagateFailure<U>(): Result<U, E>
      requires Err?
    {
      Err(error)
    }

    function Extract(): T
      requires Ok?
    {
      value
    }
  }
}
