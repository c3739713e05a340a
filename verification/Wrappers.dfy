/** An optional value, and a value or an error. */
module Wrappers {

  datatype Option<+T> = None | Some(value: T)

  datatype Result<+T, +R> = Ok(value: T) | Err(error: R) {
    predicate IsFailure() {
      Err?
    }

    function PropagateFailure<U>(): Result<U, R>
      requires Err?
    {
      Err(error)
    }

    function Extract(): T
      requires Ok?
    {
      value
    }
  }
}
