/** Optional values and results with an error, as used throughout the model. */
module Wrappers {
  datatype Option<T> = None | Some(value: T)

  /** A value or an error. `:-` propagates the error. */
  datatype Result<T, E> = Ok(value: T) | Err(error: E) {
    predicate IsFailure() {
      Err?
    }

    function PropagateFailure<U>(): Result<U, E>
      requires Err?
    {
      Err(error)
    }

    function Extract(): T
      requires Ok?
    {
      value
    }
  }
}
