/** Failure-compatible wrappers shared by the modules of this model. */
module Common {

  datatype Option<+T> = None | Some(value: T)

  /** The outcome of an operation that can raise: Ok carries the value, Err the error raised. */
  datatype Result<+T, +E> = Ok(value: T) | Err(error: E) {
    predicate IsFailure() { Err? }

    function PropagateFailure<U>(): Result<U, E>
      requires Err?
    {
      Err(error)
    }

    function Extract(): T
      requires Ok?
    {
      value
    }
  }

  function Min(a: int, b: int): int { if a <= b then a else b }
}
