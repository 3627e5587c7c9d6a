/** Failure-compatible results shared by the models. */
module Results {

  datatype Option<+T> = None | Some(value: T)

  /** `Err(code)` stands for an exception that carries a stable reason code. */
  datatype Result<+T, +E> = Ok(value: T) | Err(code: E) {
    predicate IsFailure() { Err? }

    function PropagateFailure<U>(): Result<U, E>
      requires Err?
    {
      Err(code)
    }

    function Extract(): T
      requires Ok?
    {
      value
    }
  }
}
