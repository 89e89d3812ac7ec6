/** Option and Result wrappers shared by every stage of the interpreter. */
module Results {

  datatype Option<+T> = None | Some(value: T)

  /** A value or an error; failure-compatible, so `:-` propagates the error. */
  datatype Result<+T, +E> = Ok(value: T) | Err(error: E) {

    predicate IsFailure() {
      Err?
    }

    function PropagateFailure<U>(): Result<U, E>
      requires Err?
    {
      Err(error)
    }

    function Extract(): T
      requires Ok?
    {
      value
    }
  }
}
