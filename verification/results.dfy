/** Failure-compatible wrappers. Python raises `IndexError` when a negative
    index reaches past the start of a list; the model returns that error as a
    value instead. */
module Results {

  datatype Option<+T> = None | Some(value: T)

  /** Either a computed value or the `IndexError` Python would raise, with the
      offending index and the length of the list it was applied to. */
  datatype Result<+T> = Ok(value: T) | IndexError(index: int, length: nat) {

    predicate IsFailure() {
      IndexError?
    }

    function PropagateFailure<U>(): Result<U>
      requires IndexError?
    {
      IndexError(index, length)
    }

    function Extract(): T
      requires Ok?
    {
      value
    }
  }
}
