/** Values that may be missing, and computations that may throw. */
module Results {

  datatype Option<+T> = None | Some(value: T)

  /** What a call that can throw leaves behind: its value, or nothing. */
  datatype Result<+T> = Threw | Ok(value: T) {
    predicate IsFailure() { Threw? }

    function PropagateFailure<U>(): Result<U>
      requires Threw?
    {
      Threw
    }

    function Extract(): T
      requires Ok?
    {
      value
    }
  }
}
