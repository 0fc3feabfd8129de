/** Failure-carrying values shared by the validation layer and the dispatcher.
    The source raises `ValueError(message)` for every failure; here a failure is
    a value carrying that message. */
module Results {

  datatype Option<+T> = None | Some(value: T)

  /** A computation that produced a value, or failed with the message the
      source would have put into its `ValueError`. */
  datatype Result<+T> = Ok(value: T) | Err(msg: string)

  /** A check that returns nothing on success (a Python function returning `None`). */
  datatype Outcome = Pass | Fail(msg: string)

  /** `needle` occurs verbatim somewhere inside `text`. */
  predicate Mentions(text: string, needle: string)
  {
    exists i :: 0 <= i <= |text| && needle <= text[i..]
  }
}
