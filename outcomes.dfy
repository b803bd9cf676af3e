/** Failure-carrying values used in place of the exceptions the C# code throws. */
module Outcomes {

  datatype Option<+T> = None | Some(value: T)

  /** The value of an operation that either returns normally or throws. */
  datatype Result<+T, +E> = Ok(value: T) | Err(error: E)

  /** The end of a `void` operation: it returns normally or throws. */
  datatype Outcome<+E> = Pass | Fail(error: E)
}
