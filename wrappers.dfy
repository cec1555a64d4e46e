/** Option and outcome types shared by the MRAID controller model. */
module Wrappers {

  /** A value that may be absent: a Java reference that may be null. */
  datatype Option<+T> = None | Some(value: T)

  /** A value or the error that a command reports instead of it. */
  datatype Result<+T, +E> = Success(value: T) | Failure(error: E)

  /** Whether a command returned normally or reported an error. */
  datatype Outcome<+E> = Pass | Fail(error: E)
}
