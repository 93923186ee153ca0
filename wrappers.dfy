/** Result types shared by the whole model. */
module Wrappers {

  /** A Java reference that may be null. */
  datatype Option<+T> = None | Some(value: T)

  /** A computation that either yields a value or throws an exception. */
  datatype Result<+T, +E> = Ok(value: T) | Err(error: E)

  /** A `void` Java method that either returns normally or throws. */
  datatype Outcome<+E> = Pass | Fail(error: E)
}
