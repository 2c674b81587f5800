/** Failure-compatible wrappers shared by every module of the model. */
module Wrappers {

  /** A value that may be absent; `None` plays the part of a Java `null`. */
  datatype Option<+T> = None | Some(value: T)

  /** The outcome of a Java call that either returns a value or throws. */
  datatype Result<+T, +E> = Ok(value: T) | Err(error: E)

  /** The outcome of a Java call that returns nothing or throws. */
  datatype Outcome<+E> = Pass | Fail(error: E)

  /** A Java `String` reference: `None` is `null`. */
  type Str = Option<string>
}
