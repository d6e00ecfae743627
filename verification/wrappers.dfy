/** Failure-carrying values shared by the whole model. */
module Wrappers {

  /** A value that may be absent: a JavaScript `undefined` or `null` field. */
  datatype Option<+T> = None | Some(value: T)

  /** The outcome of a call that either yields a value or fails with an error. */
  datatype Result<+T, +E> = Ok(value: T) | Err(error: E)
}
