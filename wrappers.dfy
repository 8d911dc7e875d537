/** The two failure-carrying datatypes the rest of the model uses. */
module Wrappers {

  /** A value that may be absent: JavaScript's `null`/`undefined` next to a real value. */
  datatype Option<+T> = None | Some(value: T)

  /** The settled outcome of a promise: a resolved value or a rejection. */
  datatype Result<+T, +E> = Ok(value: T) | Err(error: E)
}
