/** Option and Result, the two failure-carrying shapes the model uses. */
module Wrappers {

  /** A value that may be absent: JavaScript's `undefined`/`null` is `None`. */
  datatype Option<+T> = None | Some(value: T)

  /** The outcome of an operation that either yields a value or fails with a message. */
  datatype Result<+T, +E> = Ok(value: T) | Err(error: E)
}
