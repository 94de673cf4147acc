/** Option and Result, the two failure-carrying shapes the model needs. */
module Wrappers {

  /** A value that may be absent: a missing dictionary key, a failed parse. */
  datatype Option<+T> = None | Some(value: T)

  /** The outcome of a step that either returns a value or raises. */
  datatype Result<+T, +E> = Ok(value: T) | Err(error: E)
}
