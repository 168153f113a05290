/** Failure-carrying values shared by every module of the model. */
module Wrappers {

  /** A value that may be absent (JavaScript `undefined` / `null`). */
  datatype Option<+T> = None | Some(value: T)

  /**
   * The outcome of a call that either returns (or resolves) with a value,
   * or throws (or rejects) with an error.
   */
  datatype Result<+T, +E> = Ok(value: T) | Err(error: E)
}
