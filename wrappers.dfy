/** Failure-carrying result types shared by the whole model. */
module Wrappers {

  /** A value that may be absent: JavaScript's `null` / `undefined` where the source uses them. */
  datatype Option<+T> = None | Some(value: T)

  /** The outcome of an operation that can reject its promise. */
  datatype Result<+T, +E> = Ok(value: T) | Err(error: E)
}
