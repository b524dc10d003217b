/** Optional values and success/error results shared by the other modules. */
module Wrappers {

  /** A value that may be absent (a field left `undefined` or stored as `null`). */
  datatype Option<+T> = None | Some(value: T)

  /** The outcome of an operation that either produces a value or fails. */
  datatype Result<+T, +E> = Ok(value: T) | Err(error: E)
}
