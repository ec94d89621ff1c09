/** Optional values and success-or-failure results, shared by the other modules. */
module Wrappers {

  /** A value that may be absent: `null` in the source. */
  datatype Option<+T> = None | Some(value: T)

  /** The outcome of an operation that can be refused with a reason. */
  datatype Result<+T, +E> = Ok(value: T) | Err(error: E)
}
