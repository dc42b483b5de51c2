/** Optional values, and results that carry an error. */
module Wrappers {
  datatype Option<+T> = None | Some(value: T)

  datatype Result<+T, +E> = Ok(value: T) | Err(error: E)

  /** The result of an operation that returns nothing. */
  datatype Outcome<+E> = Done | Failed(error: E)
}
