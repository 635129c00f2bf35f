/** Optional values and the outcome of a call that may throw. */
module Wrappers {

  /** A value that may be absent; stands for C#'s `null` and for `(bool, out T)` pairs. */
  datatype Option<+T> = None | Some(value: T)

  /** The outcome of a call that either returns a value or throws an exception. */
  datatype Result<+T> = Ok(value: T) | Exception
}
