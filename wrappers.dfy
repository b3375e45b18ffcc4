/** Optional values and fallible results, for JavaScript's `undefined` and thrown exceptions. */
module Wrappers {

  /** A value that may be absent (`undefined` or `null` in the source). */
  datatype Option<+T> = None | Some(value: T)

  /** The outcome of an operation that may throw; `Err` carries the message. */
  datatype Result<+T> = Ok(value: T) | Err(message: string)
}
