/** Optional values and fallible outcomes, as the panel receives them. */
module Wrappers {

  /** Swift's `T?`: nothing stored yet, or a value. */
  datatype Option<+T> = None | Some(value: T)

  /** The outcome of a deferred backend call: a value, or a failure with its description. */
  datatype Result<+T> = Success(value: T) | Failure(description: string)
}
