/** Optional values and failure-carrying results shared by the other modules. */
module Wrappers {

  /** A value that may be absent: an optional TypeScript property or a `null` return. */
  datatype Option<+T> = None | Some(value: T)

  /** The outcome of an operation that can throw: its value, or the reason it threw. */
  datatype Result<+T, +E> = Success(value: T) | Failure(error: E)
}
