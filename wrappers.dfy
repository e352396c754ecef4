/** Optional values and failure-carrying results, as used by the request model. */
module Wrappers {

  /** A value that may be absent: Swift's `String?` becomes `Option<string>`. */
  datatype Option<+T> = None | Some(value: T)

  /** The outcome of an operation that either yields a value or fails with an error. */
  datatype Result<+R, +E> = Success(value: R) | Failure(error: E)
}
