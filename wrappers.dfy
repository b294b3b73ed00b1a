/** Optional values (JavaScript's `undefined`) and results of operations that may throw. */
module Wrappers {

  /** `None` stands for an absent (`undefined` or `null`) value. */
  datatype Option<+T> = None | Some(value: T)

  /** `Failure` stands for an exception thrown by the client. */
  datatype Result<+R, +E> = Success(value: R) | Failure(error: E)
}
