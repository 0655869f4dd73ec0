/** Optional values and results shared by every module of the model. */
module Wrappers {

  /** An optional value: a TypedDict key that may be absent. */
  datatype Option<+T> = None | Some(value: T)

  /** The outcome of an operation that can raise. */
  datatype Result<+R, +E> = Success(value: R) | Failure(error: E)
}
