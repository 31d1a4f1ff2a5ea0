/** Optional values and results shared by the route and page modules. */
module Wrappers {

  datatype Option<+T> = None | Some(value: T)

  /** The outcome of an operation that may throw: the value, or the thrown error's message. */
  datatype Result<+R> = Success(value: R) | Failure(error: string)
}
