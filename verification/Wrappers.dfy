/** Optional values and error returns shared by all modules. */
module Wrappers {

  datatype Option<+T> = None | Some(value: T)

  /** A Python function that either returns or raises; the error carries the kind of exception. */
  datatype Result<+T, +E> = Success(value: T) | Failure(error: E)
}
