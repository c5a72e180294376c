/** Optional values and results with an error, for the sampler's defaults and its exceptions. */
module Wrappers {

  /** A value that may be absent, as Python's `None` default arguments. */
  datatype Option<+T> = None | Some(value: T)

  /** Either the value an operation returns or the exception it raises. */
  datatype Result<+T, +E> = Success(value: T) | Failure(error: E)
}
