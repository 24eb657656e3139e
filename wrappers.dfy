/** Optional values and results with an error, used for Python's `None` and for raised exceptions. */
module Wrappers {

  /** A value that may be missing: `None` stands for Python's `None`. */
  datatype Option<+T> = None | Some(value: T)

  /** The outcome of an operation that either returns a value or raises an error. */
  datatype Result<+R, +E> = Success(value: R) | Failure(error: E)
}
