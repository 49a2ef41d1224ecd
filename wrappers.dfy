/** Optional values and error-carrying results shared by the modules of the model. */
module Wrappers {

  /** A value that may be missing: Python's `None`, or pandas' NaN for a moving
      average whose window is not yet full. */
  datatype Option<+T> = None | Some(value: T)

  /** The outcome of an operation that may raise. */
  datatype Result<+T, +E> = Success(value: T) | Failure(error: E)
}
