/** Optional values and results with an error, as used throughout the model. */
module Wrappers {

  /** A value that may be missing: a JavaScript `undefined` is `None`. */
  datatype Option<+T> = None | Some(value: T)

  /** The outcome of an entry point: a value, or the error handed to `done`. */
  datatype Result<+T, +E> = Success(value: T) | Failure(error: E)
}
