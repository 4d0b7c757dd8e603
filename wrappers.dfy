/** Optional values and success/failure results shared by the other modules. */
module Wrappers {

  datatype Option<+T> = None | Some(value: T)

  /** The outcome of a request: the new value, or the validation error the view reports. */
  datatype Result<+T, +E> = Success(value: T) | Failure(error: E)
}
