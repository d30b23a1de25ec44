/** Optional values and success/failure results shared by every module. */
module Wrappers {

  datatype Option<+T> = None | Some(value: T)

  /** The outcome of an operation that can throw: a value, or the message of the error thrown. */
  datatype Result<+T> = Success(value: T) | Failure(error: string)
}
