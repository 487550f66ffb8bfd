/** Optional and fallible values shared by the whole model. */
module Wrappers {

  /** A Go reference that may be nil, or a value that may be absent. */
  datatype Option<+T> = None | Some(value: T)

  /** The outcome of a call that can fail with a message. */
  datatype Result<+R> = Success(value: R) | Failure(error: string)
}
