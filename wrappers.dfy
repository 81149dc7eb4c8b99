/** Optional values and remote-call results shared by every module of the model. */
module Wrappers {

  datatype Option<+T> = None | Some(value: T)

  /** The outcome of a call into the remote data store: a value, or the error it reported. */
  datatype Result<+T, +E> = Success(value: T) | Failure(error: E)
}
