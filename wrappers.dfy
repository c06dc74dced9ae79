/** Optional values and error-carrying results shared by every module. */
module Wrappers {

  datatype Option<T> = None | Some(value: T)

  /** A computation that either yields a value or fails with a message. */
  datatype Result<T> = Ok(value: T) | Err(error: string)
}
