/** Optional values and results with an error, used for the loosely typed
    fields of a user record and for the method's thrown errors. */
module Wrappers {
  datatype Option<+T> = None | Some(value: T)

  datatype Result<+T, +E> = Ok(value: T) | Err(error: E)
}
