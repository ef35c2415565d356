/** Optional values and results with an error, used for the engine's
    optional error probe and for the exceptions that escape `perform`. */
module Wrappers {

  datatype Option<+T> = None | Some(value: T)

  datatype Result<+R, +E> = Ok(value: R) | Err(error: E)
}
