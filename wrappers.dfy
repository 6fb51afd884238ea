/** Optional values and failure-carrying results, used wherever the source returns `undefined`
    or throws an `Error`. */
module Wrappers {

  datatype Option<+T> = None | Some(value: T)

  datatype Result<+T, +E> = Ok(value: T) | Err(error: E)
}
