/** Optional values and results with an error, used for the `undefined`
    fields of a label action and for the exceptions the resolver throws. */
module Wrappers {

  datatype Option<+T> = None | Some(value: T)

  datatype Result<+T, +E> = Ok(value: T) | Err(error: E)
}
