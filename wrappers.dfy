/** Optional values and results with an error, used wherever the JavaScript
    code relies on `undefined`, a `||` fallback or an error response. */
module Wrappers {

  datatype Option<+T> = None | Some(value: T)

  datatype Result<+T, +E> = Ok(value: T) | Err(error: E)
}
