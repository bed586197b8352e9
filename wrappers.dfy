/** Optional values and error-or-value results, standing in for JavaScript's
    `null`/`undefined` and for the `{ success: false, error }` objects the
    handlers return. */
module Wrappers {

  datatype Option<+T> = None | Some(value: T)

  datatype Result<+T, +E> = Ok(value: T) | Err(error: E)
}
