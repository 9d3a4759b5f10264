/** Optional values and error-carrying results, used for Python's `None`
    and for the exceptions that abort a parse. */
module Wrappers {

  datatype Option<+T> = None | Some(value: T)

  datatype Result<+T, +E> = Ok(value: T) | Err(error: E)
}
