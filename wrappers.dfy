/** Optional values and results, used for Python's `None` and for the
    `ValueError` that a table miss raises. */
module Wrappers {

  datatype Option<+T> = None | Some(value: T)

  datatype Result<+T, +E> = Ok(value: T) | Err(error: E)
}
