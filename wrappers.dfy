/** Option and Result, for JavaScript's "absent or a value" and a promise that resolves or rejects. */
module Wrappers {

  datatype Option<T> = None | Some(value: T)

  /** How a promise settles: resolved with a value, or rejected with an error. */
  datatype Result<T, E> = Ok(value: T) | Err(error: E)
}
