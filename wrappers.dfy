/** Small failure-carrying wrappers shared by the other modules. */
module Wrappers {

  /** An optional value; models Python's `T | None`. */
  datatype Option<+T> = None | Some(value: T)

  /** Either a value or an error; models a handler that returns or raises. */
  datatype Result<+R, +E> = Ok(value: R) | Err(error: E)
}
