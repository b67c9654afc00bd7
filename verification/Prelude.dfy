/** The two result shapes used everywhere: a value that may be absent, and a value or an error. */
module Prelude {
  datatype Option<+T> = None | Some(value: T)

  datatype Result<+T, +E> = Ok(value: T) | Err(error: E)
}
