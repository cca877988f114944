/** The two result shapes shared by every component. */
module Prelude {

  /** An optional value: Go's nil pointer is None. */
  datatype Option<+T> = None | Some(value: T)

  /** A value or the error that replaced it. */
  datatype Result<+T, +E> = Ok(value: T) | Err(error: E)
}
