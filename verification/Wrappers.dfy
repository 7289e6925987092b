/** The two result shapes the Go code spells as a nil pointer and as a (value, error) pair. */
module Wrappers {

  datatype Option<+T> = None | Some(value: T)

  datatype Result<+T, +E> = Ok(value: T) | Err(error: E)
}
