// Option and Result: Go's nil values (a nil slice, a nil *Version) and (value, error) pairs.
module Wrappers {

  /** `None` stands for a nil slice or a nil *Version. */
  datatype Option<+T> = None | Some(value: T)

  /** A Go `(value, error)` return: exactly one of the two is meaningful. */
  datatype Result<+T, +E> = Ok(value: T) | Err(error: E)
}
