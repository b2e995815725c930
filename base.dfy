/** Small wrapper types shared by every module of the model. */
module Base {

  /** A value that may be missing: a nil reference, an absent map entry, a failed lookup. */
  datatype Option<+T> = None | Some(value: T)

  /** The outcome of an operation that returns a value or a Go `error`. */
  datatype Result<+T, +E> = Ok(value: T) | Err(error: E)

  /** One octet of a request body or of an uploaded file. */
  newtype byte = x: int | 0 <= x < 256
}
