/** Small shared types: an optional value and the byte. */
module Wrappers {

  datatype Option<T> = None | Some(value: T)

  /** A value, or the text of the exception that was thrown instead. */
  datatype Result<T> = Ok(value: T) | Err(failure: string)

  /** An octet, as Node's Buffer holds it. */
  type Byte = x: int | 0 <= x < 256
}
