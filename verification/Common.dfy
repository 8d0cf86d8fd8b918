/** Values shared by every part of the model. */
module Common {

  /** The conventional optional value, used for nullable and absent fields. */
  datatype Option<+T> = None | Some(value: T)

  /** A computation that either yields a value or fails. */
  datatype Result<+T, +E> = Ok(value: T) | Err(error: E)

  /** One octet of a wire format. */
  type Byte = x: int | 0 <= x < 256
}
