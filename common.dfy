/** Small value types shared by every module of the model. */
module Common {

  /** An unsigned 8-bit value, as Rust's `u8`. */
  newtype byte = x: int | 0 <= x < 256

  /** Rust's `Option`. */
  datatype Option<T> = None | Some(value: T)

  /** Rust's `Result<T, ()>`: the error carries no information. */
  datatype Result<T> = Ok(value: T) | Err
}
