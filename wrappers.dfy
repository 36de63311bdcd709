/** The success-or-error value that stands for Rust's `Result`/`anyhow::Result`. */
module Wrappers {

  datatype Result<+T, +E> = Ok(value: T) | Err(error: E)

  datatype Option<+T> = None | Some(value: T)

  /** An unsigned byte (`u8`). */
  newtype byte = x: int | 0 <= x < 256
}
