/** Machine integer ranges and the failure-carrying wrappers used across the model. */
module Types {

  const U32_MAX: nat := 0xFFFF_FFFF
  const U64_MAX: nat := 0xFFFF_FFFF_FFFF_FFFF

  /** Rust's `u32`. */
  type u32 = x: nat | x <= 0xFFFF_FFFF

  /** Rust's `u64`. */
  type u64 = x: nat | x <= 0xFFFF_FFFF_FFFF_FFFF

  /** Rust's `Option`: `unwrap_or` is `GetOr`. */
  datatype Option<+T> = None | Some(value: T) {
    function GetOr(default: T): T {
      match this
      case Some(v) => v
      case None => default
    }
  }

  /** The outcome of a call that either returns or panics with a reason. */
  datatype Result<+T, +E> = Ok(value: T) | Err(error: E)
}
