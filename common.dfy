/** Value wrappers shared by every module: Rust's Option and Result, and u64. */
module Common {

  datatype Option<+T> = None | Some(value: T)

  datatype Result<+T, +E> = Ok(value: T) | Err(error: E)

  /** Rust's `u64`: the width of the program hash. */
  newtype u64 = x: int | 0 <= x < 0x1_0000_0000_0000_0000

  /** `Option::unwrap_or`. */
  function UnwrapOr<T>(o: Option<T>, default: T): T
  {
    match o
    case Some(v) => v
    case None => default
  }
}
