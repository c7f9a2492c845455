/** Value types shared by every module: bytes and the Option/Result wrappers. */
module Common {
  /** Rust's `u8`. */
  newtype byte = x: int | 0 <= x < 256

  datatype Option<T> = None | Some(value: T)

  datatype Result<T, E> = Ok(value: T) | Err(error: E)

  /** `Option::unwrap_or`: the value if there is one, otherwise the default. */
  function UnwrapOr<T>(o: Option<T>, default: T): (v: T)
    ensures o.Some? ==> v == o.value
    ensures o.None? ==> v == default
  {
    if o.Some? then o.value else default
  }
}
