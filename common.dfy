/** Vocabulary shared by every module: optional values, fallible results, identifiers. */
module Common {

  /** Rust's `Option<T>`. */
  datatype Option<+T> = None | Some(value: T)

  /** Rust's `anyhow::Result<T>`. Where the source panics instead of returning an
      error, the model says so at the member and uses `Err` as well. */
  datatype Result<+T> = Ok(value: T) | Err(error: string)

  /** A `uuid::Uuid`, as the 128-bit number it wraps. */
  type Uuid = nat

  /** `Uuid::default()`, the nil UUID. */
  const NilUuid: Uuid := 0

  function Min(a: int, b: int): int { if a <= b then a else b }
}
