/** Failure-carrying values used across the model in place of Rust's
    `Option`, `Result` and `anyhow::Result<()>`. */
module Wrappers {

  datatype Option<+T> = None | Some(value: T)

  datatype Result<+T, +E> = Ok(value: T) | Err(error: E)

  /** The outcome of an operation that returns nothing on success. */
  datatype Outcome<+E> = Pass | Fail(error: E)
}

/** The fixed-width unsigned integers of the source, as bounded newtypes. */
module Ints {

  const U16_LIMIT: int := 0x1_0000
  const U32_LIMIT: int := 0x1_0000_0000
  const U64_LIMIT: int := 0x1_0000_0000_0000_0000

  newtype U16 = x: int | 0 <= x < U16_LIMIT
  newtype U32 = x: int | 0 <= x < U32_LIMIT
  newtype U64 = x: int | 0 <= x < U64_LIMIT
  /** `usize` on a 64-bit target. */
  newtype USize = x: int | 0 <= x < U64_LIMIT
}
