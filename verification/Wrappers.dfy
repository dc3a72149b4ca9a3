/** Option and Result, and the integer widths the client's checked arithmetic works in. */
module Wrappers {
  datatype Option<+T> = None | Some(value: T)

  datatype Result<+T, +E> = Ok(value: T) | Err(error: E)

  const U32_MAX: nat := 0xFFFF_FFFF
  const U64_MAX: nat := 0xFFFF_FFFF_FFFF_FFFF
  const U128_MAX: nat := 0xFFFF_FFFF_FFFF_FFFF_FFFF_FFFF_FFFF_FFFF

  type u64 = n: nat | n <= U64_MAX

  type u128 = n: nat | n <= U128_MAX

  type byte = x: int | 0 <= x < 256
}
