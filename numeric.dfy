/** The fixed-width integer types of the Rust and C code, as subsets of int. */
module Numeric {

  newtype u8 = x: int | 0 <= x < 0x100

  newtype i16 = x: int | -0x8000 <= x < 0x8000

  newtype u32 = x: int | 0 <= x < 0x1_0000_0000

  const I16_MIN: int := -0x8000
  const I16_MAX: int := 0x7fff
  const U64_MAX: int := 0xffff_ffff_ffff_ffff
}
