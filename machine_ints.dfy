/** The fixed-width integer types of the firmware, as ranges of `int`. */
module MachineInts {

  const U8_LIMIT: int := 0x100
  const U16_LIMIT: int := 0x1_0000
  const U32_LIMIT: int := 0x1_0000_0000

  type U8 = x: int | 0 <= x < U8_LIMIT
  type U16 = x: int | 0 <= x < U16_LIMIT
  type U32 = x: int | 0 <= x < U32_LIMIT
  type I16 = x: int | -0x8000 <= x < 0x8000

  /** The 16-bit value of a little-endian byte pair. */
  function Word16(lo: U8, hi: U8): (r: U16)
    ensures r % 256 == lo && r / 256 == hi
  {
    lo as int + 256 * (hi as int)
  }

  /** Two's-complement bit pattern of an `i16`, read as a `u16`. */
  function I16Bits(x: I16): (r: U16)
    ensures r == x % U16_LIMIT
  {
    if x >= 0 then x else x + U16_LIMIT
  }

  /** The `i16` whose two's-complement bit pattern is `b`. */
  function I16OfBits(b: U16): (r: I16)
    ensures I16Bits(r) == b
  {
    if b < 0x8000 then b else b - U16_LIMIT
  }

  lemma I16BitsInjective(x: I16)
    ensures I16OfBits(I16Bits(x)) == x
  {
  }
}
