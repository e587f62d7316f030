/** Fixed-width integer types of the AVR C code and the conversions between them. */
module CTypes {

  /** An unsigned byte (`uint8_t`, and `char` as stored in a buffer). */
  type uint8 = x: int | 0 <= x < 0x100

  const UINT32_MODULUS: int := 0x1_0000_0000

  /** An unsigned 32-bit integer (`uint32_t`). */
  type uint32 = x: int | 0 <= x < 0x1_0000_0000

  /** A signed 32-bit integer (`int32_t`). */
  type int32 = x: int | -0x8000_0000 <= x < 0x8000_0000

  datatype Option<T> = None | Some(value: T)

  /** The conversion `int32_t x = (uint32_t) u`: avr-gcc keeps the bit
      pattern, so values from 2^31 upwards become negative. */
  function ToInt32(u: uint32): (r: int32)
    ensures r % UINT32_MODULUS == u
    ensures r >= 0 <==> u < 0x8000_0000
  {
    if u < 0x8000_0000 then u else u - UINT32_MODULUS
  }
}
