/**
 * Shared constants and integer types of the transmitter (inc/defs.h),
 * together with the C integer widths the code relies on.
 */
module Defs {

  /** C `uint8_t`: every assignment into one is taken modulo 256. */
  newtype uint8 = x: int | 0 <= x < 0x100

  /** C `uint32_t`, the width of `canid_t`. */
  newtype uint32 = x: int | 0 <= x < 0x1_0000_0000

  /** Nanoseconds per millisecond (the macro's name reads backwards). */
  const NS_TO_MS: int := 1_000_000
  /** Status codes returned by every operation of the core. */
  const SUCCESS: uint8 := 0
  const FAILURE: uint8 := 1

  /** The one interface the transmitter binds to. */
  const IF_VCAN0: string := "vcan0"

  /** Conversion of any integer to `uint8_t` (C keeps the value modulo 256). */
  function Truncate8(n: int): (r: uint8)
    ensures (r as int - n) % 0x100 == 0
    ensures 0 <= n < 0x100 ==> r as int == n
  {
    (n % 0x100) as uint8
  }
}
