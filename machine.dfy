/** Machine-level value types shared by the board support code and the SPI test. */
module Machine {

  /** An unsigned 8-bit value (C `uint8_t`). */
  newtype byte = x: int | 0 <= x < 0x100

  /** Number of values of a C `uint32_t`. */
  const UINT32_MOD: int := 0x1_0000_0000

  /** Conversion of an integer to `uint32_t`: reduction modulo 2^32. */
  function Wrap32(x: int): (r: int)
    ensures 0 <= r < UINT32_MOD
    ensures (x - r) % UINT32_MOD == 0
    ensures 0 <= x < UINT32_MOD ==> r == x
  {
    x % UINT32_MOD
  }

  /** Conversion of an integer to `uint8_t`: reduction modulo 2^8. */
  function Wrap8(x: int): (r: byte)
    ensures (x - r as int) % 0x100 == 0
    ensures 0 <= x < 0x100 ==> r as int == x
  {
    (x % 0x100) as byte
  }
}
