/** The C integer types the game's state is stored in, and the conversions
    that C performs when a wider intermediate value is stored back. */
module MachineInts {

  /** `int16_t`: the paddle positions. */
  type Int16 = x: int | -0x8000 <= x < 0x8000

  /** `uint8_t`: the two score counters. */
  type Uint8 = x: int | 0 <= x < 0x100

  /** Storing an `int` into an `int16_t` (as `pos += 2` does after integer
      promotion): the value is reduced modulo 2^16 into the signed range.
      C leaves an out-of-range conversion implementation-defined; this is
      the two's-complement reduction. On screen it is never reached (see
      `PlayerStepKeepsOnScreen` and `AiStepDirection`). */
  function Wrap16(x: int): (r: Int16)
    ensures (x - r) % 0x1_0000 == 0
    ensures -0x8000 <= x < 0x8000 ==> r == x
    ensures x == 0x8000 ==> r == -0x8000
  {
    var k := (x + 0x8000) / 0x1_0000;
    assert x - ((x + 0x8000) % 0x1_0000 - 0x8000) == k * 0x1_0000;
    (x + 0x8000) % 0x1_0000 - 0x8000
  }

  /** `++counter` on a `uint8_t`: the promoted sum is reduced modulo 256,
      so 255 becomes 0. */
  function Inc8(x: Uint8): (r: Uint8)
    ensures x < 0xFF ==> r == x + 1
    ensures x == 0xFF ==> r == 0
    ensures r != x
  {
    (x + 1) % 0x100
  }
}
