/** Fixed-width integers of the AVR controller and bit tests on 8-bit port values. */
module Bytes {

  /** `uint8_t` */
  type UInt8 = x: int | 0 <= x < 0x100

  /** `int8_t` */
  type Int8 = x: int | -0x80 <= x < 0x80

  /** `uint16_t` */
  type UInt16 = x: int | 0 <= x < 0x1_0000

  /** A bit number inside an 8-bit I/O register (PC0 .. PC7, PB0 .. PB7). */
  type Pin = i: nat | i < 8

  /** `reg & (1 << pin)` is non-zero. */
  predicate Bit(reg: bv8, pin: Pin) {
    reg & (1 << pin) != 0
  }

  /** The two's-complement byte of a signed 8-bit value, i.e. what C's `&` sees of an `int8_t`. */
  function LowByte(x: Int8): (b: UInt8)
    ensures x >= 0 ==> b == x
    ensures x < 0 ==> b == x + 0x100
  {
    x % 0x100
  }

  /** `b & 0b01` is non-zero. */
  predicate Bit0(b: UInt8) {
    b % 2 == 1
  }

  /** `b & 0b10` is non-zero. */
  predicate Bit1(b: UInt8) {
    b / 2 % 2 == 1
  }
}
