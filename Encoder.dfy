/** Quadrature decoding of one rotary encoder (`enc_read`, `enc_process`). */
module Encoder {
  import opened Bytes

  /** Largest target level: 10 detents of 4 quadrature states each. */
  const ENC_MAX: UInt8 := 10 * 4

  /**
   * Samples one encoder from an input port: the result is a 2-bit Gray code whose bit 1 is
   * phase A and whose bit 0 is phase A xor phase B.
   */
  function EncRead(port: bv8, phaseA: Pin, phaseB: Pin): (val: Int8)
    ensures 0 <= val <= 3
  {
    var v: bv8 := if Bit(port, phaseA) then 0x3 else 0x0;
    var w: bv8 := if Bit(port, phaseB) then v ^ 0x1 else v;
    w as int
  }

  /** The sample's bit 1 is phase A and its bit 0 is phase A xor phase B. */
  lemma EncReadGray(port: bv8, phaseA: Pin, phaseB: Pin)
    ensures (EncRead(port, phaseA, phaseB) / 2 == 1) == Bit(port, phaseA)
    ensures (EncRead(port, phaseA, phaseB) % 2 == 1) == (Bit(port, phaseA) != Bit(port, phaseB))
  {
  }

  /**
   * Applies the move encoded in `diff` (previous sample minus current sample) to a target level:
   * bit 0 of the two's-complement byte says a move happened, bit 1 that it goes down.
   */
  function EncProcess(curr: UInt8, diff: Int8): (r: UInt8)
    ensures curr <= ENC_MAX ==> r <= ENC_MAX && -1 <= r - curr <= 1
    ensures !Bit0(LowByte(diff)) ==> r == curr
    ensures Bit0(LowByte(diff)) && Bit1(LowByte(diff)) ==>
      r <= curr && (r == curr <==> curr == 0)
    ensures Bit0(LowByte(diff)) && !Bit1(LowByte(diff)) ==>
      if curr <= ENC_MAX then r >= curr && (r == curr <==> curr == ENC_MAX) else r == ENC_MAX
  {
    var d := LowByte(diff);
    if Bit0(d) then
      if Bit1(d) then
        (if curr > 0 then curr - 1 else 0)
      else
        (if curr < ENC_MAX then curr + 1 else ENC_MAX)
    else
      curr
  }

  /** Reference for a single clamped step: the level kept inside `[0, ENC_MAX]`. */
  function Clamp(x: int): (r: UInt8)
    ensures 0 <= r <= ENC_MAX
    ensures 0 <= x <= ENC_MAX ==> r == x
  {
    if x < 0 then 0 else if x > ENC_MAX then ENC_MAX else x
  }

  /**
   * Direction of a Gray-code transition. The code runs 0, 1, 2, 3, 0 ... along one turning
   * direction: one step forward is a decrement, one step back an increment (both clamped), and
   * no change or an invalid two-state jump leaves the level alone.
   */
  lemma {:induction false} GrayDirection(curr: UInt8, last: Int8, now: Int8)
    requires curr <= ENC_MAX && 0 <= last <= 3 && 0 <= now <= 3
    ensures now == (last + 1) % 4 ==> EncProcess(curr, last - now) == Clamp(curr - 1)
    ensures now == (last + 3) % 4 ==> EncProcess(curr, last - now) == Clamp(curr + 1)
    ensures now % 2 == last % 2 ==> EncProcess(curr, last - now) == curr
  {
    var d := last - now;
    assert -3 <= d <= 3;
    if d == -3 {
      assert LowByte(d) == 0xFD;
    } else if d == -2 {
      assert LowByte(d) == 0xFE;
    } else if d == -1 {
      assert LowByte(d) == 0xFF;
    } else if d == 0 {
      assert LowByte(d) == 0;
    } else if d == 1 {
      assert LowByte(d) == 1;
    } else if d == 2 {
      assert LowByte(d) == 2;
    } else {
      assert LowByte(d) == 3;
    }
  }

  /** Repeated moves in one direction saturate at the bounds rather than wrapping. */
  lemma {:induction false} SaturatesAtBounds(diff: Int8)
    requires Bit0(LowByte(diff))
    ensures Bit1(LowByte(diff)) ==> EncProcess(0, diff) == 0
    ensures !Bit1(LowByte(diff)) ==> EncProcess(ENC_MAX, diff) == ENC_MAX
  {
  }
}
