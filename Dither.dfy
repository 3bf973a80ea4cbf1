/** Gamma correction and temporal dithering of one PWM output (the nested `process` helper). */
module Dither {
  import opened Bytes
  import opened Encoder

  /** Perceptual brightness for each level 0 .. ENC_MAX, on a 0 .. 255 scale. */
  const PWM_TABLE: seq<UInt16> := [
    0,
    1, 1, 1, 1,
    1, 2, 2, 3,
    3, 3, 4, 5,
    6, 6, 7, 9,
    10, 12, 13, 15,
    18, 21, 24, 27,
    31, 36, 42, 48,
    55, 63, 73, 84,
    96, 111, 127, 146,
    168, 193, 222, 255
  ]

  /** Eight-tick bit patterns carrying 0, 2, 4 and 6 ones. */
  const DITHER_TABLE: seq<bv8> := [0x00, 0x22, 0xAA, 0xDD]

  /** Bit `loop % 8` of a dither pattern. */
  function DitherBit(pattern: bv8, loop: UInt8): (x: int)
    ensures x == 0 || x == 1
  {
    if (pattern >> (loop % 8)) & 1 != 0 then 1 else 0
  }

  /**
   * Spreads the two low bits of an 8-bit gamma value over the dither cycle. The value is
   * non-negative, so its `>> 2` is `/ 4` and its `& 0b11` is `% 4`.
   */
  function Dithered(pwm: UInt16, loop: UInt8): (out: int)
    ensures pwm / 4 <= out <= pwm / 4 + 1
  {
    pwm / 4 + DitherBit(DITHER_TABLE[pwm % 4], loop)
  }

  /** Output compare value for a level on tick `loop`: gamma lookup, then dithering. */
  function Process(val: UInt8, loop: UInt8): (out: UInt8)
    requires val <= ENC_MAX
    ensures PWM_TABLE[val] / 4 <= out <= PWM_TABLE[val] / 4 + 1
    ensures out <= 64
  {
    Dithered(PWM_TABLE[val], loop)
  }

  /** Sum of the dithered outputs for a gamma value over ticks 0 .. n - 1 of the cycle. */
  function WindowSum(pwm: UInt16, n: nat): int
    requires n <= 8
  {
    if n == 0 then 0 else WindowSum(pwm, n - 1) + Dithered(pwm, n - 1)
  }

  /** Number of ones among the first `n` bits of a pattern. */
  function Ones(pattern: bv8, n: nat): int
    requires n <= 8
  {
    if n == 0 then 0 else Ones(pattern, n - 1) + DitherBit(pattern, n - 1)
  }

  /** Pattern `j` of the dither table sets `2 * j` of its eight bits. */
  lemma DitherDensity(j: nat)
    requires j < 4
    ensures Ones(DITHER_TABLE[j], 8) == 2 * j
  {
  }

  lemma MulSucc(n: int, q: int)
    ensures (n - 1) * q + q == n * q
  {
  }

  lemma {:induction false} WindowSumSplits(pwm: UInt16, n: nat)
    requires n <= 8
    ensures WindowSum(pwm, n) == n * (pwm / 4) + Ones(DITHER_TABLE[pwm % 4], n)
  {
    if n > 0 {
      WindowSumSplits(pwm, n - 1);
      var q, pattern := pwm / 4, DITHER_TABLE[pwm % 4];
      calc {
        WindowSum(pwm, n);
        WindowSum(pwm, n - 1) + q + DitherBit(pattern, n - 1);
        (n - 1) * q + q + Ones(pattern, n);
        { MulSucc(n, q); }
        n * q + Ones(pattern, n);
      }
    }
  }

  /**
   * Over one 8-tick dither cycle the outputs add up to twice the gamma value: the average duty is
   * exactly a quarter of the 8-bit value, so its two low bits are not lost.
   */
  lemma DitherAverage(pwm: UInt16)
    ensures WindowSum(pwm, 8) == 2 * pwm
  {
    WindowSumSplits(pwm, 8);
    DitherDensity(pwm % 4);
  }

  /** The output depends on the tick only through `loop % 8`. */
  lemma DitherPeriod(val: UInt8, loop: UInt8)
    requires val <= ENC_MAX
    ensures Process(val, loop) == Process(val, loop % 8)
  {
  }

  /** Neighbouring entries of the gamma table never decrease. */
  lemma PwmTableStep(k: nat)
    requires k < ENC_MAX
    ensures PWM_TABLE[k] <= PWM_TABLE[k + 1]
  {
  }

  /** The gamma table starts at 0, ends at 255 and never decreases. */
  lemma {:induction false} PwmTableMonotone(i: nat, j: nat)
    requires i <= j <= ENC_MAX
    ensures PWM_TABLE[0] == 0 && PWM_TABLE[ENC_MAX] == 255
    ensures PWM_TABLE[i] <= PWM_TABLE[j]
    decreases j - i
  {
    if i < j {
      PwmTableMonotone(i + 1, j);
      PwmTableStep(i);
    }
  }

  /** A higher level never yields a dimmer average over the dither cycle. */
  lemma AverageMonotone(lo: UInt8, hi: UInt8)
    requires lo <= hi <= ENC_MAX
    ensures WindowSum(PWM_TABLE[lo], 8) <= WindowSum(PWM_TABLE[hi], 8)
  {
    DitherAverage(PWM_TABLE[lo]);
    DitherAverage(PWM_TABLE[hi]);
    PwmTableMonotone(lo, hi);
  }

  /** Full scale: table value 255 gives 63 plus the bits of pattern 0xDD, tick by tick. */
  lemma FullScaleDither(loop: UInt8)
    ensures Process(ENC_MAX, loop) == 63 + DitherBit(0xDD, loop)
  {
  }
}
