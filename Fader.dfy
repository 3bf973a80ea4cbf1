/** Slew-limited fade of the emitted level toward the target level. */
module Fader {
  import opened Bytes

  /** The fade runs on ticks whose loop counter is a multiple of this. */
  const FADE_PERIOD: nat := 32

  function Dist(a: int, b: int): nat {
    if a < b then b - a else a - b
  }

  /** Sign of `a - b`, computed on 16-bit signed values (the nested `step` helper). */
  function Step(a: UInt8, b: UInt8): (s: int)
    ensures -1 <= s <= 1
    ensures s > 0 <==> a > b
    ensures s < 0 <==> a < b
  {
    var i := a - b;
    if i != 0 then (if i > 0 then 1 else -1) else 0
  }

  /**
   * One fade event: the level moves one unit toward the target and never past it, so the 8-bit
   * addition in `current += step(...)` cannot wrap.
   */
  function Fade(current: UInt8, target: UInt8): (r: UInt8)
    ensures Dist(r, target) == if current == target then 0 else Dist(current, target) - 1
    ensures current <= target ==> current <= r <= target
    ensures target <= current ==> target <= r <= current
  {
    current + Step(target, current)
  }

  /** `n` consecutive fade events toward a fixed target. */
  function FadeN(current: UInt8, target: UInt8, n: nat): UInt8
    decreases n
  {
    if n == 0 then current else Fade(FadeN(current, target, n - 1), target)
  }

  /**
   * After `n` fade events the distance to the target has shrunk by `n` (down to 0), and the level
   * has stayed between its start and the target all along.
   */
  lemma {:induction false} FadeNConverges(current: UInt8, target: UInt8, n: nat)
    ensures Dist(FadeN(current, target, n), target) ==
      if Dist(current, target) <= n then 0 else Dist(current, target) - n
    ensures current <= target ==> current <= FadeN(current, target, n) <= target
    ensures target <= current ==> target <= FadeN(current, target, n) <= current
    decreases n
  {
    if n > 0 {
      FadeNConverges(current, target, n - 1);
    }
  }

  /** From 0 toward 40 the level reaches 40 after exactly 40 fade events and then stays there. */
  lemma FullFadeTakesForty(n: nat)
    ensures n < 40 ==> FadeN(0, 40, n) == n
    ensures n >= 40 ==> FadeN(0, 40, n) == 40
  {
    FadeNConverges(0, 40, n);
  }
}
