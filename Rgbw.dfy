/** Extraction of a common white component from a red/green/blue level triple. */
module Rgbw {
  import opened Bytes

  /** White level and the three colour residuals. */
  datatype Rgbw = Rgbw(w: UInt8, r: UInt8, g: UInt8, b: UInt8)

  /**
   * The white level is the least of the three levels and each colour output is what is left of
   * its level; adding white back gives the input again, and some residual is always 0.
   */
  function Split(red: UInt8, green: UInt8, blue: UInt8): (out: Rgbw)
    ensures out.w <= red && out.w <= green && out.w <= blue
    ensures out.w == red || out.w == green || out.w == blue
    ensures out.w + out.r == red && out.w + out.g == green && out.w + out.b == blue
    ensures out.r == 0 || out.g == 0 || out.b == 0
  {
    var w :=
      if red < green then
        (if red < blue then red else blue)
      else
        (if green < blue then green else blue);
    Rgbw(w, red - w, green - w, blue - w)
  }

  /** Levels (200, 50, 120) split into white 50 and residuals (150, 0, 70). */
  lemma SplitExample()
    ensures Split(200, 50, 120) == Rgbw(50, 150, 0, 70)
  {
  }
}
