/** Button scanning: vertical-counter debounce, press toggles and the long-press reset. */
module Buttons {
  import opened Bytes
  import opened Encoder

  /**
   * Debounce state of all eight PINB bits, one bit per input in each byte: `trk` is the accepted
   * (active-high, i.e. pressed = 1) state, `ct0`/`ct1` the two counter bytes.
   */
  datatype Debouncer = Debouncer(trk: bv8, ct0: bv8, ct1: bv8)

  /** Result of one scan: the new state and the mask of changes confirmed on this tick. */
  datatype Scan = Scan(state: Debouncer, changed: bv8)

  /** Power-up values of the debouncer. */
  const INITIAL: Debouncer := Debouncer(0x00, 0xFF, 0xFF)

  /** Buttons of the red, green and blue channels: PB1, PB0 and PB2. */
  const BUTTON_R: Pin := 1
  const BUTTON_G: Pin := 0
  const BUTTON_B: Pin := 2
  const BUTTON_MASK: bv8 := 0x7

  /** Ticks a button must stay held before all targets are reset. */
  const REPEAT_TICKS: UInt16 := 750

  /**
   * One scan of PINB (buttons are active low). Only bits whose raw level disagrees with `trk` can
   * change; a change is confirmed only when both counters of that bit had run down to zero, and a
   * confirmed bit is flipped so that it agrees with the raw level.
   */
  function Debounce(d: Debouncer, pinb: bv8): Scan {
    var btn := d.trk ^ !pinb;
    var ct0 := !(d.ct0 & btn);
    var ct1 := ct0 ^ d.ct1;
    var confirmed := btn & ct0 & ct1;
    Scan(Debouncer(d.trk ^ confirmed, ct0, ct1), confirmed)
  }

  /**
   * The changed mask is exactly the bits whose accepted state flipped; every flipped bit now agrees
   * with the raw level and had both counters at zero; a bit whose raw level agrees with `trk` gets
   * its `ct0` counter reloaded and cannot change.
   */
  lemma DebounceConfirms(d: Debouncer, pinb: bv8)
    ensures var s := Debounce(d, pinb);
      && s.state.trk ^ d.trk == s.changed
      && s.changed & (s.state.trk ^ !pinb) == 0
      && s.changed & (d.ct0 | d.ct1) == 0
      && !(d.trk ^ !pinb) & !(s.state.ct0) == 0
      && !(d.trk ^ !pinb) & s.changed == 0
  {
  }

  /** Buttons that went from released to pressed on this scan. */
  function Pressed(s: Scan): bv8 {
    s.state.trk & s.changed
  }

  /** A press is exactly a confirmed change from released to pressed. */
  lemma PressedIsRisingEdge(d: Debouncer, pinb: bv8)
    ensures Pressed(Debounce(d, pinb)) == Debounce(d, pinb).changed & !d.trk
    ensures Pressed(Debounce(d, pinb)) & pinb == 0
  {
  }

  /**
   * A one-tick glitch is never confirmed: after a tick on which a bit agreed with `trk`, the
   * next scan cannot confirm a change of that bit, whatever the input. `mask` selects the bits.
   */
  lemma GlitchIgnored(d: Debouncer, quiet: bv8, glitch: bv8, mask: bv8)
    requires (d.trk ^ !quiet) & mask == 0
    ensures Debounce(d, quiet).changed & mask == 0
    ensures Debounce(Debounce(d, quiet).state, glitch).changed & mask == 0
  {
  }

  /** `n` scans of an unchanging input. */
  function DebounceN(d: Debouncer, pinb: bv8, n: nat): Debouncer
    decreases n
  {
    if n == 0 then d else Debounce(DebounceN(d, pinb, n - 1), pinb).state
  }

  /** Every bit of a steady input is accepted within four scans, from any counter state. */
  lemma SettlesInFourScans(d: Debouncer, pinb: bv8)
    ensures DebounceN(d, pinb, 4).trk == !pinb
  {
    var d1 := Debounce(d, pinb).state;
    var d2 := Debounce(d1, pinb).state;
    var d3 := Debounce(d2, pinb).state;
    assert DebounceN(d, pinb, 3) == d3;
  }

  /**
   * After any scan `ct0` is 1 in every bit that agreed with `trk` on that scan or was confirmed on
   * it; with the power-up value 0xFF, every run of disagreeing scans therefore starts from
   * `ct0 = 1`.
   */
  lemma CounterReloaded(d: Debouncer, pinb: bv8)
    ensures var s := Debounce(d, pinb);
      (!(d.trk ^ !pinb) | s.changed) & !s.state.ct0 == 0
  {
  }

  /** A steady input on bits `m` that start with `ct0 = 1` is not confirmed on the first scan. */
  lemma NotOnFirstScan(d: Debouncer, pinb: bv8, m: bv8)
    requires m & !d.ct0 == 0
    ensures Debounce(d, pinb).changed & m == 0
  {
  }

  /** Nor on the third scan. */
  lemma NotOnThirdScan(d: Debouncer, pinb: bv8, m: bv8)
    requires m & !d.ct0 == 0
    ensures Debounce(DebounceN(d, pinb, 2), pinb).changed & m == 0
  {
  }

  /** Where `ct1` is 0 as well, the input is accepted on the second scan. */
  lemma ConfirmedOnSecond(d: Debouncer, pinb: bv8, m: bv8)
    requires m & !d.ct0 == 0 && m & d.ct1 == 0
    ensures DebounceN(d, pinb, 2).trk & m == !pinb & m
  {
  }

  /** Where `ct1` is 1, the input is accepted on the fourth scan and not before. */
  lemma ConfirmedOnFourth(d: Debouncer, pinb: bv8, m: bv8)
    requires m & !d.ct0 == 0 && m & !d.ct1 == 0
    ensures DebounceN(d, pinb, 3).trk & m == d.trk & m
    ensures DebounceN(d, pinb, 4).trk & m == !pinb & m
  {
    SettlesInFourScans(d, pinb);
  }

  /** Once accepted, a steady input produces no further change. */
  lemma {:induction false} SteadyInputSettles(d: Debouncer, pinb: bv8, n: nat)
    requires n >= 4
    ensures DebounceN(d, pinb, n).trk == !pinb
    ensures Debounce(DebounceN(d, pinb, n), pinb).changed == 0
    decreases n
  {
    if n == 4 {
      SettlesInFourScans(d, pinb);
    } else {
      SteadyInputSettles(d, pinb, n - 1);
    }
  }

  /**
   * The confirmation delay depends on the counters' phase: from the power-up state a change of
   * PB0 held for three scans is still unconfirmed, while after one quiet scan it is confirmed on
   * the second scan.
   */
  lemma ConfirmationDelay()
    ensures DebounceN(INITIAL, 0xFE, 3).trk == 0x00
    ensures DebounceN(INITIAL, 0xFE, 4).trk == 0x01
    ensures DebounceN(Debounce(INITIAL, 0xFF).state, 0xFE, 2).trk == 0x01
  {
  }

  /** Press toggle of one channel: a level of 0 becomes `ENC_MAX`, any other level 0. */
  function Toggle(t: UInt8): (r: UInt8)
    ensures r == 0 || r == ENC_MAX
    ensures r == 0 <==> t != 0
  {
    (if t == 0 then 1 else 0) * ENC_MAX
  }

  /** Some button of the three channels is held in the accepted state. */
  predicate Held(trk: bv8)
    ensures Held(trk) <==> Bit(trk, BUTTON_R) || Bit(trk, BUTTON_G) || Bit(trk, BUTTON_B)
  {
    trk & BUTTON_MASK != 0
  }

  /** No channel button pin reads low (the buttons are active low). */
  predicate Released(pinb: bv8) {
    pinb & BUTTON_MASK == BUTTON_MASK
  }

  /**
   * With the three channel buttons accepted as released and their pins high, a scan confirms no
   * change of them, whatever the other PINB bits do: no press and nothing held.
   */
  lemma ReleasedStaysReleased(d: Debouncer, pinb: bv8)
    requires d.trk & BUTTON_MASK == 0 && Released(pinb)
    ensures var s := Debounce(d, pinb);
      && s.state.trk & BUTTON_MASK == 0 && !Held(s.state.trk)
      && !Bit(Pressed(s), BUTTON_R) && !Bit(Pressed(s), BUTTON_G) && !Bit(Pressed(s), BUTTON_B)
  {
  }

  /** Long-press countdown: reloaded while nothing is held, else decremented as a `uint16_t`. */
  function NextRepeat(rpt: UInt16, held: bool): (r: UInt16)
    ensures !held ==> r == REPEAT_TICKS
    ensures held ==> (r + 1) % 0x1_0000 == rpt
  {
    if !held then REPEAT_TICKS else (rpt - 1) % 0x1_0000
  }

  /** The countdown after `k` consecutive held ticks. */
  function HeldFor(rpt: UInt16, k: nat): UInt16
    decreases k
  {
    if k == 0 then rpt else NextRepeat(HeldFor(rpt, k - 1), true)
  }

  lemma {:induction false} HeldForWraps(rpt: UInt16, k: nat)
    ensures HeldFor(rpt, k) == (rpt - k) % 0x1_0000
    decreases k
  {
    if k > 0 {
      HeldForWraps(rpt, k - 1);
      var x := rpt - (k - 1);
      assert HeldFor(rpt, k) == (x % 0x1_0000 - 1) % 0x1_0000;
      WrapShift(x - 1, x / 0x1_0000);
    }
  }

  /**
   * Counting from the reload, the reset fires on the 750th held tick and not before; held on, it
   * fires again each time another 65536 ticks have passed, because the counter wraps.
   */
  lemma LongPressTiming(k: nat)
    requires k >= 1
    ensures HeldFor(REPEAT_TICKS, k) == 0 <==> k % 0x1_0000 == REPEAT_TICKS
    ensures k <= REPEAT_TICKS ==> (HeldFor(REPEAT_TICKS, k) == 0 <==> k == REPEAT_TICKS)
  {
    HeldForWraps(REPEAT_TICKS, k);
    var q, r := k / 0x1_0000, k % 0x1_0000;
    WrapShift(REPEAT_TICKS - r, q);
    assert HeldFor(REPEAT_TICKS, k) == (REPEAT_TICKS - r) % 0x1_0000;
    if r != REPEAT_TICKS {
      assert -0x1_0000 < REPEAT_TICKS - r < 0 || 0 < REPEAT_TICKS - r < 0x1_0000;
    }
  }

  /** Subtracting whole periods of 65536 does not change a value modulo 65536. */
  lemma WrapShift(x: int, q: int)
    ensures (x - q * 0x1_0000) % 0x1_0000 == x % 0x1_0000
  {
  }
}
