/**
 * The 1 kHz timer interrupt: encoder scan, button scan, fade, white extraction and dithered PWM
 * output, as a pure step function on the controller state and as a class whose `Tick` updates
 * that state in place.
 */
module Isr {
  import opened Bytes
  import opened Encoder
  import opened Buttons
  import opened Fader
  import opened Rgbw
  import opened Dither

  datatype Channel = Red | Green | Blue

  /** One value per colour channel. */
  datatype Rgb<T> = Rgb(r: T, g: T, b: T) {
    function At(ch: Channel): T {
      match ch
      case Red => r
      case Green => g
      case Blue => b
    }
  }

  /** Button of each channel. */
  function ButtonOf(ch: Channel): Pin {
    match ch
    case Red => BUTTON_R
    case Green => BUTTON_G
    case Blue => BUTTON_B
  }

  /** Values written to the compare registers OCR0A (white), OCR0B (blue), OCR2A (green), OCR2B (red). */
  datatype Compare = Compare(ocr0a: UInt8, ocr0b: UInt8, ocr2a: UInt8, ocr2b: UInt8)

  /** The interrupt's persistent variables. */
  datatype State = State(
    loop: UInt8,
    encLast: Rgb<Int8>,
    target: Rgb<UInt8>,
    buttons: Debouncer,
    rpt: UInt16,
    current: Rgb<UInt8>)

  /** Encoder samples are Gray codes, target and emitted levels stay within `[0, ENC_MAX]`. */
  predicate WellFormed(s: State) {
    && 0 <= s.encLast.r <= 3 && 0 <= s.encLast.g <= 3 && 0 <= s.encLast.b <= 3
    && s.target.r <= ENC_MAX && s.target.g <= ENC_MAX && s.target.b <= ENC_MAX
    && s.current.r <= ENC_MAX && s.current.g <= ENC_MAX && s.current.b <= ENC_MAX
  }

  /** The three encoders as the interrupt reads PINC: red on PC5/PC4, green on PC1/PC0, blue on PC3/PC2. */
  function Sample(pinc: bv8): (e: Rgb<Int8>)
    ensures 0 <= e.r <= 3 && 0 <= e.g <= 3 && 0 <= e.b <= 3
  {
    Rgb(EncRead(pinc, 5, 4), EncRead(pinc, 1, 0), EncRead(pinc, 3, 2))
  }

  /** The encoder priming at start-up as written: pairs PC0/PC1, PC2/PC3 and PC4/PC5. */
  function PrimeAsWritten(pinc: bv8): (e: Rgb<Int8>)
    ensures 0 <= e.r <= 3 && 0 <= e.g <= 3 && 0 <= e.b <= 3
  {
    Rgb(EncRead(pinc, 0, 1), EncRead(pinc, 2, 3), EncRead(pinc, 4, 5))
  }

  /**
   * Phase A (bit 1 of the sample) of each channel: the interrupt reads red, green and blue on
   * PC5, PC1 and PC3, while the start-up priming as written reads them on PC0, PC2 and PC4.
   */
  lemma EncoderWiring(pinc: bv8)
    ensures (Sample(pinc).r / 2 == 1) == Bit(pinc, 5)
    ensures (Sample(pinc).g / 2 == 1) == Bit(pinc, 1)
    ensures (Sample(pinc).b / 2 == 1) == Bit(pinc, 3)
    ensures (PrimeAsWritten(pinc).r / 2 == 1) == Bit(pinc, 0)
    ensures (PrimeAsWritten(pinc).g / 2 == 1) == Bit(pinc, 2)
    ensures (PrimeAsWritten(pinc).b / 2 == 1) == Bit(pinc, 4)
  {
    EncReadGray(pinc, 5, 4);
    EncReadGray(pinc, 1, 0);
    EncReadGray(pinc, 3, 2);
    EncReadGray(pinc, 0, 1);
    EncReadGray(pinc, 2, 3);
    EncReadGray(pinc, 4, 5);
  }

  /** State when the timer interrupt is first armed, with the encoders primed by `primed`. */
  function Start(primed: Rgb<Int8>): (s: State)
    requires 0 <= primed.r <= 3 && 0 <= primed.g <= 3 && 0 <= primed.b <= 3
    ensures WellFormed(s)
  {
    State(0, primed, Rgb(0, 0, 0), INITIAL, 0, Rgb(0, 0, 0))
  }

  /** Start-up state with the encoders primed from the pins the interrupt reads. */
  function Init(pinc: bv8): (s: State)
    ensures WellFormed(s) && s.encLast == Sample(pinc)
  {
    Start(Sample(pinc))
  }

  /** Targets after the encoder scan: each channel applies the move between its two samples. */
  function Moved(target: Rgb<UInt8>, last: Rgb<Int8>, now: Rgb<Int8>): (t: Rgb<UInt8>)
    requires 0 <= last.r <= 3 && 0 <= last.g <= 3 && 0 <= last.b <= 3
    requires 0 <= now.r <= 3 && 0 <= now.g <= 3 && 0 <= now.b <= 3
  {
    Rgb(EncProcess(target.r, last.r - now.r),
        EncProcess(target.g, last.g - now.g),
        EncProcess(target.b, last.b - now.b))
  }

  /** Targets after the press toggles: PB1 toggles red, PB0 green, PB2 blue. */
  function Toggled(target: Rgb<UInt8>, pressed: bv8): Rgb<UInt8> {
    Rgb(if Bit(pressed, BUTTON_R) then Toggle(target.r) else target.r,
        if Bit(pressed, BUTTON_G) then Toggle(target.g) else target.g,
        if Bit(pressed, BUTTON_B) then Toggle(target.b) else target.b)
  }

  /** Emitted levels after the fade stage of a tick whose loop counter is `loop`. */
  function Faded(loop: UInt8, current: Rgb<UInt8>, target: Rgb<UInt8>): Rgb<UInt8> {
    if loop % FADE_PERIOD == 0 then
      Rgb(Fade(current.r, target.r), Fade(current.g, target.g), Fade(current.b, target.b))
    else
      current
  }

  /** Compare values for the emitted levels on tick `loop`. */
  function Drive(current: Rgb<UInt8>, loop: UInt8): (out: Compare)
    requires current.r <= ENC_MAX && current.g <= ENC_MAX && current.b <= ENC_MAX
    ensures out.ocr0a <= 64 && out.ocr0b <= 64 && out.ocr2a <= 64 && out.ocr2b <= 64
  {
    var split := Split(current.r, current.g, current.b);
    Compare(Process(split.w, loop), Process(split.b, loop), Process(split.g, loop), Process(split.r, loop))
  }

  /**
   * White carries the part common to the three levels: OCR0A is driven from their least level,
   * each colour register from what its level has beyond that, so one colour register is 0.
   */
  lemma DriveWhite(current: Rgb<UInt8>, loop: UInt8)
    requires current.r <= ENC_MAX && current.g <= ENC_MAX && current.b <= ENC_MAX
    ensures var out, w := Drive(current, loop), Split(current.r, current.g, current.b).w;
      && w <= current.r && w <= current.g && w <= current.b
      && (w == current.r || w == current.g || w == current.b)
      && out.ocr0a == Process(w, loop)
      && out.ocr2b == Process(current.r - w, loop)
      && out.ocr2a == Process(current.g - w, loop)
      && out.ocr0b == Process(current.b - w, loop)
      && (out.ocr0b == 0 || out.ocr2a == 0 || out.ocr2b == 0)
  {
    assert Process(0, loop) == 0 by {
      assert DitherBit(DITHER_TABLE[0], loop) == 0;
    }
  }

  /** Encoder block: each target applies the move between its last and its new sample. */
  function EncoderBlock(s: State, pinc: bv8): (n: State)
    requires WellFormed(s)
    ensures WellFormed(n)
  {
    var now := Sample(pinc);
    s.(encLast := now, target := Moved(s.target, s.encLast, now))
  }

  /** Button block, first half: debounce PINB and toggle the channels whose button was pressed. */
  function PressBlock(s: State, pinb: bv8): (n: State)
    requires WellFormed(s)
    ensures WellFormed(n)
  {
    var scan := Debounce(s.buttons, pinb);
    s.(buttons := scan.state, target := Toggled(s.target, Pressed(scan)))
  }

  /** Button block, second half: the long-press countdown and the reset when it reaches 0. */
  function RepeatBlock(s: State): (n: State)
    requires WellFormed(s)
    ensures WellFormed(n)
  {
    var held := Held(s.buttons.trk);
    var rpt := NextRepeat(s.rpt, held);
    s.(rpt := rpt, target := if held && rpt == 0 then Rgb(0, 0, 0) else s.target)
  }

  /** Fade block: the emitted levels after the fade stage. */
  function FadeBlock(s: State): (n: State)
    requires WellFormed(s)
    ensures WellFormed(n)
  {
    s.(current := Faded(s.loop, s.current, s.target))
  }

  /** End of the handler: the 8-bit loop counter is incremented and wraps. */
  function LoopBlock(s: State): (n: State)
    requires WellFormed(s)
    ensures WellFormed(n)
  {
    s.(loop := (s.loop + 1) % 0x100)
  }

  /** State after one run of the interrupt on input ports PINC and PINB. */
  function Next(s: State, pinc: bv8, pinb: bv8): (n: State)
    requires WellFormed(s)
    ensures WellFormed(n)
    ensures n.loop == (s.loop + 1) % 0x100
    ensures n.encLast == Sample(pinc)
  {
    LoopBlock(FadeBlock(RepeatBlock(PressBlock(EncoderBlock(s, pinc), pinb))))
  }

  /** The long-press reset fires on this tick: a button is held and the countdown reaches 0. */
  predicate ResetFires(s: State, pinb: bv8) {
    Held(Debounce(s.buttons, pinb).state.trk) && NextRepeat(s.rpt, true) == 0
  }

  /** The target stages of one interrupt: encoder moves, press toggles, then the long-press reset. */
  lemma NextTarget(s: State, pinc: bv8, pinb: bv8)
    requires WellFormed(s)
    ensures Next(s, pinc, pinb).target ==
      if ResetFires(s, pinb) then Rgb(0, 0, 0)
      else Toggled(Moved(s.target, s.encLast, Sample(pinc)), Pressed(Debounce(s.buttons, pinb)))
  {
  }

  /** A channel's entry after the encoder stage is that channel's own encoder move. */
  lemma MovedAt(target: Rgb<UInt8>, last: Rgb<Int8>, now: Rgb<Int8>, ch: Channel)
    requires 0 <= last.r <= 3 && 0 <= last.g <= 3 && 0 <= last.b <= 3
    requires 0 <= now.r <= 3 && 0 <= now.g <= 3 && 0 <= now.b <= 3
    ensures 0 <= last.At(ch) <= 3 && 0 <= now.At(ch) <= 3
    ensures Moved(target, last, now).At(ch) == EncProcess(target.At(ch), last.At(ch) - now.At(ch))
  {
  }

  /** A channel's entry after the press stage is toggled exactly when its own button was pressed. */
  lemma ToggledAt(target: Rgb<UInt8>, pressed: bv8, ch: Channel)
    ensures Toggled(target, pressed).At(ch) ==
      if Bit(pressed, ButtonOf(ch)) then Toggle(target.At(ch)) else target.At(ch)
  {
  }

  /**
   * Without a press of its button or a long-press reset, a channel's target follows its encoder:
   * one Gray-code step forward lowers it, one step back raises it (both clamped to
   * `[0, ENC_MAX]`), and no change or an invalid jump leaves it alone.
   */
  lemma EncoderMove(s: State, pinc: bv8, pinb: bv8, ch: Channel)
    requires WellFormed(s)
    requires !Bit(Pressed(Debounce(s.buttons, pinb)), ButtonOf(ch)) && !ResetFires(s, pinb)
    ensures var last, now := s.encLast.At(ch), Sample(pinc).At(ch);
      var t, t' := s.target.At(ch), Next(s, pinc, pinb).target.At(ch);
      && (now == (last + 1) % 4 ==> t' == Clamp(t - 1))
      && (now == (last + 3) % 4 ==> t' == Clamp(t + 1))
      && (now % 2 == last % 2 ==> t' == t)
  {
    var now := Sample(pinc);
    var moved := Moved(s.target, s.encLast, now);
    NextTarget(s, pinc, pinb);
    MovedAt(s.target, s.encLast, now, ch);
    ToggledAt(moved, Pressed(Debounce(s.buttons, pinb)), ch);
    GrayDirection(s.target.At(ch), s.encLast.At(ch), now.At(ch));
  }

  /**
   * A confirmed press of a channel's button leaves its target at 0 or `ENC_MAX`; with that
   * channel's encoder at rest it is `ENC_MAX` exactly when the target was 0.
   */
  lemma PressToggles(s: State, pinc: bv8, pinb: bv8, ch: Channel)
    requires WellFormed(s)
    requires Bit(Pressed(Debounce(s.buttons, pinb)), ButtonOf(ch)) && !ResetFires(s, pinb)
    ensures var t' := Next(s, pinc, pinb).target.At(ch);
      && (t' == 0 || t' == ENC_MAX)
      && (Sample(pinc).At(ch) == s.encLast.At(ch) ==> (t' == ENC_MAX <==> s.target.At(ch) == 0))
  {
    var now := Sample(pinc);
    var moved := Moved(s.target, s.encLast, now);
    NextTarget(s, pinc, pinb);
    MovedAt(s.target, s.encLast, now, ch);
    ToggledAt(moved, Pressed(Debounce(s.buttons, pinb)), ch);
    GrayDirection(s.target.At(ch), s.encLast.At(ch), now.At(ch));
  }

  /**
   * The countdown reloads to 750 while no channel button is held and otherwise counts down with
   * 16-bit wrap-around; the tick on which it reaches 0 clears all three targets.
   */
  lemma LongPress(s: State, pinc: bv8, pinb: bv8)
    requires WellFormed(s)
    ensures var trk, o := Debounce(s.buttons, pinb).state.trk, Next(s, pinc, pinb);
      && (!Held(trk) ==> o.rpt == REPEAT_TICKS)
      && (Held(trk) ==> (o.rpt + 1) % 0x1_0000 == s.rpt)
      && (ResetFires(s, pinb) ==> o.target == Rgb(0, 0, 0))
  {
  }

  /**
   * The emitted levels change only on ticks whose loop counter is a multiple of 32; then each one
   * moves one unit toward its new target without passing it.
   */
  lemma FadeStage(s: State, pinc: bv8, pinb: bv8, ch: Channel)
    requires WellFormed(s)
    ensures var o := Next(s, pinc, pinb);
      var c, c', t' := s.current.At(ch), o.current.At(ch), o.target.At(ch);
      && (s.loop % FADE_PERIOD != 0 ==> c' == c)
      && (s.loop % FADE_PERIOD == 0 ==>
            Dist(c', t') == (if c == t' then 0 else Dist(c, t') - 1)
            && (c <= t' ==> c <= c' <= t') && (t' <= c ==> t' <= c' <= c))
  {
  }

  /** `|pinbs|` interrupts with PINC at `pinc` throughout and PINB reading `pinbs[i]` on the i-th. */
  function Run(s: State, pinc: bv8, pinbs: seq<bv8>): (r: State)
    requires WellFormed(s)
    ensures WellFormed(r)
    decreases |pinbs|
  {
    if |pinbs| == 0 then s else Next(Run(s, pinc, pinbs[..|pinbs| - 1]), pinc, pinbs[|pinbs| - 1])
  }

  /** Nothing is moving: encoders rest where last sampled and no channel button is accepted as held. */
  predicate Idle(s: State, pinc: bv8) {
    Sample(pinc) == s.encLast && s.buttons.trk & BUTTON_MASK == 0
  }

  /** On every interrupt of the run the three button pins read high; the other PINB bits are free. */
  predicate AllReleased(pinbs: seq<bv8>) {
    forall i | 0 <= i < |pinbs| :: Released(pinbs[i])
  }

  /** An idle tick keeps the inputs idle and the targets fixed, reloads the countdown and fades. */
  lemma IdleTick(s: State, pinc: bv8, pinb: bv8)
    requires WellFormed(s) && Idle(s, pinc) && Released(pinb)
    ensures var o := Next(s, pinc, pinb);
      && Idle(o, pinc) && o.target == s.target && o.rpt == REPEAT_TICKS
      && o.current == Faded(s.loop, s.current, s.target)
  {
    ReleasedStaysReleased(s.buttons, pinb);
  }

  /** Fade ticks among the first `n` interrupts counted from a fade tick: ceil(n / 32). */
  function FadeSteps(n: nat): nat {
    (n + FADE_PERIOD - 1) / FADE_PERIOD
  }

  /** Each tick adds a fade step exactly when it lies a multiple of 32 ticks after the first. */
  lemma FadeCount(n: nat)
    requires n >= 1
    ensures FadeSteps(n) == FadeSteps(n - 1) + (if (n - 1) % FADE_PERIOD == 0 then 1 else 0)
  {
    var m := n - 1;
    var q, r := m / FADE_PERIOD, m % FADE_PERIOD;
    assert m == FADE_PERIOD * q + r;
    assert FadeSteps(n) == q + 1;
    assert FadeSteps(m) == q + (if r == 0 then 0 else 1);
  }

  /** The wrapping 8-bit loop counter keeps the fade phase, since 32 divides 256. */
  lemma LoopPhase(n: nat, loop: UInt8)
    requires n >= 1 && loop % FADE_PERIOD == 0
    ensures ((loop + n - 1) % 0x100) % FADE_PERIOD == (n - 1) % FADE_PERIOD
    ensures ((loop + n - 1) % 0x100 + 1) % 0x100 == (loop + n) % 0x100
  {
    var m := n - 1;
    var q, r := m / FADE_PERIOD, m % FADE_PERIOD;
    var a, w := loop / FADE_PERIOD, (loop + m) / 0x100;
    assert (loop + m) % 0x100 == FADE_PERIOD * (a + q - 8 * w) + r;
  }

  /** Idle run invariant: the targets are fixed and the emitted levels have taken `k` fade steps. */
  predicate IdleAfter(s: State, r: State, pinc: bv8, n: nat, k: nat) {
    && Idle(r, pinc) && r.target == s.target && r.loop == (s.loop + n) % 0x100
    && r.current.r == FadeN(s.current.r, s.target.r, k)
    && r.current.g == FadeN(s.current.g, s.target.g, k)
    && r.current.b == FadeN(s.current.b, s.target.b, k)
  }

  /** One idle tick `n` adds a fade step exactly when it is a fade tick. */
  lemma IdleFadeStep(s: State, c: Rgb<UInt8>, c': Rgb<UInt8>, n: nat)
    requires s.loop % FADE_PERIOD == 0 && n >= 1
    requires c.r == FadeN(s.current.r, s.target.r, FadeSteps(n - 1))
    requires c.g == FadeN(s.current.g, s.target.g, FadeSteps(n - 1))
    requires c.b == FadeN(s.current.b, s.target.b, FadeSteps(n - 1))
    requires c' == Faded((s.loop + n - 1) % 0x100, c, s.target)
    ensures c'.r == FadeN(s.current.r, s.target.r, FadeSteps(n))
    ensures c'.g == FadeN(s.current.g, s.target.g, FadeSteps(n))
    ensures c'.b == FadeN(s.current.b, s.target.b, FadeSteps(n))
  {
    FadeCount(n);
    LoopPhase(n, s.loop);
    if (n - 1) % FADE_PERIOD == 0 {
      assert FadeSteps(n) == FadeSteps(n - 1) + 1;
    } else {
      assert FadeSteps(n) == FadeSteps(n - 1);
    }
  }

  /** One idle tick keeps the idle-run invariant, counting tick `n`. */
  lemma IdleStep(s: State, prev: State, pinc: bv8, pinb: bv8, n: nat)
    requires WellFormed(s) && WellFormed(prev) && s.loop % FADE_PERIOD == 0 && n >= 1
    requires Released(pinb) && IdleAfter(s, prev, pinc, n - 1, FadeSteps(n - 1))
    ensures IdleAfter(s, Next(prev, pinc, pinb), pinc, n, FadeSteps(n))
  {
    IdleTick(prev, pinc, pinb);
    LoopPhase(n, s.loop);
    IdleFadeStep(s, prev.current, Next(prev, pinc, pinb).current, n);
  }

  /** The idle-run invariant carried from the first `|pinbs| - 1` interrupts to all of them. */
  lemma IdleRunStep(s: State, pinc: bv8, pinbs: seq<bv8>)
    requires WellFormed(s) && s.loop % FADE_PERIOD == 0 && |pinbs| >= 1
    requires Released(pinbs[|pinbs| - 1])
    requires IdleAfter(s, Run(s, pinc, pinbs[..|pinbs| - 1]), pinc, |pinbs| - 1, FadeSteps(|pinbs| - 1))
    ensures IdleAfter(s, Run(s, pinc, pinbs), pinc, |pinbs|, FadeSteps(|pinbs|))
  {
    IdleStep(s, Run(s, pinc, pinbs[..|pinbs| - 1]), pinc, pinbs[|pinbs| - 1], |pinbs|);
  }

  /**
   * With the encoders at rest and the channel buttons released, starting on a fade tick, the
   * targets never change and after `n` interrupts each emitted level has taken ceil(n / 32) fade
   * steps toward its target, whatever PINB's other bits read.
   */
  lemma {:induction false} IdleRun(s: State, pinc: bv8, pinbs: seq<bv8>)
    requires WellFormed(s) && Idle(s, pinc) && s.loop % FADE_PERIOD == 0 && AllReleased(pinbs)
    ensures IdleAfter(s, Run(s, pinc, pinbs), pinc, |pinbs|, FadeSteps(|pinbs|))
    decreases |pinbs|
  {
    if |pinbs| > 0 {
      var earlier := pinbs[..|pinbs| - 1];
      assert AllReleased(earlier) by {
        forall i | 0 <= i < |earlier| ensures Released(earlier[i]) {
          assert earlier[i] == pinbs[i];
        }
      }
      IdleRun(s, pinc, earlier);
      IdleRunStep(s, pinc, pinbs);
    }
  }

  /**
   * A red target of 40 reached from an emitted level of 0: the level gets there within 1280
   * interrupts (40 fade steps) and stays, and not a tick earlier than the 40th fade step.
   */
  lemma RedFadeUp(s: State, pinc: bv8, pinbs: seq<bv8>)
    requires WellFormed(s) && Idle(s, pinc) && s.loop % FADE_PERIOD == 0 && AllReleased(pinbs)
    requires s.current.r == 0 && s.target.r == ENC_MAX
    ensures |pinbs| < 1249 ==> Run(s, pinc, pinbs).current.r < ENC_MAX
    ensures |pinbs| >= 1249 ==> Run(s, pinc, pinbs).current.r == ENC_MAX
  {
    IdleRun(s, pinc, pinbs);
    FullFadeTakesForty(FadeSteps(|pinbs|));
  }

  /**
   * Start-up as written: priming from the wrong pin pairs, the first interrupt sees a move on an
   * encoder resting with A != B. With only PC5 high, red and blue targets become 1 with no input.
   */
  lemma PrimingAsWrittenMoves()
    ensures Next(Start(PrimeAsWritten(0x20)), 0x20, 0xFF).target == Rgb(1, 0, 1)
  {
  }

  /** Start-up primed from the interrupt's own pins: the first interrupt never moves a target. */
  lemma PrimingIsStill(pinc: bv8, pinb: bv8)
    ensures Next(Init(pinc), pinc, pinb).target == Rgb(0, 0, 0)
  {
    var s := Init(pinc);
    var scan := Debounce(s.buttons, pinb);
    assert scan.changed == 0;
    GrayDirection(0, s.encLast.r, s.encLast.r);
    GrayDirection(0, s.encLast.g, s.encLast.g);
    GrayDirection(0, s.encLast.b, s.encLast.b);
  }

  /**
   * The interrupt handler with its static variables as fields. One call of `Tick` is one run of
   * the handler: the port values are its inputs and the four compare values its result.
   */
  class Controller {
    var loop: UInt8
    var encLastR: Int8
    var encLastG: Int8
    var encLastB: Int8
    var targetR: UInt8
    var targetG: UInt8
    var targetB: UInt8
    var buttons: Debouncer
    var rpt: UInt16
    var currentR: UInt8
    var currentG: UInt8
    var currentB: UInt8

    ghost function Snapshot(): State
      reads this
    {
      State(loop, Rgb(encLastR, encLastG, encLastB), Rgb(targetR, targetG, targetB),
            buttons, rpt, Rgb(currentR, currentG, currentB))
    }

    ghost predicate Valid()
      reads this
    {
      WellFormed(Snapshot())
    }

    /** Static initial values, with the encoders primed from PINC before the timer is armed. */
    constructor (pinc: bv8)
      ensures Valid() && Snapshot() == Init(pinc)
    {
      loop := 0;
      targetR, targetG, targetB := 0, 0, 0;
      buttons := INITIAL;
      rpt := 0;
      currentR, currentG, currentB := 0, 0, 0;
      encLastR := EncRead(pinc, 5, 4);
      encLastG := EncRead(pinc, 1, 0);
      encLastB := EncRead(pinc, 3, 2);
    }

    /** Encoder block: sample PINC, move the targets, remember the samples. */
    method ScanEncoders(pinc: bv8)
      requires Valid()
      modifies this`encLastR, this`encLastG, this`encLastB, this`targetR, this`targetG, this`targetB
      ensures Snapshot() == EncoderBlock(old(Snapshot()), pinc)
      ensures Valid()
    {
      var enc := Sample(pinc);
      targetR := EncProcess(targetR, encLastR - enc.r);
      targetG := EncProcess(targetG, encLastG - enc.g);
      targetB := EncProcess(targetB, encLastB - enc.b);
      encLastR, encLastG, encLastB := enc.r, enc.g, enc.b;
    }

    /** Button block: debounce PINB, toggle on presses, count the long press down. */
    method ScanButtons(pinb: bv8)
      requires Valid()
      modifies this`buttons, this`rpt, this`targetR, this`targetG, this`targetB
      ensures Snapshot() == RepeatBlock(PressBlock(old(Snapshot()), pinb))
      ensures Valid()
    {
      PressButtons(pinb);
      CountLongPress();
    }

    /** Debounce PINB, then toggle each channel whose button was pressed on this tick. */
    method PressButtons(pinb: bv8)
      requires Valid()
      modifies this`buttons, this`targetR, this`targetG, this`targetB
      ensures Snapshot() == PressBlock(old(Snapshot()), pinb)
      ensures Valid()
    {
      var scan := Debounce(buttons, pinb);
      buttons := scan.state;
      var pressed := Pressed(scan);
      if Bit(pressed, BUTTON_R) { targetR := Toggle(targetR); }
      if Bit(pressed, BUTTON_G) { targetG := Toggle(targetG); }
      if Bit(pressed, BUTTON_B) { targetB := Toggle(targetB); }
    }

    /** Reload the countdown while no button is held, else count it down and clear all targets at 0. */
    method CountLongPress()
      requires Valid()
      modifies this`rpt, this`targetR, this`targetG, this`targetB
      ensures Snapshot() == RepeatBlock(old(Snapshot()))
      ensures Valid()
    {
      if !Held(buttons.trk) {
        rpt := REPEAT_TICKS;
      } else {
        rpt := (rpt - 1) % 0x1_0000;
        if rpt == 0 {
          targetR, targetG, targetB := 0, 0, 0;
        }
      }
    }

    /** Fade block: on every 32nd tick move each emitted level one unit toward its target. */
    method FadeLevels()
      requires Valid()
      modifies this`currentR, this`currentG, this`currentB
      ensures Snapshot() == FadeBlock(old(Snapshot()))
      ensures Valid()
    {
      if loop % FADE_PERIOD == 0 {
        currentR := currentR + Fader.Step(targetR, currentR);
        currentG := currentG + Fader.Step(targetG, currentG);
        currentB := currentB + Fader.Step(targetB, currentB);
      }
    }

    /** Output block: extract white and dither all four compare values. */
    method DriveOutputs() returns (out: Compare)
      requires Valid()
      ensures out == Drive(Rgb(currentR, currentG, currentB), loop)
    {
      var split := Split(currentR, currentG, currentB);
      out := Compare(Process(split.w, loop), Process(split.b, loop), Process(split.g, loop), Process(split.r, loop));
    }

    /** The overflowing loop counter's increment at the end of the handler. */
    method AdvanceLoop()
      requires Valid()
      modifies this`loop
      ensures Snapshot() == LoopBlock(old(Snapshot()))
      ensures Valid()
    {
      loop := (loop + 1) % 0x100;
    }

    /** One timer interrupt on input ports PINC and PINB; returns the compare register values. */
    method Tick(pinc: bv8, pinb: bv8) returns (out: Compare)
      requires Valid()
      modifies this
      ensures Snapshot() == Next(old(Snapshot()), pinc, pinb)
      ensures out == Drive(Snapshot().current, old(loop))
      ensures Valid()
    {
      ScanEncoders(pinc);
      ScanButtons(pinb);
      FadeLevels();
      out := DriveOutputs();
      AdvanceLoop();
    }
  }
}
