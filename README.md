# led-knobs: the timer interrupt of an RGBW LED dimmer

This is a model of the firmware of a small AVR dimmer. Three rotary encoders set red, green and
blue target levels between 0 and 40. Three push buttons toggle a channel between off and full.
A long press of any button turns everything off. A 1 kHz timer interrupt does all of the work:

1. It samples the encoders on PINC and moves each target by one step per Gray-code transition.
2. It debounces the buttons on PINB with a vertical counter, toggles the pressed channels and
   counts the long press down.
3. It fades the emitted levels toward the targets by one unit every 32 ticks.
4. It splits the emitted levels into a white part and three colour residuals.
5. It writes four PWM compare values. Each one is gamma-corrected and temporally dithered over an
   8-tick cycle.

Modules:

- `Bytes`: the C integer widths (`uint8_t`, `int8_t`, `uint16_t`) and bit tests on port values.
- `Encoder`: `enc_read` and `enc_process`.
- `Buttons`: the debouncer, the press toggle and the 16-bit long-press countdown.
- `Fader`: the nested `step` helper and one fade event.
- `Rgbw`: the white extraction.
- `Dither`: `pwmtable`, `dithertable` and the nested `process` helper.
- `Isr`: the interrupt itself, in two forms.
  - A pure form. `State` holds the interrupt's static variables. `Next` composes one function per
    block of the handler.
  - An imperative form. `Controller` is a class whose fields are those statics. Its `Tick` method
    runs one block method after another and returns the four compare values. `Tick` is proved to
    produce exactly `Next` of the old state.

The port reads (PINC, PINB) are parameters. The compare-register writes are the result of `Tick`.

## Model

| member | source | states |
|---|---|---|
| Bytes.LowByte | main.c:52-53 | the byte that `diff & 0b01` and `diff & 0b10` test is the two's-complement byte of the `int8_t`: the value itself when non-negative, the value plus 256 when negative |
| Encoder.EncRead | main.c:44-49 | the sample is always in 0..3 |
| Encoder.EncReadGray | main.c:44-49 | bit 1 of the sample is the phase-A pin and bit 0 is phase A xor phase B |
| Encoder.EncProcess | main.c:51-61 | if bit 0 of `diff` is clear the level is unchanged; with bits 0 and 1 set it goes down by one, staying at 0 and changing exactly when it was above 0; with only bit 0 set it goes up by one, staying at 40 and changing exactly when it was below 40 (a level above 40 snaps to 40); a level in `[0, 40]` stays in `[0, 40]` and moves by at most 1 |
| Encoder.Clamp | main.c:54-56 | reference for a clamped step: the result is in `[0, 40]` and equals its argument when that is already in range |
| Encoder.GrayDirection | main.c:51-61 | for two Gray samples `last` and `now`: one step forward (`now == last + 1 mod 4`) is a clamped decrement, one step back a clamped increment, and no change or a two-state jump leaves the level alone |
| Encoder.SaturatesAtBounds | main.c:54-56 | a decrement at 0 gives 0 and an increment at 40 gives 40: no wrap-around |
| Buttons.Debounce | main.c:193-202 | one scan of the vertical counter; its contract is stated by `Buttons.DebounceConfirms` and the lemmas after it |
| Buttons.DebounceConfirms | main.c:193-202 | the confirmed mask is exactly the set of bits whose accepted state flipped; each flipped bit now agrees with the raw (inverted) pin and had both counters at 0; a bit whose raw level agrees with the accepted state has its `ct0` reloaded and never changes |
| Buttons.Pressed | main.c:205 | the pressed mask; its contract is stated by `Buttons.PressedIsRisingEdge` |
| Buttons.PressedIsRisingEdge | main.c:202-205 | a press is exactly a confirmed change of a bit that was released, and a pressed bit reads low on PINB |
| Buttons.GlitchIgnored | main.c:193-202 | a bit that agreed with the accepted state on one scan cannot be confirmed on that scan or on the next one, whatever the input: a one-tick glitch is never accepted |
| Buttons.SettlesInFourScans | main.c:193-202 | from any counter state, four scans of a steady input make the accepted state equal to the inverted input in every bit |
| Buttons.SteadyInputSettles | main.c:193-202 | after four or more scans of a steady input, the accepted state matches it and further scans confirm nothing |
| Buttons.ConfirmationDelay | main.c:188-202 | from the power-up counters a press of PB0 is still unconfirmed after three scans and confirmed on the fourth; after one quiet scan it is confirmed on the second |
| Buttons.CounterReloaded | main.c:193-202 | after any scan `ct0` is 1 in every bit that agreed with the accepted state or was confirmed on that scan, so (with the power-up value 0xFF) every run of disagreeing scans starts from `ct0 = 1` |
| Buttons.NotOnFirstScan | main.c:193-202 | a steady input on bits that start with `ct0 = 1` is not confirmed on the first scan |
| Buttons.NotOnThirdScan | main.c:193-202 | a steady input on bits that start with `ct0 = 1` is not confirmed on the third scan either |
| Buttons.ConfirmedOnSecond | main.c:193-202 | where `ct1` is 0 as well, the input is accepted on the second scan |
| Buttons.ConfirmedOnFourth | main.c:193-202 | where `ct1` is 1, the accepted state is unchanged after three scans and equals the input after the fourth |
| Buttons.Toggle | main.c:206-208 | the toggled level is 0 or 40, and it is 0 exactly when the old level was not 0 |
| Buttons.Held | main.c:211 | some button is held exactly when bit 1 (red), 0 (green) or 2 (blue) of the accepted state is set |
| Buttons.ReleasedStaysReleased | main.c:193-211 | with the three channel buttons accepted as released and their pins high, a scan confirms no change of them whatever the other PINB bits read: no press, nothing held |
| Buttons.NextRepeat | main.c:211-212 | with no channel button held the countdown reloads to 750; otherwise it is one less, modulo 65536 |
| Buttons.HeldForWraps | main.c:211-212 | after `k` held ticks the countdown is the start value minus `k`, modulo 65536 |
| Buttons.LongPressTiming | main.c:211-214 | from the reload, the countdown reaches 0 on the 750th held tick and on no earlier one; held on, it reaches 0 again exactly when the held-tick count is 750 modulo 65536 |
| Fader.Step | main.c:225-228 | the step is -1, 0 or 1, positive exactly when `a > b` and negative exactly when `a < b` |
| Fader.Fade | main.c:230-232 | one fade event moves the level one unit closer to the target (not at all when equal) and never past it, so the 8-bit addition cannot wrap |
| Fader.FadeNConverges | main.c:224-233 | after `n` fade events the distance to the target has shrunk by `n`, down to 0, and the level stayed between its start and the target |
| Fader.FullFadeTakesForty | main.c:224-233 | fading from 0 toward 40 reaches level `n` after `n` events and 40 after the 40th, then stays |
| Rgbw.Split | main.c:236-246 | white is the least of the three levels; each residual plus white gives its level back; at least one residual is 0 |
| Rgbw.SplitExample | main.c:236-246 | levels (200, 50, 120) give white 50 and residuals (150, 0, 70) |
| Dither.DitherBit | main.c:251 | the selected dither bit is 0 or 1 |
| Dither.Dithered | main.c:249-253 | the output is the gamma value shifted right by 2, plus at most 1 |
| Dither.Process | main.c:249-253 | for a level up to 40 the table index is in bounds, the output is `pwmtable[val] >> 2` plus 0 or 1, and it is at most 64 |
| Dither.DitherDensity | main.c:36-41 | dither pattern `j` has exactly `2 * j` bits set out of eight |
| Dither.WindowSumSplits | main.c:249-253 | the first `n` outputs of a cycle add up to `n` times the shifted gamma value plus the ones among the first `n` pattern bits |
| Dither.DitherAverage | main.c:249-253 | over one 8-tick cycle the outputs add up to twice the gamma value, so the average output is a quarter of it and its two low bits are not lost |
| Dither.DitherPeriod | main.c:251 | the output depends on the tick only through `loop % 8` |
| Dither.PwmTableStep | main.c:22-34 | neighbouring gamma entries never decrease |
| Dither.PwmTableMonotone | main.c:22-34 | the gamma table starts at 0, ends at 255 and is monotone |
| Dither.AverageMonotone | main.c:22-41 | a higher level never gives a lower average output over the dither cycle |
| Dither.FullScaleDither | main.c:249-253 | at level 40 the output is 63 plus the current bit of pattern 0xDD |
| Isr.Sample | main.c:170-173 | each of the three encoder samples the interrupt takes is in 0..3 |
| Isr.EncoderWiring | main.c:119-173 | phase A of red, green and blue is PC5, PC1 and PC3 in the interrupt, but PC0, PC2 and PC4 in the start-up priming as written |
| Isr.PrimeAsWritten | main.c:119-121 | each of the three priming samples is in 0..3 |
| Isr.Start | main.c:160-221 | the power-up statics (targets and levels 0, counters 0xFF, accepted state 0, countdown 0) form a well-formed state |
| Isr.Init | main.c:119-121 | the start-up state, primed from the interrupt's own encoder pins, is well formed |
| Isr.Drive | main.c:236-258 | all four compare values are at most 64 |
| Isr.DriveWhite | main.c:236-258 | OCR0A is driven from the least of the three levels, OCR2B, OCR2A and OCR0B from what red, green and blue have beyond it, and one of those three is 0 on every tick |
| Isr.EncoderBlock | main.c:168-184 | the encoder block keeps samples in 0..3 and targets in `[0, 40]` |
| Isr.PressBlock | main.c:193-208 | the debounce and toggle stage keeps the state well formed |
| Isr.RepeatBlock | main.c:210-214 | the long-press stage keeps the state well formed |
| Isr.FadeBlock | main.c:223-233 | the fade stage keeps every level in `[0, 40]` |
| Isr.LoopBlock | main.c:261 | the loop counter increment keeps the state well formed |
| Isr.Next | main.c:158-262 | one interrupt keeps the state well formed, increments the loop counter modulo 256 and remembers the new encoder samples |
| Isr.NextTarget | main.c:168-214 | the new targets are the encoder moves followed by the press toggles, or all 0 on a tick where the long-press reset fires |
| Isr.Moved | main.c:176-178 | the targets after the encoder stage; its contract is stated per channel by `Isr.MovedAt` and `Isr.EncoderMove` |
| Isr.MovedAt | main.c:176-178 | each channel's target after the encoder stage depends only on that channel's own samples |
| Isr.Toggled | main.c:206-208 | the targets after the press toggles; its contract is stated per channel by `Isr.ToggledAt` and `Isr.PressToggles` |
| Isr.ToggledAt | main.c:206-208 | a channel's target is toggled exactly when its own button (PB1 red, PB0 green, PB2 blue) was pressed |
| Isr.EncoderMove | main.c:168-184 | with no press of its button and no reset, a channel's target goes down by one for a forward Gray step and up by one for a backward step, clamped to `[0, 40]`, and stays put otherwise |
| Isr.PressToggles | main.c:204-208 | a pressed channel's target ends at 0 or 40; with its encoder at rest it ends at 40 exactly when it was 0 |
| Isr.LongPress | main.c:210-214 | the countdown reloads to 750 when no button is held, otherwise decrements modulo 65536, and the tick on which it reaches 0 clears all three targets |
| Isr.Faded | main.c:224-233 | the levels after the fade stage; its contract is stated by `Isr.FadeStage` |
| Isr.FadeStage | main.c:223-233 | the levels change only when `loop % 32 == 0`, and then each moves one unit toward its new target without passing it |
| Isr.IdleTick | main.c:158-262 | with the encoders at rest and the channel buttons accepted as released and reading high (other PINB bits free), one interrupt keeps the encoder samples, the released buttons and the targets, reloads the countdown to 750 and fades the levels |
| Isr.FadeCount | main.c:224 | counted from a fade tick, tick `n` adds a fade event exactly when `n - 1` is a multiple of 32 |
| Isr.LoopPhase | main.c:224-261 | the wrapping 8-bit loop counter keeps the phase of the 32-tick fade, since 32 divides 256 |
| Isr.IdleFadeStep | main.c:224-233 | one idle tick adds a fade event to each level exactly on a fade tick |
| Isr.IdleStep | main.c:158-262 | one idle tick preserves the idle-run invariant |
| Isr.IdleRunStep | main.c:158-262 | the idle-run invariant carries from the first `n - 1` interrupts of a run to all `n` |
| Isr.Run | main.c:158-262 | a run of interrupts, with its own PINB value on each, keeps the state well formed |
| Isr.IdleRun | main.c:158-262 | with the encoders at rest and the three button pins high on every interrupt (the other PINB bits, such as PB3 reading back the green output, may change from tick to tick), starting on a fade tick, the targets never change and after `n` interrupts each level has taken ceil(n / 32) fade events toward its target |
| Isr.RedFadeUp | main.c:224-233 | under the same idle inputs, a red level of 0 with target 40 first reaches 40 on interrupt 1249 (its 40th fade event) and stays there |
| Isr.PrimingAsWrittenMoves | main.c:119-121 | with the priming as written and only PC5 high, the first interrupt moves the red and blue targets to 1 with no encoder turned |
| Isr.PrimingIsStill | main.c:171-178 | with the priming taken from the interrupt's own pins, the first interrupt leaves all targets at 0 whatever the inputs |
| Isr.Controller.constructor | main.c:119-221 | the statics start at their initial values, with the encoders primed from the interrupt's own pins |
| Isr.Controller.ScanEncoders | main.c:168-184 | the target and last-sample fields become exactly the encoder block applied to the old state |
| Isr.Controller.PressButtons | main.c:193-208 | the debouncer and target fields become exactly the debounce and toggle stage of the old state |
| Isr.Controller.CountLongPress | main.c:210-214 | the countdown and target fields become exactly the long-press stage of the old state |
| Isr.Controller.ScanButtons | main.c:186-215 | the button block as a whole: press stage, then long-press stage |
| Isr.Controller.FadeLevels | main.c:223-233 | the level fields become exactly the fade stage of the old state |
| Isr.Controller.DriveOutputs | main.c:236-258 | the returned compare values are the white split and dithering of the current levels |
| Isr.Controller.AdvanceLoop | main.c:261 | the loop counter is incremented modulo 256 |
| Isr.Controller.Tick | main.c:158-262 | one interrupt turns the fields into `Next` of the old state and returns the compare values of the faded levels on the old loop count; the state stays well formed |

## Left out

- `main()`: peripheral setup of the DDR, PORT, TCCR, OCR and TIMSK registers, pull-ups, `sei()` and the idle loop (main.c:64-156). These are one-time hardware configuration with no logic. The only part modelled is the encoder priming (main.c:119-121).
- The compare value `F_CPU / 64.0 * 1e-3 - 0.5` (main.c:147): floating point, timer configuration only.
- Interrupt dispatch and concurrency: one call of `Tick` is one run of the handler.
- Hardware I/O: PINC and PINB are parameters of `Tick`; the OCR0A, OCR0B, OCR2A and OCR2B writes are its result. In a run (`Isr.Run`) PINC is held constant; PINB may differ on every interrupt.
- `bits.h`: register macros used only by `main()`.
- Isr.Controller.PressButtons: the three debounce statements run through the `Debounce` function rather than as separate assignments to `ct0`, `ct1` and `trk`, so that one definition of the counter logic serves both forms.
- Isr.Controller.constructor: primes the encoders from the interrupt's own pins (the corrected form, see Findings). The priming as written is `Isr.PrimeAsWritten`.
- Encoder.EncRead: its bit-level meaning is stated in `Encoder.EncReadGray` rather than on the function.
- Buttons.Debounce: its contract is stated in `Buttons.DebounceConfirms` and the lemmas after it.

Differences between the code and its documentation (the model follows the code):

- The countdown is a `uint16_t`. Held past the reset, it wraps from 0 to 65535 and fires again after another 65536 ticks, rather than staying quiet until release (`Buttons.LongPressTiming`).
- The debouncer computes `ct1 = ct0 ^ ct1` without masking by the changed bits. A change is therefore confirmed after two or four steady scans depending on the counter phase, never after one or three, and not always after two (`Buttons.CounterReloaded`, `Buttons.NotOnFirstScan`, `Buttons.NotOnThirdScan`, `Buttons.ConfirmedOnSecond`, `Buttons.ConfirmedOnFourth`, `Buttons.ConfirmationDelay`).

## Findings

| source | as written | input that shows it | evidently intended | confidence | as-written member | corrected member |
|---|---|---|---|---|---|---|
| main.c:119-121 | the start-up priming reads red from PC0/PC1, green from PC2/PC3 and blue from PC4/PC5, while the interrupt reads red from PC5/PC4, green from PC1/PC0 and blue from PC3/PC2 (main.c:171-173) | PINC = 0x20 (only PC5 high) at start-up and on the first tick: the red and blue targets become 1 with no encoder turned | priming from the same pins as the interrupt, so the first tick sees no move | not executed; low, the spurious step is one level and only on the first tick | Isr.PrimingAsWrittenMoves | Isr.PrimingIsStill |
