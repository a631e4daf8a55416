# Tak/Ni keyword spotter: touch control, decision, spectrum dump and inference glue

A model of the core of a PSoC 6 firmware. The firmware records two seconds of
audio, turns it into a spectrogram, runs a small int8 neural network on it and
announces "Ni", "Tak", "Inshe" (anything else) or silence. A capacitive-touch
panel selects LEDs and sets their brightness. The model covers:

- `touch.dfy` (module `Touch`): `touch_control`, the per-tick state machine.
  It covers new touches on button 0, button 1 and the two-button combo, the
  general and lock hold counters, the long touch, the lock toggle and the
  slider.
  - The tick is a pure function `Step`, composed of one function per phase in
    the firmware's order.
  - The class `TouchControl` runs the firmware's statements on mutable state
    (the `static` variables, the `led[]` table and the duty cycle last
    commanded to each LED). Its `Tick` is proved to equal `Step`.
  - Multi-tick lemmas follow whole gestures through `Run`.
- `widths.dfy` (module `Widths`): the ranges of `uint8_t`, `uint16_t` and
  `uint32_t`, for the explicit wrap-arounds below.
- `leds.dfy` (module `Leds`): the five-entry LED parameter table and what a
  valid brightness or duty cycle is.
- `decision.dfy` (module `Decision`): the decision block of `main`. It picks
  the candidate word, counts absent words, looks up the label and chooses the
  outcome and the LED command.
- `frames.dfy` (module `Frames`): the frame layout that `print_array` and
  `check` both walk (the upper half of every FFT frame).
- `spectrum_dump.dfy` (module `SpectrumDump`): `print_array`.
  - The text it prints is modelled as the sequence of numbers printed.
  - Runs of zeros are shortened to `0, length`. This encoder is a left fold,
    with a decoder proved to invert it.
  - The class `Printer` holds the `static uint16_t` call counter.
- `inference.dfy` (module `Inference`): `setup` (schema, allocation and
  input-shape checks) and `check` (quantizing the frames into the input tensor,
  running the network, copying the scores).
  - The globals of main_functions.cc are the class `Engine`.
  - The interpreter is not modelled. Its verdicts and the tensors it hands out
    are parameters.

Integer widths are explicit where the firmware's types make a difference:
- hold counters wrap as `uint32_t`;
- the slider brightness is computed into a `uint8_t` and wraps before the cap;
- the dump's call counter wraps as `uint16_t`;
- `zero_count` is `uint16_t`, and a precondition keeps it from wrapping.

## Behaviour worth knowing

The model follows the firmware as written. These points of its behaviour are
easy to miss:
- **Setup errors are not fatal.** On a schema mismatch, a failed allocation
  or a bad input shape, `setup` reports the error and returns, and `main` goes
  on to call `check`. `Engine.Setup` states which globals each exit leaves
  bound; `Engine.Check` states what `check` needs of them.
- **A failed inference keeps the old scores.** `check` reports the failure
  and returns with `answer` unchanged. `main` then decides on the stale (or,
  the first time, uninitialised) scores.
- **Quantization truncates.** The firmware computes
  `int8_t((float) x / 256 - 128)`:
  - it truncates toward zero and does not round or clamp;
  - the conversion is undefined for `x <= -256`, which `Quantize` requires
    away.
- **Input shape.** `setup` is called with `frame_size / 2` and compares it
  with dimension 2 of the input tensor; dimension 3 is never looked at.
- **Hold counting.** Both counters advance while any reading (button 0,
  button 1 or the combo) is touched now and was touched at the previous tick,
  whatever the focus.
- **The lock counter is not reset by a new touch.** Only the lock toggle
  resets `button_pressed_time_for_UART`, so earlier holds of a single button
  count towards the "3 sec" lock gesture. Starting from a lock counter of 0,
  if button 0 is held for 1000 ticks and released, holding both buttons then
  toggles the lock after 2001 ticks instead of 3001 (`ToggleTick`, `BothHeldTogglesLock`, `EarlierHoldShortensLock`).
- **Slider brightness.** `10 + pos * 100 / xRes` is computed into a
  `uint8_t` and then only capped at 100; there is no lower clamp. Within the
  slider's resolution the value is proved to be between 10 and 100. Beyond
  it the value is 100 until `pos * 100 / xRes` reaches 246, where the 8-bit
  wrap gives values below 10 (`SliderBrightnessBeyondRange`).
- **Outcomes.** The firmware announces Silence, "Ni", "Tak" or "Inshe".
  "Inshe" covers both "no candidate" and any other label.

## Model

| member | source | states |
|---|---|---|
| Touch.Combo | libs/functional/source/capsense.c:121-124 | the combo reading is nonzero exactly when both buttons read the same nonzero value, and then equals it |
| Touch.Select | libs/functional/source/capsense.c:133-164 | a new touch on button k focuses k and restarts the general counter. It shows LED k at its passive brightness and switches the other LEDs of 0..3 off (100). LED 4, the table and the lock counter are untouched |
| Touch.Edges | libs/functional/source/capsense.c:133-164 | no rising edge leaves the state unchanged; otherwise the last rising check in firmware order (combo over button 1 over button 0) decides the focus and the LEDs |
| Touch.Hold | libs/functional/source/capsense.c:180-185 | both counters advance by one (mod 2^32) exactly when button 0 or button 1 is touched now and at the previous tick, and nothing else changes |
| Touch.LongTouch | libs/functional/source/capsense.c:187-203 | when the general counter exceeds 1000 and the focus is not 4: with the combo, the focus is 3 and the counter keeps running; otherwise the counter restarts, LED 3 is driven at its active brightness and the focus stays. The focused LED is always driven at its active brightness. Otherwise nothing changes |
| Touch.Lock | libs/functional/source/capsense.c:205-225 | when the lock counter exceeds 3000 with focus 3, LED 4's flag flips. The focus becomes 1 when the flag was 0 and 4 otherwise, both counters restart, and the duty cycles of LEDs 1, 3 and 4 are given. Otherwise nothing changes |
| Touch.SliderBrightness | libs/functional/source/capsense.c:230-232 | always a valid duty cycle; within the slider range it is `10 + pos*100/xRes` capped at 100, so at least 10 |
| Touch.SliderBrightnessBeyondRange | libs/functional/source/capsense.c:230-232 | beyond the slider's resolution the brightness is 100 while `pos*100/xRes < 246`, and `pos*100/xRes - 246` (below 10) for the next ten values, through the `uint8_t` wrap |
| Touch.Slider | libs/functional/source/capsense.c:227-244 | a slider move sets the focused LED's active brightness (counter > 1000) or passive brightness and drives that LED with it; nothing else changes; no move, no change |
| Touch.Remember | libs/functional/source/capsense.c:246-250 | keeps the invariant after storing the readings |
| Touch.Step | libs/functional/source/capsense.c:85-260 | one tick keeps the invariant (focus in 0..4, every brightness and duty cycle in 0..100, counters in uint32) and stores this tick's readings |
| Touch.LockCounterResetOnlyByToggle | libs/functional/source/capsense.c:180-225 | in one tick the lock counter keeps its value or advances by one, unless LED 4's flag flips, and then both counters are 0 and the focus is 1 or 4 |
| Touch.Run | libs/functional/source/capsense.c:85-260 | the invariant holds after any sequence of valid readings |
| Touch.Button0HoldTick | libs/functional/source/capsense.c:180-250 | a tick of button 0 held alone, below the threshold, advances both counters by one, stores the slider reading and changes nothing else (focus, table and duty cycles kept) |
| Touch.Button0Held | libs/functional/source/capsense.c:133-203 | pressing button 0 alone and holding it n <= 1000 ticks focuses LED 0 with general counter n, advances the lock counter by n (mod 2^32) and leaves the table alone |
| Touch.Button0LongTouch | libs/functional/source/capsense.c:187-203 | 1001 held ticks after the press: counter restarted, LEDs 3 and 0 at active brightness, focus still 0 |
| Touch.Button0KeepsFocus | libs/functional/source/capsense.c:180-203 | however long button 0 alone is held, the focus stays 0 and the counter stays <= 1000 |
| Touch.BothPressed | libs/functional/source/capsense.c:133-164 | pressing both buttons from rest, whatever the lock counter, focuses LED 2 (the combo check runs last), restarts the general counter and keeps the lock counter |
| Touch.ToggleTick | libs/functional/source/capsense.c:187-225 | from a lock counter u0 at the press, the toggle needs more than 1000 held ticks and a lock counter above 3000, and is the first tick with both: 3001 from u0 = 0, 1001 once u0 >= 2000 |
| Touch.BothHeld | libs/functional/source/capsense.c:155-203 | both buttons held n ticks short of the toggle, from a lock counter u0 at the press: general counter n, lock counter u0 + n; past 1000 the focus is 3, with LED 3 at active brightness and LEDs 0..2 off; before that it is 2 |
| Touch.BothHeldTogglesLock | libs/functional/source/capsense.c:205-225 | `ToggleTick(u0)` held ticks after the press (3001 from a lock counter of 0) flip LED 4's flag, move the focus to 1 or 4 and restart both counters |
| Touch.EarlierHoldShortensLock | libs/functional/source/capsense.c:180-225 | from a lock counter of 0: button 0 held 1000 ticks and released, then both buttons held, and the lock toggles after 2001 held ticks instead of 3001 |
| Touch.Button0HoldThenRelease | libs/functional/source/capsense.c:133-250 | pressing button 0, holding it 1000 ticks and releasing it advances the lock counter by 1000 (mod 2^32), leaves both buttons released and the table unchanged |
| Touch.ReleaseTick | libs/functional/source/capsense.c:85-260 | letting go after a hold of button 0 of at most 1000 ticks only stores the readings |
| Touch.RunAppend | libs/functional/source/capsense.c:85-260 | running two sequences of readings one after the other is running their concatenation |
| Touch.TouchControl.constructor | libs/functional/source/capsense.c:97-103 | the `static` state starts at zero with the given table and duty cycles |
| Touch.TouchControl.Tick | libs/functional/source/capsense.c:85-260 | the in-place tick keeps `Valid` and its new state is `Step` of the old state |
| Touch.TouchControl.NewTouches | libs/functional/source/capsense.c:133-164 | the in-place new-touch checks give `Edges` of the old state |
| Touch.TouchControl.CountHold | libs/functional/source/capsense.c:180-185 | the in-place counting gives `Hold` of the old state |
| Touch.TouchControl.LongTouchCheck | libs/functional/source/capsense.c:187-203 | the in-place long-touch check gives `LongTouch` of the old state |
| Touch.TouchControl.LockCheck | libs/functional/source/capsense.c:205-225 | the in-place lock check gives `Lock` of the old state |
| Touch.TouchControl.SliderCheck | libs/functional/source/capsense.c:227-244 | the in-place slider handling gives `Slider` of the old state |
| Decision.CountBelow | main.c:137 | the absent count never exceeds the number of scores |
| Decision.CountBelowAll | main.c:146 | the absent count equals the number of scores exactly when every score is below -32 |
| Decision.BestUnique | main.c:133-138 | at most one position is the first position of a maximum above 64 |
| Decision.Command | main.c:146-158 | each outcome drives an LED in 0..4 with a valid duty cycle |
| Decision.Decide | main.c:130-158 | c is -1 exactly when no score exceeds 64, otherwise the first position of the largest score. The label is that of the last table entry for c, or "Nothing". The outcome is Silence exactly when every score is below -32; otherwise "Ni", "Tak" or Inshe by the label. The LED command matches the outcome |
| Frames.Gather | main.c:266-285 | the number of samples read is the frame count times the upper-half width |
| Frames.GatherAt | libs/tensorflow/lite/micro/examples/hello_world/main_functions.cc:137-145 | reading position i*w+k holds sample k of the upper half of frame i |
| Frames.GatheredCountIsHalf | main.c:259 | the samples read number frame count times half the frame size exactly when the frame size is even or there are no frames |
| SpectrumDump.ExpandAppend | main.c:229-236 | decoding whole items one after another concatenates their expansions |
| SpectrumDump.EncodedRoundTrip | main.c:266-285 | decoding what was printed and appending the pending zero run gives back the samples; the decoded output is empty or ends in a nonzero sample, so a trailing zero run is never printed |
| SpectrumDump.FeedRoundTrips | main.c:269-281 | one more sample keeps the printed output in step with the samples |
| SpectrumDump.DocExample | main.c:229-236 | the documented example encodes as documented |
| SpectrumDump.EmitSample | main.c:269-281 | the loop body on one sample is one encoder step and keeps `prev_zero` equal to "a zero run is pending" |
| SpectrumDump.EmitFrame | main.c:267-283 | the inner loop encodes the upper half of frame i |
| SpectrumDump.EmitFrames | main.c:261-285 | what is printed after the header is the encoding of the upper halves of all frames, in order |
| SpectrumDump.DumpRoundTrip | main.c:254-285 | for an even frame size, decoding a dump and padding to the size in its header gives back every sample read |
| SpectrumDump.Printer.constructor | main.c:249 | the call counter starts at 0 |
| SpectrumDump.Printer.PrintArray | main.c:248-286 | the header is SN for button 0 and SY otherwise, with the call number, the frame count and half the frame size; the counter advances mod 2^16; the body is `EmitFrames` |
| Inference.CheckFillsInput | libs/tensorflow/lite/micro/examples/hello_world/main_functions.cc:88-90 | with the shape check passed for `setup(frame_num, frame_size/2)`, `check` writes exactly the tensor's two slice dimensions' worth of values iff the frame size is even, and frame_num more when it is odd |
| Inference.Quantize | libs/tensorflow/lite/micro/examples/hello_world/main_functions.cc:140 | the result is in [-128, 0] and is `(x - 32768) / 256` truncated toward zero |
| Inference.QuantizeUnique | libs/tensorflow/lite/micro/examples/hello_world/main_functions.cc:140 | no other integer satisfies the truncation bounds |
| Inference.QuantizeMonotone | libs/tensorflow/lite/micro/examples/hello_world/main_functions.cc:140 | quantization preserves order |
| Inference.Engine.constructor | libs/tensorflow/lite/micro/examples/hello_world/main_functions.cc:28-34 | no interpreter, no tensors, count 0, nothing reported |
| Inference.Engine.Setup | libs/tensorflow/lite/micro/examples/hello_world/main_functions.cc:47-107 | schema mismatch or failed allocation: reported, setup ends. Bad shape: reported, input bound, output not. Good shape: output bound, count 0, a non-int8 input only reported |
| Inference.FillFrame | libs/tensorflow/lite/micro/examples/hello_world/main_functions.cc:138-145 | the inner loop quantizes the upper half of frame i into the next positions |
| Inference.FillInput | libs/tensorflow/lite/micro/examples/hello_world/main_functions.cc:133-147 | input position k holds the quantized k-th sample read; later positions are untouched |
| Inference.Engine.Check | libs/tensorflow/lite/micro/examples/hello_world/main_functions.cc:128-167 | needs an interpreter and an input tensor (and an output tensor when the run succeeds). The network receives the quantized upper halves, as by `FillInput`. A failed run is reported and leaves `answer` unchanged. A successful one leaves its scores in the output tensor, and `check` copies the first `wordsCount` of them into `answer`, leaving the rest alone |

## Left out

- CapSense and board drivers (`Cy_CapSense_*`, `detect_touch`, PWM set-up, UART, GPIO, audio codec): button and slider readings are parameters of `Tick`/`Step`, and `change_led_duty_cycle` is modelled as writing the commanded duty cycle into a five-entry array.
- `led[]` lives in a file that is not part of this model; its entries are the `Led` record.
- `main`'s initialisation, recording, FFT (`fft_q15`) and main loop: not modelled. The decision block is. How `main`'s arguments to `setup` and `check` relate is stated by `CheckFillsInput`, but no member runs `Engine.Setup` followed by `Engine.Check` as `main` does.
- The TensorFlow Lite runtime (`GetModel`, `AllocateTensors`, `Invoke`, tensor allocation): its verdicts and the tensors it returns are parameters.
- Floating point in `check`: the expression is exact for 16-bit inputs, so it is modelled with integers.
- `printf` formatting and the `print` of scores and outcomes: the dump is modelled as the numbers it prints, the outcome as a value.
- Inference.Engine.Check: requires an interpreter and an input tensor, and an output tensor when the run succeeds. After a schema mismatch both `input` and `interpreter` are null; after a failed allocation `input` is (the interpreter is built before allocation). Either way the firmware's `check` dereferences the null `input` at main_functions.cc:142. After a bad input shape a successful run dereferences a null `output` at main_functions.cc:161. These null dereferences are not modelled.
- Inference.Engine.Check: the network run is modelled as writing its scores into the output tensor and nothing else; scratch writes of the runtime into its arena, and the output tensor's contents after a failed run, are not modelled. The input and output tensors are required to be distinct arrays.
- Inference.Engine.Check: requires every sample read to be above -256, because the float-to-`int8_t` conversion is undefined below that; it also requires the input tensor to be large enough, which the firmware never checks.
- SpectrumDump.EmitFrames: requires fewer than 65536 samples read, so `uint16_t zero_count` cannot wrap.
- SpectrumDump.Decode / DumpRoundTrip: for an odd frame size the header's `frame_size/2` undercounts the samples read by one per frame, so only the even case is proved to round-trip.
- Touch.BothHeld / Touch.BothHeldTogglesLock: require the lock counter at the press to be at least 3000 below 2^32, so that it cannot wrap during the gesture.
- `inference_count` is reset by `setup` and never read or advanced; it is carried as a field.
- `cycfg_routing.c`, `uart_psoc6.c` and `capsense.h` are context only and are not part of this model.
