/** The capacitive-touch state machine `touch_control`, called once per
    control tick. It turns two button readings and a slider reading into the
    focused LED (`active`), two hold counters, edits of the LED parameter
    table and duty-cycle commands for the five LEDs.

    The tick is specified by `Step`, the composition of six phases in the
    order the firmware runs them; several phases may fire in one tick.
    `TouchControl.Tick` runs the same statements on mutable state and is
    proved equal to `Step`. */
module Touch {
  import opened Leds
  import opened Widths

  /** Ticks a button must be held for a long touch. */
  const LongTicks := 1000
  /** Ticks the long combo must be held to toggle the lock. */
  const LockTicks := 3000


  /** `x++` on a `uint32_t`. */
  function Inc32(x: int): int { (x + 1) % U32 }

  /** The readings of one tick: the two button flags (0 or 1), the number of
      slider touches, the slider position and the slider resolution. */
  datatype Sensors = Sensors(b0: int, b1: int, touches: int, pos: int, xRes: int)

  predicate SensorsOk(r: Sensors)
  {
    0 <= r.b0 <= 1 && 0 <= r.b1 <= 1 &&
    0 <= r.touches < U8 && 0 <= r.pos < U16 && 0 < r.xRes < U16
  }

  /** Everything `touch_control` keeps between calls: the previous readings,
      the two hold counters, the focused LED, the LED table and the last duty
      cycle commanded to each LED. */
  datatype TouchState = TouchState(
    b0Prev: int, b1Prev: int, b2Prev: int, sliderPrev: int,
    held: int, heldUart: int,
    active: int,
    leds: seq<Led>,
    duty: seq<int>)

  /** The virtual third button: the common reading when both buttons agree. */
  function Combo(b0: int, b1: int): (b2: int)
    ensures b2 != 0 <==> b0 == b1 && b0 != 0
    ensures b2 != 0 ==> b2 == b0 && b2 == b1
  {
    if b0 == b1 then b0 else 0
  }

  predicate Good(s: TouchState)
  {
    && 0 <= s.b0Prev <= 1 && 0 <= s.b1Prev <= 1
    && s.b2Prev == Combo(s.b0Prev, s.b1Prev)
    && 0 <= s.sliderPrev < U16
    && 0 <= s.held < U32 && 0 <= s.heldUart < U32
    && 0 <= s.active <= 4
    && ValidLeds(s.leds)
    && ValidDuty(s.duty)
  }

  /** A new touch: active now, inactive at the previous tick. */
  predicate Rising(prev: int, now: int) { now != 0 && prev == 0 }

  /** The duty cycle a new touch on button k commands to LED j (j < 4). */
  function FocusLevel(s: TouchState, k: int, j: int): int
    requires Good(s) && 0 <= j < LedCount
  {
    if j == k then s.leds[j].passive else FullDuty
  }

  /** The effect of a new touch on button k: focus k, restart the general
      counter, show LED k at its passive brightness and switch LEDs 0..3
      other than k off. LED 4 and the lock counter are left alone. */
  function Select(s: TouchState, k: int): (t: TouchState)
    requires Good(s) && 0 <= k <= 2
    ensures Good(t)
    ensures t.active == k && t.held == 0
    ensures t.duty[k] == s.leds[k].passive
    ensures forall j :: 0 <= j < 4 && j != k ==> t.duty[j] == FullDuty
    ensures t.duty[4] == s.duty[4]
    ensures t == s.(active := k, held := 0, duty := t.duty)
  {
    s.(held := 0, active := k,
       duty := s.duty[0 := FocusLevel(s, k, 0)][1 := FocusLevel(s, k, 1)]
                     [2 := FocusLevel(s, k, 2)][3 := FocusLevel(s, k, 3)])
  }

  /** Phase 1 (capsense.c:133-164): the three new-touch checks, in order. */
  function Edges(s: TouchState, b0: int, b1: int, b2: int): (t: TouchState)
    requires Good(s) && 0 <= b0 <= 1 && 0 <= b1 <= 1 && b2 == Combo(b0, b1)
    ensures Good(t)
    ensures !Rising(s.b0Prev, b0) && !Rising(s.b1Prev, b1) && !Rising(s.b2Prev, b2) ==> t == s
    ensures Rising(s.b2Prev, b2) ==> t == Select(s, 2)
    ensures !Rising(s.b2Prev, b2) && Rising(s.b1Prev, b1) ==> t == Select(s, 1)
    ensures !Rising(s.b2Prev, b2) && !Rising(s.b1Prev, b1) && Rising(s.b0Prev, b0) ==> t == Select(s, 0)
  {
    var t0 := if Rising(s.b0Prev, b0) then Select(s, 0) else s;
    var t1 := if Rising(s.b1Prev, b1) then Select(t0, 1) else t0;
    if Rising(s.b2Prev, b2) then Select(t1, 2) else t1
  }

  /** The hold condition exactly as the firmware writes it: some reading
      nonzero and equal to its previous value. */
  predicate Holding(s: TouchState, b0: int, b1: int, b2: int)
  {
    (b0 == s.b0Prev && 0 != b0) || (b1 == s.b1Prev && 0 != b1) || (b2 == s.b2Prev && 0 != b2)
  }

  /** Phase 2 (capsense.c:180-185): both counters advance together, by one,
      exactly when a physical button is still touched since the previous
      tick; the combo clause never adds a case. */
  function Hold(s: TouchState, b0: int, b1: int, b2: int): (t: TouchState)
    requires Good(s) && 0 <= b0 <= 1 && 0 <= b1 <= 1 && b2 == Combo(b0, b1)
    ensures Good(t)
    ensures (b0 == 1 && s.b0Prev == 1) || (b1 == 1 && s.b1Prev == 1) ==>
              t == s.(held := Inc32(s.held), heldUart := Inc32(s.heldUart))
    ensures !((b0 == 1 && s.b0Prev == 1) || (b1 == 1 && s.b1Prev == 1)) ==> t == s
  {
    if Holding(s, b0, b1, b2) then
      s.(held := Inc32(s.held), heldUart := Inc32(s.heldUart))
    else s
  }

  /** Phase 3 (capsense.c:187-203): a long touch. With the combo held the
      focus moves to LED 3 and the counter keeps running; otherwise the
      counter restarts, LED 3 lights and the focus stays. In both cases the
      focused LED is driven at its active brightness. */
  function LongTouch(s: TouchState, b2: int): (t: TouchState)
    requires Good(s) && 0 <= b2 <= 1
    ensures Good(t)
    ensures !(s.held > LongTicks && s.active != 4) ==> t == s
    ensures s.held > LongTicks && s.active != 4 ==>
      && t.leds == s.leds && t.heldUart == s.heldUart
      && t.b0Prev == s.b0Prev && t.b1Prev == s.b1Prev && t.b2Prev == s.b2Prev
      && t.sliderPrev == s.sliderPrev
      && t.duty[t.active] == s.leds[t.active].active
      && t.duty[4] == s.duty[4]
    ensures s.held > LongTicks && s.active != 4 && b2 == 1 ==>
      && t.active == 3 && t.held == s.held
      && t.duty[0] == FullDuty && t.duty[1] == FullDuty && t.duty[2] == FullDuty
    ensures s.held > LongTicks && s.active != 4 && b2 != 1 ==>
      && t.active == s.active && t.held == 0
      && t.duty[3] == s.leds[3].active
      && forall j :: 0 <= j < 3 && j != s.active ==> t.duty[j] == s.duty[j]
  {
    if s.held > LongTicks && s.active != 4 then
      var u :=
        if b2 == 1 then s.(active := 3, duty := s.duty[0 := FullDuty][1 := FullDuty][2 := FullDuty])
        else s.(held := 0, duty := s.duty[3 := s.leds[3].active]);
      u.(duty := u.duty[u.active := u.leds[u.active].active])
    else s
  }

  /** Phase 4 (capsense.c:206-225): the long combo held for more than
      `LockTicks` flips LED 4's status flag. Leaving status 0 focuses LED 1;
      otherwise the focus goes to LED 4. LED 3 goes off, LED 1 shows its
      passive brightness and both counters restart. */
  function Lock(s: TouchState): (t: TouchState)
    requires Good(s)
    ensures Good(t)
    ensures !(s.heldUart > LockTicks && s.active == 3) ==> t == s
    ensures s.heldUart > LockTicks && s.active == 3 ==>
      var unlocking := s.leds[4].status == 0;
      && t.leds == s.leds[4 := s.leds[4].(status := if unlocking then 1 else 0)]
      && t.active == (if unlocking then 1 else 4)
      && t.held == 0 && t.heldUart == 0
      && t.duty[1] == s.leds[1].passive && t.duty[3] == FullDuty
      && t.duty[4] == (if unlocking then s.leds[4].passive else s.leds[4].active)
      && t.duty[0] == s.duty[0] && t.duty[2] == s.duty[2]
      && t.b0Prev == s.b0Prev && t.b1Prev == s.b1Prev && t.b2Prev == s.b2Prev
      && t.sliderPrev == s.sliderPrev
  {
    if s.heldUart > LockTicks && s.active == 3 then
      var u := s.(duty := s.duty[3 := FullDuty]);
      var v :=
        if u.leds[4].status == 0 then
          var w := u.(leds := u.leds[4 := u.leds[4].(status := 1)]);
          var x := w.(duty := w.duty[4 := w.leds[4].passive]);
          var y := x.(active := 1);
          y.(duty := y.duty[1 := y.leds[y.active].passive])
        else
          var w := u.(duty := u.duty[4 := u.leds[4].active]);
          var x := w.(active := 4);
          var y := x.(leds := x.leds[4 := x.leds[4].(status := 0)]);
          y.(duty := y.duty[1 := y.leds[1].passive]);
      v.(held := 0, heldUart := 0)
    else s
  }

  /** The brightness a slider position selects: `10 + pos * 100 / xRes`
      computed into a `uint8_t`, then capped at 100. It is always a valid
      duty cycle, and within the slider's range it is the uncapped formula
      capped at 100, hence at least 10. */
  function SliderBrightness(pos: int, xRes: int): (b: int)
    requires 0 <= pos && 0 < xRes
    ensures InDutyRange(b)
    ensures pos <= xRes ==> 10 <= b
    ensures pos <= xRes ==> b == if 10 + pos * 100 / xRes > FullDuty then FullDuty else 10 + pos * 100 / xRes
  {
    var raw := (10 + (pos * 100) / xRes) % U8;
    if pos <= xRes then
      ScaleAtMost100(pos, xRes);
      assert raw == 10 + (pos * 100) / xRes;
      if raw > FullDuty then FullDuty else raw
    else
      if raw > FullDuty then FullDuty else raw
  }

  /** Beyond the slider's range the brightness is capped at 100 until the
      scaled position reaches 246; from there the 8-bit wrap gives values
      below 10. */
  lemma SliderBrightnessBeyondRange(pos: int, xRes: int)
    requires 0 <= pos && 0 < xRes && xRes < pos
    ensures (pos * 100) / xRes < 246 ==> SliderBrightness(pos, xRes) == FullDuty
    ensures 246 <= (pos * 100) / xRes < 256 ==> SliderBrightness(pos, xRes) == (pos * 100) / xRes - 246
  {
    var q := (pos * 100) / xRes;
    assert xRes * q > pos * 100 - xRes;
    assert xRes * (q + 1 - 100) > 0;
    PositiveFactor(xRes, q + 1 - 100);
    if q < 246 {
      assert (10 + q) % U8 == 10 + q;
    } else if q < 256 {
      assert (10 + q) % U8 == q - 246;
    }
  }

  lemma PositiveFactor(a: int, z: int)
    requires 0 < a && a * z > 0
    ensures z > 0
  {
  }

  /** Within the slider's range the scaled position is at most 100. */
  lemma ScaleAtMost100(pos: int, xRes: int)
    requires 0 <= pos <= xRes && 0 < xRes
    ensures 0 <= (pos * 100) / xRes <= 100
  {
    var q := (pos * 100) / xRes;
    assert xRes * q <= pos * 100;
    assert xRes * (q - 100) <= 0;
    SignOfProduct(xRes, q - 100);
  }

  lemma SignOfProduct(a: int, z: int)
    requires 0 < a && a * z <= 0
    ensures z <= 0
  {
  }

  /** Phase 5 (capsense.c:228-244): a slider move sets the focused LED's
      active brightness during a long touch and its passive brightness
      otherwise, and drives that LED at the new value. No other brightness
      changes. */
  function Slider(s: TouchState, touches: int, pos: int, xRes: int): (t: TouchState)
    requires Good(s) && 0 <= pos && 0 < xRes
    ensures Good(t)
    ensures !(touches != 0 && pos != s.sliderPrev) ==> t == s
    ensures touches != 0 && pos != s.sliderPrev ==>
      var b := SliderBrightness(pos, xRes);
      var e := s.leds[s.active];
      && t.leds == s.leds[s.active := if s.held > LongTicks then e.(active := b) else e.(passive := b)]
      && t.duty == s.duty[s.active := b]
      && t == s.(leds := t.leds, duty := t.duty)
  {
    if touches != 0 && pos != s.sliderPrev then
      var b := SliderBrightness(pos, xRes);
      if s.held > LongTicks then
        var u := s.(leds := s.leds[s.active := s.leds[s.active].(active := b)]);
        u.(duty := u.duty[u.active := u.leds[u.active].active])
      else
        var u := s.(leds := s.leds[s.active := s.leds[s.active].(passive := b)]);
        u.(duty := u.duty[u.active := u.leds[u.active].passive])
    else s
  }

  /** Phase 6 (capsense.c:247-250): remember this tick's readings. */
  function Remember(s: TouchState, r: Sensors, b2: int): (t: TouchState)
    requires Good(s) && SensorsOk(r) && b2 == Combo(r.b0, r.b1)
    ensures Good(t)
  {
    s.(b0Prev := r.b0, b1Prev := r.b1, b2Prev := b2, sliderPrev := r.pos)
  }

  /** One call of `touch_control`: the six phases in firmware order. The
      invariant `Good` (focus in 0..4, every brightness and duty cycle in
      0..100) is kept, and the previous readings are always this tick's. */
  function Step(s: TouchState, r: Sensors): (t: TouchState)
    requires Good(s) && SensorsOk(r)
    ensures Good(t)
    ensures t.b0Prev == r.b0 && t.b1Prev == r.b1 && t.sliderPrev == r.pos
    ensures t.b2Prev == Combo(r.b0, r.b1)
  {
    var b2 := Combo(r.b0, r.b1);
    var s1 := Edges(s, r.b0, r.b1, b2);
    var s2 := Hold(s1, r.b0, r.b1, b2);
    var s3 := LongTouch(s2, b2);
    var s4 := Lock(s3);
    var s5 := Slider(s4, r.touches, r.pos, r.xRes);
    Remember(s5, r, b2)
  }

  /** Within one tick the lock counter either keeps its value or advances
      by one, unless the lock toggles (LED 4's flag changes), and then both
      counters end at 0: a new touch never resets it. */
  lemma LockCounterResetOnlyByToggle(s: TouchState, r: Sensors)
    requires Good(s) && SensorsOk(r)
    ensures var t := Step(s, r);
      t.leds[4].status == s.leds[4].status ==> t.heldUart == s.heldUart || t.heldUart == Inc32(s.heldUart)
    ensures var t := Step(s, r);
      t.leds[4].status != s.leds[4].status ==> t.heldUart == 0 && t.held == 0 && (t.active == 1 || t.active == 4)
  {
    var b2 := Combo(r.b0, r.b1);
    var s1 := Edges(s, r.b0, r.b1, b2);
    assert s1.heldUart == s.heldUart && s1.leds == s.leds;
    var s2 := Hold(s1, r.b0, r.b1, b2);
    assert s2.leds == s.leds && (s2.heldUart == s.heldUart || s2.heldUart == Inc32(s.heldUart));
    var s3 := LongTouch(s2, b2);
    assert s3.heldUart == s2.heldUart && s3.leds == s.leds;
    var s4 := Lock(s3);
    LockToggles(s3);
    var s5 := Slider(s4, r.touches, r.pos, r.xRes);
    assert s5.leds[4].status == s4.leds[4].status && s5.heldUart == s4.heldUart;
    assert s5.held == s4.held && s5.active == s4.active;
  }

  /** The lock phase changes LED 4's flag exactly when it fires, and then
      leaves both counters at 0 and the focus on LED 1 or LED 4. */
  lemma LockToggles(s: TouchState)
    requires Good(s)
    ensures var t := Lock(s);
      (t.leds[4].status != s.leds[4].status <==> s.heldUart > LockTicks && s.active == 3) &&
      (t.leds[4].status == s.leds[4].status ==> t.heldUart == s.heldUart) &&
      (t.leds[4].status != s.leds[4].status ==> t.heldUart == 0 && t.held == 0 && (t.active == 1 || t.active == 4))
  {
  }

  predicate AllOk(rs: seq<Sensors>)
  {
    forall i :: 0 <= i < |rs| ==> SensorsOk(rs[i])
  }

  /** The state after a sequence of ticks. Whatever the readings, the
      invariant holds after every tick: the focus stays in 0..4 and every
      brightness and duty cycle in 0..100. */
  function Run(s: TouchState, rs: seq<Sensors>): (t: TouchState)
    requires Good(s) && AllOk(rs)
    ensures Good(t)
    decreases |rs|
  {
    if rs == [] then s else Step(Run(s, rs[..|rs| - 1]), rs[|rs| - 1])
  }

  lemma RunSnoc(s: TouchState, rs: seq<Sensors>, r: Sensors)
    requires Good(s) && AllOk(rs) && SensorsOk(r)
    ensures AllOk(rs + [r])
    ensures Run(s, rs + [r]) == Step(Run(s, rs), r)
  {
    assert (rs + [r])[..|rs|] == rs;
  }

  /** `n` ticks with the same readings. */
  function Repeat(r: Sensors, n: nat): (rs: seq<Sensors>)
    ensures |rs| == n
    ensures forall i :: 0 <= i < n ==> rs[i] == r
  {
    if n == 0 then [] else Repeat(r, n - 1) + [r]
  }

  /** Button 0 touched alone, slider untouched. */
  const OnlyButton0 := Sensors(1, 0, 0, 0, 1)
  /** Both buttons touched, slider untouched. */
  const BothButtons := Sensors(1, 1, 0, 0, 1)

  lemma RepeatOk(r: Sensors, n: nat)
    requires SensorsOk(r)
    ensures AllOk(Repeat(r, n))
  {
  }

  lemma RunRepeat(s: TouchState, r: Sensors, n: nat)
    requires Good(s) && SensorsOk(r)
    ensures AllOk(Repeat(r, n)) && AllOk(Repeat(r, n + 1))
    ensures Run(s, Repeat(r, n + 1)) == Step(Run(s, Repeat(r, n)), r)
  {
    RepeatOk(r, n);
    RepeatOk(r, n + 1);
    RunSnoc(s, Repeat(r, n), r);
  }

  /** One tick of button 0 alone while it is already held and the counter
      is below the long-touch threshold: both counters advance, the slider
      reading is stored, and nothing else changes. */
  lemma Button0HoldTick(t: TouchState)
    requires Good(t) && t.active == 0 && t.b0Prev == 1 && t.b1Prev == 0 && t.held < LongTicks
    ensures Step(t, OnlyButton0) == t.(held := t.held + 1, heldUart := Inc32(t.heldUart), sliderPrev := 0)
  {
    var b2 := Combo(1, 0);
    var s1 := Edges(t, 1, 0, b2);
    assert s1 == t;
    var s2 := Hold(s1, 1, 0, b2);
    assert s2 == t.(held := t.held + 1, heldUart := Inc32(t.heldUart));
    assert LongTouch(s2, b2) == s2;
    assert Lock(s2) == s2;
  }

  /** Button 0 held alone for `n` ticks since its press, the lock counter
      having stood at `u0` at the press: focus on LED 0, general counter
      `n`, lock counter `u0 + n` (as a `uint32_t`) and the table as it was. */
  predicate Button0HeldFor(t: TouchState, n: int, u0: int, leds: seq<Led>)
  {
    && t.active == 0 && t.held == n && t.heldUart == (u0 + n) % U32
    && t.b0Prev == 1 && t.b1Prev == 0 && t.leds == leds
  }

  /** Pressing button 0 alone and holding it for `n <= 1000` further ticks
      focuses LED 0 and counts `n` held ticks, without touching the table;
      the lock counter advances by `n` as well. */
  lemma {:induction false} Button0Held(s: TouchState, n: nat)
    requires Good(s) && s.b0Prev == 0 && n <= LongTicks
    ensures AllOk(Repeat(OnlyButton0, n + 1))
    ensures Button0HeldFor(Run(s, Repeat(OnlyButton0, n + 1)), n, s.heldUart, s.leds)
  {
    if n == 0 {
      Button0HeldStart(s);
    } else {
      Button0Held(s, n - 1);
      Button0HeldNext(s, n);
    }
  }

  lemma Button0HeldStart(s: TouchState)
    requires Good(s) && s.b0Prev == 0
    ensures AllOk(Repeat(OnlyButton0, 1))
    ensures Button0HeldFor(Run(s, Repeat(OnlyButton0, 1)), 0, s.heldUart, s.leds)
  {
    RunRepeat(s, OnlyButton0, 0);
    assert Run(s, Repeat(OnlyButton0, 0)) == s;
    Button0PressTick(s);
  }

  lemma Button0HeldNext(s: TouchState, n: nat)
    requires Good(s) && 0 < n <= LongTicks
    requires AllOk(Repeat(OnlyButton0, n))
    requires Button0HeldFor(Run(s, Repeat(OnlyButton0, n)), n - 1, s.heldUart, s.leds)
    ensures AllOk(Repeat(OnlyButton0, n + 1))
    ensures Button0HeldFor(Run(s, Repeat(OnlyButton0, n + 1)), n, s.heldUart, s.leds)
  {
    RunRepeat(s, OnlyButton0, n);
    var t := Run(s, Repeat(OnlyButton0, n));
    Button0HoldTick(t);
    var u := Run(s, Repeat(OnlyButton0, n + 1));
    assert u == t.(held := t.held + 1, heldUart := Inc32(t.heldUart), sliderPrev := 0);
    Inc32Shift(s.heldUart, n - 1);
  }

  /** The tick that presses button 0 alone: a new touch on button 0 and
      nothing else, the lock counter included. */
  lemma Button0PressTick(s: TouchState)
    requires Good(s) && s.b0Prev == 0
    ensures Step(s, OnlyButton0) == Select(s, 0).(b0Prev := 1, b1Prev := 0, b2Prev := 0, sliderPrev := 0)
  {
    var b2 := Combo(1, 0);
    var s1 := Edges(s, 1, 0, b2);
    assert s1 == Select(s, 0);
    assert Hold(s1, 1, 0, b2) == s1;
    assert LongTouch(s1, b2) == s1;
    assert Lock(s1) == s1;
  }

  /** Advancing a `uint32_t` counter after `k` wrapped steps. */
  lemma Inc32Shift(x: int, k: nat)
    ensures Inc32((x + k) % U32) == (x + k + 1) % U32
  {
    var y := x + k;
    var q := y / U32;
    assert y == q * U32 + y % U32;
    assert y + 1 == q * U32 + (y % U32 + 1);
  }

  /** Button 0 held for 1001 ticks after the press: the long touch restarts
      the general counter, lights LED 3 and LED 0 at their active brightness
      and leaves the focus on LED 0. */
  lemma Button0LongTouch(s: TouchState)
    requires Good(s) && s.b0Prev == 0
    ensures AllOk(Repeat(OnlyButton0, LongTicks + 2))
    ensures var t := Run(s, Repeat(OnlyButton0, LongTicks + 2));
      && t.active == 0 && t.held == 0
      && t.duty[3] == s.leds[3].active && t.duty[0] == s.leds[0].active
  {
    Button0Held(s, LongTicks);
    RunRepeat(s, OnlyButton0, LongTicks + 1);
  }

  /** However long button 0 alone stays touched after its press, the focus
      stays on LED 0 and the general counter never exceeds 1000. */
  lemma {:induction false} Button0KeepsFocus(s: TouchState, n: nat)
    requires Good(s) && s.b0Prev == 0
    ensures AllOk(Repeat(OnlyButton0, n + 1))
    ensures var t := Run(s, Repeat(OnlyButton0, n + 1));
      t.active == 0 && t.held <= LongTicks && t.b0Prev == 1 && t.b1Prev == 0
  {
    RunRepeat(s, OnlyButton0, n);
    if n == 0 {
      assert Run(s, Repeat(OnlyButton0, 0)) == s;
    } else {
      Button0KeepsFocus(s, n - 1);
      Button0KeepTick(Run(s, Repeat(OnlyButton0, n)));
    }
  }

  /** One more tick of button 0 alone keeps the focus on LED 0 and the
      counter at most 1000. */
  lemma Button0KeepTick(t: TouchState)
    requires Good(t) && t.active == 0 && t.held <= LongTicks && t.b0Prev == 1 && t.b1Prev == 0
    ensures var u := Step(t, OnlyButton0);
      u.active == 0 && u.held <= LongTicks && u.b0Prev == 1 && u.b1Prev == 0
  {
    var b2 := Combo(1, 0);
    var s1 := Edges(t, 1, 0, b2);
    assert s1 == t;
    var s2 := Hold(s1, 1, 0, b2);
    assert s2.held == t.held + 1 && s2.active == 0;
    var s3 := LongTouch(s2, b2);
    assert s3.active == 0 && s3.held <= LongTicks;
    var s4 := Lock(s3);
    assert s4 == s3;
  }

  /** The number of ticks both buttons must stay held after their press
      for the lock to toggle, when the lock counter stood at `u0` at the
      press: the focus must have moved to LED 3 (general counter above 1000)
      and the lock counter must exceed 3000. The press does not reset the
      lock counter, so only a counter starting at 0 waits the full 3001
      ticks. */
  function ToggleTick(u0: int): (n: int)
    ensures n > LongTicks && u0 + n > LockTicks
    ensures n == LongTicks + 1 || u0 + n == LockTicks + 1
  {
    if LockTicks - u0 > LongTicks then LockTicks - u0 + 1 else LongTicks + 1
  }

  /** Both buttons held for `n` ticks since their press, the lock counter
      having stood at `u0` at the press: the general counter is `n` and the
      lock counter `u0 + n`; past 1000 ticks the focus is LED 3, shown at its
      active brightness with LEDs 0..2 off; before that it is LED 2. */
  predicate BothHeldFor(t: TouchState, n: int, u0: int, leds: seq<Led>)
    requires Good(t)
  {
    && t.held == n && t.heldUart == u0 + n && t.leds == leds
    && t.b0Prev == 1 && t.b1Prev == 1
    && t.active == (if n > LongTicks then 3 else 2)
    && (n > LongTicks ==>
          t.duty[3] == leds[3].active &&
          t.duty[0] == FullDuty && t.duty[1] == FullDuty && t.duty[2] == FullDuty)
  }

  /** Pressing both buttons from rest: all three new-touch checks fire and
      the last one wins, so the focus is LED 2 and the general counter
      restarts; the lock counter keeps its value. */
  lemma BothPressed(s: TouchState)
    requires Good(s) && s.b0Prev == 0 && s.b1Prev == 0
    ensures BothHeldFor(Step(s, BothButtons), 0, s.heldUart, s.leds)
  {
  }

  lemma BothPressedRun(s: TouchState)
    requires Good(s) && s.b0Prev == 0 && s.b1Prev == 0
    ensures AllOk(Repeat(BothButtons, 1))
    ensures BothHeldFor(Run(s, Repeat(BothButtons, 1)), 0, s.heldUart, s.leds)
  {
    RunRepeat(s, BothButtons, 0);
    assert Run(s, Repeat(BothButtons, 0)) == s;
    BothPressed(s);
  }

  /** One more tick with both buttons held, short of the toggle: both
      counters advance; the tick that passes 1000 moves the focus to LED 3. */
  lemma BothHoldTick(t: TouchState, n: int, u0: int, leds: seq<Led>)
    requires Good(t) && BothHeldFor(t, n, u0, leds) && 0 <= n && 0 <= u0
    requires n + 1 < ToggleTick(u0) && u0 + n + 1 < U32
    ensures BothHeldFor(Step(t, BothButtons), n + 1, u0, leds)
  {
    var b2 := Combo(1, 1);
    var s1 := Edges(t, 1, 1, b2);
    assert s1 == t;
    var s2 := Hold(s1, 1, 1, b2);
    assert s2.held == n + 1 && s2.heldUart == u0 + n + 1;
    var s3 := LongTouch(s2, b2);
    assert s3.active == (if n + 1 > LongTicks then 3 else 2);
    var s4 := Lock(s3);
    assert s4 == s3;
  }

  lemma BothHeldNext(s: TouchState, n: nat)
    requires Good(s) && 0 < n < ToggleTick(s.heldUart) && s.heldUart + LockTicks < U32
    requires AllOk(Repeat(BothButtons, n))
    requires BothHeldFor(Run(s, Repeat(BothButtons, n)), n - 1, s.heldUart, s.leds)
    ensures AllOk(Repeat(BothButtons, n + 1))
    ensures BothHeldFor(Run(s, Repeat(BothButtons, n + 1)), n, s.heldUart, s.leds)
  {
    RunRepeat(s, BothButtons, n);
    BothHoldTick(Run(s, Repeat(BothButtons, n)), n - 1, s.heldUart, s.leds);
  }

  /** Pressing both buttons from rest and holding them for `n` further
      ticks, short of the toggle: see `BothHeldFor`. From a lock counter of
      0 this covers every `n <= 3000`. */
  lemma {:induction false} BothHeld(s: TouchState, n: nat)
    requires Good(s) && s.b0Prev == 0 && s.b1Prev == 0 && s.heldUart + LockTicks < U32
    requires n < ToggleTick(s.heldUart)
    ensures AllOk(Repeat(BothButtons, n + 1))
    ensures BothHeldFor(Run(s, Repeat(BothButtons, n + 1)), n, s.heldUart, s.leds)
  {
    if n == 0 {
      BothPressedRun(s);
    } else {
      BothHeld(s, n - 1);
      BothHeldNext(s, n);
    }
  }

  /** Holding both buttons for `ToggleTick(u0)` ticks after the press,
      where `u0` is the lock counter at the press, toggles LED 4's flag,
      moves the focus to LED 1 (flag was 0) or LED 4 (otherwise) and
      restarts both counters. That is 3001 ticks from a lock counter of 0,
      and as few as 1001 after earlier holds of a single button. */
  lemma BothHeldTogglesLock(s: TouchState)
    requires Good(s) && s.b0Prev == 0 && s.b1Prev == 0 && s.heldUart + LockTicks < U32
    ensures AllOk(Repeat(BothButtons, ToggleTick(s.heldUart) + 1))
    ensures var t := Run(s, Repeat(BothButtons, ToggleTick(s.heldUart) + 1));
      && t.leds[4].status == (if s.leds[4].status == 0 then 1 else 0)
      && t.active == (if s.leds[4].status == 0 then 1 else 4)
      && t.held == 0 && t.heldUart == 0
  {
    var n := ToggleTick(s.heldUart);
    BothHeld(s, n - 1);
    RunRepeat(s, BothButtons, n);
    BothToggleTick(Run(s, Repeat(BothButtons, n)), n - 1, s.heldUart, s.leds);
  }

  /** The tick on which both held buttons toggle the lock. */
  lemma BothToggleTick(t: TouchState, n: int, u0: int, leds: seq<Led>)
    requires Good(t) && BothHeldFor(t, n, u0, leds) && 0 <= n && 0 <= u0
    requires n + 1 == ToggleTick(u0) && u0 + LockTicks < U32
    ensures var v := Step(t, BothButtons);
      && v.leds[4].status == (if leds[4].status == 0 then 1 else 0)
      && v.active == (if leds[4].status == 0 then 1 else 4)
      && v.held == 0 && v.heldUart == 0
  {
    var b2 := Combo(1, 1);
    var s1 := Edges(t, 1, 1, b2);
    assert s1 == t;
    var s2 := Hold(s1, 1, 1, b2);
    assert s2.held == n + 1 && s2.heldUart == Inc32(u0 + n);
    var s3 := LongTouch(s2, b2);
    assert s3.active == 3 && s3.heldUart == s2.heldUart && s3.leds == leds;
  }

  /** Readings with nothing touched. */
  const NoTouch := Sensors(0, 0, 0, 0, 1)

  /** The first hold and release of `EarlierHoldShortensLock`: pressing
      button 0 alone, holding it for 1000 ticks and letting go advances the
      lock counter by 1000 (as a `uint32_t`) and leaves the table alone. */
  lemma Button0HoldThenRelease(s: TouchState)
    requires Good(s) && s.b0Prev == 0
    ensures AllOk(Repeat(OnlyButton0, LongTicks + 1) + [NoTouch])
    ensures var t := Run(s, Repeat(OnlyButton0, LongTicks + 1) + [NoTouch]);
      && t.b0Prev == 0 && t.b1Prev == 0 && t.leds == s.leds
      && t.heldUart == (s.heldUart + LongTicks) % U32
  {
    Button0Held(s, LongTicks);
    RepeatOk(OnlyButton0, LongTicks + 1);
    var hold := Repeat(OnlyButton0, LongTicks + 1);
    RunSnoc(s, hold, NoTouch);
    ReleaseTick(Run(s, hold));
  }

  /** A hold of button 0 shortens a later lock gesture: from a lock counter
      of 0, press button 0, hold it for 1000 ticks, release it, then press
      both buttons. The lock
      toggles once both buttons have been held for 2001 ticks after their
      press instead of 3001, because the lock counter kept the 1000 ticks of
      the first hold. */
  lemma EarlierHoldShortensLock(s: TouchState)
    requires Good(s) && s.b0Prev == 0 && s.heldUart == 0
    ensures var first := Repeat(OnlyButton0, LongTicks + 1) + [NoTouch];
      var rs := first + Repeat(BothButtons, 2002);
      AllOk(rs) &&
      var t := Run(s, rs);
      && t.leds[4].status == (if s.leds[4].status == 0 then 1 else 0)
      && t.active == (if s.leds[4].status == 0 then 1 else 4)
      && t.held == 0 && t.heldUart == 0
  {
    var first := Repeat(OnlyButton0, LongTicks + 1) + [NoTouch];
    Button0HoldThenRelease(s);
    var u := Run(s, first);
    assert ToggleTick(u.heldUart) == 2001;
    BothHeldTogglesLock(u);
    RunAppend(s, first, Repeat(BothButtons, 2002));
  }

  lemma AllOkAppend(a: seq<Sensors>, b: seq<Sensors>)
    ensures AllOk(a + b) <==> AllOk(a) && AllOk(b)
  {
    assert forall i :: 0 <= i < |a| ==> (a + b)[i] == a[i];
    assert forall i :: 0 <= i < |b| ==> (a + b)[|a| + i] == b[i];
  }

  /** Running two sequences of readings one after the other. */
  lemma {:induction false} RunAppend(s: TouchState, a: seq<Sensors>, b: seq<Sensors>)
    requires Good(s) && AllOk(a) && AllOk(b)
    ensures AllOk(a + b)
    ensures Run(s, a + b) == Run(Run(s, a), b)
    decreases |b|
  {
    AllOkAppend(a, b);
    if b == [] {
      assert a + b == a;
    } else {
      var init, r := b[..|b| - 1], b[|b| - 1];
      assert b == init + [r];
      AllOkAppend(init, [r]);
      RunAppend(s, a, init);
      assert a + b == (a + init) + [r];
      RunSnoc(s, a + init, r);
      RunSnoc(Run(s, a), init, r);
    }
  }

  /** A tick with nothing touched after button 0 alone was held for at most
      1000 ticks only stores the readings. */
  lemma ReleaseTick(t: TouchState)
    requires Good(t) && t.active == 0 && t.held <= LongTicks
    ensures Step(t, NoTouch) == t.(b0Prev := 0, b1Prev := 0, b2Prev := 0, sliderPrev := 0)
  {
    var s1 := Edges(t, 0, 0, 0);
    assert s1 == t;
    assert Hold(s1, 0, 0, 0) == t;
    assert LongTouch(t, 0) == t;
    assert Lock(t) == t;
  }

  /** `touch_control` with its `static` variables, the `led[]` table, the
      duty cycle last commanded to each LED (standing for the PWM
      peripheral) and the caller's `*active_button`, all updated in place. */
  class TouchControl {
    var b0Prev: int
    var b1Prev: int
    var b2Prev: int
    var sliderPrev: int
    var held: int
    var heldUart: int
    var active: int
    const leds: array<Led>
    const duty: array<int>

    function State(): TouchState
      reads this, leds, duty
    {
      TouchState(b0Prev, b1Prev, b2Prev, sliderPrev, held, heldUart, active, leds[..], duty[..])
    }

    ghost predicate Valid()
      reads this, leds, duty
    {
      Good(State())
    }

    /** The state at boot: `static` variables are zero, the table and the
        duty cycles are whatever the LED driver set up, and the caller's
        focus is `start`. */
    constructor (table: seq<Led>, initialDuty: seq<int>, start: int)
      requires ValidLeds(table) && ValidDuty(initialDuty) && 0 <= start <= 4
      ensures Valid()
      ensures State() == TouchState(0, 0, 0, 0, 0, 0, start, table, initialDuty)
      ensures fresh(leds) && fresh(duty)
    {
      b0Prev, b1Prev, b2Prev, sliderPrev := 0, 0, 0, 0;
      held, heldUart := 0, 0;
      active := start;
      leds := new Led[LedCount](k requires 0 <= k < LedCount => table[k]);
      duty := new int[LedCount](k requires 0 <= k < LedCount => initialDuty[k]);
      new;
      assert leds[..] == table;
      assert duty[..] == initialDuty;
    }

    /** One call of `touch_control` with this tick's readings. */
    method Tick(b0: int, b1: int, touches: int, pos: int, xRes: int)
      requires Valid() && SensorsOk(Sensors(b0, b1, touches, pos, xRes))
      modifies this, leds, duty
      ensures Valid()
      ensures State() == Step(old(State()), Sensors(b0, b1, touches, pos, xRes))
    {
      var b2 := 0;
      if b0 == b1 {
        b2 := b0;
      }
      assert b2 == Combo(b0, b1);
      ghost var s0 := State();
      NewTouches(b0, b1, b2);
      ghost var s1 := State();
      CountHold(b0, b1, b2);
      ghost var s2 := State();
      LongTouchCheck(b2);
      ghost var s3 := State();
      LockCheck();
      ghost var s4 := State();
      SliderCheck(touches, pos, xRes);
      ghost var s5 := State();
      assert s5 == Slider(Lock(LongTouch(Hold(Edges(s0, b0, b1, b2), b0, b1, b2), b2)), touches, pos, xRes);
      b0Prev := b0;
      b1Prev := b1;
      b2Prev := b2;
      sliderPrev := pos;
    }

    /** capsense.c:133-164. */
    method NewTouches(b0: int, b1: int, b2: int)
      requires Valid() && 0 <= b0 <= 1 && 0 <= b1 <= 1 && b2 == Combo(b0, b1)
      modifies this, leds, duty
      ensures State() == Edges(old(State()), b0, b1, b2)
    {
      ghost var s0 := State();
      if 0 != b0 && 0 == b0Prev {
        held := 0;
        active := 0;
        duty[0] := leds[0].passive;
        duty[1] := FullDuty;
        duty[2] := FullDuty;
        duty[3] := FullDuty;
      }
      ghost var t0 := State();
      assert t0 == if Rising(s0.b0Prev, b0) then Select(s0, 0) else s0;
      if 0 != b1 && 0 == b1Prev {
        held := 0;
        active := 1;
        duty[0] := FullDuty;
        duty[1] := leds[1].passive;
        duty[2] := FullDuty;
        duty[3] := FullDuty;
      }
      assert State() == if Rising(s0.b1Prev, b1) then Select(t0, 1) else t0;
      if 0 != b2 && 0 == b2Prev {
        held := 0;
        active := 2;
        duty[0] := FullDuty;
        duty[1] := FullDuty;
        duty[2] := leds[2].passive;
        duty[3] := FullDuty;
      }
    }

    /** capsense.c:180-185. */
    method CountHold(b0: int, b1: int, b2: int)
      requires Valid() && 0 <= b0 <= 1 && 0 <= b1 <= 1 && b2 == Combo(b0, b1)
      modifies this
      ensures State() == Hold(old(State()), b0, b1, b2)
    {
      if (b0 == b0Prev && 0 != b0) || (b1 == b1Prev && 0 != b1) || (b2 == b2Prev && 0 != b2) {
        held := Inc32(held);
        heldUart := Inc32(heldUart);
      }
    }

    /** capsense.c:187-203. */
    method LongTouchCheck(b2: int)
      requires Valid() && 0 <= b2 <= 1
      modifies this, duty
      ensures State() == LongTouch(old(State()), b2)
    {
      if held > LongTicks && 4 != active {
        if 1 == b2 {
          active := 3;
          duty[0] := FullDuty;
          duty[1] := FullDuty;
          duty[2] := FullDuty;
        } else {
          held := 0;
          duty[3] := leds[3].active;
        }
        duty[active] := leds[active].active;
      }
    }

    /** capsense.c:206-225. */
    method LockCheck()
      requires Valid()
      modifies this, leds, duty
      ensures State() == Lock(old(State()))
    {
      if heldUart > LockTicks && 3 == active {
        duty[3] := FullDuty;
        if 0 == leds[4].status {
          leds[4] := leds[4].(status := 1);
          duty[4] := leds[4].passive;
          active := 1;
          duty[1] := leds[active].passive;
        } else {
          duty[4] := leds[4].active;
          active := 4;
          leds[4] := leds[4].(status := 0);
          duty[1] := leds[1].passive;
        }
        held := 0;
        heldUart := 0;
      }
    }

    /** capsense.c:228-244. */
    method SliderCheck(touches: int, pos: int, xRes: int)
      requires Valid() && 0 <= pos && 0 < xRes
      modifies leds, duty
      ensures State() == Slider(old(State()), touches, pos, xRes)
    {
      if 0 != touches && pos != sliderPrev {
        var brightness := (10 + (pos * 100) / xRes) % U8;
        if brightness > FullDuty {
          brightness := FullDuty;
        }
        assert brightness == SliderBrightness(pos, xRes);
        if held > LongTicks {
          leds[active] := leds[active].(active := brightness);
          duty[active] := leds[active].active;
        } else {
          leds[active] := leds[active].(passive := brightness);
          duty[active] := leds[active].passive;
        }
      }
    }
  }
}
