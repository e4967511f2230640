/** What the registers of the sound channels mean and how the channels sound, in numbers. */
module Channels {
  import opened Words
  import opened Bits
  import opened ByteBits
  import opened ApuSpec
  import opened ApuRuns

  // ----- register bytes

  /** $4000: duty, hold, constant volume and level, from the high bits down. */
  lemma ControlByte(p: Pulse, duty: nat, hold: bool, constant: bool, level: nat, val: u8)
    requires duty < 4 && level < 16 && val == 64 * duty + 32 * Flag(hold) + 16 * Flag(constant) + level
    ensures
      var r := WritePulse(p, 0, val);
      && r.dutyCycle == duty && r.length == p.length.(enabled := !hold)
      && r.envelope == p.envelope.(loops := hold, enabled := !constant, constant := level)
      && r.freqTimer == p.freqTimer && r.freqCounter == p.freqCounter && r.dutyCounter == p.dutyCounter
      && r.sweep == p.sweep && r.enabled == p.enabled && r.forceSilent == p.forceSilent
  {
    Fields(duty, Flag(hold), Flag(constant), level, val);
  }

  lemma Fields(a: nat, b: nat, c: nat, d: nat, val: nat)
    requires a < 4 && b < 2 && c < 2 && d < 16 && val == 64 * a + 32 * b + 16 * c + d
    ensures val / 64 == a && val / 32 % 2 == b && val / 16 % 2 == c && val % 16 == d
  {
  }

  /** $4001: enable, period, direction and shift. A shift of zero switches the sweep off. */
  lemma SweepByte(p: Pulse, enable: bool, period: nat, negate: bool, shift: nat, val: u8)
    requires period < 8 && shift < 8 && val == 128 * Flag(enable) + 16 * period + 8 * Flag(negate) + shift
    ensures
      WritePulse(p, 1, val).sweep == Sweep(enable && shift > 0, true, negate, period, p.sweep.counter, shift)
  {
  }

  /** Two bytes make a timer of eleven bits; the high one starts the period over and loads the length. */
  lemma TimerBytes(p: Pulse, lo: u8, hi: u8)
    requires PulseOk(p)
    ensures
      var r := WritePulse(WritePulse(p, 2, lo), 3, hi);
      && r.freqTimer == 256 * (hi % 8) + lo && r.freqCounter == r.freqTimer && r.dutyCounter == 0
      && r.envelope == p.envelope.(restart := true)
      && r.length == (if p.enabled then p.length.(counter := LENGTHS[hi / 8]) else p.length)
    ensures WritePulse(WritePulse(p, 3, hi), 2, lo).freqTimer == 256 * (hi % 8) + lo
  {
    TwoBytes(p.freqTimer, lo, hi % 8);
  }

  lemma TwoBytes(timer: nat, lo: nat, hi: nat)
    requires lo < 256
    ensures (timer / 256 * 256 + lo) % 256 == lo && (timer % 256 + hi * 256) / 256 == hi
  {
  }

  /** The same for the triangle; bit 7 of $4008 holds its length counter. */
  lemma TriangleBytes(t: Triangle, lo: u8, hi: u8)
    requires TriangleOk(t)
    ensures
      var r := WriteTriangle(WriteTriangle(t, 2, lo), 3, hi);
      && r.freqTimer == 256 * (hi % 8) + lo && r.freqCounter == r.freqTimer && r.step == t.step
      && r.linear == t.linear.(reload := true)
      && r.length == (if t.enabled then t.length.(counter := LENGTHS[hi / 8]) else t.length)
    ensures WriteTriangle(WriteTriangle(t, 3, hi), 2, lo).freqTimer == 256 * (hi % 8) + lo
  {
    TwoBytes(t.freqTimer, lo, hi % 8);
  }

  /** Bit 7 of $4008 holds the length counter and the linear counter of the triangle. */
  lemma TriangleControl(t: Triangle, val: u8)
    ensures
      var r := WriteTriangle(t, 0, val);
      && r.linear.control == (val >= 128) && r.length == t.length.(enabled := val < 128)
      && r.freqTimer == t.freqTimer && r.step == t.step && r.linear.reload == t.linear.reload
  {
  }

  /** $400C is like $4000 without the duty; $400F loads the length and starts the envelope over. */
  lemma NoiseBytes(n: Noise, hold: bool, constant: bool, level: nat, val: u8, length: u8)
    requires level < 16 && val == 32 * Flag(hold) + 16 * Flag(constant) + level
    ensures
      var r := WriteNoise(n, 0, val);
      && r.length == n.length.(enabled := !hold)
      && r.envelope == n.envelope.(loops := hold, enabled := !constant, constant := level)
      && r.freqTimer == n.freqTimer && r.shift == n.shift && r.longTap == n.longTap
    ensures
      var r := WriteNoise(n, 3, length);
      && r.envelope == n.envelope.(restart := true)
      && r.length == (if n.enabled then n.length.(counter := LENGTHS[length / 8]) else n.length)
      && r.freqTimer == n.freqTimer && r.shift == n.shift && r.longTap == n.longTap
  {
    Fields(0, Flag(hold), Flag(constant), level, val);
  }

  // ----- lengths

  /** The lengths at odd numbers are 254 and then the number less one. */
  lemma OddLengths(i: nat)
    requires i < 32 && i % 2 == 1
    ensures LENGTHS[i] == if i == 1 then 254 else i - 1
  {
  }

  /** At even ones they double, from 10 and from 12; the rest are fractions of these. */
  lemma EvenLengths(i: nat)
    requires i < 5
    ensures LENGTHS[2 * i] == 10 * Pow2(i) && LENGTHS[16 + 2 * i] == 12 * Pow2(i)
    ensures LENGTHS[10] == 60 && LENGTHS[12] == 14 && LENGTHS[14] == 26
    ensures LENGTHS[26] == 72 && LENGTHS[28] == 16 && LENGTHS[30] == 32
  {
    Powers();
    hide Pow2;
  }

  function HalfFrames(l: Length, n: nat): Length {
    if n == 0 then l else ClockLength(HalfFrames(l, n - 1))
  }

  /** A length counter falls by one a half frame, to zero, unless it is held. */
  lemma {:induction false} LengthFalls(l: Length, n: nat)
    ensures HalfFrames(l, n) == l.(counter := if l.enabled then Max(0, l.counter - n) else l.counter)
  {
    if n > 0 {
      LengthFalls(l, n - 1);
    }
  }

  function QuarterFrames(l: Linear, n: nat): Linear {
    if n == 0 then l else ClockLinear(QuarterFrames(l, n - 1))
  }

  /** A reloaded linear counter stays at its value while it is held; released, it falls by one a quarter
    frame to zero. */
  lemma {:induction false} LinearFalls(l: Linear, n: nat)
    requires l.reload
    ensures
      QuarterFrames(l, n + 1) ==
        if l.control then l.(counter := l.load) else l.(counter := Max(0, l.load - n), reload := false)
  {
    assert QuarterFrames(l, n + 1) == ClockLinear(QuarterFrames(l, n));
    if n > 0 {
      LinearFalls(l, n - 1);
    }
  }

  // ----- pulse channels

  /** Of the eight places of a cycle 1, 2, 4 or 6 are high, and the last pattern is the second inverted. */
  lemma DutyTable(cycle: nat, place: nat)
    requires cycle < 4 && place < 8
    ensures DUTY[cycle][place] <= 1 && DUTY[3][place] == 1 - DUTY[1][place]
    ensures DUTY[cycle][place] == 1 <==> (if cycle == 3 then place == 0 || place > 2 else 1 <= place <= Pow2(cycle))
  {
    assert Pow2(0) == 1 && Pow2(1) == 2 && Pow2(2) == 4;
  }

  /** The sum of the outputs at the first places of the cycle. */
  function Heard(p: Pulse, places: nat): (sum: nat)
    requires p.dutyCycle < 4 && places <= 8
  {
    if places == 0 then 0 else Heard(p, places - 1) + PulseOutput(p.(dutyCounter := places - 1))
  }

  predicate Audible(p: Pulse) {
    p.length.counter != 0 && !p.forceSilent && p.freqTimer >= 8
    && (p.sweep.negate || p.freqTimer + p.freqTimer / Pow2(p.sweep.shift) < 0x800)
  }

  lemma {:induction false} HalvedIs(n: nat, shift: nat)
    ensures Halved(n, shift) == n / Pow2(shift)
    decreases shift
  {
    if shift > 0 {
      HalvedIs(n / 2, shift - 1);
      HalfMod(n, Pow2(shift - 1));
    }
  }

  lemma PlaceSounds(p: Pulse, place: nat)
    requires PulseOk(p) && place < 8
    ensures
      PulseOutput(p.(dutyCounter := place)) ==
        if Audible(p) && DUTY[p.dutyCycle][place] == 1 then (if p.envelope.enabled then p.envelope.volume
                                                             else p.envelope.constant)
        else 0
  {
    DutyTable(p.dutyCycle, place);
    HalvedIs(p.freqTimer, p.sweep.shift);
    hide Halved, Pow2;
  }

  /** The high ones of the first places. */
  function HighPlaces(cycle: nat, places: nat): nat
    requires cycle < 4 && places <= 8
  {
    if places == 0 then 0 else HighPlaces(cycle, places - 1) + DUTY[cycle][places - 1]
  }

  lemma HighIs(cycle: nat)
    requires cycle < 4
    ensures HighPlaces(cycle, 8) == [1, 2, 4, 6][cycle]
  {
    var d := DUTY[cycle];
    assert HighPlaces(cycle, 1) == d[0];
    assert HighPlaces(cycle, 2) == d[0] + d[1];
    assert HighPlaces(cycle, 4) == HighPlaces(cycle, 2) + d[2] + d[3];
    assert HighPlaces(cycle, 6) == HighPlaces(cycle, 4) + d[4] + d[5];
    assert HighPlaces(cycle, 8) == HighPlaces(cycle, 6) + d[6] + d[7];
  }

  lemma {:induction false} HeardIs(p: Pulse, places: nat)
    requires PulseOk(p) && places <= 8
    ensures
      Heard(p, places) ==
        if !Audible(p) then 0
        else HighPlaces(p.dutyCycle, places) * if p.envelope.enabled then p.envelope.volume else p.envelope.constant
  {
    hide PulseOutput, Audible;
    if places > 0 {
      HeardIs(p, places - 1);
      PlaceSounds(p, places - 1);
      DutyTable(p.dutyCycle, places - 1);
      OneMore(HighPlaces(p.dutyCycle, places - 1), DUTY[p.dutyCycle][places - 1],
              if p.envelope.enabled then p.envelope.volume else p.envelope.constant);
    }
  }

  lemma OneMore(n: nat, high: nat, level: nat)
    requires high <= 1
    ensures (n + high) * level == n * level + if high == 1 then level else 0
  {
  }

  /** A channel is heard in 1, 2, 4 or 6 places of its cycle at its volume, unless its length is used up, it is
    switched off, its timer is below 8 or the sweep would take it above 2047. */
  lemma PulseIsHeard(p: Pulse)
    requires PulseOk(p)
    ensures
      Heard(p, 8) ==
        if !Audible(p) then 0
        else [1, 2, 4, 6][p.dutyCycle] * if p.envelope.enabled then p.envelope.volume else p.envelope.constant
  {
    hide Heard, HighPlaces, Audible;
    HeardIs(p, 8);
    HighIs(p.dutyCycle);
  }

  /** The state of the sweep after so many half frames. */
  function Sweeps(p: Pulse, n: nat): Pulse {
    if n == 0 then p else ClockSweep(Sweeps(p, n - 1))
  }

  lemma {:induction false} SweepWaits(p: Pulse, n: nat)
    requires !p.sweep.reload && n <= p.sweep.counter
    ensures Sweeps(p, n) == p.(sweep := p.sweep.(counter := p.sweep.counter - n))
  {
    if n > 0 {
      SweepWaits(p, n - 1);
      hide Silencing, Halved;
    }
  }

  /** Once every period + 1 half frames a sweep that is on moves the timer by the timer over 2^shift: up, or
    down, and down by one more on the second channel. It rests while the channel is silenced. */
  lemma SweepMoves(p: Pulse)
    requires PulseOk(p) && !p.sweep.reload && p.sweep.counter == p.sweep.timer
    ensures
      var r, part := Sweeps(p, p.sweep.timer + 1), p.freqTimer / Pow2(p.sweep.shift);
      && r == p.(freqTimer := r.freqTimer)
      && r.freqTimer ==
         if !p.sweep.enabled || p.freqTimer < 8 || (!p.sweep.negate && p.freqTimer + part >= 0x800) then p.freqTimer
         else if !p.sweep.negate then p.freqTimer + part
         else if p.first then p.freqTimer - part
         else p.freqTimer - part - 1
  {
    hide Halved, Pow2;
    SweepWaits(p, p.sweep.timer);
    HalvedIs(p.freqTimer, p.sweep.shift);
  }

  // ----- triangle

  function TriangleClocks(t: Triangle, n: nat): Triangle {
    if n == 0 then t else ClockTriangle(TriangleClocks(t, n - 1))
  }

  /** While both its counters run, a triangle with a timer of at least 2 moves on through its 32 steps once
    every timer + 1 clocks. */
  lemma {:induction false} TriangleSteps(t: Triangle, n: nat)
    requires TriangleOk(t) && t.freqCounter == t.freqTimer && t.freqTimer >= 2 && !t.ultrasonic
    requires t.length.counter > 0 && t.linear.counter > 0 && t.step == 0
    ensures
      var period := t.freqTimer + 1;
      TriangleClocks(t, n) == t.(freqCounter := t.freqTimer - Rest(n, period), step := Rest(Periods(n, period), 32))
  {
    hide Rest, Periods;
    var period := t.freqTimer + 1;
    if n == 0 {
      RestStep(0, period);
      RestStep(0, 32);
    } else {
      TriangleSteps(t, n - 1);
      RestStep(n - 1, period);
      RestStep(Periods(n - 1, period), 32);
    }
  }

  /** It rests while one of its counters has run out, or its timer is below 2. */
  lemma TriangleRests(t: Triangle, n: nat)
    requires t.length.counter == 0 || t.linear.counter == 0 || (t.freqTimer < 2 && t.freqCounter == 0)
    ensures
      TriangleClocks(t, n + 1) ==
        t.(ultrasonic := t.length.counter > 0 && t.freqTimer < 2 && t.freqCounter == 0)
  {
    assert TriangleClocks(t, n + 1) == ClockTriangle(TriangleClocks(t, n));
    if n > 0 {
      TriangleRests(t, n - 1);
    }
  }

  /** It rises from 0 to 15 and falls back, each level twice in 32 steps; at an inaudible pitch it rests at
    the middle. */
  lemma TriangleIsHeard(t: Triangle, step: nat)
    requires step < 32
    ensures t.forceSilent ==> TriangleOutput2(t) == 0
    ensures !t.forceSilent && t.ultrasonic ==> TriangleOutput2(t) == 15
    ensures !t.ultrasonic ==> TriangleOutput2(t.(step := step)) == TriangleOutput2(t.(step := 31 - step))
    ensures !t.forceSilent && !t.ultrasonic && step < 16 ==> TriangleOutput2(t.(step := step)) == 2 * step
  {
  }

  // ----- noise

  /** The bit that is fed back: bit 0 against bit 1, or against bit 6 in the short mode. */
  function FedBack(n: nat, short: bool): nat {
    if n % 2 == (if short then n / 64 % 2 else n / 2 % 2) then 0 else 1
  }

  function QuarterOf(s: bv16): bv16 { HalfOf(HalfOf(s)) }

  lemma Quartered(s: bv16)
    requires s < 0x4000
    ensures QuarterOf(s) < 0x4000 && QuarterOf(s) as int == s as int / 4
    ensures HalfOf(s) < 0x4000
  {
    hide HalfOf;
    SmallHalf(s);
    SmallHalf(HalfOf(s));
    Word14(s);
    Word14(HalfOf(s));
  }

  lemma SmallHalf(s: bv16)
    requires s < 0x4000
    ensures HalfOf(s) < 0x4000
  {
  }

  /** Six places to the right. */
  function Sixth(s: bv16): bv16 {
    QuarterOf(QuarterOf(QuarterOf(s)))
  }

  lemma Sixths(s: bv16)
    requires s < 0x4000
    ensures Sixth(s) < 0x4000 && Sixth(s) as int == s as int / 64
  {
    hide QuarterOf;
    Quartered(s);
    Quartered(QuarterOf(s));
    Quartered(QuarterOf(QuarterOf(s)));
  }

  function Raised(half: bv16): bv16 { half + 0x2000 }

  function Tap(s: bv16, short: bool): bv16 { if short then Sixth(s) else HalfOf(s) }

  lemma FeedbackParts(s: bv16, short: bool)
    requires InUse(s)
    ensures Feedback(s, short) == if UnitOf(s) == UnitOf(Tap(s, short)) then HalfOf(s) else Raised(HalfOf(s))
    ensures HalfOf(s) < 0x2000
  {
  }

  lemma AddTop(half: bv16)
    requires half < 0x2000
    ensures Raised(half) as int == half as int + 0x2000
  {
  }

  lemma TapIs(s: bv16, short: bool)
    requires s < 0x4000
    ensures Tap(s, short) < 0x4000 && Tap(s, short) as int == if short then s as int / 64 else s as int / 2
  {
    hide HalfOf, Sixth;
    Word14(s);
    SmallHalf(s);
    Sixths(s);
  }

  lemma UnitDigit(a: bv16)
    requires a < 0x4000
    ensures UnitOf(a) == if a as int % 2 == 0 then 0 else 1
  {
    hide UnitOf, HalfOf, EvenOf;
    Word14(a);
    EvenHalves(a);
    UnitIs(UnitOf(a));
  }

  lemma SameUnit(a: bv16, b: bv16)
    requires a < 0x4000 && b < 0x4000
    ensures UnitOf(a) == UnitOf(b) <==> a as int % 2 == b as int % 2
  {
    hide UnitOf, HalfOf, EvenOf;
    UnitDigit(a);
    UnitDigit(b);
  }

  lemma FedIn(s: bv16, half: bv16)
    requires s < 0x4000 && half == HalfOf(s) && half < 0x2000
    ensures half as int == s as int / 2 && Raised(half) as int == s as int / 2 + 0x2000
  {
    hide HalfOf, UnitOf, EvenOf, Raised;
    Word14(s);
    AddTop(half);
  }

  /** The register moves right by one place, and the bit fed back comes in at the top of fourteen. */
  lemma FeedbackIs(s: bv16, short: bool)
    requires InUse(s)
    ensures Feedback(s, short) as int == s as int / 2 + 0x2000 * FedBack(s as int, short)
  {
    hide Feedback, HalfOf, UnitOf, EvenOf, Tap, Raised;
    FeedbackParts(s, short);
    TapIs(s, short);
    SameUnit(s, Tap(s, short));
    FedIn(s, HalfOf(s));
  }

  /** No two states have the same successor, so that the sequence comes back to where it began. */
  lemma FeedbackIsOneToOne(s: bv16, r: bv16, short: bool)
    requires InUse(s) && InUse(r) && Feedback(s, short) == Feedback(r, short)
    ensures s == r
  {
  }

  function NoiseRun(n: Noise, clocks: nat): Noise {
    if clocks == 0 then n else ClockNoise(NoiseRun(n, clocks - 1))
  }

  function Fed(s: bv16, short: bool, steps: nat): bv16 {
    if steps == 0 then s else Feedback(Fed(s, short, steps - 1), short)
  }

  /** The register moves once every timer + 1 clocks. */
  lemma {:induction false} NoiseSteps(n: Noise, clocks: nat)
    requires n.freqTimer >= 0 && n.freqCounter == n.freqTimer
    ensures
      var period := n.freqTimer + 1;
      NoiseRun(n, clocks) ==
        n.(freqCounter := n.freqTimer - Rest(clocks, period), shift := Fed(n.shift, n.longTap, Periods(clocks, period)))
  {
    hide Rest, Periods, Feedback;
    var period := n.freqTimer + 1;
    if clocks == 0 {
      RestStep(0, period);
    } else {
      NoiseSteps(n, clocks - 1);
      RestStep(clocks - 1, period);
    }
  }

  /** Noise is heard at its volume while the lowest bit is clear. */
  lemma NoiseIsHeard(n: Noise)
    requires InUse(n.shift)
    ensures
      NoiseOutput(n) ==
        if n.shift as int % 2 == 1 || n.length.counter == 0 || n.forceSilent then 0
        else if n.envelope.enabled then n.envelope.volume
        else n.envelope.constant
  {
    UnitDigit(n.shift);
  }

  /** The period is the number in the table of the console, NTSC or the other two. */
  lemma NoisePeriods(n: Noise, val: u8)
    ensures
      var r := WriteNoise(n, 2, val);
      && r.freqTimer + 1 == (if n.region == Ntsc then NOISE_NTSC else NOISE_PAL)[val % 16]
      && r.longTap == (val >= 128) && r.shift == n.shift
  {
  }

  // ----- samples

  /** A step of the output unit takes half the number in the table, in clocks of two cycles each. */
  lemma DmcPeriods(d: Dmc, val: u8)
    ensures
      var r := WriteDmc(d, 0, val);
      && 2 * (r.freqTimer / 2 + 1) == (if d.region == Ntsc then DMC_NTSC else DMC_PAL)[val % 16]
      && r.irqEnabled == (val >= 128) && r.loops == (val % 128 >= 64)
      && r.irqPending == (d.irqPending && val >= 128)
  {
  }

  function Checks(d: Dmc, n: nat): Dmc {
    if n == 0 then d else CheckPendingDma(Checks(d, n - 1))
  }

  /** A channel that is switched on while idle and empty asks for its first byte two cycles later, or three
    if it was switched on in an odd one, and has not asked before. */
  lemma {:induction false} SampleAsks(d: Dmc, cycle: nat, n: nat)
    requires d.length == 0 && d.lengthLoad > 0 && d.bufferEmpty && !d.dmaPending
    ensures
      var r, delay := Checks(EnableDmc(d, true, cycle), n), if cycle % 2 == 0 then 2 else 3;
      && (r.dmaPending <==> n >= delay) && r.init == Max(0, delay - n)
      && r.bufferEmpty && r.length == d.lengthLoad
  {
    if n > 0 {
      SampleAsks(d, cycle, n - 1);
    }
  }

  /** Higher numbers are faster samples and slower noise. */
  lemma Faster(i: nat)
    requires i < 15
    ensures DMC_NTSC[i] > DMC_NTSC[i + 1] && DMC_PAL[i] > DMC_PAL[i + 1]
  {
  }

  lemma Slower(i: nat)
    requires i < 15
    ensures NOISE_NTSC[i] < NOISE_NTSC[i + 1] && NOISE_PAL[i] < NOISE_PAL[i + 1]
  {
  }
}
