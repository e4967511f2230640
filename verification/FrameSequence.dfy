/** When the envelopes, the linear counter, the length counters and the sweeps are clocked: the clocks of
  the frame sequence, told by their numbers. */
module FrameSequence {
  import opened Words
  import opened Bits
  import opened ApuSpec
  import opened ApuRuns
  import P = Playback
  import MemBanks

  /** The unit after so many clocks without a write. */
  function Clocks(a: Apu, n: nat): (r: Apu)
    requires Ok(a)
    ensures Ok(r)
  {
    if n == 0 then a else CycleKeeps(Clocks(a, n - 1)); Clock(Clocks(a, n - 1))
  }

  function SequenceClocks(region: Region, fiveStep: bool): (clocks: nat)
    ensures clocks > 5
  {
    if region == Pal then (if fiveStep then 41566 else 33254) else if fiveStep then 37282 else 29830
  }

  /** The clocks that end the second, third, fourth and last step; the last one has number 0. The end of
    the first step clocks nothing. */
  predicate IsQuarter(region: Region, fiveStep: bool, t: nat) {
    if region == Pal then t in (if fiveStep then {16627, 24939, 33253, 0} else {16627, 24939, 33252, 0})
    else t in (if fiveStep then {14913, 22371, 29829, 0} else {14913, 22371, 29828, 0})
  }

  predicate IsHalf(region: Region, fiveStep: bool, t: nat) {
    t == 0 || t == if region == Pal then 24939 else 22371
  }

  /** The two clocks before the end of the sequence of four steps. */
  predicate IsInterrupt(region: Region, fiveStep: bool, t: nat) {
    !fiveStep && t in (if region == Pal then {33252, 33253} else {29828, 29829})
  }

  // ----- the counter

  lemma InStep(f: FrameCounter, s: nat, rest: nat)
    requires s < 6 && rest < StepCycles(f.region, f.fiveStep)[s]
    ensures
      var begun := P.Started(f, s);
      && P.FrameClocks(P.Started(f, 0), P.StepsTake(f, s) + rest) == begun.(cycles := begun.cycles - rest)
      && ClockFrame(begun.(cycles := begun.cycles - rest)) ==
         if rest + 1 < begun.cycles then (begun.(cycles := begun.cycles - rest - 1), 0)
         else (P.Started(f, (s + 1) % 6), s)
  {
    hide P.FrameClocks, ClockFrame;
    var begun := P.Started(f, s);
    P.StepsPass(f, s);
    P.ClocksAdd(P.Started(f, 0), P.StepsTake(f, s), rest);
    P.StepTakes(begun, rest);
    assert P.NextStep(begun) == P.Started(f, (s + 1) % 6);
  }

  lemma InStepTells(f: FrameCounter, s: nat, rest: nat)
    requires s < 6 && rest < StepCycles(f.region, f.fiveStep)[s]
    ensures
      var (counted, ended) := ClockFrame(P.FrameClocks(P.Started(f, 0), P.StepsTake(f, s) + rest));
      var last := rest + 1 == StepCycles(f.region, f.fiveStep)[s];
      && ended == (if last then s else 0) && counted.fiveStep == f.fiveStep
      && counted.step == if last then (s + 1) % 6 else s
  {
    hide P.FrameClocks, ClockFrame, P.StepsTake;
    InStep(f, s, rest);
  }

  lemma StepEnds(f: FrameCounter)
    ensures
      var cycles := StepCycles(f.region, f.fiveStep);
      && P.StepsTake(f, 0) == 0
      && P.StepsTake(f, 1) == cycles[0]
      && P.StepsTake(f, 2) == cycles[0] + cycles[1]
      && P.StepsTake(f, 3) == cycles[0] + cycles[1] + cycles[2]
      && P.StepsTake(f, 4) == cycles[0] + cycles[1] + cycles[2] + cycles[3]
      && P.StepsTake(f, 5) == cycles[0] + cycles[1] + cycles[2] + cycles[3] + cycles[4]
  {
    var cycles := StepCycles(f.region, f.fiveStep);
    assert P.StepsTake(f, 1) == P.StepsTake(f, 0) + cycles[0];
    assert P.StepsTake(f, 2) == P.StepsTake(f, 1) + cycles[1];
    assert P.StepsTake(f, 3) == P.StepsTake(f, 2) + cycles[2];
    assert P.StepsTake(f, 4) == P.StepsTake(f, 3) + cycles[3];
  }

  lemma {:induction false} Repeats(f: FrameCounter, m: nat, rounds: nat)
    requires rounds * SequenceClocks(f.region, f.fiveStep) >= 0
    ensures
      P.FrameClocks(P.Started(f, 0), rounds * SequenceClocks(f.region, f.fiveStep) + m) ==
        P.FrameClocks(P.Started(f, 0), m)
  {
    hide P.FrameClocks;
    var length := SequenceClocks(f.region, f.fiveStep);
    if rounds > 0 {
      assert rounds * length + m == length + ((rounds - 1) * length + m);
      Product(rounds - 1, length);
      P.ClocksAdd(P.Started(f, 0), length, (rounds - 1) * length + m);
      P.SequenceLength(f);
      Repeats(f, m, rounds - 1);
    }
  }

  lemma Product(a: nat, b: nat)
    ensures a * b >= 0
  {
    if a > 0 {
      MemBanks.NonNegative(a, b);
    }
  }

  /** The step that ends with clock t of the sequence, or 0. */
  function Ended(f: FrameCounter, t: nat): nat {
    if t == P.StepsTake(f, 2) then 1
    else if t == P.StepsTake(f, 3) then 2
    else if t == P.StepsTake(f, 4) then 3
    else if t == P.StepsTake(f, 5) then 4
    else if t == 0 then 5
    else 0
  }

  /** The last steps are those of one clock and, with five steps, the one before. */
  predicate Late(f: FrameCounter, t: nat) {
    P.StepsTake(f, 4) <= t
  }

  /** What clock m of the sequence reports, and whether it leaves the counter in one of the last steps. */
  lemma ClockReports(f: FrameCounter, m: nat)
    requires m < SequenceClocks(f.region, f.fiveStep)
    ensures
      var (counted, ended) := ClockFrame(P.FrameClocks(P.Started(f, 0), m));
      var t := if m + 1 == SequenceClocks(f.region, f.fiveStep) then 0 else m + 1;
      ended == Ended(f, t) && counted.fiveStep == f.fiveStep && (counted.step >= 4 <==> Late(f, t))
  {
    hide P.FrameClocks, P.Started, ClockFrame, P.StepsTake, StepCycles, SequenceClocks;
    StepEnds(f);
    P.SixSteps(f);
    LengthIs(f);
    if m < P.StepsTake(f, 1) {
      InStepTells(f, 0, m);
    } else if m < P.StepsTake(f, 2) {
      InStepTells(f, 1, m - P.StepsTake(f, 1));
    } else if m < P.StepsTake(f, 3) {
      InStepTells(f, 2, m - P.StepsTake(f, 2));
    } else if m < P.StepsTake(f, 4) {
      InStepTells(f, 3, m - P.StepsTake(f, 3));
    } else if m < P.StepsTake(f, 5) {
      InStepTells(f, 4, m - P.StepsTake(f, 4));
    } else {
      InStepTells(f, 5, m - P.StepsTake(f, 5));
    }
  }

  lemma LengthIs(f: FrameCounter)
    ensures
      var cycles := StepCycles(f.region, f.fiveStep);
      && SequenceClocks(f.region, f.fiveStep) == cycles[0] + cycles[1] + cycles[2] + cycles[3] + cycles[4] + cycles[5]
      && cycles[0] > 1 && cycles[1] > 1 && cycles[2] > 1 && cycles[3] > 1 && cycles[4] > 0 && cycles[5] > 0
  {
  }

  lemma EndedIs(f: FrameCounter, t: nat)
    requires t < SequenceClocks(f.region, f.fiveStep)
    ensures Ended(f, t) in {1, 2, 3, 5} <==> IsQuarter(f.region, f.fiveStep, t)
    ensures Ended(f, t) in {2, 5} <==> IsHalf(f.region, f.fiveStep, t)
    ensures !f.fiveStep && Late(f, t) <==> IsInterrupt(f.region, f.fiveStep, t)
  {
    hide P.StepsTake;
    StepEnds(f);
  }

  lemma ClockOfRun(f: FrameCounter, n: nat)
    ensures
      var (counted, ended) := ClockFrame(P.FrameClocks(P.Started(f, 0), n));
      var t := Rest(n + 1, SequenceClocks(f.region, f.fiveStep));
      && (ended in {1, 2, 3, 5} <==> IsQuarter(f.region, f.fiveStep, t))
      && (ended in {2, 5} <==> IsHalf(f.region, f.fiveStep, t))
      && counted.fiveStep == f.fiveStep
      && (!f.fiveStep && counted.step >= 4 <==> IsInterrupt(f.region, f.fiveStep, t))
  {
    hide P.FrameClocks, ClockFrame, P.Started, IsQuarter, IsHalf, IsInterrupt, Ended, Late, SequenceClocks;
    var length := SequenceClocks(f.region, f.fiveStep);
    RestStep(n, length);
    Product(n / length, length);
    assert n == n / length * length + Rest(n, length);
    Repeats(f, Rest(n, length), n / length);
    ClockReports(f, Rest(n, length));
    EndedIs(f, Rest(n + 1, length));
  }

  // ----- the unit

  /** The three envelopes and the linear counter take a clock. */
  predicate QuarterTakes(a: Apu, r: Apu) {
    && r.pulse1.envelope == ClockEnvelope(a.pulse1.envelope) && r.pulse2.envelope == ClockEnvelope(a.pulse2.envelope)
    && r.noise.envelope == ClockEnvelope(a.noise.envelope) && r.triangle.linear == ClockLinear(a.triangle.linear)
  }

  predicate QuarterWaits(a: Apu, r: Apu) {
    && r.pulse1.envelope == a.pulse1.envelope && r.pulse2.envelope == a.pulse2.envelope
    && r.noise.envelope == a.noise.envelope && r.triangle.linear == a.triangle.linear
  }

  /** The four length counters and the two sweeps take a clock. */
  predicate HalfTakes(a: Apu, r: Apu) {
    && r.pulse1.length == ClockLength(a.pulse1.length) && r.pulse2.length == ClockLength(a.pulse2.length)
    && r.triangle.length == ClockLength(a.triangle.length) && r.noise.length == ClockLength(a.noise.length)
    && r.pulse1.sweep == ClockSweep(a.pulse1).sweep && r.pulse1.freqTimer == ClockSweep(a.pulse1).freqTimer
    && r.pulse2.sweep == ClockSweep(a.pulse2).sweep && r.pulse2.freqTimer == ClockSweep(a.pulse2).freqTimer
  }

  predicate HalfWaits(a: Apu, r: Apu) {
    && r.pulse1.length == a.pulse1.length && r.pulse2.length == a.pulse2.length
    && r.triangle.length == a.triangle.length && r.noise.length == a.noise.length
    && r.pulse1.sweep == a.pulse1.sweep && r.pulse1.freqTimer == a.pulse1.freqTimer
    && r.pulse2.sweep == a.pulse2.sweep && r.pulse2.freqTimer == a.pulse2.freqTimer
  }

  predicate SameCounter(a: Apu, r: Apu) {
    r.frame == a.frame && r.irqPending == a.irqPending && r.irqDisabled == a.irqDisabled && r.cycle == a.cycle
  }

  /** The clocks of the channels leave all of that alone. */
  lemma ChannelsWait(a: Apu)
    requires Ok(a)
    ensures
      var r := ClockChannels(a);
      && QuarterWaits(a, r) && HalfWaits(a, r) && SameCounter(a, r)
      && r.pulse1.first == a.pulse1.first && r.pulse2.first == a.pulse2.first
  {
    hide ClockDmc, CheckPendingDma, PulseOk, TriangleOk, NoiseOk, ClockPulse, ClockTriangle, ClockNoise;
    PulseWaits(a.pulse1);
    PulseWaits(a.pulse2);
    TriangleWaits(a.triangle);
    NoiseWaits(a.noise);
  }

  lemma PulseWaits(p: Pulse)
    ensures
      var r := ClockPulse(p);
      && r.envelope == p.envelope && r.length == p.length && r.sweep == p.sweep && r.freqTimer == p.freqTimer
      && r.first == p.first
  {
  }

  lemma TriangleWaits(t: Triangle)
    ensures ClockTriangle(t).linear == t.linear && ClockTriangle(t).length == t.length
  {
  }

  lemma NoiseWaits(n: Noise)
    ensures ClockNoise(n).envelope == n.envelope && ClockNoise(n).length == n.length
  {
    hide Feedback;
  }

  lemma SweepTakes(p: Pulse, q: Pulse)
    requires p.sweep == q.sweep && p.freqTimer == q.freqTimer && p.first == q.first
    ensures ClockSweep(p).sweep == ClockSweep(q).sweep && ClockSweep(p).freqTimer == ClockSweep(q).freqTimer
  {
    hide Halved;
  }

  lemma SweepKeeps(p: Pulse)
    ensures ClockSweep(p).length == p.length && ClockSweep(p).envelope == p.envelope
  {
    hide Halved, Silencing;
  }

  lemma QuarterIs(a: Apu)
    ensures QuarterTakes(a, QuarterFrame(a)) && HalfWaits(a, QuarterFrame(a)) && SameCounter(a, QuarterFrame(a))
    ensures QuarterFrame(a).pulse1.first == a.pulse1.first && QuarterFrame(a).pulse2.first == a.pulse2.first
  {
    hide ClockEnvelope, ClockLinear;
  }

  lemma HalfIs(a: Apu)
    ensures HalfTakes(a, HalfFrame(a)) && QuarterWaits(a, HalfFrame(a)) && SameCounter(a, HalfFrame(a))
  {
    hide ClockLength, ClockSweep;
    SweepKeeps(a.pulse1);
    SweepKeeps(a.pulse2);
  }

  lemma BothTake(a: Apu)
    ensures
      var r := HalfFrame(QuarterFrame(a));
      QuarterTakes(a, r) && HalfTakes(a, r) && SameCounter(a, r)
  {
    hide ClockLength, ClockSweep, ClockEnvelope, ClockLinear, QuarterFrame, HalfFrame;
    var q := QuarterFrame(a);
    QuarterIs(a);
    HalfIs(q);
    SweepTakes(q.pulse1, a.pulse1);
    SweepTakes(q.pulse2, a.pulse2);
  }

  lemma FramedTakes(a: Apu, step: nat)
    ensures
      var r := Framed(a, step);
      && (if step in {1, 2, 3, 5} then QuarterTakes(a, r) else QuarterWaits(a, r))
      && (if step in {2, 5} then HalfTakes(a, r) else HalfWaits(a, r))
      && SameCounter(a, r)
  {
    hide QuarterFrame, HalfFrame, QuarterTakes, HalfTakes;
    QuarterIs(a);
    BothTake(a);
  }

  lemma CounterTakes(a: Apu)
    requires Ok(a) && a.frame.written == NO_WRITE
    ensures
      var (counted, step) := ClockFrame(a.frame);
      var r := ClockFrameCounter(a);
      && r.frame == counted && r.cycle == a.cycle && r.irqDisabled == a.irqDisabled
      && r.irqPending == (a.irqPending || (!counted.fiveStep && !a.irqDisabled && counted.step >= 4))
      && (if step in {1, 2, 3, 5} then QuarterTakes(a, r) else QuarterWaits(a, r))
      && (if step in {2, 5} then HalfTakes(a, r) else HalfWaits(a, r))
  {
    hide Framed, PulseOk, TriangleOk, NoiseOk, DmcOk, ClockEnvelope, ClockLinear, ClockLength, ClockSweep, HalfFrame,
      QuarterFrame;
    var (counted, step) := ClockFrame(a.frame);
    assert counted.written == NO_WRITE;
    var flagged := a.(frame := counted, irqPending := a.irqPending
        || (!counted.fiveStep && !a.irqDisabled && counted.step >= 4));
    FramedTakes(flagged, step);
  }

  lemma ClockTakes(a: Apu)
    requires Ok(a) && a.frame.written == NO_WRITE
    ensures
      var (counted, step) := ClockFrame(a.frame);
      var r := Clock(a);
      && r.frame == counted && r.irqDisabled == a.irqDisabled
      && r.irqPending == (a.irqPending || (!counted.fiveStep && !a.irqDisabled && counted.step >= 4))
      && (if step in {1, 2, 3, 5} then QuarterTakes(a, r) else QuarterWaits(a, r))
      && (if step in {2, 5} then HalfTakes(a, r) else HalfWaits(a, r))
  {
    hide PulseOk, TriangleOk, NoiseOk, ClockChannels, ClockFrameCounter, ClockFrame, ClockEnvelope,
      ClockLinear, ClockLength, ClockSweep;
    ChannelsKeep(a);
    ChannelsWait(a);
    CounterTakes(ClockChannels(a));
    SweepTakes(ClockChannels(a).pulse1, a.pulse1);
    SweepTakes(ClockChannels(a).pulse2, a.pulse2);
  }

  lemma {:induction false} CounterRuns(a: Apu, n: nat)
    requires Ok(a) && a.frame.written == NO_WRITE
    ensures a.frame.step < 6 && Clocks(a, n).frame == P.FrameClocks(a.frame, n)
    ensures P.FrameClocks(a.frame, n).written == NO_WRITE && Clocks(a, n).irqDisabled == a.irqDisabled
  {
    hide Clock;
    if n > 0 {
      CounterRuns(a, n - 1);
      ClockTakes(Clocks(a, n - 1));
    }
  }

  /** Clock t of the sequence takes the envelopes and the linear counter on at four places, the length
    counters and sweeps at two of them, and asks for an interrupt in the last two clocks of the sequence
    of four steps before its end, unless the program has disabled it. No other clock does. */
  lemma SequenceTells(a: Apu, n: nat)
    requires Ok(a) && a.frame.written == NO_WRITE && a.frame == P.Started(a.frame, 0)
    ensures
      var region, fiveStep := a.frame.region, a.frame.fiveStep;
      var before, after := Clocks(a, n), Clocks(a, n + 1);
      var t := Rest(n + 1, SequenceClocks(region, fiveStep));
      && (if IsQuarter(region, fiveStep, t) then QuarterTakes(before, after) else QuarterWaits(before, after))
      && (if IsHalf(region, fiveStep, t) then HalfTakes(before, after) else HalfWaits(before, after))
      && after.irqPending == (before.irqPending || (!a.irqDisabled && IsInterrupt(region, fiveStep, t)))
  {
    hide Clock, ClockFrame, P.Started, IsQuarter, IsHalf, IsInterrupt, QuarterTakes, QuarterWaits, HalfTakes, HalfWaits,
      Rest, SequenceClocks, P.FrameClocks, Ok, Counting;
    CounterRuns(a, n);
    ClockTakes(Clocks(a, n));
    ClockOfRun(a.frame, n);
  }

  /** What a write to $4017 does to the counter: three clocks later, or four after an odd clock, the
    sequence starts over, in five steps with bit 7. */
  lemma {:induction false} WriteRestarts(a: Apu, val: u8, n: nat)
    requires Ok(a) && 0 < n <= if a.cycle % 2 == 1 then 4 else 3
    ensures
      Ok(Write(a, 0x4017, val))
    ensures
      var delay := if a.cycle % 2 == 1 then 4 else 3;
      var r := Clocks(Write(a, 0x4017, val), n);
      && r.irqDisabled == (val / 64 % 2 == 1)
      && (if n < delay then r.frame.written == val && r.frame.delay == delay - n
          else
            && r.frame.written == NO_WRITE && r.frame.step == 0 && r.frame.fiveStep == (val >= 0x80)
            && r.frame.cycles == StepCycles(a.frame.region, val >= 0x80)[0] - if val >= 0x80 then 1 else 0)
      && r.frame.region == a.frame.region
  {
    WriteKeeps(a, 0x4017, val);
    hide Ok, Clock;
    var written := Write(a, 0x4017, val);
    if n == 1 {
      assert Clocks(written, 0) == written;
    } else {
      WriteRestarts(a, val, n - 1);
    }
    ClockUpdates(Clocks(written, n - 1));
  }

  lemma ReloadIs(f: FrameCounter, fiveStep: bool)
    ensures
      var r := Reload(f, fiveStep);
      && r.step == 0 && r.fiveStep == fiveStep && r.region == f.region
      && r.cycles == StepCycles(f.region, fiveStep)[0] - if fiveStep then 1 else 0
  {
  }

  lemma ClockFrameKeeps(f: FrameCounter)
    requires f.step < 6
    ensures
      var r := ClockFrame(f).0;
      r.region == f.region && r.written == f.written && r.delay == f.delay
  {
  }

  predicate Updated(f: FrameCounter, r: FrameCounter) {
    && r.region == f.region
    && (f.delay > 1 ==> r.delay == f.delay - 1 && r.written == f.written)
    && (f.delay == 1 ==>
          && r.written == NO_WRITE && r.step == 0 && r.fiveStep == (f.written >= 0x80)
          && r.cycles == StepCycles(f.region, f.written >= 0x80)[0] - if f.written >= 0x80 then 1 else 0)
  }

  lemma CounterUpdates(a: Apu)
    requires Ok(a) && a.frame.written != NO_WRITE
    ensures ClockFrameCounter(a).irqDisabled == a.irqDisabled && Updated(a.frame, ClockFrameCounter(a).frame)
  {
    hide PulseOk, TriangleOk, NoiseOk, DmcOk, ClockFrame, QuarterFrame, HalfFrame, Framed, Reload, StepCycles;
    var (counted, step) := ClockFrame(a.frame);
    ClockFrameKeeps(a.frame);
    ReloadIs(counted.(delay := 0), counted.written >= 0x80);
    var flagged := a.(frame := counted, irqPending := a.irqPending
        || (!counted.fiveStep && !a.irqDisabled && counted.step >= 4));
    FramedTakes(flagged, step);
    BothTake(Framed(flagged, step).(frame := Update(counted).0));
  }

  /** The write comes into effect at the end of its last clock of delay. */
  lemma ClockUpdates(a: Apu)
    requires Ok(a) && a.frame.written != NO_WRITE
    ensures Clock(a).irqDisabled == a.irqDisabled && Updated(a.frame, Clock(a).frame)
  {
    hide ClockChannels, ClockFrameCounter, Updated, PulseOk, TriangleOk, NoiseOk;
    ChannelsKeep(a);
    ChannelsWait(a);
    CounterUpdates(ClockChannels(a));
  }

  lemma CounterStarts(a: Apu)
    requires Ok(a) && a.frame.written != NO_WRITE && a.frame.delay == 1 && a.frame.cycles > 1
    ensures
      var r := ClockFrameCounter(a);
      if a.frame.written >= 0x80 then QuarterTakes(a, r) && HalfTakes(a, r) else QuarterWaits(a, r) && HalfWaits(a, r)
  {
    hide PulseOk, TriangleOk, NoiseOk, DmcOk, QuarterFrame, HalfFrame, Reload, ClockEnvelope, ClockLinear, ClockLength,
      ClockSweep;
    var counted := ClockFrame(a.frame).0;
    ReloadIs(counted.(delay := 0), counted.written >= 0x80);
    var flagged := a.(frame := counted, irqPending := a.irqPending
        || (!counted.fiveStep && !a.irqDisabled && counted.step >= 4));
    BothTake(flagged.(frame := Update(counted).0));
  }

  /** With five steps, every counter takes a clock when the write comes into effect; with four, none. */
  lemma StartClocks(a: Apu)
    requires Ok(a) && a.frame.written != NO_WRITE && a.frame.delay == 1 && a.frame.cycles > 1
    ensures
      var r := Clock(a);
      if a.frame.written >= 0x80 then QuarterTakes(a, r) && HalfTakes(a, r) else QuarterWaits(a, r) && HalfWaits(a, r)
  {
    hide ClockChannels, ClockFrameCounter, PulseOk, TriangleOk, NoiseOk, ClockEnvelope, ClockLinear, ClockLength,
      ClockSweep;
    ChannelsKeep(a);
    ChannelsWait(a);
    CounterStarts(ClockChannels(a));
    SweepTakes(ClockChannels(a).pulse1, a.pulse1);
    SweepTakes(ClockChannels(a).pulse2, a.pulse2);
  }
}
