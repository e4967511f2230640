/** The sound unit over every run: its timers never run below zero or out of their width, and the
  mixer never leaves its tables. */
module ApuRuns {
  import opened Words
  import opened ApuSpec

  predicate EnvelopeOk(e: Envelope) {
    e.volume <= 15 && e.constant <= 15
  }

  /** A sweep that is on shifts by at least one: otherwise it would subtract more than there is. */
  predicate PulseOk(p: Pulse) {
    && p.dutyCycle < 4 && p.dutyCounter < 8
    && 0 <= p.freqTimer < 0x800 && 0 <= p.freqCounter < 0x800
    && (p.sweep.enabled ==> p.sweep.shift != 0)
    && EnvelopeOk(p.envelope)
  }

  predicate TriangleOk(t: Triangle) {
    0 <= t.freqTimer < 0x800 && 0 <= t.freqCounter < 0x800 && t.step < 32
  }

  /** The shift register is never zero, and only its low fourteen bits are used. */
  predicate NoiseOk(n: Noise) {
    InUse(n.shift) && n.freqTimer >= 0 && n.freqCounter >= 0 && EnvelopeOk(n.envelope)
  }

  predicate InUse(shift: bv16) {
    1 <= shift < 0x4000
  }

  /** The level has seven bits, and a byte is asked for only while there is none in the buffer. */
  predicate DmcOk(d: Dmc) {
    && d.length <= 0xFF1 && d.lengthLoad <= 0xFF1
    && (d.dmaPending ==> d.bufferEmpty)
    && d.output < 128 && d.outputBits <= 8 && d.freqTimer >= 0 && d.freqCounter >= 0 && d.init <= 3
  }

  /** The switch of the second pulse channel works on the first, so the second is never silenced. */
  predicate Ok(a: Apu) {
    && PulseOk(a.pulse1) && PulseOk(a.pulse2) && TriangleOk(a.triangle) && NoiseOk(a.noise) && DmcOk(a.dmc)
    && Counting(a.frame)
    && !a.pulse2.forceSilent
  }

  function Step(a: Apu, event: Event): Apu
    requires Counting(a.frame) && a.dmc.output < 128
  {
    match event
    case Cycle => Clock(a)
    case Store(addr, val) => Write(a, addr, val)
    case ReadStatus => a.(irqPending := false)
    case TakeDma => a.(dmc := a.dmc.(dmaPending := false))
    case LoadDmc(val) => a.(dmc := LoadBuffer(a.dmc, val))
    case ToggleChannel(channel) => Toggle(a, channel)
    case Restart(kind) => Reset(a, kind)
    case ChangeRegion(region) => SetRegion(a, region)
  }

  lemma {:induction false} HalvedBelow(n: int, shift: nat)
    requires n >= 0
    ensures 0 <= Halved(n, shift) <= n
    ensures shift > 0 ==> Halved(n, shift) <= n / 2
  {
    if shift > 0 {
      HalvedBelow(n / 2, shift - 1);
    }
  }

  /** The sweep keeps the timer in eleven bits and never subtracts below zero: short periods and
    periods that would grow too long are left alone. */
  lemma SweepInside(p: Pulse)
    requires PulseOk(p)
    ensures PulseOk(ClockSweep(p))
  {
    HalvedBelow(p.freqTimer, p.sweep.shift);
    hide Halved;
  }

  lemma EnvelopeKeeps(e: Envelope, val: u8)
    requires EnvelopeOk(e)
    ensures EnvelopeOk(ClockEnvelope(e)) && EnvelopeOk(WriteEnvelope(e, val)) && EnvelopeOk(e.(restart := true))
  {
  }

  /** The channel stays in its bounds, and its switch stays where it is. */
  predicate PulseStep(p: Pulse, r: Pulse) {
    PulseOk(r) && r.forceSilent == p.forceSilent
  }

  lemma PulseClocks(p: Pulse)
    requires PulseOk(p)
    ensures PulseStep(p, ClockPulse(p)) && PulseStep(p, PulseQuarter(p)) && PulseStep(p, PulseHalf(p))
  {
    SweepInside(p);
    EnvelopeKeeps(p.envelope, 0);
    SweepKeepsSwitch(p);
    hide ClockSweep, ClockEnvelope, ClockLength;
  }

  lemma SweepKeepsSwitch(p: Pulse)
    ensures ClockSweep(p).forceSilent == p.forceSilent
  {
    hide Silencing, Halved;
  }

  lemma PulseWrites(p: Pulse, register: nat, val: u8, enabled: bool)
    requires PulseOk(p) && register < 4
    ensures PulseStep(p, WritePulse(p, register, val)) && PulseStep(p, EnablePulse(p, enabled))
  {
    EnvelopeKeeps(p.envelope, val);
    TimerWrites(p.freqTimer, val);
    hide WriteEnvelope, Loaded, Gated;
  }

  lemma TimerWrites(timer: int, val: u8)
    requires 0 <= timer < 0x800
    ensures 0 <= timer / 0x100 * 0x100 + val < 0x800
    ensures 0 <= timer % 0x100 + val % 8 * 0x100 < 0x800
  {
  }

  lemma TriangleClocks(t: Triangle)
    requires TriangleOk(t)
    ensures TriangleOk(ClockTriangle(t)) && TriangleOk(TriangleQuarter(t)) && TriangleOk(TriangleHalf(t))
  {
    hide ClockLength, ClockLinear;
  }

  lemma TriangleWrites(t: Triangle, register: nat, val: u8, enabled: bool)
    requires TriangleOk(t) && register < 4
    ensures TriangleOk(WriteTriangle(t, register, val)) && TriangleOk(EnableTriangle(t, enabled))
  {
    TimerWrites(t.freqTimer, val);
    hide Loaded, Gated;
  }

  lemma FeedbackInside(shift: bv16, longTap: bool)
    requires InUse(shift)
    ensures InUse(Feedback(shift, longTap))
  {
  }

  lemma NoiseClocks(n: Noise)
    requires NoiseOk(n)
    ensures NoiseOk(ClockNoise(n)) && NoiseOk(NoiseQuarter(n)) && NoiseOk(NoiseHalf(n))
  {
    FeedbackInside(n.shift, n.longTap);
    EnvelopeKeeps(n.envelope, 0);
    hide Feedback, ClockEnvelope, ClockLength, InUse;
  }

  lemma NoiseWrites(n: Noise, register: nat, val: u8, enabled: bool)
    requires NoiseOk(n) && register < 4
    ensures NoiseOk(WriteNoise(n, register, val)) && NoiseOk(EnableNoise(n, enabled))
  {
    EnvelopeKeeps(n.envelope, val);
    hide WriteEnvelope, Loaded, Gated, NoiseTimer, InUse, EnvelopeOk;
  }

  lemma DmcChecks(d: Dmc)
    requires DmcOk(d)
    ensures DmcOk(CheckPendingDma(d))
  {
  }

  lemma LevelMoves(output: u8, up: bool)
    requires output < 128
    ensures 0 <= Moved(output, up) < 128
  {
  }

  lemma OutputKeeps(d: Dmc)
    requires DmcOk(d)
    ensures DmcOk(OutputCycle(d))
  {
    hide Moved;
    LevelMoves(d.output, d.outputShift % 2 == 1);
    assert DmcOk(ShiftOut(d)) && ShiftOut(d).outputBits == d.outputBits;
    hide ShiftOut;
  }

  lemma DmcClocks(d: Dmc)
    requires DmcOk(d)
    ensures DmcOk(ClockDmc(d))
  {
    hide OutputCycle;
    if d.freqCounter < 2 {
      OutputKeeps(d.(freqCounter := d.freqTimer));
    }
  }

  lemma DmcWrites(d: Dmc, register: nat, val: u8)
    requires DmcOk(d) && register < 4
    ensures DmcOk(WriteDmc(d, register, val))
  {
    hide DmcTimer, SevenBits;
    if register == 0 {
    } else if register == 1 {
    } else if register == 2 {
    } else {
    }
  }

  lemma DmcEnables(d: Dmc, enabled: bool, cycle: nat)
    requires DmcOk(d)
    ensures DmcOk(EnableDmc(d, enabled, cycle))
  {
  }

  lemma DmcOthers(d: Dmc, val: u8, kind: ResetKind)
    requires DmcOk(d)
    ensures DmcOk(LoadBuffer(d, val)) && DmcOk(ResetDmc(d, kind)) && DmcOk(NewDmc(Ntsc))
  {
    hide DmcTimer;
  }

  lemma FrameKeeps(f: FrameCounter)
    requires Counting(f)
    ensures Counting(ClockFrame(f).0) && Counting(Update(f).0)
  {
  }

  lemma QuarterKeeps(a: Apu)
    requires Ok(a)
    ensures Ok(QuarterFrame(a)) && Ok(HalfFrame(a))
  {
    PulseClocks(a.pulse1);
    PulseClocks(a.pulse2);
    TriangleClocks(a.triangle);
    NoiseClocks(a.noise);
    hide PulseOk, TriangleOk, NoiseOk, DmcOk, Counting, PulseQuarter, PulseHalf, TriangleQuarter, TriangleHalf,
      NoiseQuarter, NoiseHalf;
  }

  lemma ChannelsKeep(a: Apu)
    requires Ok(a)
    ensures Ok(ClockChannels(a))
  {
    PulseClocks(a.pulse1);
    PulseClocks(a.pulse2);
    TriangleClocks(a.triangle);
    NoiseClocks(a.noise);
    DmcChecks(a.dmc);
    var checked := CheckPendingDma(a.dmc);
    DmcClocks(checked);
    assert checked.output < 128;
    hide PulseOk, TriangleOk, NoiseOk, DmcOk, Counting, ClockPulse, ClockTriangle, ClockNoise, ClockDmc,
        CheckPendingDma;
  }

  lemma FrameCounterKeeps(a: Apu)
    requires Ok(a)
    ensures Ok(ClockFrameCounter(a))
  {
    FrameKeeps(a.frame);
    var (counted, step) := ClockFrame(a.frame);
    FrameKeeps(counted);
    var updated := Update(counted).0;
    hide PulseOk, TriangleOk, NoiseOk, DmcOk, ClockFrame, Update, QuarterFrame, HalfFrame, Counting;
    var flagged := a.(frame := counted, irqPending := a.irqPending
        || (!counted.fiveStep && !a.irqDisabled && counted.step >= 4));
    QuarterKeeps(flagged);
    QuarterKeeps(QuarterFrame(flagged));
    var framed := Framed(flagged, step);
    assert Ok(framed);
    var written := framed.(frame := updated);
    QuarterKeeps(written);
    QuarterKeeps(QuarterFrame(written));
    hide Ok, Framed;
  }

  lemma StatusKeeps(a: Apu, val: u8)
    requires Ok(a)
    ensures Ok(WriteStatus(a, val))
  {
    PulseWrites(a.pulse1, 0, val, val % 2 == 1);
    PulseWrites(a.pulse2, 0, val, val / 2 % 2 == 1);
    TriangleWrites(a.triangle, 0, val, val / 4 % 2 == 1);
    NoiseWrites(a.noise, 0, val, val / 8 % 2 == 1);
    DmcEnables(a.dmc, val / 16 % 2 == 1, a.cycle);
    hide PulseOk, TriangleOk, NoiseOk, DmcOk, Counting, EnablePulse, EnableTriangle, EnableNoise, EnableDmc;
  }

  lemma WriteKeeps(a: Apu, addr: u16, val: u8)
    requires Ok(a)
    ensures Ok(Write(a, addr, val))
  {
    hide PulseOk, TriangleOk, NoiseOk, DmcOk, Counting, WritePulse, WriteTriangle, WriteNoise, WriteDmc, WriteStatus,
      WriteFrameCounter;
    if 0x4000 <= addr < 0x4004 {
      PulseWrites(a.pulse1, addr - 0x4000, val, false);
    } else if 0x4004 <= addr < 0x4008 {
      PulseWrites(a.pulse2, addr - 0x4004, val, false);
    } else if 0x4008 <= addr < 0x400C {
      TriangleWrites(a.triangle, addr - 0x4008, val, false);
    } else if 0x400C <= addr < 0x4010 {
      NoiseWrites(a.noise, addr - 0x400C, val, false);
    } else if 0x4010 <= addr < 0x4014 {
      DmcWrites(a.dmc, addr - 0x4010, val);
    } else if addr == 0x4015 {
      StatusKeeps(a, val);
    } else if addr == 0x4017 {
      FrameWrites(a, val);
    }
  }

  lemma FrameWrites(a: Apu, val: u8)
    requires Ok(a)
    ensures Ok(WriteFrameCounter(a, val))
  {
    hide PulseOk, TriangleOk, NoiseOk, DmcOk;
  }

  lemma NewOk()
    ensures Ok(NewApu())
  {
  }

  lemma ResetKeeps(a: Apu, kind: ResetKind)
    requires Ok(a)
    ensures Ok(Reset(a, kind))
  {
    DmcOthers(a.dmc, 0, kind);
    hide ResetDmc;
  }

  lemma CycleKeeps(a: Apu)
    requires Ok(a)
    ensures Ok(Clock(a))
  {
    ChannelsKeep(a);
    FrameCounterKeeps(ClockChannels(a));
    hide PulseOk, TriangleOk, NoiseOk, DmcOk, ClockChannels, ClockFrameCounter, Counting;
  }

  lemma ToggleKeeps(a: Apu, channel: Channel)
    requires Ok(a)
    ensures Ok(Toggle(a, channel))
  {
    hide Counting, EnvelopeOk, InUse;
  }

  lemma DmcEventsKeep(a: Apu, val: u8)
    requires Ok(a)
    ensures Ok(a.(dmc := a.dmc.(dmaPending := false))) && Ok(a.(dmc := LoadBuffer(a.dmc, val)))
  {
    DmcOthers(a.dmc, val, Soft);
    hide PulseOk, TriangleOk, NoiseOk, Counting, LoadBuffer;
  }

  lemma RegionKeeps(a: Apu, region: Region)
    requires Ok(a)
    ensures Ok(SetRegion(a, region))
  {
    hide PulseOk, TriangleOk, DmcTimer, InUse, EnvelopeOk;
  }

  lemma StepKeeps(a: Apu, event: Event)
    requires Ok(a)
    ensures Ok(Step(a, event))
  {
    hide PulseOk, TriangleOk, NoiseOk, DmcOk, Counting, Clock, Write, Toggle, Reset, LoadBuffer, SetRegion;
    match event
    case Cycle => CycleKeeps(a);
    case Store(addr, val) => WriteKeeps(a, addr, val);
    case ReadStatus =>
    case TakeDma => DmcEventsKeep(a, 0);
    case LoadDmc(val) => DmcEventsKeep(a, val);
    case ToggleChannel(channel) => ToggleKeeps(a, channel);
    case Restart(kind) => ResetKeeps(a, kind);
    case ChangeRegion(region) => RegionKeeps(a, region);
  }

  function Run(events: seq<Event>): (a: Apu)
    ensures Ok(a)
  {
    if events == [] then NewOk(); NewApu()
    else
      var before := Run(events[..|events| - 1]);
      StepKeeps(before, events[|events| - 1]);
      Step(before, events[|events| - 1])
  }

  /** After every sequence of clocks, writes, DMA answers, switches, resets and changes of region the
    mixer reads its tables inside their bounds: the fallback that wraps an index around is never
    taken. */
  lemma MixInTables(events: seq<Event>)
    ensures 0 <= PulseIndex(Run(events)) <= 30
    ensures 0 <= TndIndex(Run(events)) <= 202
  {
    var a := Run(events);
    hide Run;
    OutputsBelow(a.pulse1, a.pulse2, a.noise);
    hide PulseOutput, NoiseOutput;
  }

  lemma OutputsBelow(p: Pulse, q: Pulse, n: Noise)
    requires PulseOk(p) && PulseOk(q) && NoiseOk(n)
    ensures PulseOutput(p) <= 15 && PulseOutput(q) <= 15 && NoiseOutput(n) <= 15
  {
    hide Silencing;
  }

  /** No run silences the second pulse channel: its switch works on the first. */
  lemma SecondPulseStaysOn(events: seq<Event>)
    ensures !Run(events).pulse2.forceSilent
    ensures var a := Run(events);
      Toggle(a, Pulse2) == Toggle(a, Pulse1) && Toggle(a, Pulse2).pulse1.forceSilent == !a.pulse1.forceSilent
  {
  }

  /** The linear counter loads bits 7 to 1 of the register, which is its low seven bits only for two
    values. */
  lemma LinearLoads(t: Triangle, val: u8)
    ensures WriteTriangle(t, 0, val).linear.load == val % 128 <==> val == 0 || val == 0xFF
  {
  }
}
