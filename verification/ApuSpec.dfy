/** The five sound channels and the frame counter on values. */
module ApuSpec {
  import opened Words

  // ----- Length counter, linear counter, envelope, sweep

  datatype Length = Length(enabled: bool, counter: u8)

  const LENGTHS: seq<u8> := [
    10, 254, 20, 2, 40, 4, 80, 6, 160, 8, 60, 10, 14, 12, 26, 14,
    12, 16, 24, 18, 48, 20, 96, 22, 192, 24, 72, 26, 16, 28, 32, 30]

  function LengthFor(val: u8): u8 {
    LENGTHS[val / 8]
  }

  function Loaded(l: Length, enabled: bool, val: u8): Length {
    if enabled then l.(counter := LengthFor(val)) else l
  }

  function ClockLength(l: Length): Length {
    if l.enabled && l.counter > 0 then l.(counter := l.counter - 1) else l
  }

  function Gated(l: Length, enabled: bool): Length {
    if enabled then l else l.(counter := 0)
  }

  datatype Linear = Linear(reload: bool, control: bool, load: u8, counter: u8)

  function ClockLinear(l: Linear): Linear {
    var counter := if l.reload then l.load else Max(0, l.counter - 1);
    l.(counter := counter, reload := l.reload && l.control)
  }

  datatype Envelope = Envelope(enabled: bool, loops: bool, restart: bool, volume: u8, constant: u8, counter: u8)

  function WriteEnvelope(e: Envelope, val: u8): Envelope {
    e.(loops := val / 32 % 2 == 1, enabled := val / 16 % 2 == 0, constant := val % 16)
  }

  function ClockEnvelope(e: Envelope): Envelope {
    if e.restart then e.(restart := false, volume := 15, counter := e.constant)
    else if e.counter > 0 then e.(counter := e.counter - 1)
    else e.(counter := e.constant, volume := if e.volume > 0 then e.volume - 1 else if e.loops then 15 else 0)
  }

  function Volume(e: Envelope): u8 {
    if e.enabled then e.volume else e.constant
  }

  datatype Sweep = Sweep(enabled: bool, reload: bool, negate: bool, timer: u8, counter: u8, shift: u8)

  function WriteSweep(val: u8): (s: Sweep -> Sweep) {
    (s: Sweep) =>
      s.(timer := val / 16 % 8, negate := val / 8 % 2 == 1, shift := val % 8,
         enabled := val / 128 == 1 && val % 8 != 0, reload := true)
  }

  // ----- Pulse channels

  datatype Pulse = Pulse(
    enabled: bool,
    forceSilent: bool,
    dutyCycle: u8,
    dutyCounter: u8,
    freqTimer: int,
    freqCounter: int,
    first: bool,
    length: Length,
    envelope: Envelope,
    sweep: Sweep
  )

  const DUTY: seq<seq<u8>> := [
    [0, 1, 0, 0, 0, 0, 0, 0],
    [0, 1, 1, 0, 0, 0, 0, 0],
    [0, 1, 1, 1, 1, 0, 0, 0],
    [1, 0, 0, 1, 1, 1, 1, 1]]

  const NO_ENVELOPE := Envelope(false, false, false, 0, 0, 0)

  function NewPulse(first: bool): Pulse {
    Pulse(false, false, 0, 0, 0, 0, first, Length(false, 0), NO_ENVELOPE, Sweep(false, false, false, 0, 0, 0))
  }

  function Halved(n: int, shift: nat): int
    decreases shift
  {
    if shift == 0 then n else Halved(n / 2, shift - 1)
  }

  predicate Silencing(p: Pulse) {
    p.freqTimer < 8 || (!p.sweep.negate && p.freqTimer + Halved(p.freqTimer, p.sweep.shift) >= 0x800)
  }

  function ClockSweep(p: Pulse): Pulse {
    var s := p.sweep;
    if s.reload then p.(sweep := s.(counter := s.timer, reload := false))
    else if s.counter > 0 then p.(sweep := s.(counter := s.counter - 1))
    else
      var reloaded := p.(sweep := s.(counter := s.timer));
      if !s.enabled || Silencing(p) then reloaded
      else
        var delta := Halved(p.freqTimer, s.shift);
        reloaded.(freqTimer :=
          if !s.negate then p.freqTimer + delta
          else p.freqTimer - (delta + 1) + if p.first then 1 else 0)
  }

  function ClockPulse(p: Pulse): Pulse {
    if p.freqCounter > 0 then p.(freqCounter := p.freqCounter - 1)
    else p.(freqCounter := p.freqTimer, dutyCounter := (p.dutyCounter + 1) % 8)
  }

  function PulseQuarter(p: Pulse): Pulse {
    p.(envelope := ClockEnvelope(p.envelope))
  }

  function PulseHalf(p: Pulse): Pulse {
    var swept := ClockSweep(p);
    swept.(length := ClockLength(swept.length))
  }

  function WritePulse(p: Pulse, register: nat, val: u8): Pulse
    requires register < 4
  {
    if register == 0 then
      p.(dutyCycle := val / 64, length := p.length.(enabled := val / 32 % 2 == 0),
         envelope := WriteEnvelope(p.envelope, val))
    else if register == 1 then p.(sweep := WriteSweep(val)(p.sweep))
    else if register == 2 then p.(freqTimer := p.freqTimer / 0x100 * 0x100 + val)
    else
      var timer := p.freqTimer % 0x100 + val % 8 * 0x100;
      p.(freqTimer := timer, freqCounter := timer, dutyCounter := 0,
         envelope := p.envelope.(restart := true), length := Loaded(p.length, p.enabled, val))
  }

  function EnablePulse(p: Pulse, enabled: bool): Pulse {
    p.(enabled := enabled, length := Gated(p.length, enabled))
  }

  function PulseOutput(p: Pulse): u8
    requires p.dutyCycle < 4 && p.dutyCounter < 8
  {
    if DUTY[p.dutyCycle][p.dutyCounter] != 0 && p.length.counter != 0 && !Silencing(p) && !p.forceSilent
    then Volume(p.envelope) else 0
  }

  // ----- Triangle channel

  datatype Triangle = Triangle(
    enabled: bool,
    forceSilent: bool,
    ultrasonic: bool,
    step: u8,
    freqTimer: int,
    freqCounter: int,
    length: Length,
    linear: Linear
  )

  const NEW_TRIANGLE := Triangle(false, false, false, 0, 0, 0, Length(false, 0), Linear(false, false, 0, 0))

  function ClockTriangle(t: Triangle): Triangle {
    var heard := t.(ultrasonic := t.length.counter > 0 && t.freqTimer < 2 && t.freqCounter == 0);
    if t.length.counter == 0 || t.linear.counter == 0 || heard.ultrasonic then heard
    else if t.freqCounter > 0 then heard.(freqCounter := t.freqCounter - 1)
    else heard.(freqCounter := t.freqTimer, step := (t.step + 1) % 32)
  }

  function TriangleQuarter(t: Triangle): Triangle {
    t.(linear := ClockLinear(t.linear))
  }

  function TriangleHalf(t: Triangle): Triangle {
    t.(length := ClockLength(t.length))
  }

  /** $4008, $400A and $400B. */
  function WriteTriangle(t: Triangle, register: nat, val: u8): Triangle
    requires register < 4
  {
    if register == 0 then
      t.(linear := t.linear.(control := val / 128 == 1, load := val / 2),
         length := t.length.(enabled := val / 128 == 0))
    else if register == 1 then t
    else if register == 2 then t.(freqTimer := t.freqTimer / 0x100 * 0x100 + val)
    else
      var timer := t.freqTimer % 0x100 + val % 8 * 0x100;
      t.(freqTimer := timer, freqCounter := timer, linear := t.linear.(reload := true),
         length := Loaded(t.length, t.enabled, val))
  }

  function EnableTriangle(t: Triangle, enabled: bool): Triangle {
    t.(enabled := enabled, length := Gated(t.length, enabled))
  }

  /** Twice the output, since an inaudible frequency gives 7.5. */
  function TriangleOutput2(t: Triangle): int {
    if t.forceSilent then 0
    else if t.ultrasonic then 15
    else if t.step >= 16 then 2 * (31 - t.step)
    else 2 * t.step
  }

  // ----- Noise channel

  datatype Noise = Noise(
    region: Region,
    forceSilent: bool,
    enabled: bool,
    freqTimer: int,
    freqCounter: int,
    shift: bv16,
    longTap: bool,
    length: Length,
    envelope: Envelope
  )

  const NOISE_NTSC: seq<u16> := [4, 8, 16, 32, 64, 96, 128, 160, 202, 254, 380, 508, 762, 1016, 2034, 4068]
  const NOISE_PAL: seq<u16> := [4, 8, 14, 30, 60, 88, 118, 148, 188, 236, 354, 472, 708, 944, 1890, 3778]

  function NoiseTimer(region: Region, val: u8): (timer: int)
    ensures timer > 0
  {
    (if region == Ntsc then NOISE_NTSC else NOISE_PAL)[val % 16] - 1
  }

  /** A reset makes a new channel, which is an NTSC one. */
  const NEW_NOISE := Noise(Ntsc, false, false, 0, 0, 1, false, Length(false, 0), NO_ENVELOPE)

  function Feedback(shift: bv16, longTap: bool): bv16 {
    var tap := if longTap then shift >> 6 else shift >> 1;
    ((shift & 0x7FFF) | (((shift & 1) ^ (tap & 1)) << 14)) >> 1
  }

  function ClockNoise(n: Noise): Noise {
    if n.freqCounter > 0 then n.(freqCounter := n.freqCounter - 1)
    else n.(freqCounter := n.freqTimer, shift := Feedback(n.shift, n.longTap))
  }

  function NoiseQuarter(n: Noise): Noise {
    n.(envelope := ClockEnvelope(n.envelope))
  }

  function NoiseHalf(n: Noise): Noise {
    n.(length := ClockLength(n.length))
  }

  /** $400C, $400E and $400F. */
  function WriteNoise(n: Noise, register: nat, val: u8): Noise
    requires register < 4
  {
    if register == 0 then
      n.(length := n.length.(enabled := val / 32 % 2 == 0), envelope := WriteEnvelope(n.envelope, val))
    else if register == 1 then n
    else if register == 2 then
      n.(freqTimer := NoiseTimer(n.region, val), longTap := val / 128 == 1)
    else n.(length := Loaded(n.length, n.enabled, val), envelope := n.envelope.(restart := true))
  }

  function EnableNoise(n: Noise, enabled: bool): Noise {
    n.(enabled := enabled, length := Gated(n.length, enabled))
  }

  function NoiseOutput(n: Noise): u8 {
    if n.shift & 1 == 0 && n.length.counter != 0 && !n.forceSilent then Volume(n.envelope) else 0
  }

  // ----- Sample channel

  datatype Dmc = Dmc(
    region: Region,
    forceSilent: bool,
    irqEnabled: bool,
    irqPending: bool,
    loops: bool,
    freqTimer: int,
    freqCounter: int,
    addr: u16,
    addrLoad: u16,
    length: u16,
    lengthLoad: u16,
    buffer: u8,
    bufferEmpty: bool,
    dmaPending: bool,
    init: u8,
    output: u8,
    outputBits: u8,
    outputShift: u8,
    outputSilent: bool
  )

  const DMC_NTSC: seq<u16> := [
    0x1AC, 0x17C, 0x154, 0x140, 0x11E, 0x0FE, 0x0E2, 0x0D6, 0x0BE, 0x0A0, 0x08E, 0x080, 0x06A, 0x054, 0x048, 0x036]
  const DMC_PAL: seq<u16> := [
    0x18E, 0x162, 0x13C, 0x12A, 0x114, 0x0EC, 0x0D2, 0x0C6, 0x0B0, 0x094, 0x084, 0x076, 0x062, 0x04E, 0x042, 0x032]

  function DmcTimer(region: Region, val: u8): (timer: int)
    ensures timer > 0
  {
    (if region == Ntsc then DMC_NTSC else DMC_PAL)[val % 16] - 2
  }

  function NewDmc(region: Region): Dmc {
    Dmc(region, false, false, false, false, DmcTimer(region, 0), DmcTimer(region, 0), 0xC000, 0, 0, 1, 0, true, false,
        0, 0, 0, 0, true)
  }

  /** Memory is read up to its end and then on from $8000. */
  function NextAddr(addr: u16): u16 {
    if addr == 0xFFFF then 0x8000 else addr + 1
  }

  function LoadBuffer(d: Dmc, val: u8): Dmc {
    if d.length == 0 then d.(dmaPending := false)
    else
      var last := d.length == 1;
      d.(dmaPending := false, buffer := val, bufferEmpty := false,
         addr := if last && d.loops then d.addrLoad else NextAddr(d.addr),
         length := if last && d.loops then d.lengthLoad else d.length - 1,
         irqPending := d.irqPending || (last && !d.loops && d.irqEnabled))
  }

  function SevenBits(val: u8): (r: u8)
    ensures r < 128
  {
    val % 128
  }

  function WriteDmc(d: Dmc, register: nat, val: u8): Dmc
    requires register < 4
  {
    if register == 0 then
      d.(irqEnabled := val / 128 == 1, loops := val / 64 % 2 == 1, freqTimer := DmcTimer(d.region, val),
         irqPending := d.irqPending && val / 128 == 1)
    else if register == 1 then d.(output := SevenBits(val))
    else if register == 2 then d.(addrLoad := 0xC000 + val * 64)
    else d.(lengthLoad := val * 16 + 1)
  }

  function EnableDmc(d: Dmc, enabled: bool, cycle: nat): Dmc {
    if !enabled then d.(irqPending := false, length := 0)
    else if d.length > 0 then d.(irqPending := false)
    else d.(irqPending := false, addr := d.addrLoad, length := d.lengthLoad, init := if cycle % 2 == 0 then 2 else 3)
  }

  function CheckPendingDma(d: Dmc): Dmc {
    if d.init == 0 then d
    else d.(init := d.init - 1, dmaPending := d.dmaPending || (d.init == 1 && d.bufferEmpty && d.length > 0))
  }

  /** One bit of the sample moves the level by two, within seven bits. */
  function Moved(output: u8, up: bool): int {
    if up then if output <= 125 then output + 2 else output
    else if output >= 2 then output - 2
    else output
  }

  function ShiftOut(d: Dmc): (r: Dmc)
    requires d.output < 128
  {
    if d.outputSilent then d
    else d.(output := Moved(d.output, d.outputShift % 2 == 1), outputShift := d.outputShift / 2)
  }

  /** The bits of a byte are used up: take the next byte, and ask for the one after it. */
  function NextByte(d: Dmc): Dmc {
    if d.bufferEmpty then d.(outputBits := 8, outputSilent := true)
    else d.(outputBits := 8, outputSilent := false, outputShift := d.buffer, bufferEmpty := true,
            dmaPending := d.dmaPending || d.length > 0)
  }

  function OutputCycle(d: Dmc): Dmc
    requires d.output < 128
  {
    var shifted := ShiftOut(d);
    if d.outputBits <= 1 then NextByte(shifted) else shifted.(outputBits := d.outputBits - 1)
  }

  function ClockDmc(d: Dmc): Dmc
    requires d.output < 128
  {
    if d.freqCounter >= 2 then d.(freqCounter := d.freqCounter - 2)
    else OutputCycle(d.(freqCounter := d.freqTimer))
  }

  function ResetDmc(d: Dmc, kind: ResetKind): Dmc {
    var timer := DmcTimer(d.region, 0);
    Dmc(d.region, d.forceSilent, false, false, false, timer, timer, if kind == Soft then 0 else 0xC000, 0, 0,
        if kind == Soft then 0 else 1, 0, true, false, 0, 0, 0, 0, true)
  }

  function DmcOutput(d: Dmc): u8 {
    if d.forceSilent then 0 else d.output
  }

  // ----- Frame counter

  datatype FrameCounter = FrameCounter(region: Region, cycles: nat, step: nat, fiveStep: bool, written: int, delay: nat)

  const NO_WRITE := -1

  function StepCycles(region: Region, fiveStep: bool): (cycles: seq<nat>)
    ensures |cycles| == 6
  {
    if region == Pal then
      if fiveStep then [8313, 8314, 8312, 8314, 8312, 1] else [8313, 8314, 8312, 8313, 1, 1]
    else if fiveStep then [7457, 7456, 7458, 7458, 7452, 1]
    else [7457, 7456, 7458, 7457, 1, 1]
  }

  /** The next state, and the step that ended, or 0. */
  function ClockFrame(f: FrameCounter): (r: (FrameCounter, nat))
    requires f.step < 6
    ensures r.0.step < 6
  {
    var left := Max(0, f.cycles - 1);
    if left > 0 then (f.(cycles := left), 0)
    else
      var next := (f.step + 1) % 6;
      (f.(step := next, cycles := StepCycles(f.region, f.fiveStep)[next]), f.step)
  }

  function Reload(f: FrameCounter, fiveStep: bool): (r: FrameCounter)
    ensures r.step < 6
  {
    var started := f.(fiveStep := fiveStep, step := 0, cycles := StepCycles(f.region, fiveStep)[0]);
    if fiveStep then ClockFrame(started).0 else started
  }

  /** A delayed write takes effect: the next state, and whether it did. */
  function Update(f: FrameCounter): (r: (FrameCounter, bool))
    requires f.step < 6 && (f.written != NO_WRITE ==> f.delay > 0)
    ensures r.0.step < 6
  {
    if f.written == NO_WRITE then (f, false)
    else if f.delay > 1 then (f.(delay := f.delay - 1), false)
    else (Reload(f.(delay := 0), f.written >= 0x80).(written := NO_WRITE), true)
  }

  function NewFrameCounter(): FrameCounter {
    FrameCounter(Ntsc, StepCycles(Ntsc, false)[0], 0, false, NO_WRITE, 0)
  }

  function ResetFrame(f: FrameCounter, kind: ResetKind): FrameCounter {
    var five := kind == Soft && f.fiveStep;
    f.(fiveStep := five, step := 0, cycles := StepCycles(f.region, five)[0], written := if five then 0x80 else 0,
        delay := 3)
  }

  // ----- The unit

  datatype Apu = Apu(
    cycle: nat,
    irqPending: bool,
    irqDisabled: bool,
    frame: FrameCounter,
    pulse1: Pulse,
    pulse2: Pulse,
    triangle: Triangle,
    noise: Noise,
    dmc: Dmc
  )

  function NewApu(): Apu {
    Apu(0, false, false, NewFrameCounter(), NewPulse(true), NewPulse(false), NEW_TRIANGLE, NEW_NOISE, NewDmc(Ntsc))
  }

  function QuarterFrame(a: Apu): Apu {
    a.(pulse1 := PulseQuarter(a.pulse1), pulse2 := PulseQuarter(a.pulse2), triangle := TriangleQuarter(a.triangle),
       noise := NoiseQuarter(a.noise))
  }

  function HalfFrame(a: Apu): Apu {
    a.(pulse1 := PulseHalf(a.pulse1), pulse2 := PulseHalf(a.pulse2), triangle := TriangleHalf(a.triangle),
       noise := NoiseHalf(a.noise))
  }

  function Framed(a: Apu, step: nat): Apu {
    if step == 1 || step == 3 then QuarterFrame(a)
    else if step == 2 || step == 5 then HalfFrame(QuarterFrame(a))
    else a
  }

  /** What the frame counter keeps true of itself. */
  predicate Counting(f: FrameCounter) {
    && f.step < 6
    && (f.written != NO_WRITE ==> f.delay > 0 && 0 <= f.written < 0x100)
  }

  function ClockFrameCounter(a: Apu): Apu
    requires Counting(a.frame)
  {
    var (counted, step) := ClockFrame(a.frame);
    var flagged := a.(frame := counted, irqPending := a.irqPending
        || (!counted.fiveStep && !a.irqDisabled && counted.step >= 4));
    var framed := Framed(flagged, step);
    var (updated, took) := Update(counted);
    var written := framed.(frame := updated);
    if took && updated.fiveStep then HalfFrame(QuarterFrame(written)) else written
  }

  function ClockChannels(a: Apu): Apu
    requires a.dmc.output < 128
  {
    var checked := a.(dmc := CheckPendingDma(a.dmc), triangle := ClockTriangle(a.triangle));
    if a.cycle % 2 != 0 then checked
    else checked.(pulse1 := ClockPulse(a.pulse1), pulse2 := ClockPulse(a.pulse2), noise := ClockNoise(a.noise),
                  dmc := ClockDmc(checked.dmc))
  }

  function Clock(a: Apu): Apu
    requires Counting(a.frame) && a.dmc.output < 128
  {
    var clocked := ClockFrameCounter(ClockChannels(a));
    clocked.(cycle := clocked.cycle + 1)
  }

  function WriteStatus(a: Apu, val: u8): Apu {
    a.(pulse1 := EnablePulse(a.pulse1, val % 2 == 1), pulse2 := EnablePulse(a.pulse2, val / 2 % 2 == 1),
       triangle := EnableTriangle(a.triangle, val / 4 % 2 == 1), noise := EnableNoise(a.noise, val / 8 % 2 == 1),
       dmc := EnableDmc(a.dmc, val / 16 % 2 == 1, a.cycle))
  }

  function WriteFrameCounter(a: Apu, val: u8): Apu {
    a.(frame := a.frame.(written := val, delay := if a.cycle % 2 == 1 then 4 else 3),
       irqDisabled := val / 64 % 2 == 1, irqPending := a.irqPending && val / 64 % 2 == 0)
  }

  /** A write to $4000-$4017, as the bus hands it out; other addresses there are not the sound
    unit's. */
  function Write(a: Apu, addr: u16, val: u8): Apu {
    if 0x4000 <= addr < 0x4004 then a.(pulse1 := WritePulse(a.pulse1, addr - 0x4000, val))
    else if 0x4004 <= addr < 0x4008 then a.(pulse2 := WritePulse(a.pulse2, addr - 0x4004, val))
    else if 0x4008 <= addr < 0x400C then a.(triangle := WriteTriangle(a.triangle, addr - 0x4008, val))
    else if 0x400C <= addr < 0x4010 then a.(noise := WriteNoise(a.noise, addr - 0x400C, val))
    else if 0x4010 <= addr < 0x4014 then a.(dmc := WriteDmc(a.dmc, addr - 0x4010, val))
    else if addr == 0x4015 then WriteStatus(a, val)
    else if addr == 0x4017 then WriteFrameCounter(a, val)
    else a
  }

  datatype Channel = Pulse1 | Pulse2 | TriangleChannel | NoiseChannel | DmcChannel

  /** The switches of the menu. The one of the second pulse channel works on the first. */
  function Toggle(a: Apu, channel: Channel): Apu {
    match channel
    case Pulse1 => a.(pulse1 := a.pulse1.(forceSilent := !a.pulse1.forceSilent))
    case Pulse2 => a.(pulse1 := a.pulse1.(forceSilent := !a.pulse1.forceSilent))
    case TriangleChannel => a.(triangle := a.triangle.(forceSilent := !a.triangle.forceSilent))
    case NoiseChannel => a.(noise := a.noise.(forceSilent := !a.noise.forceSilent))
    case DmcChannel => a.(dmc := a.dmc.(forceSilent := !a.dmc.forceSilent))
  }

  function Reset(a: Apu, kind: ResetKind): Apu {
    Apu(0, false, false, ResetFrame(a.frame, kind), NewPulse(a.pulse1.first), NewPulse(a.pulse2.first), NEW_TRIANGLE,
        NEW_NOISE, ResetDmc(a.dmc, kind))
  }

  /** The console's region reaches the units that count by it. A sample timer starts over at the
    slowest rate; what is already counted stays. */
  function SetRegion(a: Apu, region: Region): Apu {
    a.(frame := a.frame.(region := region), noise := a.noise.(region := region), dmc := RegionalDmc(a.dmc, region))
  }

  function RegionalDmc(d: Dmc, region: Region): Dmc {
    d.(region := region, freqTimer := DmcTimer(region, 0))
  }

  /** The sum of the pulse outputs, which is an index into a table of 31 entries. */
  function PulseIndex(a: Apu): int
    requires a.pulse1.dutyCycle < 4 && a.pulse1.dutyCounter < 8
    requires a.pulse2.dutyCycle < 4 && a.pulse2.dutyCounter < 8
  {
    PulseOutput(a.pulse1) + PulseOutput(a.pulse2)
  }

  /** The weighted sum of the other outputs, rounded down: an index into a table of 203 entries. */
  function TndIndex(a: Apu): int {
    (3 * TriangleOutput2(a.triangle) + 4 * NoiseOutput(a.noise) + 2 * DmcOutput(a.dmc)) / 2
  }

  /** An index that is not in the table, which has `length` entries, wraps around. */
  function InTable(index: nat, length: nat): nat
    requires length > 0
  {
    if index > length then index % length else index
  }

  datatype Event =
    | Cycle
    | Store(addr: u16, val: u8)
    | ReadStatus
    | TakeDma
    | LoadDmc(val: u8)
    | ToggleChannel(channel: Channel)
    | Restart(kind: ResetKind)
    | ChangeRegion(region: Region)
}
