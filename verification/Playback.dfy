/** What the envelope and the sample channel do over time, in closed form. */
module Playback {
  import opened Words
  import opened Bits
  import opened ApuSpec
  import opened ApuRuns

  function ClocksOn(e: Envelope, n: nat): Envelope {
    if n == 0 then e else ClockEnvelope(ClocksOn(e, n - 1))
  }

  /** The level that a restarted envelope has left after some steps down. */
  function LevelAfter(loops: bool, steps: nat): nat {
    if loops then 15 - Rest(steps, 16) else Max(0, 15 - steps)
  }

  /** From a restart on the volume is 15 and falls by one every constant + 1 clocks, to stay at zero
    or to start again. */
  lemma {:induction false} EnvelopeDecays(e: Envelope, n: nat)
    requires e.restart && EnvelopeOk(e)
    ensures var r, period := ClocksOn(e, n + 1), e.constant + 1;
      r == e.(restart := false, volume := LevelAfter(e.loops, Periods(n, period)),
          counter := e.constant - Rest(n, period))
  {
    hide Rest, Periods;
    var period := e.constant + 1;
    assert ClocksOn(e, n + 1) == ClockEnvelope(ClocksOn(e, n));
    if n == 0 {
      RestStep(0, period);
      RestStep(0, 16);
    } else {
      EnvelopeDecays(e, n - 1);
      RestStep(n - 1, period);
      RestStep(Periods(n - 1, period), 16);
    }
  }

  // ----- timers

  function PulseClocks(p: Pulse, n: nat): Pulse {
    if n == 0 then p else ClockPulse(PulseClocks(p, n - 1))
  }

  /** After its high timer byte is written, a pulse channel moves on through the eight places of its
    duty cycle once every timer + 1 clocks. */
  lemma {:induction false} PulseSteps(p: Pulse, n: nat)
    requires PulseOk(p) && p.freqCounter == p.freqTimer && p.dutyCounter == 0
    ensures var period := p.freqTimer + 1;
      PulseClocks(p, n) == p.(freqCounter := p.freqTimer - Rest(n, period), dutyCounter := Rest(Periods(n, period), 8))
  {
    hide Rest, Periods;
    var period := p.freqTimer + 1;
    if n == 0 {
      RestStep(0, period);
      RestStep(0, 8);
    } else {
      PulseSteps(p, n - 1);
      RestStep(n - 1, period);
      RestStep(Periods(n - 1, period), 8);
    }
  }

  function DmcRun(d: Dmc, n: nat): (r: Dmc)
    requires DmcOk(d)
    ensures DmcOk(r)
  {
    if n == 0 then d else DmcClocks(DmcRun(d, n - 1)); ClockDmc(DmcRun(d, n - 1))
  }

  /** The channel when its output unit alone has taken some steps. */
  function Outputs(d: Dmc, steps: nat): (r: Dmc)
    requires DmcOk(d)
    ensures DmcOk(r)
  {
    if steps == 0 then d else OutputKeeps(Outputs(d, steps - 1)); OutputCycle(Outputs(d, steps - 1))
  }

  lemma ShiftIgnoresTimer(d: Dmc, counter: int)
    requires d.output < 128
    ensures ShiftOut(d.(freqCounter := counter)) == ShiftOut(d).(freqCounter := counter)
    ensures ShiftOut(d).freqTimer == d.freqTimer && ShiftOut(d).outputBits == d.outputBits
  {
    hide Moved;
  }

  lemma NextIgnoresTimer(d: Dmc, counter: int)
    ensures NextByte(d.(freqCounter := counter)) == NextByte(d).(freqCounter := counter)
    ensures NextByte(d).freqTimer == d.freqTimer
  {
  }

  lemma OutputIgnoresTimer(d: Dmc, counter: int)
    requires d.output < 128
    ensures OutputCycle(d.(freqCounter := counter)) == OutputCycle(d).(freqCounter := counter)
    ensures OutputCycle(d).freqTimer == d.freqTimer
  {
    hide ShiftOut, NextByte;
    ShiftIgnoresTimer(d, counter);
    NextIgnoresTimer(ShiftOut(d), counter);
    if d.outputBits > 1 {
      UpdatesCommute(ShiftOut(d), counter, d.outputBits - 1);
    }
  }

  lemma UpdatesCommute(d: Dmc, counter: int, bits: u8)
    ensures d.(freqCounter := counter).(outputBits := bits) == d.(outputBits := bits).(freqCounter := counter)
  {
  }

  lemma TimerStep(d: Dmc, rest: nat)
    requires d.output < 128 && d.freqTimer >= 0 && rest <= d.freqTimer / 2
    ensures ClockDmc(d.(freqCounter := d.freqTimer - 2 * rest)) ==
      if rest < d.freqTimer / 2 then d.(freqCounter := d.freqTimer - 2 * (rest + 1))
      else OutputCycle(d).(freqCounter := d.freqTimer)
    ensures OutputCycle(d).freqTimer == d.freqTimer
  {
    hide OutputCycle;
    OutputIgnoresTimer(d, d.freqTimer);
  }

  /** n clocks with a full timer are one step of the output unit for every timer / 2 + 1 of them. */
  lemma {:induction false} OutputsEvery(d: Dmc, n: nat)
    requires DmcOk(d) && d.freqCounter == d.freqTimer
    ensures var period := d.freqTimer / 2 + 1;
      DmcRun(d, n) == Outputs(d, Periods(n, period)).(freqCounter := d.freqTimer - 2 * Rest(n, period))
    ensures Outputs(d, Periods(n, d.freqTimer / 2 + 1)).freqTimer == d.freqTimer
  {
    hide DmcOk, OutputCycle, ClockDmc, Rest, Periods;
    OkBounds(d);
    var period := d.freqTimer / 2 + 1;
    if n == 0 {
      RestStep(0, period);
    } else {
      OutputsEvery(d, n - 1);
      RestStep(n - 1, period);
      var before := Outputs(d, Periods(n - 1, period));
      OkBounds(before);
      TimerStep(before, Rest(n - 1, period));
    }
  }

  lemma OkBounds(d: Dmc)
    requires DmcOk(d)
    ensures d.output < 128 && d.freqTimer >= 0
  {
  }

  /** A byte without its lowest k bits. */
  function Tail(byte: u8, k: nat): u8 {
    if k == 0 then byte else Tail(byte, k - 1) / 2
  }

  lemma {:induction false} TailIsShifted(byte: nat, k: nat)
    ensures ShiftRight(byte, k + 1) == ShiftRight(byte, k) / 2
  {
    if k > 0 {
      TailIsShifted(byte / 2, k - 1);
    }
  }

  lemma {:induction false} TailIs(byte: u8, k: nat)
    ensures Tail(byte, k) == ShiftRight(byte, k)
  {
    if k > 0 {
      TailIs(byte, k - 1);
      TailIsShifted(byte, k - 1);
    }
  }

  /** The level after the first k bits of a byte, lowest first, have moved it up or down. */
  function Level(level: u8, byte: u8, k: nat): (r: u8)
    requires level < 128
    ensures r < 128
  {
    if k == 0 then level
    else Moved(Level(level, byte, k - 1), Tail(byte, k - 1) % 2 == 1)
  }

  /** Where the output unit stands inside a byte. */
  function Inside(d: Dmc, k: nat): Dmc
    requires d.output < 128 && k <= 8
  {
    d.(output := Level(d.output, d.outputShift, k), outputShift := Tail(d.outputShift, k), outputBits := 8 - k)
  }

  lemma InsideShift(d: Dmc, k: nat)
    requires d.output < 128 && !d.outputSilent && k < 8
    ensures ShiftOut(Inside(d, k)) == Inside(d, k + 1).(outputBits := 8 - k)
  {
    hide Moved;
  }

  lemma InsideStep(d: Dmc, k: nat)
    requires d.output < 128 && !d.outputSilent && k < 8
    ensures OutputCycle(Inside(d, k)) == if k < 7 then Inside(d, k + 1) else NextByte(Inside(d, 8).(outputBits := 1))
  {
    hide ShiftOut, NextByte, Level, Tail;
    InsideShift(d, k);
  }

  /** Up to seven steps of the output unit play as many bits of the byte. */
  lemma {:induction false} BitsArePlayed(d: Dmc, k: nat)
    requires DmcOk(d) && !d.outputSilent && d.outputBits == 8 && k < 8
    ensures d.output < 128
    ensures Outputs(d, k) == Inside(d, k)
  {
    hide DmcOk, OutputCycle;
    OkBounds(d);
    if k > 0 {
      BitsArePlayed(d, k - 1);
      InsideStep(d, k - 1);
      hide Inside;
    }
  }

  /** Eight steps play the whole byte, lowest bit first; then the output unit takes the byte in the
    buffer and asks for another, or falls silent. */
  lemma ByteIsPlayed(d: Dmc)
    requires DmcOk(d) && !d.outputSilent && d.outputBits == 8
    ensures d.output < 128
    ensures Outputs(d, 8) == NextByte(Inside(d, 8).(outputBits := 1))
  {
    hide DmcOk, OutputCycle, NextByte, Inside;
    BitsArePlayed(d, 7);
    InsideStep(d, 7);
    OkBounds(Outputs(d, 7));
    assert Outputs(d, 8) == OutputCycle(Outputs(d, 7));
  }

  /** What happens to a channel that plays a sample. */
  datatype Event = Clock | Check | Take | Load(val: u8)

  function Step(d: Dmc, event: Event): (r: Dmc)
    requires DmcOk(d)
    ensures DmcOk(r)
  {
    DmcChecks(d);
    DmcClocks(d);
    match event
    case Clock => ClockDmc(d)
    case Check => CheckPendingDma(d)
    case Take => d.(dmaPending := false)
    case Load(val) => DmcOthers(d, val, Soft); LoadBuffer(d, val)
  }

  function Run(d: Dmc, events: seq<Event>): (r: Dmc)
    requires DmcOk(d)
    ensures DmcOk(r)
  {
    if events == [] then d else Step(Run(d, events[..|events| - 1]), events[|events| - 1])
  }

  function Loads(events: seq<Event>): nat {
    if events == [] then 0
    else Loads(events[..|events| - 1]) + if events[|events| - 1].Load? then 1 else 0
  }

  /** The address of a byte of the sample: past the end of memory comes $8000. */
  function ByteAddr(start: u16, k: nat): int {
    if start + k < 0x1_0000 then start + k else start + k - 0x8000
  }

  /** The bytes of the sample that are done after so many loads. */
  function Done(d: Dmc, loads: nat): nat
    requires d.lengthLoad > 0
  {
    if d.loops then Rest(loads, d.lengthLoad) else Min(loads, d.lengthLoad)
  }

  /** A clock, a check or a taken request changes nothing about the place in the sample. */
  predicate SamePlace(d: Dmc, r: Dmc) {
    && r.addr == d.addr && r.length == d.length && r.irqPending == d.irqPending
    && r.addrLoad == d.addrLoad && r.lengthLoad == d.lengthLoad && r.loops == d.loops && r.irqEnabled == d.irqEnabled
  }

  lemma ClockStays(d: Dmc)
    requires DmcOk(d)
    ensures SamePlace(d, ClockDmc(d))
  {
    var started := d.(freqCounter := d.freqTimer);
    assert SamePlace(d, ShiftOut(started)) && ShiftOut(started).outputBits == d.outputBits by {
      hide Moved;
    }
    hide ShiftOut, DmcOk;
  }

  lemma OthersStay(d: Dmc, event: Event)
    requires DmcOk(d) && !event.Load?
    ensures SamePlace(d, Step(d, event))
  {
    ClockStays(d);
    hide ClockDmc, DmcOk;
  }

  lemma LoadMoves(d: Dmc, val: u8)
    requires DmcOk(d)
    ensures var r := Step(d, Load(val));
      && r.addrLoad == d.addrLoad && r.lengthLoad == d.lengthLoad && r.loops == d.loops && r.irqEnabled == d.irqEnabled
      && (d.length == 0 ==> SamePlace(d, r))
      && (d.length > 1 ==> r.addr == NextAddr(d.addr) && r.length == d.length - 1 && r.irqPending == d.irqPending)
      && (d.length == 1 && d.loops ==>
            r.addr == d.addrLoad && r.length == d.lengthLoad && r.irqPending == d.irqPending)
      && (d.length == 1 && !d.loops ==>
            r.addr == NextAddr(d.addr) && r.length == 0 && r.irqPending == (d.irqPending || d.irqEnabled))
  {
    hide DmcOk;
  }

  /** The place in the sample of `idle` after so many loads. */
  predicate InSample(idle: Dmc, r: Dmc, loads: nat)
    requires idle.lengthLoad > 0
  {
    && r.lengthLoad == idle.lengthLoad && r.addrLoad == idle.addrLoad && r.loops == idle.loops
    && r.irqEnabled == idle.irqEnabled
    && r.length == idle.lengthLoad - Done(idle, loads)
    && r.addr == ByteAddr(idle.addrLoad, Done(idle, loads))
    && (r.irqPending <==> idle.irqEnabled && !idle.loops && loads >= idle.lengthLoad)
  }

  lemma LoadAdvances(idle: Dmc, s: Dmc, loads: nat, val: u8)
    requires 0 < idle.lengthLoad <= 0xFF1 && DmcOk(s) && InSample(idle, s, loads)
    ensures InSample(idle, Step(s, Load(val)), loads + 1)
  {
    LoadMoves(s, val);
    hide Rest, Step, DmcOk;
    RestStep(loads, idle.lengthLoad);
    if idle.loops {
      assert Done(idle, loads) == Rest(loads, idle.lengthLoad);
    } else {
      assert Done(idle, loads) == Min(loads, idle.lengthLoad);
    }
  }

  /** A channel that is switched on after it was idle fetches the bytes of its sample in order, each
    once, whatever clocks fall between them. Without the loop it stops after the last byte, and that
    byte, no other, raises the interrupt; with the loop it starts again and raises none. */
  lemma {:induction false} SampleIsFetched(idle: Dmc, cycle: nat, events: seq<Event>)
    requires DmcOk(idle) && idle.length == 0 && idle.lengthLoad > 0
    ensures DmcOk(EnableDmc(idle, true, cycle))
    ensures InSample(idle, Run(EnableDmc(idle, true, cycle), events), Loads(events))
  {
    DmcEnables(idle, true, cycle);
    var d := EnableDmc(idle, true, cycle);
    RestStep(0, idle.lengthLoad);
    if events != [] {
      var before, last := events[..|events| - 1], events[|events| - 1];
      SampleIsFetched(idle, cycle, before);
      assert idle.lengthLoad <= 0xFF1;
      hide Rest, Step, DmcOk, EnableDmc;
      if last.Load? {
        LoadAdvances(idle, Run(d, before), Loads(before), last.val);
      } else {
        OthersStay(Run(d, before), last);
      }
    }
  }

  // ----- the frame sequence

  function FrameClocks(f: FrameCounter, n: nat): (r: FrameCounter)
    requires f.step < 6
    ensures r.step < 6
  {
    if n == 0 then f else ClockFrame(FrameClocks(f, n - 1)).0
  }

  function NextStep(f: FrameCounter): FrameCounter
    requires f.step < 6
  {
    var next := (f.step + 1) % 6;
    f.(step := next, cycles := StepCycles(f.region, f.fiveStep)[next])
  }

  /** A step takes as many clocks as it has been given, and is reported on the last of them. */
  lemma {:induction false} StepTakes(f: FrameCounter, n: nat)
    requires f.step < 6 && n < f.cycles
    ensures FrameClocks(f, n) == f.(cycles := f.cycles - n)
    ensures ClockFrame(FrameClocks(f, n)) ==
      if n + 1 < f.cycles then (f.(cycles := f.cycles - n - 1), 0) else (NextStep(f), f.step)
  {
    if n > 0 {
      StepTakes(f, n - 1);
    }
  }

  lemma {:induction false} ClocksAdd(f: FrameCounter, m: nat, n: nat)
    requires f.step < 6
    ensures FrameClocks(f, m + n) == FrameClocks(FrameClocks(f, m), n)
  {
    hide ClockFrame;
    if n > 0 {
      ClocksAdd(f, m, n - 1);
    }
  }

  function Started(f: FrameCounter, step: nat): FrameCounter
    requires step < 6
  {
    f.(step := step, cycles := StepCycles(f.region, f.fiveStep)[step])
  }

  /** The clocks of the first steps. */
  function StepsTake(f: FrameCounter, steps: nat): nat
    requires steps <= 6
  {
    if steps == 0 then 0 else StepsTake(f, steps - 1) + StepCycles(f.region, f.fiveStep)[steps - 1]
  }

  lemma {:induction false} StepsPass(f: FrameCounter, steps: nat)
    requires steps <= 6
    ensures FrameClocks(Started(f, 0), StepsTake(f, steps)) == Started(f, steps % 6)
  {
    hide ClockFrame;
    if steps > 0 {
      var s := Started(f, steps - 1);
      StepsPass(f, steps - 1);
      ClocksAdd(Started(f, 0), StepsTake(f, steps - 1), s.cycles);
      StepTakes(s, s.cycles - 1);
      assert FrameClocks(s, s.cycles) == ClockFrame(FrameClocks(s, s.cycles - 1)).0;
    }
  }

  /** The sequence of four steps takes 29830 clocks, that of five 37282; on PAL consoles 33254 and
    41566. Then it starts over. */
  lemma SequenceLength(f: FrameCounter)
    ensures
      var length := if f.region == Pal then (if f.fiveStep then 41566 else 33254)
                    else (if f.fiveStep then 37282 else 29830);
      FrameClocks(Started(f, 0), length) == Started(f, 0)
  {
    StepsPass(f, 6);
    hide FrameClocks, Started;
    SixSteps(f);
  }

  lemma SixSteps(f: FrameCounter)
    ensures StepsTake(f, 6) ==
      if f.region == Pal then (if f.fiveStep then 41566 else 33254) else (if f.fiveStep then 37282 else 29830)
  {
    var cycles := StepCycles(f.region, f.fiveStep);
    assert StepsTake(f, 1) == StepsTake(f, 0) + cycles[0];
    assert StepsTake(f, 2) == StepsTake(f, 1) + cycles[1];
    assert StepsTake(f, 3) == StepsTake(f, 2) + cycles[2];
    assert StepsTake(f, 4) == StepsTake(f, 3) + cycles[3];
    assert StepsTake(f, 5) == StepsTake(f, 4) + cycles[4];
  }
}
