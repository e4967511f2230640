/** The sound channels and the unit as the objects that the emulator clocks and writes. Every timer
  is a 16-bit word here, so each subtraction and addition shows that it stays inside. */
module ApuDevice {
  import opened Words
  import S = ApuSpec
  import R = ApuRuns

  class Envelope {
    var enabled: bool
    var loops: bool
    var restart: bool
    var volume: u8
    var constantVolume: u8
    var counter: u8

    ghost function State(): S.Envelope
      reads this
    {
      S.Envelope(enabled, loops, restart, volume, constantVolume, counter)
    }

    constructor ()
      ensures State() == S.NO_ENVELOPE
    {
      enabled, loops, restart, volume, constantVolume, counter := false, false, false, 0, 0, 0;
    }

    method Reset()
      modifies this
      ensures State() == S.NO_ENVELOPE
    {
      enabled, loops, restart, volume, constantVolume, counter := false, false, false, 0, 0, 0;
    }

    method WriteCtrl(val: u8)
      modifies this
      ensures State() == S.WriteEnvelope(old(State()), val)
    {
      loops := val / 32 % 2 == 1;
      enabled := val / 16 % 2 == 0;
      constantVolume := val % 16;
    }

    method Clock()
      modifies this
      ensures State() == S.ClockEnvelope(old(State()))
    {
      if restart {
        restart := false;
        volume := 0x0F;
        counter := constantVolume;
      } else if counter > 0 {
        counter := counter - 1;
      } else {
        counter := constantVolume;
        if volume > 0 {
          volume := volume - 1;
        } else if loops {
          volume := 0x0F;
        }
      }
    }
  }

  class Pulse {
    var enabled: bool
    var forceSilent: bool
    var dutyCycle: u8
    var dutyCounter: u8
    var freqTimer: u16
    var freqCounter: u16
    const first: bool
    var length: S.Length
    const envelope: Envelope
    var sweep: S.Sweep

    ghost function State(): S.Pulse
      reads this, envelope
    {
      S.Pulse(enabled, forceSilent, dutyCycle, dutyCounter, freqTimer, freqCounter, first, length, envelope.State(),
              sweep)
    }

    constructor (first: bool)
      ensures State() == S.NewPulse(first) && fresh(envelope)
    {
      this.first := first;
      enabled, forceSilent, dutyCycle, dutyCounter, freqTimer, freqCounter := false, false, 0, 0, 0, 0;
      length := S.Length(false, 0);
      sweep := S.Sweep(false, false, false, 0, 0, 0);
      envelope := new Envelope();
    }

    method Reset()
      modifies this, envelope
      ensures State() == S.NewPulse(old(State()).first)
    {
      enabled, forceSilent, dutyCycle, dutyCounter, freqTimer, freqCounter := false, false, 0, 0, 0, 0;
      length := S.Length(false, 0);
      sweep := S.Sweep(false, false, false, 0, 0, 0);
      envelope.Reset();
    }

    method ToggleSilent()
      modifies this
      ensures State() == old(State()).(forceSilent := !old(State()).forceSilent)
    {
      forceSilent := !forceSilent;
    }

    method ClockQuarterFrame()
      modifies envelope
      ensures State() == S.PulseQuarter(old(State()))
    {
      envelope.Clock();
    }

    method ClockHalfFrame()
      requires R.PulseOk(State())
      modifies this
      ensures State() == S.PulseHalf(old(State())) && R.PulseOk(State())
    {
      R.PulseClocks(State());
      ClockSweep();
      if length.enabled && length.counter > 0 {
        length := length.(counter := length.counter - 1);
      }
    }

    method ClockSweep()
      requires R.PulseOk(State())
      modifies this`sweep, this`freqTimer
      ensures State() == S.ClockSweep(old(State()))
    {
      var sweepForcingSilence := SweepForcingSilence();
      if sweep.reload {
        sweep := sweep.(counter := sweep.timer, reload := false);
      } else if sweep.counter > 0 {
        sweep := sweep.(counter := sweep.counter - 1);
      } else {
        sweep := sweep.(counter := sweep.timer);
        if sweep.enabled && !sweepForcingSilence {
          R.HalvedBelow(freqTimer, sweep.shift);
          var delta: u16 := S.Halved(freqTimer, sweep.shift);
          if sweep.negate {
            freqTimer := freqTimer - (delta + 1);
            if first {
              freqTimer := freqTimer + 1;
            }
          } else {
            freqTimer := freqTimer + delta;
          }
        }
      }
    }

    function SweepForcingSilence(): (silence: bool)
      reads this, envelope
      requires R.PulseOk(State())
      ensures silence == S.Silencing(State())
    {
      R.HalvedBelow(freqTimer, sweep.shift);
      var nextFreq: u16 := freqTimer + S.Halved(freqTimer, sweep.shift);
      freqTimer < 8 || (!sweep.negate && nextFreq >= 0x800)
    }

    function Output(): (level: u8)
      reads this, envelope
      requires R.PulseOk(State())
      ensures level == S.PulseOutput(State())
    {
      if S.DUTY[dutyCycle][dutyCounter] != 0 && length.counter != 0 && !SweepForcingSilence() && !forceSilent then
        if envelope.enabled then envelope.volume else envelope.constantVolume
      else 0
    }

    method WriteCtrl(val: u8)
      requires R.PulseOk(State())
      modifies this`dutyCycle, this`length, envelope
      ensures State() == S.WritePulse(old(State()), 0, val) && R.PulseOk(State())
    {
      R.PulseWrites(State(), 0, val, false);
      dutyCycle := val / 64;
      length := length.(enabled := val / 32 % 2 == 0);
      envelope.WriteCtrl(val);
    }

    method WriteSweep(val: u8)
      requires R.PulseOk(State())
      modifies this`sweep
      ensures State() == S.WritePulse(old(State()), 1, val) && R.PulseOk(State())
    {
      R.PulseWrites(State(), 1, val, false);
      var shift := val % 8;
      sweep := S.Sweep(val / 128 == 1 && shift != 0, true, val / 8 % 2 == 1, val / 16 % 8, sweep.counter, shift);
    }

    method WriteTimerLo(val: u8)
      requires R.PulseOk(State())
      modifies this`freqTimer
      ensures State() == S.WritePulse(old(State()), 2, val) && R.PulseOk(State())
    {
      R.PulseWrites(State(), 2, val, false);
      R.TimerWrites(freqTimer, val);
      freqTimer := freqTimer / 0x100 * 0x100 + val;
    }

    method WriteTimerHi(val: u8)
      requires R.PulseOk(State())
      modifies this, envelope
      ensures State() == S.WritePulse(old(State()), 3, val) && R.PulseOk(State())
    {
      R.PulseWrites(State(), 3, val, false);
      R.TimerWrites(freqTimer, val);
      freqTimer := freqTimer % 0x100 + val % 8 * 0x100;
      freqCounter := freqTimer;
      dutyCounter := 0;
      envelope.restart := true;
      if enabled {
        length := length.(counter := S.LengthFor(val));
      }
    }

    method SetEnabled(enabled: bool)
      modifies this
      ensures State() == S.EnablePulse(old(State()), enabled)
    {
      this.enabled := enabled;
      if !enabled {
        length := length.(counter := 0);
      }
    }

    method Clock()
      requires R.PulseOk(State())
      modifies this
      ensures State() == S.ClockPulse(old(State())) && R.PulseOk(State())
    {
      if freqCounter > 0 {
        freqCounter := freqCounter - 1;
      } else {
        freqCounter := freqTimer;
        dutyCounter := (dutyCounter + 1) % 8;
      }
    }
  }

  class Triangle {
    var enabled: bool
    var forceSilent: bool
    var ultrasonic: bool
    var step: u8
    var freqTimer: u16
    var freqCounter: u16
    var length: S.Length
    var linear: S.Linear

    ghost function State(): S.Triangle
      reads this
    {
      S.Triangle(enabled, forceSilent, ultrasonic, step, freqTimer, freqCounter, length, linear)
    }

    constructor ()
      ensures State() == S.NEW_TRIANGLE
    {
      enabled, forceSilent, ultrasonic, step, freqTimer, freqCounter := false, false, false, 0, 0, 0;
      length, linear := S.Length(false, 0), S.Linear(false, false, 0, 0);
    }

    method Reset()
      modifies this
      ensures State() == S.NEW_TRIANGLE
    {
      enabled, forceSilent, ultrasonic, step, freqTimer, freqCounter := false, false, false, 0, 0, 0;
      length, linear := S.Length(false, 0), S.Linear(false, false, 0, 0);
    }

    method ToggleSilent()
      modifies this
      ensures State() == old(State()).(forceSilent := !old(State()).forceSilent)
    {
      forceSilent := !forceSilent;
    }

    method ClockQuarterFrame()
      modifies this
      ensures State() == S.TriangleQuarter(old(State()))
    {
      if linear.reload {
        linear := linear.(counter := linear.load);
      } else if linear.counter > 0 {
        linear := linear.(counter := linear.counter - 1);
      }
      if !linear.control {
        linear := linear.(reload := false);
      }
    }

    method ClockHalfFrame()
      modifies this
      ensures State() == S.TriangleHalf(old(State()))
    {
      if length.enabled && length.counter > 0 {
        length := length.(counter := length.counter - 1);
      }
    }

    /** Twice the level. */
    function Output2(): (level: int)
      reads this
      requires R.TriangleOk(State())
      ensures level == S.TriangleOutput2(State())
    {
      if forceSilent then 0
      else if ultrasonic then 15
      else if step / 16 == 1 then 2 * (31 - step)
      else 2 * step
    }

    method WriteLinearCounter(val: u8)
      requires R.TriangleOk(State())
      modifies this`linear, this`length
      ensures State() == S.WriteTriangle(old(State()), 0, val) && R.TriangleOk(State())
    {
      linear := linear.(control := val / 128 == 1, load := val / 2);
      length := length.(enabled := val / 128 == 0);
    }

    method WriteTimerLo(val: u8)
      requires R.TriangleOk(State())
      modifies this`freqTimer
      ensures State() == S.WriteTriangle(old(State()), 2, val) && R.TriangleOk(State())
    {
      R.TriangleWrites(State(), 2, val, false);
      R.TimerWrites(freqTimer, val);
      freqTimer := freqTimer / 0x100 * 0x100 + val;
    }

    method WriteTimerHi(val: u8)
      requires R.TriangleOk(State())
      modifies this
      ensures State() == S.WriteTriangle(old(State()), 3, val) && R.TriangleOk(State())
    {
      R.TriangleWrites(State(), 3, val, false);
      R.TimerWrites(freqTimer, val);
      freqTimer := freqTimer % 0x100 + val % 8 * 0x100;
      freqCounter := freqTimer;
      linear := linear.(reload := true);
      if enabled {
        length := length.(counter := S.LengthFor(val));
      }
    }

    method SetEnabled(enabled: bool)
      modifies this
      ensures State() == S.EnableTriangle(old(State()), enabled)
    {
      this.enabled := enabled;
      if !enabled {
        length := length.(counter := 0);
      }
    }

    method Clock()
      requires R.TriangleOk(State())
      modifies this
      ensures State() == S.ClockTriangle(old(State())) && R.TriangleOk(State())
    {
      ultrasonic := false;
      if length.counter > 0 && freqTimer < 2 && freqCounter == 0 {
        ultrasonic := true;
      }
      var shouldClock := !(length.counter == 0 || linear.counter == 0 || ultrasonic);
      if shouldClock {
        if freqCounter > 0 {
          freqCounter := freqCounter - 1;
        } else {
          freqCounter := freqTimer;
          step := (step + 1) % 32;
        }
      }
    }
  }

  class Noise {
    var region: Region
    var forceSilent: bool
    var enabled: bool
    var freqTimer: int
    var freqCounter: int
    var shift: bv16
    var longTap: bool
    var length: S.Length
    const envelope: Envelope

    ghost function State(): S.Noise
      reads this, envelope
    {
      S.Noise(region, forceSilent, enabled, freqTimer, freqCounter, shift, longTap, length, envelope.State())
    }

    constructor ()
      ensures State() == S.NEW_NOISE && fresh(envelope)
    {
      region, forceSilent, enabled, freqTimer, freqCounter, shift, longTap := Ntsc, false, false, 0, 0, 1, false;
      length := S.Length(false, 0);
      envelope := new Envelope();
    }

    method Reset()
      modifies this, envelope
      ensures State() == S.NEW_NOISE
    {
      region, forceSilent, enabled, freqTimer, freqCounter, shift, longTap := Ntsc, false, false, 0, 0, 1, false;
      length := S.Length(false, 0);
      envelope.Reset();
    }

    method ToggleSilent()
      modifies this
      ensures State() == old(State()).(forceSilent := !old(State()).forceSilent)
    {
      forceSilent := !forceSilent;
    }

    method SetRegion(region: Region)
      modifies this`region
      ensures State() == old(State()).(region := region)
    {
      this.region := region;
    }

    method ClockQuarterFrame()
      modifies envelope
      ensures State() == S.NoiseQuarter(old(State()))
    {
      envelope.Clock();
    }

    method ClockHalfFrame()
      modifies this
      ensures State() == S.NoiseHalf(old(State()))
    {
      if length.enabled && length.counter > 0 {
        length := length.(counter := length.counter - 1);
      }
    }

    function Output(): (level: u8)
      reads this, envelope
      ensures level == S.NoiseOutput(State())
    {
      if shift & 1 == 0 && length.counter != 0 && !forceSilent then
        if envelope.enabled then envelope.volume else envelope.constantVolume
      else 0
    }

    method WriteCtrl(val: u8)
      modifies this`length, envelope
      ensures State() == S.WriteNoise(old(State()), 0, val)
    {
      length := length.(enabled := val / 32 % 2 == 0);
      envelope.WriteCtrl(val);
    }

    method WriteTimer(val: u8)
      modifies this`freqTimer, this`longTap
      ensures State() == S.WriteNoise(old(State()), 2, val)
    {
      hide S.NoiseTimer;
      freqTimer := S.NoiseTimer(region, val);
      longTap := val / 128 == 1;
    }

    method WriteLength(val: u8)
      modifies this`length, envelope
      ensures State() == S.WriteNoise(old(State()), 3, val)
    {
      if enabled {
        length := length.(counter := S.LengthFor(val));
      }
      envelope.restart := true;
    }

    method SetEnabled(enabled: bool)
      modifies this
      ensures State() == S.EnableNoise(old(State()), enabled)
    {
      this.enabled := enabled;
      if !enabled {
        length := length.(counter := 0);
      }
    }

    method Clock()
      modifies this
      ensures State() == S.ClockNoise(old(State()))
    {
      if freqCounter > 0 {
        freqCounter := freqCounter - 1;
      } else {
        freqCounter := freqTimer;
        var bit1 := shift & 1;
        var bit2 := (if longTap then shift >> 6 else shift >> 1) & 1;
        shift := (shift & 0x7FFF) | ((bit1 ^ bit2) << 14);
        shift := shift >> 1;
      }
    }
  }

  class Dmc {
    var region: Region
    var forceSilent: bool
    var irqEnabled: bool
    var irqPending: bool
    var loops: bool
    var freqTimer: int
    var freqCounter: int
    var addr: u16
    var addrLoad: u16
    var length: u16
    var lengthLoad: u16
    var sampleBuffer: u8
    var sampleBufferEmpty: bool
    var dmaPending: bool
    var init: u8
    var output: u8
    var outputBits: u8
    var outputShift: u8
    var outputSilent: bool

    ghost function State(): S.Dmc
      reads this
    {
      S.Dmc(region, forceSilent, irqEnabled, irqPending, loops, freqTimer, freqCounter, addr, addrLoad, length,
            lengthLoad, sampleBuffer, sampleBufferEmpty, dmaPending, init, output, outputBits, outputShift,
            outputSilent)
    }

    constructor ()
      ensures State() == S.NewDmc(Ntsc)
    {
      region := Ntsc;
      forceSilent, irqEnabled, irqPending, loops := false, false, false, false;
      freqTimer, freqCounter := S.DmcTimer(Ntsc, 0), S.DmcTimer(Ntsc, 0);
      addr, addrLoad, length, lengthLoad := 0xC000, 0, 0, 1;
      sampleBuffer, sampleBufferEmpty, dmaPending, init := 0, true, false, 0;
      output, outputBits, outputShift, outputSilent := 0, 0, 0, true;
    }

    method Reset(kind: ResetKind)
      modifies this
      ensures State() == S.ResetDmc(old(State()), kind)
    {
      hide S.DmcTimer;
      Stop();
      Rewind(kind);
      ClearSample();
    }

    method Stop()
      modifies this`irqEnabled, this`irqPending, this`loops, this`freqTimer, this`freqCounter
      ensures !irqEnabled && !irqPending && !loops && freqTimer == freqCounter == S.DmcTimer(region, 0)
    {
      irqEnabled, irqPending, loops := false, false, false;
      freqTimer := S.DmcTimer(region, 0);
      freqCounter := freqTimer;
    }

    method Rewind(kind: ResetKind)
      modifies this`addr, this`addrLoad, this`length, this`lengthLoad
      ensures addr == if kind == Soft then 0 else 0xC000
      ensures lengthLoad == if kind == Soft then 0 else 1
      ensures addrLoad == 0 && length == 0
    {
      if kind == Soft {
        addr, lengthLoad := 0, 0;
      } else {
        addr, lengthLoad := 0xC000, 1;
      }
      addrLoad, length := 0, 0;
    }

    method ClearSample()
      modifies this`sampleBuffer, this`sampleBufferEmpty, this`dmaPending, this`init, this`output, this`outputBits,
        this`outputShift, this`outputSilent
      ensures sampleBuffer == 0 && sampleBufferEmpty && !dmaPending && init == 0
      ensures output == 0 && outputBits == 0 && outputShift == 0 && outputSilent
    {
      sampleBuffer, sampleBufferEmpty, dmaPending, init := 0, true, false, 0;
      output, outputBits, outputShift, outputSilent := 0, 0, 0, true;
    }

    method ToggleSilent()
      modifies this
      ensures State() == old(State()).(forceSilent := !old(State()).forceSilent)
    {
      forceSilent := !forceSilent;
    }

    method SetRegion(region: Region)
      modifies this`region, this`freqTimer
      ensures State() == S.RegionalDmc(old(State()), region)
    {
      hide S.DmcTimer;
      this.region := region;
      freqTimer := S.DmcTimer(region, 0);
    }

    /** Hands out the request for a byte. */
    method Dma() returns (pending: bool)
      modifies this
      ensures pending == old(dmaPending) && State() == old(State()).(dmaPending := false)
    {
      pending := dmaPending;
      dmaPending := false;
    }

    method LoadBuffer(val: u8)
      modifies this
      ensures State() == S.LoadBuffer(old(State()), val)
    {
      dmaPending := false;
      if length > 0 {
        sampleBuffer := val;
        sampleBufferEmpty := false;
        Advance();
      }
    }

    method Advance()
      requires length > 0
      modifies this`addr, this`length, this`irqPending
      ensures addr == if old(length) == 1 && loops then addrLoad else S.NextAddr(old(addr))
      ensures length == if old(length) == 1 && loops then lengthLoad else old(length) - 1
      ensures irqPending == (old(irqPending) || (old(length) == 1 && !loops && irqEnabled))
    {
      addr := (addr + 1) % 0x1_0000;
      if addr == 0 {
        addr := 0x8000;
      }
      length := length - 1;
      if length == 0 {
        if loops {
          length := lengthLoad;
          addr := addrLoad;
        } else if irqEnabled {
          irqPending := true;
        }
      }
    }

    method WriteTimer(val: u8)
      modifies this`irqEnabled, this`loops, this`freqTimer, this`irqPending
      ensures State() == S.WriteDmc(old(State()), 0, val)
    {
      hide S.DmcTimer;
      irqEnabled := val / 128 == 1;
      loops := val / 64 % 2 == 1;
      freqTimer := S.DmcTimer(region, val);
      if !irqEnabled {
        irqPending := false;
      }
    }

    method WriteOutput(val: u8)
      modifies this`output
      ensures State() == S.WriteDmc(old(State()), 1, val)
    {
      output := S.SevenBits(val);
    }

    method WriteAddrLoad(val: u8)
      modifies this`addrLoad
      ensures State() == S.WriteDmc(old(State()), 2, val)
    {
      addrLoad := 0xC000 + val * 64;
    }

    method WriteLength(val: u8)
      modifies this`lengthLoad
      ensures State() == S.WriteDmc(old(State()), 3, val)
    {
      lengthLoad := val * 16 + 1;
    }

    method SetEnabled(enabled: bool, cycle: nat)
      modifies this
      ensures State() == S.EnableDmc(old(State()), enabled, cycle)
    {
      irqPending := false;
      if !enabled {
        length := 0;
      } else if length == 0 {
        addr := addrLoad;
        length := lengthLoad;
        init := if cycle % 2 == 0 then 2 else 3;
      }
    }

    method CheckPendingDma()
      modifies this
      ensures State() == S.CheckPendingDma(old(State()))
    {
      if init > 0 {
        init := init - 1;
        if init == 0 && sampleBufferEmpty && length > 0 {
          dmaPending := true;
        }
      }
    }

    method ShiftOut()
      requires output < 128
      modifies this`output, this`outputShift
      ensures State() == S.ShiftOut(old(State()))
    {
      if !outputSilent {
        if outputShift % 2 == 1 {
          if output <= 125 {
            output := output + 2;
          }
        } else if output >= 2 {
          output := output - 2;
        }
        outputShift := outputShift / 2;
      }
    }

    method Clock()
      requires State().output < 128
      modifies this
      ensures State() == S.ClockDmc(old(State()))
    {
      hide S.OutputCycle;
      if freqCounter >= 2 {
        freqCounter := freqCounter - 2;
      } else {
        freqCounter := freqTimer;
        OutputCycle();
      }
    }

    method OutputCycle()
      requires output < 128
      modifies this`output, this`outputShift, this`outputBits, this`outputSilent, this`sampleBufferEmpty,
          this`dmaPending
      ensures State() == S.OutputCycle(old(State()))
    {
      hide S.ShiftOut;
      ShiftOut();
      outputBits := Max(0, outputBits - 1);
      if outputBits == 0 {
        NextByte();
      }
    }

    method NextByte()
      modifies this`outputBits, this`outputSilent, this`outputShift, this`sampleBufferEmpty, this`dmaPending
      ensures State() == S.NextByte(old(State()))
    {
      outputBits := 8;
      if sampleBufferEmpty {
        outputSilent := true;
      } else {
        outputSilent := false;
        outputShift := sampleBuffer;
        sampleBufferEmpty := true;
        if length > 0 {
          dmaPending := true;
        }
      }
    }

    function Output(): (level: u8)
      reads this
      ensures level == S.DmcOutput(State())
    {
      if forceSilent then 0 else output
    }
  }

  class FrameCounter {
    var region: Region
    var cycles: nat
    var step: nat
    var fiveStep: bool
    /** The byte that waits to take effect, or `NO_WRITE`. */
    var writeBuffer: int
    var writeDelay: nat

    ghost function State(): S.FrameCounter
      reads this
    {
      S.FrameCounter(region, cycles, step, fiveStep, writeBuffer, writeDelay)
    }

    constructor ()
      ensures State() == S.NewFrameCounter()
    {
      region := Ntsc;
      cycles, step, fiveStep := S.StepCycles(Ntsc, false)[0], 0, false;
      writeBuffer, writeDelay := S.NO_WRITE, 0;
    }

    method Clock() returns (ended: nat)
      requires S.Counting(State())
      modifies this`cycles, this`step
      ensures (State(), ended) == S.ClockFrame(old(State())) && S.Counting(State())
    {
      ended := 0;
      if cycles > 0 {
        cycles := cycles - 1;
      }
      if cycles == 0 {
        ended := step;
        step := step + 1;
        if step > 5 {
          step := 0;
        }
        cycles := S.StepCycles(region, fiveStep)[step];
      }
    }

    method Reload(val: u8)
      modifies this`cycles, this`step, this`fiveStep
      requires writeBuffer == S.NO_WRITE
      ensures State() == S.Reload(old(State()), val >= 0x80)
    {
      fiveStep := val / 128 == 1;
      step := 0;
      cycles := S.StepCycles(region, fiveStep)[step];
      if fiveStep {
        var _ := Clock();
      }
    }

    method SetRegion(region: Region)
      modifies this`region
      ensures State() == old(State()).(region := region)
    {
      this.region := region;
    }

    /** Counts a delayed write down; returns whether it took effect. */
    method Update() returns (took: bool)
      requires S.Counting(State())
      modifies this
      ensures (State(), took) == S.Update(old(State()))
    {
      took := false;
      if writeBuffer != S.NO_WRITE {
        writeDelay := writeDelay - 1;
        if writeDelay == 0 {
          var val := writeBuffer;
          writeBuffer := S.NO_WRITE;
          Reload(val);
          took := true;
        }
      }
    }

    method Write(val: u8, cycle: nat)
      modifies this
      ensures State() == old(State()).(written := val, delay := if cycle % 2 == 1 then 4 else 3)
    {
      writeBuffer := val;
      writeDelay := if cycle % 2 == 1 then 4 else 3;
    }

    method Reset(kind: ResetKind)
      modifies this
      ensures State() == S.ResetFrame(old(State()), kind)
    {
      if kind == Hard {
        fiveStep := false;
      }
      step := 0;
      cycles := S.StepCycles(region, fiveStep)[step];
      writeBuffer := if fiveStep then 0x80 else 0;
      writeDelay := 3;
    }
  }
}
