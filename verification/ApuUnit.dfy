/** The sound unit as an object: it clocks its channels, hands out register writes and mixes. */
module ApuUnit {
  import opened Words
  import S = ApuSpec
  import R = ApuRuns
  import D = ApuDevice
  import N = SoundRegisters

  class Apu {
    var cycle: nat
    var irqPending: bool
    var irqDisabled: bool
    const frameCounter: D.FrameCounter
    const pulse1: D.Pulse
    const pulse2: D.Pulse
    const triangle: D.Triangle
    const noise: D.Noise
    const dmc: D.Dmc

    /** The parts are different objects. */
    ghost predicate Distinct() {
      && pulse1 != pulse2
      && pulse1.envelope != pulse2.envelope && pulse1.envelope != noise.envelope && pulse2.envelope != noise.envelope
    }

    ghost function State(): S.Apu
      reads this, frameCounter, pulse1, pulse1.envelope, pulse2, pulse2.envelope, triangle, noise, noise.envelope, dmc
    {
      S.Apu(cycle, irqPending, irqDisabled, frameCounter.State(), pulse1.State(), pulse2.State(), triangle.State(),
            noise.State(), dmc.State())
    }

    ghost predicate Valid()
      reads this, frameCounter, pulse1, pulse1.envelope, pulse2, pulse2.envelope, triangle, noise, noise.envelope, dmc
    {
      Distinct() && R.Ok(State())
    }

    constructor ()
      ensures Valid() && State() == S.NewApu()
      ensures fresh(frameCounter) && fresh(pulse1) && fresh(pulse1.envelope) && fresh(pulse2) && fresh(pulse2.envelope)
      ensures fresh(triangle) && fresh(noise) && fresh(noise.envelope) && fresh(dmc)
    {
      hide R.Ok;
      R.NewOk();
      cycle, irqPending, irqDisabled := 0, false, false;
      frameCounter := new D.FrameCounter();
      pulse1 := new D.Pulse(true);
      pulse2 := new D.Pulse(false);
      triangle := new D.Triangle();
      noise := new D.Noise();
      dmc := new D.Dmc();
    }

    method ClockQuarterFrame()
      requires Valid()
      modifies pulse1.envelope, pulse2.envelope, triangle, noise.envelope
      ensures Valid() && State() == S.QuarterFrame(old(State()))
    {
      hide R.Ok, D.Envelope.State, D.Pulse.State, D.Triangle.State, D.Noise.State, D.Dmc.State, S.PulseQuarter,
        S.TriangleQuarter, S.NoiseQuarter;
      R.QuarterKeeps(State());
      pulse1.ClockQuarterFrame();
      pulse2.ClockQuarterFrame();
      triangle.ClockQuarterFrame();
      noise.ClockQuarterFrame();
    }

    method ClockHalfFrame()
      requires Valid()
      modifies pulse1, pulse2, triangle, noise
      ensures Valid() && State() == S.HalfFrame(old(State()))
    {
      hide R.Ok, D.Envelope.State, D.Pulse.State, D.Triangle.State, D.Noise.State, D.Dmc.State, R.PulseOk,
        S.PulseHalf, S.TriangleHalf, S.NoiseHalf;
      R.QuarterKeeps(State());
      PartsOk(State());
      pulse1.ClockHalfFrame();
      pulse2.ClockHalfFrame();
      triangle.ClockHalfFrame();
      noise.ClockHalfFrame();
    }

    method ClockFrameCounter()
      requires Valid()
      modifies this, frameCounter, pulse1, pulse1.envelope, pulse2, pulse2.envelope, triangle, noise, noise.envelope
      ensures Valid() && State() == S.ClockFrameCounter(old(State()))
    {
      hide R.Ok, D.Envelope.State, D.Pulse.State, D.Triangle.State, D.Noise.State, D.Dmc.State, S.QuarterFrame,
        S.HalfFrame, S.Counting, S.ClockFrame, S.Update;
      R.FrameCounterKeeps(State());
      ghost var a := State();
      PartsOk(a);
      R.FrameKeeps(a.frame);
      var clock := frameCounter.Clock();
      if !frameCounter.fiveStep && !irqDisabled && frameCounter.step >= 4 {
        irqPending := true;
      }
      ghost var flagged := State();
      FrameChanges(a, flagged);
      if clock == 1 || clock == 3 {
        ClockQuarterFrame();
      } else if clock == 2 || clock == 5 {
        ClockQuarterFrame();
        ClockHalfFrame();
      }
      ghost var framed := State();
      assert framed == S.Framed(flagged, clock);
      FramedKeepsCounter(flagged, clock);
      UpdateFrame(framed);
    }

    /** The second half of `ClockFrameCounter`. */
    method UpdateFrame(ghost framed: S.Apu)
      requires Valid() && framed == State()
      modifies frameCounter, pulse1, pulse1.envelope, pulse2, pulse2.envelope, triangle, noise, noise.envelope
      ensures Valid()
      ensures var (updated, took) := S.Update(framed.frame);
        var written := framed.(frame := updated);
        State() == if took && updated.fiveStep then S.HalfFrame(S.QuarterFrame(written)) else written
    {
      hide R.Ok, D.Envelope.State, D.Pulse.State, D.Triangle.State, D.Noise.State, D.Dmc.State, S.QuarterFrame,
        S.HalfFrame, S.Counting, S.Update;
      PartsOk(framed);
      R.FrameKeeps(framed.frame);
      var took := frameCounter.Update();
      FrameChanges(framed, State());
      if took && frameCounter.fiveStep {
        ClockQuarterFrame();
        ClockHalfFrame();
      }
    }

    method ClockChannels()
      requires Valid()
      modifies pulse1, pulse2, triangle, noise, dmc
      ensures Valid() && State() == S.ClockChannels(old(State()))
    {
      hide R.Ok, D.Envelope.State, D.Pulse.State, D.Triangle.State, D.Noise.State, D.Dmc.State, R.PulseOk,
        R.TriangleOk, S.ClockPulse, S.ClockTriangle, S.ClockNoise, S.ClockDmc, S.CheckPendingDma;
      R.ChannelsKeep(State());
      PartsOk(State());
      dmc.CheckPendingDma();
      if cycle % 2 == 0 {
        pulse1.Clock();
        pulse2.Clock();
        noise.Clock();
        dmc.Clock();
      }
      triangle.Clock();
    }

    method Clock()
      requires Valid()
      modifies this, frameCounter, pulse1, pulse1.envelope, pulse2, pulse2.envelope, triangle, noise, noise.envelope,
          dmc
      ensures Valid() && State() == S.Clock(old(State()))
    {
      hide R.Ok, D.Envelope.State, D.Pulse.State, D.Triangle.State, D.Noise.State, D.Dmc.State, S.ClockChannels,
        S.ClockFrameCounter;
      R.CycleKeeps(State());
      ghost var a := State();
      ClockChannels();
      ClockFrameCounter();
      cycle := cycle + 1;
    }

    /** A write to $4000-$4017, as the bus hands it out. */
    method Write(addr: u16, val: u8)
      requires Valid()
      modifies this, frameCounter, pulse1, pulse1.envelope, pulse2, pulse2.envelope, triangle, noise, noise.envelope,
          dmc
      ensures Valid() && State() == S.Write(old(State()), addr, val)
    {
      hide R.Ok, D.Envelope.State, D.Pulse.State, D.Triangle.State, D.Noise.State, D.Dmc.State, R.PulseOk,
        R.TriangleOk, S.WritePulse, S.WriteTriangle, S.WriteNoise, S.WriteDmc, S.WriteStatus,
        S.WriteFrameCounter;
      R.WriteKeeps(State(), addr, val);
      PartsOk(State());
      if addr < 0x4008 {
        WritePulses(addr, val);
      } else if addr < 0x4014 {
        WriteOthers(addr, val);
      } else if addr == 0x4015 {
        WriteStatus(val);
      } else if addr == 0x4017 {
        WriteFrameCounter(val);
      }
    }

    method WritePulses(addr: u16, val: u8)
      requires R.PulseOk(pulse1.State()) && R.PulseOk(pulse2.State()) && Distinct() && addr < 0x4008
      modifies pulse1, pulse1.envelope, pulse2, pulse2.envelope
      ensures State() == S.Write(old(State()), addr, val)
    {
      hide D.Envelope.State, D.Pulse.State, D.Triangle.State, D.Noise.State, D.Dmc.State, R.PulseOk, S.WritePulse;
      if addr == 0x4000 {
        pulse1.WriteCtrl(val);
      } else if addr == 0x4001 {
        pulse1.WriteSweep(val);
      } else if addr == 0x4002 {
        pulse1.WriteTimerLo(val);
      } else if addr == 0x4003 {
        pulse1.WriteTimerHi(val);
      } else if addr == 0x4004 {
        pulse2.WriteCtrl(val);
      } else if addr == 0x4005 {
        pulse2.WriteSweep(val);
      } else if addr == 0x4006 {
        pulse2.WriteTimerLo(val);
      } else if addr == 0x4007 {
        pulse2.WriteTimerHi(val);
      }
    }

    method WriteOthers(addr: u16, val: u8)
      requires R.TriangleOk(triangle.State()) && Distinct() && 0x4008 <= addr < 0x4014
      modifies triangle, noise, noise.envelope, dmc
      ensures State() == S.Write(old(State()), addr, val)
    {
      hide D.Envelope.State, D.Pulse.State, D.Triangle.State, D.Noise.State, D.Dmc.State, R.TriangleOk,
        S.WriteNoise, S.WriteDmc;
      NoRegister(noise.State(), val);
      if addr == 0x4008 {
        triangle.WriteLinearCounter(val);
      } else if addr == 0x400A {
        triangle.WriteTimerLo(val);
      } else if addr == 0x400B {
        triangle.WriteTimerHi(val);
      } else if addr == 0x400C {
        noise.WriteCtrl(val);
      } else if addr == 0x400E {
        noise.WriteTimer(val);
      } else if addr == 0x400F {
        noise.WriteLength(val);
      } else if addr == 0x4010 {
        dmc.WriteTimer(val);
      } else if addr == 0x4011 {
        dmc.WriteOutput(val);
      } else if addr == 0x4012 {
        dmc.WriteAddrLoad(val);
      } else if addr == 0x4013 {
        dmc.WriteLength(val);
      }
    }

    method WriteStatus(val: u8)
      requires Distinct()
      modifies pulse1, pulse2, triangle, noise, dmc
      ensures State() == S.WriteStatus(old(State()), val)
    {
      hide D.Envelope.State, D.Pulse.State, D.Triangle.State, D.Noise.State, D.Dmc.State, S.EnablePulse,
        S.EnableTriangle, S.EnableNoise, S.EnableDmc;
      pulse1.SetEnabled(val % 2 == 1);
      pulse2.SetEnabled(val / 2 % 2 == 1);
      triangle.SetEnabled(val / 4 % 2 == 1);
      noise.SetEnabled(val / 8 % 2 == 1);
      dmc.SetEnabled(val / 16 % 2 == 1, cycle);
    }

    method WriteFrameCounter(val: u8)
      modifies this, frameCounter
      ensures State() == S.WriteFrameCounter(old(State()), val)
    {
      frameCounter.Write(val, cycle);
      irqDisabled := val / 64 % 2 == 1;
      if irqDisabled {
        irqPending := false;
      }
    }

    /** The status: which counters run, and which interrupts are pending. */
    method PeekStatus() returns (status: bv8)
      ensures N.Tells(State(), status as int)
    {
      status := 0x00;
      if pulse1.length.counter > 0 {
        status := status | 0x01;
      }
      if pulse2.length.counter > 0 {
        status := status | 0x02;
      }
      if triangle.length.counter > 0 {
        status := status | 0x04;
      }
      if noise.length.counter > 0 {
        status := status | 0x08;
      }
      if dmc.length > 0 {
        status := status | 0x10;
      }
      if irqPending {
        status := status | 0x40;
      }
      if dmc.irqPending {
        status := status | 0x80;
      }
      N.BitsTell(State(), status);
    }

    /** Reading the status takes the interrupt of the frame counter back. */
    method ReadStatus() returns (status: bv8)
      requires Valid()
      modifies this
      ensures N.Tells(old(State()), status as int)
      ensures Valid() && State() == old(State()).(irqPending := false)
    {
      hide R.Ok, S.Clock, D.Envelope.State, D.Pulse.State, D.Triangle.State, D.Noise.State, D.Dmc.State, N.Tells;
      R.StepKeeps(State(), S.ReadStatus);
      status := PeekStatus();
      irqPending := false;
    }

    /** Hands out the sample channel's request for a byte. */
    method DmcDma() returns (pending: bool)
      requires Valid()
      modifies dmc
      ensures Valid() && pending == old(State()).dmc.dmaPending
      ensures State() == old(State()).(dmc := old(State()).dmc.(dmaPending := false))
    {
      hide R.Ok, D.Pulse.State, D.Triangle.State, D.Noise.State;
      R.DmcEventsKeep(State(), 0);
      pending := dmc.Dma();
    }

    method LoadDmcBuffer(val: u8)
      requires Valid()
      modifies dmc
      ensures Valid() && State() == old(State()).(dmc := S.LoadBuffer(old(State()).dmc, val))
    {
      hide R.Ok, D.Pulse.State, D.Triangle.State, D.Noise.State, D.Dmc.State, S.LoadBuffer;
      R.DmcEventsKeep(State(), val);
      dmc.LoadBuffer(val);
    }

    method Toggle(channel: S.Channel)
      requires Valid()
      modifies pulse1, triangle, noise, dmc
      ensures Valid() && State() == S.Toggle(old(State()), channel)
    {
      hide R.Ok, D.Envelope.State, D.Pulse.State, D.Triangle.State, D.Noise.State, D.Dmc.State;
      R.ToggleKeeps(State(), channel);
      match channel
      case Pulse1 => pulse1.ToggleSilent();
      case Pulse2 => pulse1.ToggleSilent();
      case TriangleChannel => triangle.ToggleSilent();
      case NoiseChannel => noise.ToggleSilent();
      case DmcChannel => dmc.ToggleSilent();
    }

    method Reset(kind: ResetKind)
      requires Valid()
      modifies this, frameCounter, pulse1, pulse1.envelope, pulse2, pulse2.envelope, triangle, noise, noise.envelope,
          dmc
      ensures Valid() && State() == S.Reset(old(State()), kind)
    {
      hide R.Ok, D.Envelope.State, D.Pulse.State, D.Triangle.State, D.Noise.State, D.Dmc.State, S.ResetDmc,
        S.ResetFrame, S.NewPulse;
      R.ResetKeeps(State(), kind);
      cycle := 0;
      irqPending, irqDisabled := false, false;
      frameCounter.Reset(kind);
      ResetChannels();
      dmc.Reset(kind);
    }

    method ResetChannels()
      requires Distinct()
      modifies pulse1, pulse1.envelope, pulse2, pulse2.envelope, triangle, noise, noise.envelope
      ensures var a := old(State());
        State() == a.(pulse1 := S.NewPulse(a.pulse1.first), pulse2 := S.NewPulse(a.pulse2.first),
                      triangle := S.NEW_TRIANGLE, noise := S.NEW_NOISE)
    {
      hide D.Envelope.State, D.Pulse.State, D.Triangle.State, D.Noise.State, D.Dmc.State, S.NewPulse;
      pulse1.Reset();
      pulse2.Reset();
      triangle.Reset();
      noise.Reset();
    }

    method SetRegion(region: Region)
      requires Valid()
      modifies frameCounter, noise, dmc
      ensures Valid() && State() == S.SetRegion(old(State()), region)
    {
      hide R.Ok, D.Envelope.State, D.Pulse.State, D.Triangle.State, D.Noise.State, D.Dmc.State, S.RegionalDmc;
      R.RegionKeeps(State(), region);
      frameCounter.SetRegion(region);
      noise.SetRegion(region);
      dmc.SetRegion(region);
    }

    /** The two table indices of the mixer. The fallback for an index
      outside the table never runs. */
    method Output() returns (pulseIndex: nat, tndIndex: nat)
      requires Valid()
      ensures pulseIndex == S.PulseIndex(State()) < 31
      ensures tndIndex == S.TndIndex(State()) < 203
    {
      Levels();
      pulseIndex := S.InTable(pulse1.Output() + pulse2.Output(), 31);
      tndIndex := S.InTable((3 * triangle.Output2() + 4 * noise.Output() + 2 * dmc.Output()) / 2, 203);
    }

    lemma Levels()
      requires Valid()
      ensures R.PulseOk(pulse1.State()) && R.PulseOk(pulse2.State()) && R.TriangleOk(triangle.State())
      ensures 0 <= S.PulseIndex(State()) <= 30 && 0 <= S.TndIndex(State()) <= 202
    {
      hide S.PulseOutput, S.NoiseOutput;
      R.OutputsBelow(pulse1.State(), pulse2.State(), noise.State());
    }
  }

  lemma NoRegister(n: S.Noise, val: u8)
    ensures S.WriteNoise(n, 1, val) == n
  {
  }

  lemma PartsOk(a: S.Apu)
    requires R.Ok(a)
    ensures R.PulseOk(a.pulse1) && R.PulseOk(a.pulse2) && R.TriangleOk(a.triangle) && S.Counting(a.frame)
    ensures a.dmc.output < 128 && S.CheckPendingDma(a.dmc).output < 128
  {
  }

  /** A change of the frame counter and the interrupt flag alone. */
  lemma FrameChanges(a: S.Apu, b: S.Apu)
    requires R.Ok(a) && S.Counting(b.frame) && b == a.(frame := b.frame, irqPending := b.irqPending)
    ensures R.Ok(b)
  {
    hide R.PulseOk, R.TriangleOk, R.NoiseOk, R.DmcOk, S.Counting;
  }

  lemma FramedKeepsCounter(a: S.Apu, step: nat)
    ensures S.Framed(a, step).frame == a.frame
  {
  }
}
