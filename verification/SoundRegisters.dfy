/** The registers of the sound unit as a whole: which channel a write reaches, what the switches do, what the
  status tells and how the channels are weighted. */
module SoundRegisters {
  import opened Words
  import opened ApuSpec
  import opened ApuRuns
  import ByteBits

  /** Four registers to a channel, from $4000 on: a write changes no other channel and no counter. */
  lemma WritesStayApart(a: Apu, addr: u16, val: u8)
    requires 0x4000 <= addr < 0x4014
    ensures
      var r, channel := Write(a, addr, val), (addr - 0x4000) / 4;
      && (channel != 0 ==> r.pulse1 == a.pulse1) && (channel != 1 ==> r.pulse2 == a.pulse2)
      && (channel != 2 ==> r.triangle == a.triangle) && (channel != 3 ==> r.noise == a.noise)
      && (channel != 4 ==> r.dmc == a.dmc)
      && r.frame == a.frame && r.cycle == a.cycle && r.irqPending == a.irqPending && r.irqDisabled == a.irqDisabled
  {
    hide WritePulse, WriteTriangle, WriteNoise, WriteDmc;
  }

  /** Addresses that are not the unit's change nothing. */
  lemma OthersAreIgnored(a: Apu, addr: u16, val: u8)
    requires addr < 0x4000 || addr == 0x4014 || addr == 0x4016 || addr > 0x4017
    ensures Write(a, addr, val) == a
  {
  }

  /** A length counter after the switch of its channel has been set. */
  predicate Switched(l: Length, r: Length, on: bool) {
    r == l.(counter := if on then l.counter else 0)
  }

  /** $4015 switches the channels on and off by its five low bits. Off, a length counter is zero. */
  lemma SwitchesAct(a: Apu, val: u8)
    ensures
      var r := Write(a, 0x4015, val);
      && r.pulse1.enabled == (val % 2 == 1) && Switched(a.pulse1.length, r.pulse1.length, val % 2 == 1)
      && r.pulse2.enabled == (val / 2 % 2 == 1) && Switched(a.pulse2.length, r.pulse2.length, val / 2 % 2 == 1)
      && r.triangle.enabled == (val / 4 % 2 == 1) && Switched(a.triangle.length, r.triangle.length, val / 4 % 2 == 1)
      && r.noise.enabled == (val / 8 % 2 == 1) && Switched(a.noise.length, r.noise.length, val / 8 % 2 == 1)
      && r.frame == a.frame && r.irqPending == a.irqPending
  {
    hide EnableDmc;
  }

  /** Bit 4 stops the sample, or starts it from its first byte if none is playing; either way the interrupt
    of the sample channel is taken back. */
  lemma SampleSwitch(a: Apu, val: u8)
    ensures
      var d, r := a.dmc, Write(a, 0x4015, val).dmc;
      && !r.irqPending && r.dmaPending == d.dmaPending
      && r.length == (if val / 16 % 2 == 0 then 0 else if d.length > 0 then d.length else d.lengthLoad)
      && r.addr == (if val / 16 % 2 == 1 && d.length == 0 then d.addrLoad else d.addr)
  {
    hide EnablePulse, EnableTriangle, EnableNoise;
  }

  /** A sample that has been named by $4012 and $4013 and switched on starts at $C000 + 64 a and has
    16 l + 1 bytes. */
  lemma SampleIsNamed(a: Apu, first: u8, count: u8, val: u8)
    requires a.dmc.length == 0 && val / 16 % 2 == 1
    ensures
      var r := Write(Write(Write(a, 0x4012, first), 0x4013, count), 0x4015, val).dmc;
      r.addr == 0xC000 + 64 * first && r.length == 16 * count + 1
  {
    hide EnablePulse, EnableTriangle, EnableNoise;
  }

  /** The level can be set directly; bit 7 is not part of it. */
  lemma LevelIsSet(a: Apu, val: u8)
    ensures Write(a, 0x4011, val).dmc == a.dmc.(output := if val < 128 then val else val - 128)
  {
  }

  /** Bit 6 of $4017 disables the interrupt of the frame sequence and takes it back. */
  lemma FrameInterrupt(a: Apu, val: u8)
    ensures
      var r := Write(a, 0x4017, val);
      && r.irqDisabled == (val % 128 >= 64) && (val % 128 >= 64 ==> !r.irqPending)
      && (val % 128 < 64 ==> r.irqPending == a.irqPending)
  {
  }

  /** A menu switch turns one channel off and on again; that of the second pulse channel turns the first. */
  lemma ToggleActs(a: Apu, channel: Channel)
    ensures
      var r := Toggle(a, channel);
      && r.pulse1.forceSilent == (a.pulse1.forceSilent != (channel in {Pulse1, Pulse2}))
      && r.pulse2 == a.pulse2
      && r.triangle.forceSilent == (a.triangle.forceSilent != (channel == TriangleChannel))
      && r.noise.forceSilent == (a.noise.forceSilent != (channel == NoiseChannel))
      && r.dmc.forceSilent == (a.dmc.forceSilent != (channel == DmcChannel))
      && Toggle(r, channel) == a
  {
  }

  /** The region reaches the three units that count by it; the sample channel falls back to its slowest rate. */
  lemma RegionReaches(a: Apu, region: Region)
    ensures
      var r := SetRegion(a, region);
      && r.frame.region == region && r.noise.region == region && r.dmc.region == region
      && r.dmc.freqTimer == (if region == Ntsc then 426 else 396)
      && r.pulse1 == a.pulse1 && r.pulse2 == a.pulse2 && r.triangle == a.triangle
      && r.noise.freqTimer == a.noise.freqTimer
      && r.dmc.freqCounter == a.dmc.freqCounter && r.dmc.output == a.dmc.output && r.frame.cycles == a.frame.cycles
  {
  }

  /** After a reset nothing is heard and no interrupt is pending, every channel is switched off, and the frame
    sequence starts over three clocks later: in four steps, or after a soft reset in as many as before. The
    sample channel stands at $C000 with one byte to load, after a soft reset at 0 with none. */
  lemma ResetIsSilent(a: Apu, kind: ResetKind)
    requires Ok(a)
    ensures Ok(Reset(a, kind))
    ensures
      var r, five := Reset(a, kind), kind == Soft && a.frame.fiveStep;
      && PulseIndex(r) == 0 && TriangleOutput2(r.triangle) == 0 && NoiseOutput(r.noise) == 0
      && (!a.dmc.forceSilent ==> DmcOutput(r.dmc) == 0)
      && !r.pulse1.enabled && !r.pulse2.enabled && !r.triangle.enabled && !r.noise.enabled && r.dmc.length == 0
      && !r.irqPending && !r.irqDisabled && !r.dmc.irqPending && !r.dmc.dmaPending && r.cycle == 0
      && r.frame.step == 0 && r.frame.fiveStep == five && r.frame.delay == 3
      && (r.frame.written >= 0x80 <==> five) && r.frame.written != NO_WRITE
      && r.dmc.addrLoad == 0 && r.dmc.addr == (if kind == Soft then 0 else 0xC000)
      && r.dmc.lengthLoad == (if kind == Soft then 0 else 1)
  {
    ResetKeeps(a, kind);
  }

  /** The first table is looked up by the sum of the two pulse channels, the second by 3 times the triangle,
    2 times the noise and the sample, rounded down. */
  lemma MixIs(a: Apu)
    requires Ok(a)
    ensures
      var t, n, d := TriangleOutput2(a.triangle), NoiseOutput(a.noise), DmcOutput(a.dmc);
      && PulseIndex(a) == PulseOutput(a.pulse1) + PulseOutput(a.pulse2)
      && 2 * TndIndex(a) <= 3 * t + 2 * (2 * n) + 2 * d < 2 * TndIndex(a) + 2
  {
    hide TriangleOutput2, NoiseOutput, DmcOutput, PulseOutput;
  }

  /** What a read of $4015 tells: which length counters run, whether a sample has bytes left, and the two
    interrupts. Bit 5 is always clear. */
  predicate Tells(a: Apu, status: int) {
    && (status % 2 == 1 <==> a.pulse1.length.counter > 0) && (status / 2 % 2 == 1 <==> a.pulse2.length.counter > 0)
    && (status / 4 % 2 == 1 <==> a.triangle.length.counter > 0)
    && (status / 8 % 2 == 1 <==> a.noise.length.counter > 0)
    && (status / 16 % 2 == 1 <==> a.dmc.length > 0) && status / 32 % 2 == 0
    && (status / 64 % 2 == 1 <==> a.irqPending) && (status / 128 == 1 <==> a.dmc.irqPending)
  }

  predicate TellsBits(a: Apu, status: bv8) {
    && (status & 0x01 != 0 <==> a.pulse1.length.counter > 0) && (status & 0x02 != 0 <==> a.pulse2.length.counter > 0)
    && (status & 0x04 != 0 <==> a.triangle.length.counter > 0) && (status & 0x08 != 0 <==> a.noise.length.counter > 0)
    && (status & 0x10 != 0 <==> a.dmc.length > 0) && status & 0x20 == 0
    && (status & 0x40 != 0 <==> a.irqPending) && (status & 0x80 != 0 <==> a.dmc.irqPending)
  }

  lemma BitsTell(a: Apu, status: bv8)
    requires TellsBits(a, status)
    ensures Tells(a, status as int)
  {
    ByteBits.BitsAre(status);
  }
}
