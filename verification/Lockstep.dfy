/** The PPU runs in lockstep with the CPU: after n CPU cycles it has run exactly the dots that fit
  into their master clocks, less the offset, whatever the cycles were. */
module Lockstep {
  import opened Words
  import opened CpuSpec
  import P = PpuSpec
  import Odometer

  // ----- catching up

  /** From p to q only whole dots have been run. */
  predicate DotsFrom(p: P.Ppu, q: P.Ppu, r: Region) {
    q.clocks >= p.clocks && q.masterClock == p.masterClock + P.ClockDivider(r) * (q.clocks - p.clocks)
  }

  /** The PPU has run all dots that end by T, and no more. */
  predicate CaughtUp(p: P.Ppu, T: int, r: Region) {
    p.masterClock <= T < p.masterClock + P.ClockDivider(r)
  }

  lemma {:induction false} ClockToCatchesUp(p: P.Ppu, T: nat, env: P.Env)
    ensures DotsFrom(p, P.ClockTo(p, T, env), env.region)
    ensures p.masterClock <= T ==> CaughtUp(P.ClockTo(p, T, env), T, env.region)
    decreases T - p.masterClock
  {
    hide P.Clock;
    if p.masterClock + P.ClockDivider(env.region) <= T {
      Odometer.ClockCounts(p, env);
      ClockToCatchesUp(P.RunDot(p, env), T, env);
    }
  }

  /** Catching up in two steps is catching up in one. */
  lemma {:induction false} ClockToComposes(p: P.Ppu, a: nat, b: nat, env: P.Env)
    requires a <= b
    ensures P.ClockTo(P.ClockTo(p, a, env), b, env) == P.ClockTo(p, b, env)
    decreases a - p.masterClock
  {
    hide P.RunDot;
    if p.masterClock + P.ClockDivider(env.region) <= a {
      ClockToComposes(P.RunDot(p, env), a, b, env);
    }
  }

  // ----- one bus cycle

  /** At a cycle boundary: the master clock counts whole cycles, and the PPU whole dots since c0. */
  predicate InStep(c0: Cpu, c: Cpu, env: Env) {
    c.masterClock == CycleClocks(env.ppu.region) * c.cycle && DotsFrom(c0.ppu, c.ppu, env.ppu.region)
  }

  /** In the middle of a cycle. */
  predicate Midway(c0: Cpu, c: Cpu, read: bool, env: Env) {
    && c.cycle > 0 && c.masterClock == StartClock(CycleClocks(env.ppu.region) * (c.cycle - 1), read, env.ppu.region)
    && DotsFrom(c0.ppu, c.ppu, env.ppu.region) && (env.accurate ==> c.ppu.masterClock <= c.masterClock - PPU_OFFSET)
  }

  /** The PPU has not run ahead. */
  predicate NotAhead(c: Cpu, env: Env) {
    c.ppu.masterClock <= Max(0, c.masterClock - PPU_OFFSET)
  }

  /** In cycle-accurate mode, after the first cycle, the PPU has caught up. */
  predicate Exact(c: Cpu, env: Env) {
    CaughtUp(c.ppu, c.masterClock - PPU_OFFSET, env.ppu.region)
  }

  ghost predicate Good(c0: Cpu, c: Cpu, env: Env) {
    InStep(c0, c, env) && NotAhead(c, env) && (env.accurate && c.cycle > 0 ==> Exact(c, env))
  }

  lemma CatchUpDots(p0: P.Ppu, p: P.Ppu, clock: nat, env: Env)
    requires DotsFrom(p0, p, env.ppu.region) && PPU_OFFSET <= clock && p.masterClock <= clock - PPU_OFFSET
    ensures DotsFrom(p0, CatchUp(p, clock, env), env.ppu.region)
    ensures CaughtUp(CatchUp(p, clock, env), clock - PPU_OFFSET, env.ppu.region)
  {
    hide P.ClockTo;
    ClockToCatchesUp(p, clock - PPU_OFFSET, env.ppu);
  }

  lemma StartInStep(c0: Cpu, c: Cpu, read: bool, env: Env)
    requires Good(c0, c, env)
    ensures Midway(c0, StartCycle(c, read, env), read, env) && NotAhead(StartCycle(c, read, env), env)
  {
    hide CatchUp;
    var clock := StartClock(c.masterClock, read, env.ppu.region);
    if env.accurate {
      CatchUpDots(c0.ppu, c.ppu, clock, env);
    }
  }

  lemma EndInStep(c0: Cpu, c: Cpu, read: bool, env: Env)
    requires Midway(c0, c, read, env) && NotAhead(c, env)
    ensures Good(c0, EndCycle(c, read, env), env)
  {
    hide CatchUp, Sampled, Requested;
    var clock := EndClock(c.masterClock, read, env.ppu.region);
    if env.accurate {
      CatchUpDots(c0.ppu, c.ppu, clock, env);
    }
  }

  // ----- what the bus does to the PPU between two dots

  predicate SameTime(p: P.Ppu, q: P.Ppu) {
    q.clocks == p.clocks && q.masterClock == p.masterClock
  }

  lemma PortReadTime(c: Cpu, port: bv16, env: Env)
    ensures SameTime(c.ppu, PortRead(c, port, env).cpu.ppu)
  {
    hide P.ReadStatus, P.PeekOamData, P.AccessPort, P.StatusBits;
    if port == 2 {
      EventTime(c.ppu, P.Status, env);
    } else if port == 7 {
      EventTime(c.ppu, P.DataPort(env.data(c.polls)), env);
    }
  }

  lemma EventTime(p: P.Ppu, e: P.Event, env: Env)
    requires !e.Tock? && !e.ResetLine?
    ensures SameTime(p, P.Step(p, e, env.ppu))
  {
    hide P.Step;
    Odometer.EventDot(p, e, env.ppu);
  }

  lemma BusReadTime(c: Cpu, addr: bv16, env: Env)
    ensures SameTime(c.ppu, BusRead(c, addr, env).cpu.ppu)
  {
    hide PortRead, Peek, Plain;
    PortReadTime(c, addr & 0x0007, env);
  }

  lemma PortWriteTime(p: P.Ppu, port: bv16, val: bv8, env: Env)
    ensures SameTime(p, PortWrite(p, port, val, env))
  {
    hide P.WriteCtrl, P.WriteMask, P.WriteOamAddr, P.WriteOamData, P.WriteScroll, P.WriteAddr, P.AccessPort;
    if port == 0 {
      EventTime(p, P.Ctrl(val), env);
    } else if port == 1 {
      EventTime(p, P.Mask(val), env);
    } else if port == 3 {
      EventTime(p, P.OamAddr(val), env);
    } else if port == 4 {
      EventTime(p, P.OamData(val), env);
    } else if port == 5 {
      EventTime(p, P.ScrollPort(val), env);
    } else if port == 6 {
      EventTime(p, P.AddrPort(val), env);
    } else if port != 2 {
      EventTime(p, P.DataPort(val), env);
    }
  }

  lemma BusWriteTime(c: Cpu, addr: bv16, val: bv8, env: Env)
    ensures
      var r := BusWrite(c, addr, val, env);
      SameTime(c.ppu, r.ppu) && r.cycle == c.cycle && r.masterClock == c.masterClock
  {
    hide PortWrite;
    PortWriteTime(c.ppu, addr & 0x0007, val, env);
  }

  lemma ReadInStep(c0: Cpu, c: Cpu, addr: bv16, env: Env)
    requires Good(c0, c, env)
    ensures Good(c0, ReadCycle(c, addr, env).cpu, env)
  {
    hide StartCycle, EndCycle, BusRead, Good;
    StartInStep(c0, c, true, env);
    var s := StartCycle(c, true, env);
    BusReadTime(s, addr, env);
    BusReadKeeps(s, addr, env);
    EndInStep(c0, BusRead(s, addr, env).cpu, true, env);
  }

  lemma IdleInStep(c0: Cpu, c: Cpu, env: Env)
    requires Good(c0, c, env)
    ensures Good(c0, EndCycle(StartCycle(c, true, env), true, env), env)
  {
    hide StartCycle, EndCycle, Good;
    StartInStep(c0, c, true, env);
    EndInStep(c0, StartCycle(c, true, env), true, env);
  }

  lemma WriteInStep(c0: Cpu, c: Cpu, addr: bv16, val: bv8, read: bool, env: Env)
    requires Good(c0, c, env)
    ensures Good(c0, EndCycle(BusWrite(StartCycle(c, read, env), addr, val, env), read, env), env)
  {
    hide StartCycle, EndCycle, BusWrite, Good;
    StartInStep(c0, c, read, env);
    var s := StartCycle(c, read, env);
    BusWriteTime(s, addr, val, env);
    EndInStep(c0, BusWrite(s, addr, val, env), read, env);
  }
}
