/** From the dot to the vector: in cycle-accurate mode, with NMI enabled and nobody touching the status
  or the control register, each vertical blank makes exactly one edge, and the edge one fetch of the
  NMI vector. */
module NmiPerBlank {
  import opened Words
  import opened CpuSpec
  import opened Lockstep
  import opened Beats
  import CpuRuns
  import P = PpuSpec
  import O = Odometer
  import V = VerticalBlank

  // ----- blanks

  /** From the dot that raises the flag to the one that clears it. */
  predicate DuringBlank(p: P.Ppu, r: Region) {
    341 * P.VblankLine(r) + 1 <= O.Dot(p) < 341 * P.PrerenderLine(r) + 1
  }

  /** NMI is enabled, and the flag has not been taken back: it is up exactly during the blank. */
  predicate Punctual(p: P.Ppu, env: P.Env) {
    && P.OnScreen(p, env) && p.frame < P.FRAMES
    && P.NmiEnabled(p.ctrl) && V.Gated(p) && !p.preventVbl
    && p.vblank == DuringBlank(p, env.region)
  }

  /** The number of blanks begun, as the frame number tells it, which goes up one line earlier. */
  function Begun(p: P.Ppu, r: Region): nat {
    if O.SwapDot(r) <= O.Dot(p) <= 341 * P.VblankLine(r) then (p.frame + P.FRAMES - 1) % P.FRAMES else p.frame
  }

  lemma ClockBegins(p: P.Ppu, env: P.Env)
    requires P.OnScreen(p, env) && p.frame < P.FRAMES
    ensures
      var r := P.Clock(p, env);
      && P.OnScreen(r, env) && r.frame < P.FRAMES
      && Begun(r, env.region) ==
           (if O.Dot(p) == 341 * P.VblankLine(env.region) then P.NextFrame(Begun(p, env.region)) else Begun(p,
               env.region))
      && DuringBlank(r, env.region) ==
           (O.Dot(p) == 341 * P.VblankLine(env.region)
            || (DuringBlank(p, env.region) && O.Dot(p) != 341 * P.PrerenderLine(env.region)))
      && O.Dot(r) <= O.Dot(p) + 2 && (O.Dot(p) + 1 < O.FrameDots(env.region) ==> O.Dot(p) < O.Dot(r))
  {
    hide P.Clock;
    O.ClockDot(p, env);
    match env.region
    case Ntsc =>
    case Pal =>
    case Dendy =>
  }

  lemma WrapKeepsCtrl(p: P.Ppu, env: P.Env)
    requires p.cycle == P.LAST_CYCLE
    ensures P.Clock(p, env).ctrl == p.ctrl
  {
    hide P.Tick, P.VblankEdges, P.NextFrame;
  }

  lemma ClockIsPunctual(p: P.Ppu, env: P.Env)
    requires Punctual(p, env)
    ensures Punctual(P.Clock(p, env), env) && P.Clock(p, env).ctrl == p.ctrl
  {
    hide P.Clock, P.NmiEnabled, Begun;
    ClockBegins(p, env);
    V.BlankDot(p, env);
    if p.cycle < P.LAST_CYCLE {
      V.ClockFlags(p, env);
      V.CtrlKept(p, env);
      Prerender(p, env);
    } else {
      V.WrapFlags(p, env);
      WrapKeepsCtrl(p, env);
      NotAtEdge(p, env);
    }
  }

  lemma Prerender(p: P.Ppu, env: P.Env)
    requires P.OnScreen(p, env)
    ensures (O.Dot(p) == 341 * P.PrerenderLine(env.region)) == (p.scanline == P.PrerenderLine(env.region)
        && p.cycle == 0)
  {
  }

  lemma NotAtEdge(p: P.Ppu, env: P.Env)
    requires P.OnScreen(p, env) && p.cycle == P.LAST_CYCLE
    ensures O.Dot(p) != 341 * P.PrerenderLine(env.region) && O.Dot(p) != 341 * P.VblankLine(env.region)
  {
  }

  // ----- a few dots

  /** q is at most eight dots after p; a blank may have begun or ended in between. */
  ghost predicate Nearby(p: P.Ppu, q: P.Ppu, env: P.Env) {
    var n := q.clocks - p.clocks;
    && 0 <= n <= 8 && Punctual(q, env) && q.ctrl == p.ctrl
    && Begun(q, env.region) ==
         (if !p.vblank && q.vblank then P.NextFrame(Begun(p, env.region)) else Begun(p, env.region))
    && (!p.vblank && q.vblank ==> O.Dot(q) <= 341 * P.VblankLine(env.region) + 1 + 2 * n)
    && (p.vblank && !q.vblank ==>
          341 * P.PrerenderLine(env.region) < O.Dot(q) <= 341 * P.PrerenderLine(env.region) + 1 + 2 * n)
  }

  lemma NearbyClock(p: P.Ppu, q: P.Ppu, env: P.Env)
    requires Nearby(p, q, env) && q.clocks - p.clocks < 8
    ensures Nearby(p, P.Clock(q, env), env)
  {
    hide P.Clock, P.NmiEnabled, Begun, V.Gated, P.NextFrame;
    O.ClockCounts(q, env);
    ClockIsPunctual(q, env);
    ClockBegins(q, env);
    BlankIsLong(env.region);
  }

  lemma BlankIsLong(r: Region)
    ensures P.VblankLine(r) + 20 <= P.PrerenderLine(r)
  {
  }

  /** What decides when a blank begins, and whether it is noticed. */
  predicate SameBlank(p: P.Ppu, q: P.Ppu) {
    && q.cycle == p.cycle && q.scanline == p.scanline && q.frame == p.frame && q.clocks == p.clocks
    && q.ctrl == p.ctrl && q.vblank == p.vblank && q.nmiPending == p.nmiPending && q.preventVbl == p.preventVbl
  }

  lemma SameNearby(p: P.Ppu, q: P.Ppu, r: P.Ppu, env: P.Env)
    requires Nearby(p, q, env) && SameBlank(q, r)
    ensures Nearby(p, r, env)
  {
    hide P.NmiEnabled;
  }

  lemma {:induction false} CatchUpNearby(p: P.Ppu, q: P.Ppu, clock: nat, env: P.Env)
    requires Nearby(p, q, env) && P.ClockTo(q, clock, env).clocks <= p.clocks + 8
    ensures Nearby(p, P.ClockTo(q, clock, env), env)
    decreases clock - q.masterClock
  {
    hide P.Clock, Nearby;
    if q.masterClock + P.ClockDivider(env.region) <= clock {
      var r := P.RunDot(q, env);
      O.ClockCounts(q, env);
      ClockToCatchesUp(r, clock, env);
      InTime(p, q, env);
      NearbyClock(p, q, env);
      SameNearby(p, P.Clock(q, env), r, env);
      CatchUpNearby(p, r, clock, env);
    }
  }

  lemma InTime(p: P.Ppu, q: P.Ppu, env: P.Env)
    requires Nearby(p, q, env)
    ensures p.clocks <= q.clocks
  {
  }

  lemma CaughtUpNearby(p: P.Ppu, q: P.Ppu, clock: nat, env: Env)
    requires Nearby(p, q, env.ppu) && CatchUp(q, clock, env).clocks <= p.clocks + 8
    ensures Nearby(p, CatchUp(q, clock, env), env.ppu)
  {
    hide P.ClockTo, Nearby;
    if PPU_OFFSET <= clock {
      CatchUpNearby(p, q, clock - PPU_OFFSET, env.ppu);
    }
  }

  // ----- what the bus leaves alone

  lemma EventSame(p: P.Ppu, e: P.Event, env: P.Env)
    requires e.Mask? || e.OamAddr? || e.OamData? || e.ScrollPort? || e.AddrPort? || e.DataPort?
    ensures SameBlank(p, P.Step(p, e, env))
  {
    hide P.Step, P.WriteOamData;
    O.EventDot(p, e, env);
    if e.OamData? {
      V.OamDataKeepsFlags(p, e.val, env);
      StepIsStore(p, e.val, env);
    } else {
      V.PortsKeepFlags(p, e, env);
    }
  }

  lemma StepIsStore(p: P.Ppu, val: bv8, env: P.Env)
    ensures P.Step(p, P.OamData(val), env) == P.WriteOamData(p, val, env)
  {
    hide P.WriteOamData;
  }

  lemma DataSame(p: P.Ppu, val: bv8, env: P.Env)
    ensures SameBlank(p, P.AccessPort(p, val, env))
  {
    hide P.AccessPort;
    EventSame(p, P.DataPort(val), env);
  }

  lemma DriveSame(p: P.Ppu, val: bv8)
    ensures SameBlank(p, p) && SameBlank(p, P.Drive(p, val))
  {
  }

  lemma PortReadSame(c: Cpu, port: bv16, env: Env)
    ensures
      var r := PortRead(c, port, env).cpu;
      r.acks >= c.acks && (r.acks == c.acks ==> SameBlank(c.ppu, r.ppu))
  {
    hide P.ReadStatus, P.PeekOamData, P.AccessPort, P.StatusBits, P.Drive, SameBlank;
    DataSame(c.ppu, env.data(c.polls), env.ppu);
    DriveSame(c.ppu, if P.PeekOamData(c.ppu).OamByte? then P.PeekOamData(c.ppu).val else 0);
  }

  lemma BusReadSame(c: Cpu, addr: bv16, env: Env)
    ensures
      var r := BusRead(c, addr, env).cpu;
      r.acks >= c.acks && (r.acks == c.acks ==> SameBlank(c.ppu, r.ppu))
  {
    hide PortRead, Peek, Plain;
    PortReadSame(c, addr & 0x0007, env);
  }

  lemma PortWriteSame(p: P.Ppu, port: bv16, val: bv8, env: Env)
    requires port != 0
    ensures SameBlank(p, PortWrite(p, port, val, env))
  {
    hide P.WriteMask, P.WriteOamAddr, P.WriteOamData, P.WriteScroll, P.WriteAddr, P.AccessPort;
    if port == 1 {
      EventSame(p, P.Mask(val), env.ppu);
    } else if port == 3 {
      EventSame(p, P.OamAddr(val), env.ppu);
    } else if port == 4 {
      EventSame(p, P.OamData(val), env.ppu);
    } else if port == 5 {
      EventSame(p, P.ScrollPort(val), env.ppu);
    } else if port == 6 {
      EventSame(p, P.AddrPort(val), env.ppu);
    } else if port != 2 {
      EventSame(p, P.DataPort(val), env.ppu);
    }
  }

  lemma BusWriteSame(c: Cpu, addr: bv16, val: bv8, env: Env)
    ensures
      var r := BusWrite(c, addr, val, env);
      && r.acks >= c.acks && (r.acks == c.acks ==> SameBlank(c.ppu, r.ppu))
      && r.cycle == c.cycle && r.ints == c.ints
  {
    hide PortWrite;
    if addr & 0x0007 != 0 {
      PortWriteSame(c.ppu, addr & 0x0007, val, env);
    }
  }

  // ----- edges

  function Edges(marks: seq<Mark>): nat {
    if marks == [] then 0 else Edges(marks[..|marks| - 1]) + if marks[|marks| - 1] == Edge then 1 else 0
  }

  lemma EdgesNext(marks: seq<Mark>, m: Mark)
    ensures Edges(marks + [m]) == Edges(marks) + if m == Edge then 1 else 0
    ensures CpuRuns.Vectors(marks + [m]) == CpuRuns.Vectors(marks) + if m == Vector then 1 else 0
  {
    assert (marks + [m])[..|marks|] == marks;
  }

  /** From i to j the edges have been `edges`; with one of them, and nothing latched before, the vector
    has been fetched once or is yet to be. */
  ghost predicate Served(i: Interrupts, j: Interrupts, edges: nat) {
    && Edges(j.marks) == Edges(i.marks) + edges
    && (!i.nmi && edges == 0 ==> !j.nmi && CpuRuns.Vectors(j.marks) == CpuRuns.Vectors(i.marks))
    && (!i.nmi && edges == 1 ==> CpuRuns.Vectors(j.marks) + Flag(j.nmi) == CpuRuns.Vectors(i.marks) + 1)
  }

  lemma SampleServes(i: Interrupts, j: Interrupts, edges: nat, pending: bool, irq: bool)
    requires Served(i, j, edges)
    ensures Served(i, Sampled(j, pending, irq), edges + if pending && !j.prevNmiPending then 1 else 0)
  {
    hide Edges, CpuRuns.Vectors;
    EdgesNext(j.marks, Edge);
  }

  lemma TakeServes(i: Interrupts, j: Interrupts, edges: nat)
    requires Served(i, j, edges) && j.nmi
    ensures Served(i, Take(j), edges)
  {
    hide Edges, CpuRuns.Vectors;
    EdgesNext(j.marks, Vector);
  }

  // ----- a bus cycle

  function EdgesSince(q: Cpu, c: Cpu): int {
    Edges(c.ints.marks) - Edges(q.ints.marks)
  }

  /** From q on, as long as nobody has touched status or control, each blank has been an edge. */
  ghost predicate Tracked(q: Cpu, c: Cpu, env: Env) {
    && Good(q, c, env) && c.cycle >= q.cycle && c.acks >= q.acks
    && c.ints.prevNmiPending == c.ppu.nmiPending
    && (c.acks == q.acks ==>
          var edges := EdgesSince(q, c);
          && 0 <= edges <= c.cycle - q.cycle && Served(q.ints, c.ints, edges)
          && Punctual(c.ppu, env.ppu)
          && Begun(c.ppu, env.ppu.region) == (Begun(q.ppu, env.ppu.region) + edges) % P.FRAMES)
  }

  /** A bus cycle takes at most four dots. */
  lemma CycleDots(q: Cpu, c: Cpu, r: Cpu, env: Env)
    requires env.accurate && Good(q, c, env) && Good(q, r, env) && c.cycle > 0 && r.cycle == c.cycle + 1
    ensures c.ppu.clocks <= r.ppu.clocks <= c.ppu.clocks + 4
  {
    match env.ppu.region
    case Ntsc =>
    case Pal =>
    case Dendy =>
  }

  /** The state that a cycle samples. */
  function Sampling(c: Cpu, read: bool, env: Env): Cpu {
    var clock := EndClock(c.masterClock, read, env.ppu.region);
    c.(masterClock := clock, ppu := if env.accurate then CatchUp(c.ppu, clock, env) else c.ppu)
  }

  lemma EndSamples(c: Cpu, read: bool, env: Env)
    ensures
      var s, r := Sampling(c, read, env), EndCycle(c, read, env);
      && r.ppu == s.ppu && r.acks == c.acks && r.cycle == c.cycle && r.ints.prevNmiPending == r.ppu.nmiPending
      && exists irq :: r.ints == Sampled(c.ints, s.ppu.nmiPending, irq)
  {
    hide CatchUp, EndClock, Requested;
    var s := Sampling(c, read, env);
    assert EndCycle(c, read, env).ints ==
      Sampled(c.ints, s.ppu.nmiPending, env.irqs(s.polls) && s.regs.status & IRQ_DISABLE == 0);
  }

  /** In a cycle without acknowledgement the PPU goes a few dots on. */
  lemma CycleNearby(c: Cpu, m: Cpu, read: bool, env: Env)
    requires env.accurate && Punctual(c.ppu, env.ppu)
    requires SameBlank(StartCycle(c, read, env).ppu, m.ppu)
    requires c.ppu.clocks <= EndCycle(m, read, env).ppu.clocks <= c.ppu.clocks + 4
    ensures Nearby(c.ppu, EndCycle(m, read, env).ppu, env.ppu)
  {
    hide CatchUp, P.NmiEnabled, Sampled, Requested, Begun;
    var s := StartCycle(c, read, env);
    CatchUpGrows(m.ppu, EndClock(m.masterClock, read, env.ppu.region), env);
    CaughtUpNearby(c.ppu, c.ppu, StartClock(c.masterClock, read, env.ppu.region), env);
    SameNearby(c.ppu, s.ppu, m.ppu, env.ppu);
    hide Nearby;
    CaughtUpNearby(c.ppu, m.ppu, EndClock(m.masterClock, read, env.ppu.region), env);
  }

  lemma CatchUpGrows(p: P.Ppu, clock: nat, env: Env)
    ensures CatchUp(p, clock, env).clocks >= p.clocks
  {
    hide P.ClockTo;
    if PPU_OFFSET <= clock {
      ClockToCatchesUp(p, clock - PPU_OFFSET, env.ppu);
    }
  }

  lemma NextOf(b: nat, edges: nat)
    ensures P.NextFrame((b + edges) % P.FRAMES) == (b + edges + 1) % P.FRAMES
  {
  }

  /** The edge is there exactly if the blank has begun. */
  lemma CycleTracked(q: Cpu, c: Cpu, m: Cpu, read: bool, env: Env)
    requires env.accurate && Tracked(q, c, env) && c.cycle > 0
    requires m.ints == c.ints && m.cycle == c.cycle + 1 && m.acks >= c.acks
    requires m.acks == c.acks ==> SameBlank(StartCycle(c, read, env).ppu, m.ppu)
    requires Good(q, EndCycle(m, read, env), env)
    ensures Tracked(q, EndCycle(m, read, env), env)
  {
    hide StartCycle, EndCycle, Sampling, Good, Begun, Edges, Served, DuringBlank, P.NmiEnabled, P.NextFrame, Sampled;
    var r := EndCycle(m, read, env);
    EndSamples(m, read, env);
    if r.acks == q.acks {
      CycleDots(q, c, r, env);
      CycleNearby(c, m, read, env);
      EdgeIsBlank(q, c, r, env);
    }
  }

  lemma EdgeIsBlank(q: Cpu, c: Cpu, r: Cpu, env: Env)
    requires Tracked(q, c, env) && c.acks == q.acks && Nearby(c.ppu, r.ppu, env.ppu) && r.cycle == c.cycle + 1
    requires exists irq :: r.ints == Sampled(c.ints, r.ppu.nmiPending, irq)
    ensures
      var edges := EdgesSince(q, r);
      && 0 <= edges <= r.cycle - q.cycle && Served(q.ints, r.ints, edges)
      && Begun(r.ppu, env.ppu.region) == (Begun(q.ppu, env.ppu.region) + edges) % P.FRAMES
  {
    hide Good, Begun, Edges, CpuRuns.Vectors, DuringBlank, P.NextFrame;
    var irq :| r.ints == Sampled(c.ints, r.ppu.nmiPending, irq);
    SampleServes(q.ints, c.ints, EdgesSince(q, c), r.ppu.nmiPending, irq);
    NextOf(Begun(q.ppu, env.ppu.region), EdgesSince(q, c));
  }

  // ----- beats

  lemma ReadTracked(q: Cpu, c: Cpu, addr: bv16, env: Env)
    requires env.accurate && Tracked(q, c, env) && c.cycle > 0
    ensures Tracked(q, ReadCycle(c, addr, env).cpu, env) && ReadCycle(c, addr, env).cpu.cycle > 0
  {
    hide StartCycle, EndCycle, BusRead, Punctual, Begun, Edges, Served, SameBlank;
    ReadInStep(q, c, addr, env);
    hide Good;
    StartKeeps(c, true, env);
    StartAcks(c, true, env);
    var s := StartCycle(c, true, env);
    BusReadSame(s, addr, env);
    BusReadKeeps(s, addr, env);
    CycleTracked(q, c, BusRead(s, addr, env).cpu, true, env);
    EndKeeps(BusRead(s, addr, env).cpu, true, env);
  }

  lemma StartAcks(c: Cpu, read: bool, env: Env)
    ensures StartCycle(c, read, env).acks == c.acks
  {
    hide CatchUp, StartClock;
  }

  lemma IdleTracked(q: Cpu, c: Cpu, env: Env)
    requires env.accurate && Tracked(q, c, env) && c.cycle > 0
    ensures Tracked(q, IdleCycle(c, env), env) && IdleCycle(c, env).cycle > 0
  {
    hide StartCycle, EndCycle, Punctual, Begun, Edges, Served;
    IdleInStep(q, c, env);
    hide Good;
    StartKeeps(c, true, env);
    StartAcks(c, true, env);
    CycleTracked(q, c, StartCycle(c, true, env), true, env);
    EndKeeps(StartCycle(c, true, env), true, env);
  }

  lemma BusTracked(q: Cpu, c: Cpu, addr: bv16, val: bv8, read: bool, env: Env)
    requires env.accurate && Tracked(q, c, env) && c.cycle > 0
    ensures Tracked(q, Bus(c, addr, val, read, env), env) && Bus(c, addr, val, read, env).cycle > 0
  {
    hide StartCycle, EndCycle, BusWrite, Punctual, Begun, Edges, Served, SameBlank;
    WriteInStep(q, c, addr, val, read, env);
    hide Good;
    StartKeeps(c, read, env);
    StartAcks(c, read, env);
    var s := StartCycle(c, read, env);
    BusWriteSame(s, addr, val, env);
    CycleTracked(q, c, BusWrite(s, addr, val, env), read, env);
    EndKeeps(BusWrite(s, addr, val, env), read, env);
  }

  lemma ElseTracked(q: Cpu, c: Cpu, r: Cpu, env: Env)
    requires Tracked(q, c, env)
    requires r.cycle == c.cycle && r.masterClock == c.masterClock && r.ppu == c.ppu && r.acks == c.acks
    requires r.ints == c.ints || r.ints == c.ints.(prevNmi := false) || (c.ints.nmi && r.ints == Take(c.ints))
    ensures Tracked(q, r, env)
  {
    CpuRuns.GoodElsewhere(q, c, r, env);
    hide Good, Punctual, Begun, Edges, CpuRuns.Vectors;
    EdgesNext(c.ints.marks, Vector);
    if c.acks == q.acks && c.ints.nmi {
      TakeServes(q.ints, c.ints, EdgesSince(q, c));
    }
  }

  lemma SampleTracked(q: Cpu, c: Cpu, env: Env)
    requires env.accurate && Tracked(q, c, env) && c.cycle > 0
    ensures Tracked(q, SampleCycle(c, env), env) && SampleCycle(c, env).cycle > 0
  {
    hide ReadCycle, Tracked;
    if c.lines.dmc {
      ReadTracked(q, c, env.dmcAddr(c.polls), env);
      ElseTracked(q, ReadCycle(c, env.dmcAddr(c.polls), env).cpu, SampleCycle(c, env), env);
    }
  }

  lemma BeatTracked(q: Cpu, c: Cpu, b: Beat, env: Env)
    requires env.accurate && Tracked(q, c, env) && c.cycle > 0
    ensures Tracked(q, Do(c, b, env), env) && Do(c, b, env).cycle > 0
  {
    hide ReadCycle, IdleCycle, Bus, SampleCycle, HandleInterrupts, Tracked, Settled;
    match b
    case ReadBeat(addr) => ReadTracked(q, c, addr, env);
    case WriteBeat(addr, val, read) => BusTracked(q, c, addr, val, read, env);
    case IdleBeat => IdleTracked(q, c, env);
    case SampleBeat => SampleTracked(q, c, env);
    case BatchBeat =>
    case SettleBeat => ElseTracked(q, c, Do(c, b, env), env);
    case UnhaltBeat => ElseTracked(q, c, Do(c, b, env), env);
    case OamDoneBeat => ElseTracked(q, c, Do(c, b, env), env);
    case RegsBeat(regs) => ElseTracked(q, c, Do(c, b, env), env);
    case TakeBeat => ElseTracked(q, c, Do(c, b, env), env);
    case UnseeBeat => ElseTracked(q, c, Do(c, b, env), env);
  }

  lemma {:induction false} BeatsTracked(q: Cpu, bs: seq<Beat>, env: Env)
    requires env.accurate && Tracked(q, q, env) && q.cycle > 0
    ensures Tracked(q, After(q, bs, env), env) && After(q, bs, env).cycle > 0
  {
    hide Do, Tracked;
    if bs != [] {
      BeatsTracked(q, bs[..|bs| - 1], env);
      BeatTracked(q, After(q, bs[..|bs| - 1], env), bs[|bs| - 1], env);
    }
  }

  // ----- every state of every run

  /** What the PPU behind the CPU always keeps, and what a sample leaves. */
  predicate Proper(p: P.Ppu, env: P.Env) {
    P.OnScreen(p, env) && p.frame < P.FRAMES && V.Gated(p)
  }

  lemma ClockIsProper(p: P.Ppu, env: P.Env)
    requires Proper(p, env)
    ensures Proper(P.Clock(p, env), env)
  {
    hide P.Clock, V.Gated;
    V.ClockKeeps(p, env);
    ClockBegins(p, env);
  }

  lemma {:induction false} CatchUpIsProper(p: P.Ppu, clock: nat, env: P.Env)
    requires Proper(p, env)
    ensures Proper(P.ClockTo(p, clock, env), env)
    decreases clock - p.masterClock
  {
    hide P.Clock, Proper;
    if p.masterClock + P.ClockDivider(env.region) <= clock {
      ClockIsProper(p, env);
      SameIsProper(P.Clock(p, env), P.RunDot(p, env), env);
      CatchUpIsProper(P.RunDot(p, env), clock, env);
    }
  }

  lemma SameIsProper(p: P.Ppu, q: P.Ppu, env: P.Env)
    requires Proper(p, env) && SameBlank(p, q)
    ensures Proper(q, env)
  {
    hide P.NmiEnabled;
  }

  lemma EventIsProper(p: P.Ppu, e: P.Event, env: P.Env)
    requires Proper(p, env) && !e.Tock? && !e.ResetLine?
    ensures Proper(P.Step(p, e, env), env)
  {
    hide P.Step, V.Gated;
    V.EventKeeps(p, e, env);
    O.EventDot(p, e, env);
  }

  lemma PortReadIsProper(c: Cpu, port: bv16, env: Env)
    requires Proper(c.ppu, env.ppu)
    ensures Proper(PortRead(c, port, env).cpu.ppu, env.ppu)
  {
    hide P.PeekOamData, P.AccessPort, P.ReadStatus, P.StatusBits, Proper;
    EventIsProper(c.ppu, P.Status, env.ppu);
    EventIsProper(c.ppu, P.DataPort(env.data(c.polls)), env.ppu);
    var r := PortRead(c, port, env).cpu.ppu;
    if port != 2 && port != 7 {
      SameIsProper(c.ppu, r, env.ppu);
    }
  }

  lemma BusReadIsProper(c: Cpu, addr: bv16, env: Env)
    requires Proper(c.ppu, env.ppu)
    ensures Proper(BusRead(c, addr, env).cpu.ppu, env.ppu)
  {
    hide PortRead, Proper, Peek, Plain;
    PortReadIsProper(c, addr & 0x0007, env);
  }

  lemma PortWriteIsProper(p: P.Ppu, port: bv16, val: bv8, env: Env)
    requires Proper(p, env.ppu)
    ensures Proper(PortWrite(p, port, val, env), env.ppu)
  {
    hide P.WriteCtrl, PortWrite, Proper, SameBlank;
    if port == 0 {
      EventIsProper(p, P.Ctrl(val), env.ppu);
      CtrlPort(p, val, env);
    } else {
      PortWriteSame(p, port, val, env);
      SameIsProper(p, PortWrite(p, port, val, env), env.ppu);
    }
  }

  lemma CtrlPort(p: P.Ppu, val: bv8, env: Env)
    ensures P.Step(p, P.Ctrl(val), env.ppu) == PortWrite(p, 0, val, env)
  {
    hide P.WriteCtrl;
  }

  lemma BusWriteIsProper(c: Cpu, addr: bv16, val: bv8, env: Env)
    requires Proper(c.ppu, env.ppu)
    ensures Proper(BusWrite(c, addr, val, env).ppu, env.ppu)
  {
    hide PortWrite, Proper;
    PortWriteIsProper(c.ppu, addr & 0x0007, val, env);
  }

  lemma StartIsProper(c: Cpu, read: bool, env: Env)
    requires Proper(c.ppu, env.ppu)
    ensures Proper(StartCycle(c, read, env).ppu, env.ppu)
  {
    hide P.ClockTo, Proper;
    var clock := StartClock(c.masterClock, read, env.ppu.region);
    if PPU_OFFSET <= clock {
      CatchUpIsProper(c.ppu, clock - PPU_OFFSET, env.ppu);
    }
  }

  /** In cycle-accurate mode the last sample saw the request as it is. */
  ghost predicate Seen(c: Cpu, env: Env) {
    Proper(c.ppu, env.ppu) && (c.cycle > 0 ==> c.ints.prevNmiPending == c.ppu.nmiPending)
  }

  lemma EndIsSeen(c: Cpu, read: bool, env: Env)
    requires Proper(c.ppu, env.ppu)
    ensures Seen(EndCycle(c, read, env), env)
  {
    hide P.ClockTo, Proper, EndCycle;
    EndSamples(c, read, env);
    var clock := EndClock(c.masterClock, read, env.ppu.region);
    if PPU_OFFSET <= clock {
      CatchUpIsProper(c.ppu, clock - PPU_OFFSET, env.ppu);
    }
  }

  lemma CyclesAreSeen(c: Cpu, addr: bv16, val: bv8, read: bool, env: Env)
    requires Proper(c.ppu, env.ppu)
    ensures Seen(ReadCycle(c, addr, env).cpu, env) && Seen(Bus(c, addr, val, read, env), env) && Seen(IdleCycle(c,
        env), env)
  {
    hide StartCycle, EndCycle, BusRead, BusWrite, Proper, Seen;
    StartIsProper(c, true, env);
    StartIsProper(c, read, env);
    BusReadIsProper(StartCycle(c, true, env), addr, env);
    BusWriteIsProper(StartCycle(c, read, env), addr, val, env);
    EndIsSeen(BusRead(StartCycle(c, true, env), addr, env).cpu, true, env);
    EndIsSeen(BusWrite(StartCycle(c, read, env), addr, val, env), read, env);
    EndIsSeen(StartCycle(c, true, env), true, env);
  }

  lemma ElseIsSeen(c: Cpu, r: Cpu, env: Env)
    requires Seen(c, env) && r.ppu == c.ppu && r.cycle == c.cycle && r.ints.prevNmiPending == c.ints.prevNmiPending
    ensures Seen(r, env)
  {
    hide Proper;
  }

  lemma BeatIsSeen(c: Cpu, b: Beat, env: Env)
    requires env.accurate && Seen(c, env)
    ensures Seen(Do(c, b, env), env)
  {
    hide ReadCycle, IdleCycle, Bus, HandleInterrupts, Proper, Settled;
    var r := Do(c, b, env);
    match b
    case ReadBeat(addr) => CyclesAreSeen(c, addr, 0, true, env);
    case WriteBeat(addr, val, read) => CyclesAreSeen(c, addr, val, read, env);
    case IdleBeat => CyclesAreSeen(c, 0, 0, true, env);
    case SampleBeat =>
      CyclesAreSeen(c, env.dmcAddr(c.polls), 0, true, env);
      ElseIsSeen(if c.lines.dmc then ReadCycle(c, env.dmcAddr(c.polls), env).cpu else c, r, env);
    case BatchBeat =>
    case SettleBeat => ElseIsSeen(c, r, env);
    case UnhaltBeat => ElseIsSeen(c, r, env);
    case OamDoneBeat => ElseIsSeen(c, r, env);
    case RegsBeat(regs) => ElseIsSeen(c, r, env);
    case TakeBeat => ElseIsSeen(c, r, env);
    case UnseeBeat => ElseIsSeen(c, r, env);
  }

  lemma {:induction false} BeatsAreSeen(c: Cpu, bs: seq<Beat>, env: Env)
    requires env.accurate && Seen(c, env)
    ensures Seen(After(c, bs, env), env)
  {
    hide Do, Seen;
    if bs != [] {
      BeatsAreSeen(c, bs[..|bs| - 1], env);
      BeatIsSeen(After(c, bs[..|bs| - 1], env), bs[|bs| - 1], env);
    }
  }

  // ----- the results

  /** A console as a hard reset leaves it. */
  ghost predicate Fresh(c: Cpu) {
    CpuRuns.PowerOn(c) && V.PowerOn(c.ppu) && c.ppu.frame < P.FRAMES
  }

  /** NMI is enabled, and the flag has not been read away or suppressed in this blank. */
  predicate Armed(p: P.Ppu, r: Region) {
    P.NmiEnabled(p.ctrl) && !p.preventVbl && p.vblank == DuringBlank(p, r)
  }

  lemma StartsTracked(c: Cpu, before: seq<Act>, env: Env)
    requires Fresh(c) && env.accurate && Run(c, before, env).cycle > 0 && Armed(Run(c, before, env).ppu, env.ppu.region)
    ensures var q := Run(c, before, env); Tracked(q, q, env)
  {
    hide Run, After, CpuRuns.Latched, CpuRuns.PrevSeen, P.NmiEnabled, Edges, CpuRuns.Vectors, DuringBlank;
    var q := Run(c, before, env);
    CpuRuns.RunHealthy(c, before, env);
    assert Good(q, q, env);
    var bs := RunBeats(c, before, env);
    BeatsAreSeen(c, bs, env);
    assert Begun(q.ppu, env.ppu.region) == Begun(q.ppu, env.ppu.region) % P.FRAMES;
  }

  /** From any state of any run in which NMI is armed, as long as neither the status is read nor the
    control register written: the edges that the CPU has sampled are the blanks that have begun. */
  lemma EdgePerBlank(c: Cpu, before: seq<Act>, acts: seq<Act>, env: Env)
    requires Fresh(c) && env.accurate
    requires
      var q := Run(c, before, env);
      q.cycle > 0 && Armed(q.ppu, env.ppu.region) && Run(q, acts, env).acks == q.acks
    ensures
      var q := Run(c, before, env);
      var r := Run(q, acts, env);
      var edges := EdgesSince(q, r);
      && 0 <= edges <= r.cycle - q.cycle
      && Begun(r.ppu, env.ppu.region) == (Begun(q.ppu, env.ppu.region) + edges) % P.FRAMES
      && Served(q.ints, r.ints, edges)
  {
    hide Run, After, Fresh, Armed, Edges, Begun, Good, Punctual, Served;
    StartsTracked(c, before, env);
    var q := Run(c, before, env);
    var bs := RunBeats(q, acts, env);
    BeatsTracked(q, bs, env);
  }

  /** So a blank that begins meanwhile brings exactly one fetch of the NMI vector, made or latched, and
    without one there is none. */
  lemma NmiPerBlank(c: Cpu, before: seq<Act>, acts: seq<Act>, env: Env)
    requires Fresh(c) && env.accurate
    requires
      var q := Run(c, before, env);
      var r := Run(q, acts, env);
      && q.cycle > 0 && Armed(q.ppu, env.ppu.region) && r.acks == q.acks
      && !q.ints.nmi && r.cycle - q.cycle < P.FRAMES
    ensures
      var q := Run(c, before, env);
      var r := Run(q, acts, env);
      var b, b' := Begun(q.ppu, env.ppu.region), Begun(r.ppu, env.ppu.region);
      && (b' == b ==> CpuRuns.Vectors(r.ints.marks) == CpuRuns.Vectors(q.ints.marks) && !r.ints.nmi)
      && (b' == P.NextFrame(b) ==>
            CpuRuns.Vectors(r.ints.marks) + Flag(r.ints.nmi) == CpuRuns.Vectors(q.ints.marks) + 1)
  {
    hide Run, Fresh, Armed, Edges, Begun, Good, Punctual, CpuRuns.Vectors;
    StartsTracked(c, before, env);
    EdgePerBlank(c, before, acts, env);
    var q := Run(c, before, env);
    var r := Run(q, acts, env);
    Residue(Begun(q.ppu, env.ppu.region), EdgesSince(q, r));
  }

  lemma Residue(b: nat, edges: nat)
    requires edges < P.FRAMES && b < P.FRAMES
    ensures (b + edges) % P.FRAMES == b ==> edges == 0
    ensures (b + edges) % P.FRAMES == P.NextFrame(b) ==> edges == 1
  {
  }
}
