/** What OAM holds after DMA, with rendering off or in the vertical blank: byte k of the page at
  address a0 + k, wrapping around, and OAMADDR back where it began. */
module OamFill {
  import opened Words
  import opened CpuSpec
  import CpuRuns
  import opened Lockstep
  import Dma
  import E = SpriteEval
  import P = PpuSpec
  import Odometer
  import Scroll

  // ----- where only writes touch OAM

  predicate SameOam(p: P.Ppu, q: P.Ppu) {
    q.mask == p.mask && q.spr.oam == p.spr.oam && q.spr.oamaddr == p.spr.oamaddr
  }

  /** The first line after the picture on which a rendering PPU works with OAM again. */
  function FirstBusy(r: Region): nat {
    if r.Pal? then 265 else P.PrerenderLine(r)
  }

  /** Until its clock number `end`, the PPU stays off the lines on which it works with OAM. */
  predicate Room(p: P.Ppu, end: nat, env: P.Env) {
    || !P.Rendering(p.mask)
    || (240 <= p.scanline && Odometer.Dot(p) + (end - p.clocks) < 341 * FirstBusy(env.region))
  }

  /** From p to r, if that is before `end`, OAM has been left alone. */
  predicate Quietly(p: P.Ppu, r: P.Ppu, end: nat, env: P.Env) {
    && p.clocks <= r.clocks
    && (r.clocks <= end && Room(p, end, env) ==> SameOam(p, r) && Room(r, end, env))
  }

  lemma TickLeavesOam(p: P.Ppu, env: P.Env)
    requires 1 <= p.cycle && (P.Rendering(p.mask) ==> 240 <= p.scanline < FirstBusy(env.region))
    ensures SameOam(p, P.Tick(p, env))
  {
    hide P.BgWork, P.DotAt, P.ScreenColor, P.PaletteIndex, P.Load, P.Hit, P.Background.Shift;
  }

  lemma EdgesLeaveOam(p: P.Ppu, env: P.Env)
    ensures SameOam(p, P.VblankEdges(p, env))
  {
    hide P.NmiEnabled;
  }

  lemma WrapLeavesOam(p: P.Ppu, env: P.Env)
    ensures SameOam(p, P.NextLine(p, env))
  {
    hide P.NextFrame;
  }

  lemma ClockLeavesOam(p: P.Ppu, env: P.Env)
    requires P.Rendering(p.mask) ==> 240 <= p.scanline < FirstBusy(env.region)
    ensures SameOam(p, P.Clock(p, env))
  {
    hide P.Tick, P.VblankEdges, P.NextLine, P.Rendering;
    if p.cycle < P.LAST_CYCLE {
      var q := Odometer.Ticking(p);
      Odometer.ClockTicks(p, env);
      TickLeavesOam(q, env);
      EdgesLeaveOam(P.Tick(q, env), env);
    } else {
      WrapLeavesOam(p.(openBus := if p.scanline == 0 then 0 else p.openBus, clocks := p.clocks + 1), env);
    }
  }

  lemma ClockMoves(p: P.Ppu, env: P.Env)
    requires p.scanline < P.PrerenderLine(env.region)
    ensures P.Clock(p, env).scanline >= p.scanline && Odometer.Dot(P.Clock(p, env)) <= Odometer.Dot(p) + 1
  {
    hide P.Clock, P.NextLine, P.Tick, P.VblankEdges;
    if p.cycle < P.LAST_CYCLE {
      Odometer.TickDot(p, env);
    } else {
      WrapMoves(p, env);
    }
  }

  lemma WrapMoves(p: P.Ppu, env: P.Env)
    requires p.cycle >= P.LAST_CYCLE && p.scanline < P.PrerenderLine(env.region)
    ensures P.Clock(p, env).scanline >= p.scanline && Odometer.Dot(P.Clock(p, env)) <= Odometer.Dot(p) + 1
  {
    hide P.NextLine, P.Tick, P.VblankEdges;
    Odometer.NextLineDot(p.(openBus := if p.scanline == 0 then 0 else p.openBus, clocks := p.clocks + 1), env);
  }

  lemma ClockIsQuiet(p: P.Ppu, end: nat, env: P.Env)
    ensures Quietly(p, P.Clock(p, env), end, env)
  {
    hide P.Clock, P.Rendering;
    Odometer.ClockCounts(p, env);
    if p.clocks < end && Room(p, end, env) {
      ClockLeavesOam(p, env);
      if P.Rendering(p.mask) {
        ClockMoves(p, env);
      }
    }
  }

  lemma {:induction false} CatchUpIsQuiet(p: P.Ppu, clock: nat, end: nat, env: P.Env)
    ensures Quietly(p, P.ClockTo(p, clock, env), end, env)
    decreases clock - p.masterClock
  {
    hide P.Clock, P.Rendering;
    if p.masterClock + P.ClockDivider(env.region) <= clock {
      ClockIsQuiet(p, end, env);
      CatchUpIsQuiet(P.RunDot(p, env), clock, end, env);
    }
  }

  lemma StartIsQuiet(c: Cpu, read: bool, end: nat, env: Env)
    ensures Quietly(c.ppu, StartCycle(c, read, env).ppu, end, env.ppu)
  {
    hide P.ClockTo, P.Rendering;
    var clock := StartClock(c.masterClock, read, env.ppu.region);
    if PPU_OFFSET <= clock {
      CatchUpIsQuiet(c.ppu, clock - PPU_OFFSET, end, env.ppu);
    }
  }

  lemma EndIsQuiet(c: Cpu, read: bool, end: nat, env: Env)
    ensures Quietly(c.ppu, EndCycle(c, read, env).ppu, end, env.ppu)
  {
    hide P.ClockTo, P.Rendering, Sampled, Requested;
    var clock := EndClock(c.masterClock, read, env.ppu.region);
    if PPU_OFFSET <= clock {
      CatchUpIsQuiet(c.ppu, clock - PPU_OFFSET, end, env.ppu);
    }
  }

  /** Ports move nothing on the screen. */
  predicate SamePlace(p: P.Ppu, q: P.Ppu) {
    q.scanline == p.scanline && q.cycle == p.cycle && q.clocks == p.clocks
  }

  lemma StatusLeavesOam(p: P.Ppu, env: P.Env)
    ensures SameOam(p, P.ReadStatus(p, env)) && SamePlace(p, P.ReadStatus(p, env))
  {
    hide P.StatusBits;
  }

  lemma MoveLeavesOam(p: P.Ppu, v: Scroll.ScrollRegs, val: bv8)
    ensures SameOam(p, P.Drive(P.MoveScroll(p, v), val)) && SamePlace(p, P.Drive(P.MoveScroll(p, v), val))
  {
  }

  lemma DataLeavesOam(p: P.Ppu, val: bv8, env: P.Env)
    ensures SameOam(p, P.AccessPort(p, val, env)) && SamePlace(p, P.AccessPort(p, val, env))
  {
    hide P.Rendering, P.RenderLine, P.MoveScroll, P.Drive, SameOam, SamePlace, Scroll.Advance, Scroll.Right,
        Scroll.Down;
    var s := p.bg.scroll;
    MoveLeavesOam(p, s.(v := Scroll.Down(Scroll.Right(s.v))), val);
    MoveLeavesOam(p, s.(v := Scroll.Advance(s.v, if p.ctrl & 0x04 != 0 then 32 else 1)), val);
  }

  lemma PortReadLeavesOam(c: Cpu, port: bv16, env: Env)
    ensures SameOam(c.ppu, PortRead(c, port, env).cpu.ppu) && SamePlace(c.ppu, PortRead(c, port, env).cpu.ppu)
  {
    hide P.PeekOamData, P.StatusBits, P.ReadStatus, P.AccessPort;
    StatusLeavesOam(c.ppu, env.ppu);
    DataLeavesOam(c.ppu, env.data(c.polls), env.ppu);
  }

  lemma BusReadIsQuiet(c: Cpu, addr: bv16, end: nat, env: Env)
    ensures Quietly(c.ppu, BusRead(c, addr, env).cpu.ppu, end, env.ppu)
  {
    hide PortRead, Peek, Plain, P.Rendering;
    PortReadLeavesOam(c, addr & 0x0007, env);
  }

  // ----- filling

  /** OAM after these bytes have been written from address a0 on. */
  function Fill(oam: E.Oam, a0: u8, bytes: seq<bv8>): E.Oam {
    if bytes == [] then oam
    else
      var n := |bytes| - 1;
      var a := (a0 + n) % 256;
      Fill(oam, a0, bytes[..n])[a := P.StoredByte(a, bytes[n])]
  }

  lemma {:induction false} FillPut(oam: E.Oam, a0: u8, bytes: seq<bv8>, k: nat)
    requires k < |bytes| <= 256
    ensures Fill(oam, a0, bytes)[(a0 + k) % 256] == P.StoredByte((a0 + k) % 256, bytes[k])
  {
    hide P.StoredByte;
    var n := |bytes| - 1;
    if k < n {
      FillPut(oam, a0, bytes[..n], k);
      Apart(a0, k, n);
    }
  }

  lemma Apart(a: int, k: nat, n: nat)
    requires 0 <= a && k < n < 256
    ensures (a + k) % 256 != (a + n) % 256
  {
  }

  /** Every byte written since c0 has gone to its place. */
  ghost predicate Filled(c0: Cpu, c: Cpu) {
    var n := |c0.written|;
    && n <= |c.written| && c.written[..n] == c0.written
    && c.ppu.spr.oam == Fill(c0.ppu.spr.oam, c0.ppu.spr.oamaddr, c.written[n..])
    && c.ppu.spr.oamaddr == (c0.ppu.spr.oamaddr + (|c.written| - n)) % 256
  }

  /** So far it has, if this is before `end`. */
  ghost predicate Filling(c0: Cpu, c: Cpu, end: nat, env: Env) {
    c.ppu.clocks <= end ==> Filled(c0, c) && Room(c.ppu, end, env.ppu)
  }

  lemma StillFilling(c0: Cpu, c: Cpu, r: Cpu, end: nat, env: Env)
    requires Filling(c0, c, end, env) && Quietly(c.ppu, r.ppu, end, env.ppu) && r.written == c.written
    ensures Filling(c0, r, end, env)
  {
    hide P.Rendering, Fill;
  }

  lemma ReadFills(c0: Cpu, c: Cpu, addr: bv16, end: nat, env: Env)
    requires Filling(c0, c, end, env)
    ensures Filling(c0, ReadCycle(c, addr, env).cpu, end, env)
  {
    hide StartCycle, EndCycle, BusRead, Filling, Quietly, Requested, Peek, Plain;
    var s := StartCycle(c, true, env);
    StartIsQuiet(c, true, end, env);
    StartKeeps(c, true, env);
    StillFilling(c0, c, s, end, env);
    var b := BusRead(s, addr, env).cpu;
    BusReadIsQuiet(s, addr, end, env);
    BusReadKeeps(s, addr, env);
    StillFilling(c0, s, b, end, env);
    EndIsQuiet(b, true, end, env);
    EndKeeps(b, true, env);
    StillFilling(c0, b, ReadCycle(c, addr, env).cpu, end, env);
  }

  lemma IdleFills(c0: Cpu, c: Cpu, end: nat, env: Env)
    requires Filling(c0, c, end, env)
    ensures Filling(c0, EndCycle(StartCycle(c, true, env), true, env), end, env)
  {
    hide StartCycle, EndCycle, Filling, Quietly, Requested;
    var s := StartCycle(c, true, env);
    StartIsQuiet(c, true, end, env);
    StartKeeps(c, true, env);
    StillFilling(c0, c, s, end, env);
    EndIsQuiet(s, true, end, env);
    EndKeeps(s, true, env);
    StillFilling(c0, s, EndCycle(s, true, env), end, env);
  }

  lemma WriteFills(c0: Cpu, c: Cpu, val: bv8, end: nat, env: Env)
    requires Filling(c0, c, end, env)
    ensures Filling(c0, EndCycle(BusWrite(StartCycle(c, true, env), 0x2004, val, env), true, env), end, env)
  {
    hide StartCycle, EndCycle, BusWrite, Filling, Quietly, Requested;
    var s := StartCycle(c, true, env);
    StartIsQuiet(c, true, end, env);
    StartKeeps(c, true, env);
    StillFilling(c0, c, s, end, env);
    var w := BusWrite(s, 0x2004, val, env);
    PortFills(c0, s, val, end, env);
    EndIsQuiet(w, true, end, env);
    EndKeeps(w, true, env);
    StillFilling(c0, w, EndCycle(w, true, env), end, env);
  }

  /** A write to $2004 stores its byte exactly if the PPU is not at work with OAM. */
  lemma StoresExactly(p: P.Ppu, val: bv8, env: P.Env)
    ensures
      var r, busy := P.WriteOamData(p, val, env), P.Rendering(p.mask)
        && (p.scanline <= 239 || p.scanline == P.PrerenderLine(env.region) || (env.region.Pal? && p.scanline >= 265));
      && SamePlace(p, r) && r.mask == p.mask
      && r.spr == if busy then P.Bumped(p.spr) else P.Stored(p.spr, val)
  {
    hide P.Rendering, P.StoredByte, P.Stored, P.Bumped;
  }

  lemma PortFills(c0: Cpu, c: Cpu, val: bv8, end: nat, env: Env)
    requires Filling(c0, c, end, env)
    ensures Filling(c0, BusWrite(c, 0x2004, val, env), end, env)
  {
    hide BusWrite, P.WriteOamData, P.Rendering, P.StoredByte, P.Bumped, Fill, Filled;
    OamPort(c, val, env);
    StoresExactly(c.ppu, val, env.ppu);
    if c.ppu.clocks <= end {
      AppendFills(c0, c, BusWrite(c, 0x2004, val, env), val);
    }
  }

  lemma AppendFills(c0: Cpu, c: Cpu, r: Cpu, val: bv8)
    requires Filled(c0, c) && r.written == c.written + [val] && r.ppu.spr == P.Stored(c.ppu.spr, val)
    ensures Filled(c0, r)
  {
    hide P.StoredByte, Fill;
    var n, a0 := |c0.written|, c0.ppu.spr.oamaddr;
    FillNext(c0.ppu.spr.oam, a0, c.written[n..], val);
    assert r.written[n..] == c.written[n..] + [val];
    ModNext(a0 + (|c.written| - n));
  }

  lemma ModNext(a: int)
    ensures (a % 256 + 1) % 256 == (a + 1) % 256
  {
  }

  lemma FillNext(oam: E.Oam, a0: u8, bytes: seq<bv8>, val: bv8)
    ensures
      var a := (a0 + |bytes|) % 256;
      Fill(oam, a0, bytes + [val]) == Fill(oam, a0, bytes)[a := P.StoredByte(a, val)]
  {
    hide P.StoredByte;
    assert (bytes + [val])[..|bytes|] == bytes;
  }

  lemma WaitFills(c0: Cpu, c: Cpu, addr: bv16, end: nat, env: Env)
    requires Filling(c0, c, end, env)
    ensures Filling(c0, DmaWait(c, addr, env), end, env)
  {
    hide Filling, StartCycle, EndCycle, ReadCycle, Settled;
    LinesFill(c0, c, Settle(c), end, env);
    ReadFills(c0, Settle(c), addr, end, env);
    IdleFills(c0, Settle(c), end, env);
  }

  lemma LoadDmcFills(c0: Cpu, c: Cpu, d: CpuSpec.Dma, end: nat, env: Env)
    requires Filling(c0, c, end, env)
    ensures Filling(c0, LoadDmc(c, d, env).cpu, end, env)
  {
    hide Filling, ReadCycle, Settled;
    LinesFill(c0, c, Settle(c), end, env);
    ReadFills(c0, Settle(c), env.dmcAddr(c.polls), end, env);
    LinesFill(c0, ReadCycle(Settle(c), env.dmcAddr(c.polls), env).cpu, LoadDmc(c, d, env).cpu, end, env);
  }

  lemma WriteOamFills(c0: Cpu, c: Cpu, d: CpuSpec.Dma, end: nat, env: Env)
    requires Filling(c0, c, end, env)
    ensures Filling(c0, WriteOam(c, d, env).cpu, end, env)
  {
    hide Filling, StartCycle, EndCycle, BusWrite, Settled;
    LinesFill(c0, c, Settle(c), end, env);
    WriteFills(c0, Settle(c), d.val, end, env);
    LinesFill(c0, EndCycle(BusWrite(StartCycle(Settle(c), true, env), 0x2004, d.val, env), true, env),
        WriteOam(c, d, env).cpu, end, env);
  }

  lemma TurnFills(c0: Cpu, c: Cpu, d: CpuSpec.Dma, addr: bv16, end: nat, env: Env)
    requires Filling(c0, c, end, env)
    ensures Filling(c0, DmaTurn(c, d, addr, env).cpu, end, env)
  {
    hide Filling, LoadDmc, DmaWait, WriteOam, ReadCycle, Settle;
    LoadDmcFills(c0, c, d, end, env);
    WaitFills(c0, c, addr, end, env);
    WriteOamFills(c0, c, d, end, env);
    SettleFills(c0, c, end, env);
    ReadFills(c0, Settle(c), PageAddr(c.lines.oamAddr, d.offset), end, env);
  }

  lemma SettleFills(c0: Cpu, c: Cpu, end: nat, env: Env)
    requires Filling(c0, c, end, env)
    ensures Filling(c0, Settle(c), end, env)
  {
    hide Settled;
    LinesFill(c0, c, Settle(c), end, env);
  }

  lemma LinesFill(c0: Cpu, c: Cpu, r: Cpu, end: nat, env: Env)
    requires Filling(c0, c, end, env)
    ensures r.ppu == c.ppu && r.written == c.written ==> Filling(c0, r, end, env)
  {
  }

  lemma {:induction false} LoopFills(c0: Cpu, c: Cpu, d: CpuSpec.Dma, addr: bv16, end: nat, env: Env)
    requires Filling(c0, c, end, env) && Busy(c, d)
    ensures Filling(c0, DmaLoop(c, d, addr, env), end, env)
    decreases PollsLeft(c, env), WorkLeft(c, d)
  {
    hide DmaTurn, Filling;
    if c.lines.oam || c.lines.dmc {
      TurnProgresses(c, d, addr, env);
      TurnFills(c0, c, d, addr, end, env);
      var t := DmaTurn(c, d, addr, env);
      LoopFills(c0, t.cpu, t.dma, addr, end, env);
    }
  }

  /** OAM holds the page from OAMADDR on, and OAMADDR is back where it was. */
  ghost predicate HoldsPage(c: Cpu, r: Cpu, env: Env) {
    && r.ppu.spr.oamaddr == c.ppu.spr.oamaddr
    && forall k :: 0 <= k < 256 ==>
         var a := (c.ppu.spr.oamaddr + k) % 256;
         r.ppu.spr.oam[a] == P.StoredByte(a, Peek(c.wram, PageAddr(c.lines.oamAddr, k), env))
  }

  /** The transfer fills OAM with the page if rendering is off, or if it begins after the picture and
    its dots end before the PPU works with OAM again. */
  lemma OamHoldsPage(c: Cpu, addr: bv16, env: Env)
    requires c.lines.oam && Dma.PlainPage(c.lines.oamAddr)
    requires Room(c.ppu, HandleDma(c, addr, env).ppu.clocks, env.ppu)
    ensures HoldsPage(c, HandleDma(c, addr, env), env)
  {
    hide ReadCycle, DmaLoop, Dma.PlainPage, Peek, PageAddr, P.StoredByte, Room, Fill;
    var r := HandleDma(c, addr, env);
    var end := r.ppu.clocks;
    FillNothing(c.ppu.spr.oam, c.ppu.spr.oamaddr);
    assert c.written[|c.written|..] == [];
    ReadFills(c, c, addr, end, env);
    var h := Halted(c, addr, env);
    LinesFill(c, ReadCycle(c, addr, env).cpu, h, end, env);
    LoopFills(c, h, CpuSpec.Dma(0, 0, 0), addr, end, env);
    Dma.OamDmaDelivers(c, addr, env);
    var bytes := Dma.PageBytes(c.wram, c.lines.oamAddr, 0x100, env);
    assert r.written[|c.written|..] == bytes;
    forall k | 0 <= k < 256
      ensures var a := (c.ppu.spr.oamaddr + k) % 256;
        r.ppu.spr.oam[a] == P.StoredByte(a, Peek(c.wram, PageAddr(c.lines.oamAddr, k), env))
    {
      FillPut(c.ppu.spr.oam, c.ppu.spr.oamaddr, bytes, k);
    }
  }

  lemma FillNothing(oam: E.Oam, a0: u8)
    ensures Fill(oam, a0, []) == oam
  {
  }

  /** With rendering off it always does. */
  lemma OamHoldsPageUnrendered(c: Cpu, addr: bv16, env: Env)
    requires c.lines.oam && Dma.PlainPage(c.lines.oamAddr) && !P.Rendering(c.ppu.mask)
    ensures HoldsPage(c, HandleDma(c, addr, env), env)
  {
    hide HandleDma, HoldsPage, Dma.PlainPage;
    OamHoldsPage(c, addr, env);
  }

  /** A transfer of up to 514 cycles takes up to 1645 dots. */
  lemma TransferDots(c0: Cpu, c: Cpu, r: Cpu, env: Env)
    requires InStep(c0, c, env) && Exact(c, env) && InStep(c0, r, env) && Exact(r, env)
    requires c.cycle <= r.cycle <= c.cycle + 514
    ensures r.ppu.clocks <= c.ppu.clocks + 1645
  {
    match env.ppu.region
    case Ntsc =>
    case Pal =>
    case Dendy =>
  }

  /** The transfer that programs make in every vertical blank: with rendering enabled, from any point
    of any run after the picture that leaves 1645 dots, OAM DMA fills OAM with the page. */
  lemma OamHoldsPageInBlank(c0: Cpu, acts: seq<Act>, addr: bv16, env: Env)
    requires CpuRuns.PowerOn(c0) && env.accurate && Run(c0, acts, env).cycle > 0
    requires
      var c := Run(c0, acts, env);
      && Dma.OamAlone(c) && Dma.NoRequests(c, env) && Dma.PlainPage(c.lines.oamAddr)
      && 240 <= c.ppu.scanline && Odometer.Dot(c.ppu) + 1645 < 341 * FirstBusy(env.ppu.region)
    ensures HoldsPage(Run(c0, acts, env), HandleDma(Run(c0, acts, env), addr, env), env)
  {
    hide Run, HandleDma, HoldsPage, Dma.PlainPage, Dma.NoRequests, CpuRuns.PowerOn, CpuRuns.Latched,
        CpuRuns.PrevSeen, InStep,
      Exact, P.Rendering, FirstBusy;
    var c := Run(c0, acts, env);
    var r := HandleDma(c, addr, env);
    CpuRuns.RunHealthy(c0, acts, env);
    CpuRuns.HandleDmaSound(c0, c, addr, env, CpuRuns.Vectors(c.ints.marks), false);
    Dma.OamDmaCost(c, addr, env);
    TransferDots(c0, c, r, env);
    OamHoldsPage(c, addr, env);
  }
}
