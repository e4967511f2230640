/** After a reset the picture unit does not listen: until the first pre-render line, writes to the control,
  mask, scroll and address registers are lost. What a reset keeps, and what sprite memory answers. */
module StartUp {
  import opened Words
  import opened Scroll
  import opened PpuSpec
  import opened Odometer

  /** What a program can set, as a reset leaves it, and the signal that keeps it so. */
  predicate Deaf(p: Ppu) {
    p.resetSignal && p.ctrl == 0 && p.mask == 0 && p.bg.scroll.t == ORIGIN && p.bg.scroll.fineX == 0
  }

  lemma ResetIsDeaf(p: Ppu, kind: ResetKind)
    ensures Deaf(Reset(p, kind)) && Dot(Reset(p, kind)) == 0
  {
    hide ResetSpr;
  }

  lemma WriteIsLost(p: Ppu, e: Event, env: Env)
    requires Deaf(p) && !e.Tock? && !e.ResetLine?
    ensures Deaf(Step(p, e, env)) && SamePlace(p, Step(p, e, env))
  {
    EventDot(p, e, env);
    hide WriteOamData, StatusBits, Advance, Right, Down, Rendering;
    OamDataStays(p, env);
    match e
    case Ctrl(val) =>
    case Mask(val) =>
    case Status =>
    case OamAddr(val) =>
    case OamData(val) => OamDataStays(p, env);
    case ScrollPort(val) =>
    case AddrPort(val) =>
    case DataPort(val) =>
  }

  lemma OamDataStays(p: Ppu, env: Env)
    requires Deaf(p)
    ensures forall val :: Deaf(WriteOamData(p, val, env))
  {
    hide Bumped, Stored, Rendering;
  }

  lemma DarkTick(q: Ppu, env: Env)
    requires 1 <= q.cycle && Deaf(q)
    ensures Deaf(Tick(q, env))
  {
    assert !Rendering(q.mask);
    hide DotAt, ScreenColor, Rendering, Background.Shift;
    ShiftStays(q.bg, q.cycle);
  }

  lemma ShiftStays(bg: Background.Bg, c: nat)
    ensures Background.Shift(bg, c).scroll == bg.scroll
  {
  }

  lemma DarkEdges(q: Ppu, env: Env)
    requires Deaf(q)
    ensures
      var r := VblankEdges(q, env);
      if q.cycle == 1 && q.scanline == PrerenderLine(env.region) then !r.resetSignal else Deaf(r)
  {
    hide NmiEnabled;
  }

  lemma DarkLine(q: Ppu, env: Env)
    requires Deaf(q)
    ensures Deaf(NextLine(q, env))
  {
  }

  lemma DarkPlace(p: Ppu, env: Env)
    requires Deaf(p) && OnScreen(p, env) && Dot(p) <= 341 * PrerenderLine(env.region)
    ensures OnScreen(Clock(p, env), env) && Dot(Clock(p, env)) == Dot(p) + 1
  {
    hide Clock;
    ClockDot(p, env);
    assert !Rendering(p.mask);
  }

  lemma DarkStart(p: Ppu)
    requires Deaf(p)
    ensures Deaf(Ticking(p)) && Deaf(p.(openBus := if p.scanline == 0 then 0 else p.openBus, clocks := p.clocks + 1))
  {
  }

  lemma DarkFlags(p: Ppu, env: Env)
    requires Deaf(p)
    ensures
      var r := Clock(p, env);
      if p.cycle == 0 && p.scanline == PrerenderLine(env.region) then !r.resetSignal else Deaf(r)
  {
    hide Tick, VblankEdges, NextLine, Deaf, Ticking;
    DarkStart(p);
    if p.cycle < LAST_CYCLE {
      DarkDot(p, env);
    } else {
      DarkLine(p.(openBus := if p.scanline == 0 then 0 else p.openBus, clocks := p.clocks + 1), env);
    }
  }

  lemma DarkDot(p: Ppu, env: Env)
    requires Deaf(p) && p.cycle < LAST_CYCLE
    ensures
      var r := Clock(p, env);
      if p.cycle == 0 && p.scanline == PrerenderLine(env.region) then !r.resetSignal else Deaf(r)
  {
    hide Clock, Tick, VblankEdges, Deaf;
    ClockTicks(p, env);
    DarkStart(p);
    DarkTick(Ticking(p), env);
    TickKeeps(Ticking(p), env);
    DarkEdges(Tick(Ticking(p), env), env);
  }

  /** Dark clocks never skip a dot. */
  lemma DarkClock(p: Ppu, env: Env)
    requires Deaf(p) && OnScreen(p, env) && Dot(p) <= 341 * PrerenderLine(env.region)
    ensures
      var r := Clock(p, env);
      && OnScreen(r, env) && Dot(r) == Dot(p) + 1
      && if Dot(p) == 341 * PrerenderLine(env.region) then !r.resetSignal else Deaf(r)
  {
    hide Clock, Deaf;
    DarkPlace(p, env);
    DarkFlags(p, env);
  }

  /** Whatever is written, read or stored in the first 261 lines after a reset, 311 outside NTSC: both
    registers are zero and the scroll position is the corner. The clock after them starts to listen. */
  lemma {:induction false} WritesAreLost(p: Ppu, kind: ResetKind, es: seq<Event>, env: Env)
    requires NoReset(es) && Tocks(es) <= 341 * PrerenderLine(env.region)
    ensures
      var q := Run(Reset(p, kind), es, env);
      && OnScreen(q, env) && Dot(q) == Tocks(es) && Deaf(q)
      && (Tocks(es) == 341 * PrerenderLine(env.region) ==> !Clock(q, env).resetSignal)
  {
    hide Clock, Step, Reset, Deaf;
    if es == [] {
      ResetIsDeaf(p, kind);
      ResetOnScreen(p, kind, env);
    } else {
      var before, last := es[..|es| - 1], es[|es| - 1];
      WritesAreLost(p, kind, before, env);
      var q := Run(Reset(p, kind), before, env);
      if last.Tock? {
        DarkClock(q, env);
        assert Step(q, last, env) == Clock(q, env) by {
          StepIsClock(q, env);
        }
      } else {
        WriteIsLost(q, last, env);
      }
    }
    var q := Run(Reset(p, kind), es, env);
    DarkClock(q, env);
  }

  lemma StepIsClock(p: Ppu, env: Env)
    ensures Step(p, Tock, env) == Clock(p, env)
  {
    hide Clock;
  }

  lemma ResetOnScreen(p: Ppu, kind: ResetKind, env: Env)
    ensures OnScreen(Reset(p, kind), env)
  {
    hide ResetSpr;
  }

  /** Once it listens, the registers hold what is written. */
  lemma WritesAreKept(p: Ppu, val: bv8)
    requires !p.resetSignal
    ensures WriteCtrl(p, val).ctrl == val && WriteMask(p, val).mask == val
    ensures WriteScroll(p, val).bg.scroll == ScrollWrite(p.bg.scroll, val)
    ensures WriteAddr(p, val).bg.scroll == AddrWrite(p.bg.scroll, val)
  {
    hide ScrollWrite, AddrWrite, SelectNametable, NmiEnabled;
  }

  /** What a soft reset keeps and a hard one clears: the address of the data port, the status flags and the
    address of sprite memory. Sprite memory itself outlives both; the position starts over. */
  lemma ResetKeepsSome(p: Ppu, kind: ResetKind)
    ensures
      var r := Reset(p, kind);
      && (if kind == Soft then
            && r.bg.scroll.v == p.bg.scroll.v && r.vblank == p.vblank && r.zeroHit == p.zeroHit
            && r.spr.overflow == p.spr.overflow && r.spr.oamaddr == p.spr.oamaddr
          else r.bg.scroll.v == ORIGIN && !r.vblank && !r.zeroHit && !r.spr.overflow && r.spr.oamaddr == 0)
      && r.spr.oam == p.spr.oam && r.cycle == 0 && r.scanline == 0 && r.frame == 0 && !r.nmiPending
      && !r.bg.scroll.latch && r.spr.count == 0 && r.openBus == 0
  {
  }

  /** Unless sprites are being loaded for a line of the picture, a read shows the byte of sprite memory at
    its address; then it shows the memory of the line where evaluation stopped. */
  lemma SpriteMemoryReads(p: Ppu)
    ensures
      var loading := Rendering(p.mask) && p.scanline < 240 && 257 <= p.cycle <= 320;
      && (!loading ==> PeekOamData(p) == OamByte(p.spr.oam[p.spr.oamaddr]))
      && (loading && p.spr.secaddr < 32 ==> PeekOamData(p) == OamByte(p.spr.sec[p.spr.secaddr]))
      && (PeekOamData(p) == PastTheEnd <==> loading && p.spr.secaddr >= 32)
  {
    hide Rendering;
  }
}
