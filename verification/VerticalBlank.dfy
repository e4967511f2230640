/** The vertical blank flag and the NMI request, over every run of clocks, register accesses and resets. */
module VerticalBlank {
  import opened Words
  import opened Scroll
  import opened PpuSpec
  import opened Odometer

  /** The request is the flag, gated by the control register. */
  predicate Gated(p: Ppu) {
    p.nmiPending == (p.vblank && NmiEnabled(p.ctrl))
  }

  /** The flag is up only between its two edges. */
  predicate InBlank(p: Ppu, r: Region) {
    p.vblank ==> 341 * VblankLine(r) + 1 <= Dot(p) < 341 * PrerenderLine(r) + 1
  }

  lemma ZeroDisabled()
    ensures !NmiEnabled(0)
  {
  }

  // ----- what each event does to the flag

  lemma TickFlags(q: Ppu, env: Env)
    requires 1 <= q.cycle
    ensures
      var r := Tick(q, env);
      r.vblank == q.vblank && r.nmiPending == q.nmiPending && r.ctrl == q.ctrl && r.preventVbl == q.preventVbl
  {
    hide BgWork, SprWork, DotAt, ScreenColor, Background.Shift;
  }

  lemma EdgeFlags(q: Ppu, env: Env)
    requires Gated(q)
    ensures
      var r := VblankEdges(q, env);
      && Gated(r) && r.ctrl == q.ctrl
      && (if q.cycle == 1 && q.scanline == VblankLine(env.region) then
            r.vblank == (q.vblank || !q.preventVbl) && !r.preventVbl
          else
            && r.vblank == (q.vblank && !(q.cycle == 1 && q.scanline == PrerenderLine(env.region)))
            && r.preventVbl == q.preventVbl)
  {
    hide NmiEnabled;
  }

  lemma ClockFlags(p: Ppu, env: Env)
    requires Gated(p) && p.cycle < LAST_CYCLE
    ensures
      var r := Clock(p, env);
      && Gated(r)
      && (if p.cycle == 0 && p.scanline == VblankLine(env.region) then
            r.vblank == (p.vblank || !p.preventVbl) && !r.preventVbl
          else
            && r.vblank == (p.vblank && !(p.cycle == 0 && p.scanline == PrerenderLine(env.region)))
            && r.preventVbl == p.preventVbl)
  {
    hide Clock, Tick, VblankEdges;
    ClockTicks(p, env);
    TickFlags(Ticking(p), env);
    TickKeeps(Ticking(p), env);
    EdgeFlags(Tick(Ticking(p), env), env);
  }

  lemma WrapFlags(p: Ppu, env: Env)
    requires Gated(p) && p.cycle == LAST_CYCLE
    ensures Gated(Clock(p, env)) && Clock(p, env).vblank == p.vblank && Clock(p, env).preventVbl == p.preventVbl
  {
    hide Tick, VblankEdges, NextFrame;
  }

  lemma ClockKeeps(p: Ppu, env: Env)
    requires OnScreen(p, env) && Gated(p)
    ensures OnScreen(Clock(p, env), env) && Gated(Clock(p, env))
    ensures InBlank(p, env.region) ==> InBlank(Clock(p, env), env.region)
  {
    hide Clock;
    ClockDot(p, env);
    if p.cycle < LAST_CYCLE {
      ClockFlags(p, env);
    } else {
      WrapFlags(p, env);
    }
  }

  lemma EventKeeps(p: Ppu, e: Event, env: Env)
    requires OnScreen(p, env) && Gated(p) && !e.Tock? && !e.ResetLine?
    ensures OnScreen(Step(p, e, env), env) && Gated(Step(p, e, env))
    ensures InBlank(p, env.region) ==> InBlank(Step(p, e, env), env.region)
  {
    EventDot(p, e, env);
    EventFlags(p, e, env);
    hide Step;
  }

  predicate SameFlags(p: Ppu, r: Ppu) {
    r.vblank == p.vblank && r.nmiPending == p.nmiPending && r.ctrl == p.ctrl && r.preventVbl == p.preventVbl
  }

  lemma ScrollKeepsFlags(p: Ppu, val: bv8)
    ensures SameFlags(p, WriteScroll(p, val)) && SameFlags(p, WriteAddr(p, val))
  {
    hide ScrollWrite, AddrWrite;
  }

  lemma AccessKeepsFlags(p: Ppu, val: bv8, env: Env)
    ensures SameFlags(p, AccessPort(p, val, env))
  {
    hide Advance, Right, Down, Rendering, RenderLine;
  }

  lemma PortsKeepFlags(p: Ppu, e: Event, env: Env)
    requires e.Mask? || e.OamAddr? || e.ScrollPort? || e.AddrPort? || e.DataPort?
    ensures SameFlags(p, Step(p, e, env))
  {
    hide WriteScroll, WriteAddr, AccessPort;
    match e
    case Mask(val) =>
    case OamAddr(val) =>
    case ScrollPort(val) => ScrollKeepsFlags(p, val);
    case AddrPort(val) => ScrollKeepsFlags(p, val);
    case DataPort(val) => AccessKeepsFlags(p, val, env);
  }

  lemma OamDataKeepsFlags(p: Ppu, val: bv8, env: Env)
    ensures SameFlags(p, WriteOamData(p, val, env))
  {
    hide Rendering, Bumped, Stored;
  }

  lemma CtrlGates(p: Ppu, val: bv8)
    requires Gated(p)
    ensures Gated(WriteCtrl(p, val))
    ensures WriteCtrl(p, val).vblank == p.vblank && WriteCtrl(p, val).preventVbl == p.preventVbl
  {
    hide NmiEnabled, SelectNametable;
  }

  lemma StatusClears(p: Ppu, env: Env)
    ensures
      var r := ReadStatus(p, env);
      && !r.vblank && !r.nmiPending
      && r.preventVbl == (p.preventVbl || (p.scanline == VblankLine(env.region) && p.cycle == 0))
  {
    hide StatusBits;
  }

  lemma EventFlags(p: Ppu, e: Event, env: Env)
    requires Gated(p) && !e.Tock? && !e.ResetLine?
    ensures Gated(Step(p, e, env)) && (Step(p, e, env).vblank ==> p.vblank)
    ensures Step(p, e, env).preventVbl ==
      (p.preventVbl || (e.Status? && p.scanline == VblankLine(env.region) && p.cycle == 0))
  {
    hide NmiEnabled, WriteCtrl, ReadStatus, WriteOamData, WriteMask, WriteOamAddr, WriteScroll, WriteAddr, AccessData;
    match e
    case Ctrl(val) => CtrlGates(p, val);
    case Status => StatusClears(p, env);
    case OamData(val) => OamDataKeepsFlags(p, val, env);
    case _ => PortsKeepFlags(p, e, env);
  }

  /** A soft reset keeps the flag and moves the position to the top: the flag is up outside the
    blank exactly if it was up at all. A hard reset clears it. */
  lemma ResetKeeps(p: Ppu, kind: ResetKind, env: Env)
    ensures OnScreen(Reset(p, kind), env) && Gated(Reset(p, kind))
    ensures InBlank(Reset(p, kind), env.region) <==> (kind == Soft ==> !p.vblank)
  {
    ZeroDisabled();
    hide NmiEnabled, ResetSpr;
  }

  // ----- every run

  ghost predicate PowerOn(p: Ppu) {
    p.cycle == 0 && p.scanline == 0 && !p.vblank && !p.nmiPending
  }

  /** No soft reset of the run finds the flag up. */
  predicate GentleResets(p: Ppu, es: seq<Event>, env: Env) {
    es == [] ||
    (GentleResets(p, es[..|es| - 1], env) && (es[|es| - 1] == ResetLine(Soft) ==> !Run(p, es[..|es| - 1], env).vblank))
  }

  /** In every reachable state, whatever the registers do and however often the console is reset,
    NMI is requested exactly while the flag is up and NMI is enabled. */
  lemma {:induction false} NmiIsGated(p: Ppu, es: seq<Event>, env: Env)
    requires PowerOn(p)
    ensures OnScreen(Run(p, es, env), env) && Gated(Run(p, es, env))
  {
    hide Step;
    if es != [] {
      var q, e := Run(p, es[..|es| - 1], env), es[|es| - 1];
      NmiIsGated(p, es[..|es| - 1], env);
      if e.Tock? {
        StepIs(q, e, env);
        ClockKeeps(q, env);
      } else if e.ResetLine? {
        StepIs(q, e, env);
        ResetKeeps(q, e.kind, env);
      } else {
        EventKeeps(q, e, env);
      }
    }
  }

  lemma StepIs(p: Ppu, e: Event, env: Env)
    ensures e.Tock? ==> Step(p, e, env) == Clock(p, env)
    ensures e.ResetLine? ==> Step(p, e, env) == Reset(p, e.kind)
  {
  }

  /** And unless a soft reset found the flag up, the flag is up only in vertical blank. */
  lemma {:induction false} FlagStaysInBlank(p: Ppu, es: seq<Event>, env: Env)
    requires PowerOn(p) && GentleResets(p, es, env)
    ensures InBlank(Run(p, es, env), env.region)
  {
    hide Step, InBlank, Dot, OnScreen, Gated;
    if es == [] {
      BlankAtStart(p, env.region);
    } else {
      var q, e := Run(p, es[..|es| - 1], env), es[|es| - 1];
      NmiIsGated(p, es[..|es| - 1], env);
      FlagStaysInBlank(p, es[..|es| - 1], env);
      if e.Tock? {
        StepIs(q, e, env);
        ClockKeeps(q, env);
      } else if e.ResetLine? {
        StepIs(q, e, env);
        ResetKeeps(q, e.kind, env);
      } else {
        EventKeeps(q, e, env);
      }
    }
  }

  lemma BlankAtStart(p: Ppu, r: Region)
    requires PowerOn(p)
    ensures InBlank(p, r)
  {
  }

  // ----- suppressing the flag

  /** The status was read after the last clock. */
  predicate JustRead(es: seq<Event>) {
    es != [] &&
    (es[|es| - 1].Status? || (!es[|es| - 1].Tock? && !es[|es| - 1].ResetLine? && JustRead(es[..|es| - 1])))
  }

  lemma BlankDot(p: Ppu, env: Env)
    requires OnScreen(p, env)
    ensures (Dot(p) == 341 * VblankLine(env.region)) == (p.scanline == VblankLine(env.region) && p.cycle == 0)
  {
  }

  lemma ClockPrevents(p: Ppu, env: Env)
    requires OnScreen(p, env) && Gated(p) && (p.preventVbl ==> Dot(p) == 341 * VblankLine(env.region))
    ensures !Clock(p, env).preventVbl
  {
    hide Clock;
    BlankDot(p, env);
    if p.cycle < LAST_CYCLE {
      ClockFlags(p, env);
    } else {
      WrapFlags(p, env);
    }
  }

  lemma ResetPrevents(p: Ppu, kind: ResetKind)
    ensures !Reset(p, kind).preventVbl
  {
    hide ResetSpr;
  }

  /** The suppression never outlives the dot it is meant for: in every reachable state it is pending
    exactly if the status has been read since the clock that led to the dot before the blank. */
  lemma {:induction false} SuppressedExactly(p: Ppu, es: seq<Event>, env: Env)
    requires PowerOn(p) && !p.preventVbl
    ensures Run(p, es, env).preventVbl == (Dot(Run(p, es, env)) == 341 * VblankLine(env.region) && JustRead(es))
  {
    hide Step, Clock, Dot, Gated, OnScreen;
    if es != [] {
      var q, e := Run(p, es[..|es| - 1], env), es[|es| - 1];
      NmiIsGated(p, es[..|es| - 1], env);
      SuppressedExactly(p, es[..|es| - 1], env);
      StepIs(q, e, env);
      if e.Tock? {
        ClockPrevents(q, env);
      } else if e.ResetLine? {
        ResetPrevents(q, e.kind);
      } else {
        EventFlags(q, e, env);
        SameDot(q, e, env);
        BlankDot(q, env);
      }
    }
  }

  lemma SameDot(q: Ppu, e: Event, env: Env)
    requires !e.Tock? && !e.ResetLine?
    ensures Dot(Step(q, e, env)) == Dot(q)
  {
    hide Step;
    EventDot(q, e, env);
  }

  /** The blank begins with the flag up, unless the status was read one dot earlier; with NMI
    enabled the request comes up with it. */
  lemma BlankBegins(p: Ppu, es: seq<Event>, env: Env)
    requires PowerOn(p) && !p.preventVbl && GentleResets(p, es, env)
    requires Dot(Run(p, es, env)) == 341 * VblankLine(env.region)
    ensures
      var q := Run(p, es, env);
      var r := Clock(q, env);
      && r.vblank == !JustRead(es)
      && r.nmiPending == (!JustRead(es) && NmiEnabled(q.ctrl))
  {
    hide Run, Clock, NmiEnabled;
    var q := Run(p, es, env);
    NmiIsGated(p, es, env);
    FlagStaysInBlank(p, es, env);
    SuppressedExactly(p, es, env);
    BlankDot(q, env);
    ClockFlags(q, env);
    CtrlKept(q, env);
  }

  lemma CtrlKept(p: Ppu, env: Env)
    requires p.cycle < LAST_CYCLE && Gated(p)
    ensures Clock(p, env).ctrl == p.ctrl
  {
    hide Clock, Tick, VblankEdges;
    ClockTicks(p, env);
    TickFlags(Ticking(p), env);
    EdgeFlags(Tick(Ticking(p), env), env);
  }

  /** The blank lasts 20 lines, on PAL consoles 70; it comes one line after the picture, on Dendy consoles
    51, and the two kinds of lines that keep OAM busy are told by their numbers. */
  lemma BlankLines(r: Region, line: nat)
    ensures PrerenderLine(r) - VblankLine(r) == if r.Pal? then 70 else 20
    ensures VblankLine(r) - LAST_VISIBLE == if r.Dendy? then 52 else 2
    ensures RenderLine(line, r) <==> line < 240 || line == if r.Ntsc? then 261 else 311
    ensures EvalLine(line, r) <==> line < 240 || (r.Pal? && line >= 265)
  {
  }
}
