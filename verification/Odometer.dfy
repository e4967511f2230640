/** The (cycle, scanline) odometer and the frame number: how long a frame takes, whatever
  happens to the registers meanwhile. */
module Odometer {
  import opened Words
  import opened Scroll
  import opened PpuSpec

  /** Dots since the top left corner. */
  function Dot(p: Ppu): nat { 341 * p.scanline + p.cycle }

  function FrameDots(r: Region): nat { 341 * (PrerenderLine(r) + 1) }

  /** Where the frame number goes up: the start of the line before vertical blank. */
  function SwapDot(r: Region): nat { 341 * (VblankLine(r) - 1) }

  /** The next clock will leave out a dot. */
  predicate AboutToSkip(p: Ppu, env: Env) {
    && Rendering(p.mask) && env.region.Ntsc?
    && p.cycle == 338 && p.scanline == PrerenderLine(env.region) && p.frame % 2 == 1
  }

  /** The state in which the next dot ticks. */
  function Ticking(p: Ppu): Ppu {
    p.(openBus := if p.scanline == 0 then 0 else p.openBus, clocks := p.clocks + 1, cycle := p.cycle + 1)
  }

  lemma ClockTicks(p: Ppu, env: Env)
    requires p.cycle < LAST_CYCLE
    ensures Clock(p, env) == VblankEdges(Tick(Ticking(p), env), env)
  {
    hide Tick, VblankEdges;
  }

  lemma TickKeeps(q: Ppu, env: Env)
    requires 1 <= q.cycle
    ensures
      var r := Tick(q, env);
      && r.scanline == q.scanline && r.cycle == (if SkipsDot(q, env) then LAST_CYCLE else q.cycle)
      && r.frame == q.frame && r.mask == q.mask && r.clocks == q.clocks && r.masterClock == q.masterClock
  {
    hide BgWork, SprWork, DotAt, ScreenColor, Background.Shift;
  }

  lemma EdgesKeep(q: Ppu, env: Env)
    ensures
      var r := VblankEdges(q, env);
      r.scanline == q.scanline && r.cycle == q.cycle && r.frame == q.frame && r.mask == q.mask && r.clocks == q.clocks
          && r.masterClock == q.masterClock
  {
    StartKeeps(q);
    StopKeeps(q);
    hide StartVblank, StopVblank;
  }

  lemma StartKeeps(q: Ppu)
    ensures SamePlace(q, StartVblank(q)) && StartVblank(q).mask == q.mask
  {
    hide NmiEnabled;
  }

  lemma StopKeeps(q: Ppu)
    ensures SamePlace(q, StopVblank(q)) && StopVblank(q).mask == q.mask
  {
  }

  lemma TickDot(p: Ppu, env: Env)
    requires p.cycle < LAST_CYCLE
    ensures
      var r := Clock(p, env);
      && r.scanline == p.scanline && r.cycle == p.cycle + (if AboutToSkip(p, env) then 2 else 1)
      && r.frame == p.frame && r.mask == p.mask && r.clocks == p.clocks + 1 && r.masterClock == p.masterClock
  {
    hide Clock, Tick, VblankEdges;
    ClockTicks(p, env);
    TickKeeps(Ticking(p), env);
    EdgesKeep(Tick(Ticking(p), env), env);
  }

  lemma WrapDot(p: Ppu, env: Env)
    requires p.cycle == LAST_CYCLE
    ensures
      var r := Clock(p, env);
      && r.scanline == (if p.scanline >= PrerenderLine(env.region) then 0 else p.scanline + 1) && r.cycle == 0
      && r.frame == (if p.scanline + 2 == VblankLine(env.region) then NextFrame(p.frame) else p.frame)
      && r.mask == p.mask && r.clocks == p.clocks + 1 && r.masterClock == p.masterClock
  {
    hide Tick, VblankEdges, NextLine;
    NextLineDot(p.(openBus := if p.scanline == 0 then 0 else p.openBus, clocks := p.clocks + 1), env);
  }

  lemma NextLineDot(p: Ppu, env: Env)
    ensures
      var r := NextLine(p, env);
      && r.scanline == (if p.scanline >= PrerenderLine(env.region) then 0 else p.scanline + 1) && r.cycle == 0
      && r.frame == (if p.scanline + 2 == VblankLine(env.region) then NextFrame(p.frame) else p.frame)
      && r.mask == p.mask && r.clocks == p.clocks && r.masterClock == p.masterClock
  {
    hide NextFrame;
    match env.region
    case Ntsc =>
    case Pal =>
    case Dendy =>
  }

  lemma ClockCounts(p: Ppu, env: Env)
    ensures Clock(p, env).clocks == p.clocks + 1 && Clock(p, env).masterClock == p.masterClock
  {
    hide Clock, Tick, VblankEdges, NextLine;
    if p.cycle < LAST_CYCLE {
      TickDot(p, env);
    } else {
      ClockWraps(p, env);
    }
  }

  lemma ClockWraps(p: Ppu, env: Env)
    requires p.cycle >= LAST_CYCLE
    ensures Clock(p, env).clocks == p.clocks + 1 && Clock(p, env).masterClock == p.masterClock
  {
    hide Tick, VblankEdges, NextLine;
    NextLineDot(p.(openBus := if p.scanline == 0 then 0 else p.openBus, clocks := p.clocks + 1), env);
  }

  /** One clock moves one dot on, or two at the skip, around the frame. */
  lemma ClockDot(p: Ppu, env: Env)
    requires OnScreen(p, env)
    ensures
      var r := Clock(p, env);
      && OnScreen(r, env) && r.mask == p.mask && r.clocks == p.clocks + 1 && r.masterClock == p.masterClock
      && Dot(r) == (if AboutToSkip(p, env) then Dot(p) + 2
                    else if Dot(p) + 1 == FrameDots(env.region) then 0
                    else Dot(p) + 1)
      && r.frame == (if Dot(p) + 1 == SwapDot(env.region) then NextFrame(p.frame) else p.frame)
  {
    hide Clock;
    if p.cycle < LAST_CYCLE {
      TickDot(p, env);
    } else {
      WrapDot(p, env);
    }
  }

  // ----- any run

  /** Events between two clocks do not move the odometer, unless they reset it. */
  lemma EventDot(p: Ppu, e: Event, env: Env)
    requires !e.Tock? && !e.ResetLine?
    ensures SamePlace(p, Step(p, e, env))
  {
    match e
    case Ctrl(val) => WriteCtrlKeeps(p, val);
    case Mask(val) =>
    case Status => ReadStatusKeeps(p, env);
    case OamAddr(val) =>
    case OamData(val) => WriteOamDataKeeps(p, val, env);
    case ScrollPort(val) =>
    case AddrPort(val) =>
    case DataPort(val) =>
    hide WriteCtrl, ReadStatus, WriteOamData, ScrollWrite, AddrWrite, Advance, Right, Down;
  }

  lemma WriteCtrlKeeps(p: Ppu, val: bv8)
    ensures SamePlace(p, WriteCtrl(p, val))
  {
    hide SelectNametable, NmiEnabled;
  }

  lemma ReadStatusKeeps(p: Ppu, env: Env)
    ensures SamePlace(p, ReadStatus(p, env)) && ReadStatus(p, env).mask == p.mask
  {
    hide StatusBits;
  }

  lemma WriteOamDataKeeps(p: Ppu, val: bv8, env: Env)
    ensures SamePlace(p, WriteOamData(p, val, env))
  {
    hide Bumped, Stored, Rendering;
  }

  predicate SamePlace(p: Ppu, r: Ppu) {
    r.cycle == p.cycle && r.scanline == p.scanline && r.frame == p.frame && r.clocks == p.clocks
        && r.masterClock == p.masterClock
  }

  predicate NoReset(es: seq<Event>) {
    forall i :: 0 <= i < |es| ==> !es[i].ResetLine?
  }

  /** How many clocks of a run skip a dot, and how many start a frame. */
  function Skips(p: Ppu, es: seq<Event>, env: Env): nat {
    if es == [] then 0
    else
      var q := Run(p, es[..|es| - 1], env);
      Skips(p, es[..|es| - 1], env) + if es[|es| - 1].Tock? && AboutToSkip(q, env) then 1 else 0
  }

  function Starts(p: Ppu, es: seq<Event>, env: Env): nat {
    if es == [] then 0
    else
      var q := Run(p, es[..|es| - 1], env);
      Starts(p, es[..|es| - 1], env) + if es[|es| - 1].Tock? && Dot(q) + 1 == FrameDots(env.region) then 1 else 0
  }

  function Swaps(p: Ppu, es: seq<Event>, env: Env): nat {
    if es == [] then 0
    else
      var q := Run(p, es[..|es| - 1], env);
      Swaps(p, es[..|es| - 1], env) + if es[|es| - 1].Tock? && Dot(q) + 1 == SwapDot(env.region) then 1 else 0
  }

  /** The books of a run: dots, clocks, skipped dots and frames started; frame number and swaps. */
  ghost predicate Balanced(p: Ppu, q: Ppu, r: Region, skips: nat, starts: nat, swaps: nat) {
    && Dot(q) + FrameDots(r) * starts == Dot(p) + (q.clocks - p.clocks) + skips
    && q.frame == (p.frame + swaps) % FRAMES
  }

  lemma ClockBalances(p: Ppu, q: Ppu, env: Env, skips: nat, starts: nat, swaps: nat)
    requires OnScreen(q, env) && Balanced(p, q, env.region, skips, starts, swaps)
    ensures OnScreen(Clock(q, env), env)
    ensures Balanced(p, Clock(q, env), env.region,
                     skips + if AboutToSkip(q, env) then 1 else 0,
                     starts + if Dot(q) + 1 == FrameDots(env.region) then 1 else 0,
                     swaps + if Dot(q) + 1 == SwapDot(env.region) then 1 else 0)
  {
    hide Clock;
    ClockDot(q, env);
  }

  /** Over every run without a reset, clocks and skipped dots add up to dots, and the frame number
    counts the swaps. */
  lemma {:induction false} DotsAddUp(p: Ppu, es: seq<Event>, env: Env)
    requires OnScreen(p, env) && NoReset(es) && p.frame < FRAMES
    ensures OnScreen(Run(p, es, env), env)
    ensures Balanced(p, Run(p, es, env), env.region, Skips(p, es, env), Starts(p, es, env), Swaps(p, es, env))
  {
    hide Balanced, Clock, AboutToSkip, Dot;
    if es == [] {
      NothingHappens(p, env.region);
    } else {
      var shorter, e := es[..|es| - 1], es[|es| - 1];
      var q := Run(p, shorter, env);
      DotsAddUp(p, shorter, env);
      if e.Tock? {
        ClockBalances(p, q, env, Skips(p, shorter, env), Starts(p, shorter, env), Swaps(p, shorter, env));
      } else {
        EventBalances(p, q, e, env, Skips(p, shorter, env), Starts(p, shorter, env), Swaps(p, shorter, env));
      }
    }
  }

  lemma NothingHappens(p: Ppu, r: Region)
    requires p.frame < FRAMES
    ensures Balanced(p, p, r, 0, 0, 0)
  {
  }

  lemma EventBalances(p: Ppu, q: Ppu, e: Event, env: Env, skips: nat, starts: nat, swaps: nat)
    requires !e.Tock? && !e.ResetLine?
    requires OnScreen(q, env) && Balanced(p, q, env.region, skips, starts, swaps)
    ensures OnScreen(Step(q, e, env), env)
    ensures Balanced(p, Step(q, e, env), env.region, skips, starts, swaps)
  {
    hide Step;
    EventDot(q, e, env);
  }

  // ----- the length of a frame

  /** Clocks, and status reads between them. */
  predicate Quiet(es: seq<Event>) {
    forall i :: 0 <= i < |es| ==> es[i].Tock? || es[i].Status?
  }

  function Tocks(es: seq<Event>): nat {
    if es == [] then 0 else Tocks(es[..|es| - 1]) + if es[|es| - 1].Tock? then 1 else 0
  }

  /** Whether the frame that begins here is one clock short: its number goes up before the
    pre-render line comes to look at it. */
  predicate ShortFrame(p: Ppu, env: Env) {
    Rendering(p.mask) && env.region.Ntsc? && NextFrame(p.frame) % 2 == 1
  }

  function FrameClocks(p: Ppu, env: Env): nat {
    FrameDots(env.region) - if ShortFrame(p, env) then 1 else 0
  }

  /** n clocks into the frame that begins at p. */
  ghost predicate Along(p: Ppu, q: Ppu, n: nat, env: Env) {
    && OnScreen(q, env) && q.mask == p.mask
    && Dot(q) == (if n == FrameClocks(p, env) then 0
                  else if ShortFrame(p, env) && n >= FrameDots(env.region) - 2 then n + 1
                  else n)
    && q.frame == (if n >= SwapDot(env.region) then NextFrame(p.frame) else p.frame)
  }

  lemma AlongClock(p: Ppu, q: Ppu, n: nat, env: Env)
    requires Along(p, q, n, env) && n < FrameClocks(p, env)
    ensures Along(p, Clock(q, env), n + 1, env)
  {
    hide Clock, NextFrame;
    ClockDot(q, env);
    SkipPlace(q, env);
  }

  lemma SkipPlace(q: Ppu, env: Env)
    requires OnScreen(q, env)
    ensures AboutToSkip(q, env) == (Rendering(q.mask) && env.region.Ntsc? && Dot(q) == FrameDots(env.region) - 3
        && q.frame % 2 == 1)
  {
  }

  /** From (0, 0) back to (0, 0): a frame takes all its dots, less one exactly when it is short, and
    its number goes up once, at the swap. */
  lemma {:induction false} FrameLength(p: Ppu, es: seq<Event>, env: Env)
    requires Dot(p) == 0 && Quiet(es) && Tocks(es) <= FrameClocks(p, env)
    ensures Along(p, Run(p, es, env), Tocks(es), env)
  {
    hide Along, Clock, FrameClocks;
    if es == [] {
      AlongStart(p, env);
    } else {
      var shorter, e := es[..|es| - 1], es[|es| - 1];
      var q := Run(p, shorter, env);
      FrameLength(p, shorter, env);
      if e.Tock? {
        AlongClock(p, q, Tocks(shorter), env);
      } else {
        AlongStatus(p, q, Tocks(shorter), env);
      }
    }
  }

  lemma AlongStart(p: Ppu, env: Env)
    requires Dot(p) == 0
    ensures Along(p, p, 0, env)
  {
  }

  lemma AlongStatus(p: Ppu, q: Ppu, n: nat, env: Env)
    requires Along(p, q, n, env)
    ensures Along(p, ReadStatus(q, env), n, env)
  {
    hide ReadStatus;
    ReadStatusKeeps(q, env);
  }

  /** Two frames in a row take 178683 clocks on a rendering NTSC console, since exactly one of them
    is short, and 212784 on PAL and Dendy consoles. */
  lemma TwoFrames(p: Ppu, es: seq<Event>, env: Env)
    requires Dot(p) == 0 && Quiet(es) && Tocks(es) == FrameClocks(p, env)
    ensures
      var q := Run(p, es, env);
      && Dot(q) == 0
      && FrameClocks(p, env) + FrameClocks(q, env) ==
           (if !env.region.Ntsc? then 212784 else if Rendering(p.mask) then 178683 else 178684)
  {
    FrameLength(p, es, env);
    Parity(p.frame);
    hide Run, NextFrame;
  }

  lemma Parity(n: nat)
    ensures NextFrame(NextFrame(n)) % 2 == 1 - NextFrame(n) % 2
  {
  }
}
