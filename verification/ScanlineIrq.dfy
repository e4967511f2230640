/** The picture processor drives the interrupt counter of the MMC3. With background patterns at $0000
  and 8x8 sprites at $1000, whatever is on the screen, every rendered line makes exactly one rising
  edge of address line 12, when its first sprite slot is loaded, so that the interrupt counts lines. */
module ScanlineIrq {
  import opened Words
  import opened PpuSpec
  import opened Odometer
  import B = Background
  import D = SpriteDraw
  import E = SpriteEval
  import F = Frame
  import M = Mmc3Spec
  import Mmc3Irq

  /** Background patterns in the lower table, and 8x8 sprites in the upper one. */
  predicate Split(ctrl: bv8) {
    BgBase(ctrl) == 0 && SpriteBase(ctrl) == 0x1000 && !TallSprites(ctrl)
  }

  // ----- what the board sees

  function AccessesOf(addrs: seq<bv16>): seq<M.Event> {
    if addrs == [] then [] else AccessesOf(addrs[..|addrs| - 1]) + [M.Access(addrs[|addrs| - 1] as int)]
  }

  lemma AccessesSnoc(addrs: seq<bv16>, a: bv16)
    ensures AccessesOf(addrs + [a]) == AccessesOf(addrs) + [M.Access(a as int)]
  {
    assert (addrs + [a])[..|addrs|] == addrs;
  }

  /** What a clock reads. */
  function ClockReads(p: Ppu, env: Env): seq<bv16> {
    if p.cycle < LAST_CYCLE then Reads(Ticking(p), env) else []
  }

  /** All accesses of a run of the picture processor. */
  function Accesses(p: Ppu, es: seq<Event>, env: Env): seq<M.Event> {
    if es == [] then []
    else
      var before := es[..|es| - 1];
      Accesses(p, before, env) + if es[|es| - 1].Tock? then AccessesOf(ClockReads(Run(p, before, env), env)) else []
  }

  // ----- the level of the line

  /** A pattern address with line 12 low, or high, at which a row of eight begins. */
  predicate LowRow(a: bv16) { a & 0xF008 == 0 }

  predicate HighRow(a: bv16) { a & 0xF008 == 0x1000 }

  lemma RowLevels(a: bv16)
    ensures LowRow(a) ==> a < 0x1000 && B.HighPlane(a) < 0x1000
    ensures HighRow(a) ==> 0x1000 <= a < 0x2000 && 0x1000 <= B.HighPlane(a) < 0x2000
  {
  }

  lemma LevelIs(a: u16)
    requires a < 0x2000
    ensures M.Line12(a) == if a < 0x1000 then 0 else 1
  {
    hide M.Bits.And, M.Bits.ShiftRight;
    M.Bits.ShiftRightIsDivision(a, 12);
    M.Bits.AndMask(a / 0x1000, 1);
  }

  lemma TileIsLow(mem: Memory, v: B.Scroll.Loopy)
    ensures LowRow(B.TileAddr(mem, 0, v))
  {
    Low(mem(B.Scroll.NtAddr(v)), v.fine);
  }

  lemma Low(tile: bv8, fine: bv3)
    ensures LowRow((0 | ((tile as bv16) << 4)) | (fine as bv16))
  {
  }

  lemma SlotIsHigh(s: E.Spr, slot: nat, line: int)
    requires slot < 8
    ensures HighRow(D.SlotAddr(s, slot, line, false, 0x1000))
  {
    hide D.SpriteAddr, D.SpriteRow;
    RowIsHigh(0xFF, 0);
    RowIsHigh(s.sec[4 * slot + 1], D.SpriteRow(s.sec[4 * slot] as int, 8, line, s.sec[4 * slot + 2] & 0x80 != 0));
  }

  lemma RowIsHigh(tile: bv8, row: int)
    requires 0 <= row < 8
    ensures HighRow(D.SpriteAddr(tile, row, false, 0x1000))
  {
    High(tile, row as bv16);
  }

  lemma High(tile: bv8, row: bv16)
    requires row < 8
    ensures HighRow((0x1000 | ((tile as bv16) << 4)) | row)
  {
  }

  lemma NamesAreAbove(v: B.Scroll.Loopy)
    ensures B.Scroll.NtAddr(v) >= 0x2000 && B.Scroll.AttrAddr(v) >= 0x2000
  {
  }

  // ----- the reads of one cycle

  /** What the reads at a cycle of a rendered line do to address line 12. */
  datatype Pull = Nothing | Down | Up

  function PullAt(c: nat): Pull {
    if B.FetchCycle(c) && (c % 8 == 5 || c % 8 == 7) then Down
    else if 257 <= c <= 320 && c % 8 == 4 then Up
    else Nothing
  }

  predicate Pulls(addrs: seq<bv16>, pull: Pull) {
    match pull
    case Nothing => forall i :: 0 <= i < |addrs| ==> addrs[i] >= 0x2000
    case Down => |addrs| == 1 && addrs[0] < 0x1000
    case Up => |addrs| == 2 && 0x1000 <= addrs[0] < 0x2000 && 0x1000 <= addrs[1] < 0x2000
  }

  lemma BgPulls(b: B.Bg, c: nat, prerender: bool)
    requires 1 <= c <= LAST_CYCLE && (c > 1 ==> LowRow(b.tileAddr)) && PullAt(c) != Up
    ensures Pulls(B.Reads(b, c, prerender), PullAt(c))
  {
    hide B.Scroll.NtAddr, B.Scroll.AttrAddr, B.HighPlane, B.Moved, LowRow;
    NamesAreAbove(b.scroll.v);
    NamesAreAbove(B.Moved(b, c, prerender).scroll.v);
    RowLevels(b.tileAddr);
  }

  lemma SprPulls(s: E.Spr, c: nat, prerender: bool, line: int)
    requires PullAt(c) == Up
    ensures Pulls(D.Reads(s, c, prerender, line, false, 0x1000), Up)
  {
    hide D.SlotAddr, B.HighPlane, HighRow;
    var e := if prerender then s.(count := 0) else s;
    SlotIsHigh(e, (c - 257) / 8, line);
    RowLevels(D.SlotAddr(e, (c - 257) / 8, line, false, 0x1000));
  }

  lemma ReadsPull(p: Ppu, env: Env)
    requires Rendering(p.mask) && RenderLine(p.scanline, env.region) && Split(p.ctrl)
    requires 1 <= p.cycle <= LAST_CYCLE && (p.cycle > 1 ==> LowRow(p.bg.tileAddr))
    ensures Pulls(Reads(p, env), PullAt(p.cycle))
  {
    hide Rendering, B.Reads, D.SlotAddr, LowRow, BgBase, SpriteBase, TallSprites, B.FetchCycle, Pulls;
    var prerender := p.scanline == PrerenderLine(env.region);
    var bg, spr := B.Reads(p.bg, p.cycle, prerender), D.Reads(p.spr, p.cycle, prerender, p.scanline, false, 0x1000);
    if PullAt(p.cycle) == Up {
      NoTileThere(p.bg, p.cycle, prerender);
      SprPulls(p.spr, p.cycle, prerender, p.scanline);
      assert [] + spr == spr;
    } else {
      BgPulls(p.bg, p.cycle, prerender);
      assert spr == [];
      assert bg + [] == bg;
    }
  }

  lemma NoTileThere(b: B.Bg, c: nat, prerender: bool)
    requires PullAt(c) == Up
    ensures B.Reads(b, c, prerender) == []
  {
    hide B.Moved;
  }

  // ----- what an access does to edges and level

  /** The trace has made this many edges in the direction of the revision, and left this level. */
  ghost predicate Reached(revision: M.Revision, level0: u16, trace: seq<M.Event>, edges: nat, level: u16) {
    Mmc3Irq.Edges(revision, level0, trace) == edges && Mmc3Irq.LevelAfter(level0, trace) == level
  }

  predicate Rises(revision: M.Revision, from: u16, to: u16) {
    if revision == M.Acc then from == 1 && to == 0 else from == 0 && to == 1
  }

  lemma AccessReaches(revision: M.Revision, level0: u16, trace: seq<M.Event>, a: u16, edges: nat, level: u16)
    requires Reached(revision, level0, trace, edges, level)
    ensures a >= 0x2000 ==> Reached(revision, level0, trace + [M.Access(a)], edges, level)
    ensures a < 0x2000 ==>
      var to := if a < 0x1000 then 0 else 1;
      Reached(revision, level0, trace + [M.Access(a)], edges + if Rises(revision, level, to) then 1 else 0, to)
  {
    hide M.Line12;
    assert (trace + [M.Access(a)])[..|trace|] == trace;
    if a < 0x2000 {
      LevelIs(a);
    }
  }

  lemma {:induction false} AboveReaches(revision: M.Revision, level0: u16, trace: seq<M.Event>, addrs: seq<bv16>,
      edges: nat,
      level: u16)
    requires Reached(revision, level0, trace, edges, level) && forall i :: 0 <= i < |addrs| ==> addrs[i] >= 0x2000
    ensures Reached(revision, level0, trace + AccessesOf(addrs), edges, level)
  {
    hide Reached;
    if addrs == [] {
      assert trace + AccessesOf(addrs) == trace;
    } else {
      var k := |addrs| - 1;
      AboveReaches(revision, level0, trace, addrs[..k], edges, level);
      AccessReaches(revision, level0, trace + AccessesOf(addrs[..k]), addrs[k] as int, edges, level);
      assert trace + AccessesOf(addrs) == trace + AccessesOf(addrs[..k]) + [M.Access(addrs[k] as int)];
    }
  }

  function Pulled(level: u16, pull: Pull): (to: u16)
    requires level <= 1
    ensures to <= 1
  {
    match pull case Nothing => level case Down => 0 case Up => 1
  }

  lemma DownReaches(revision: M.Revision, level0: u16, trace: seq<M.Event>, a: bv16, edges: nat, level: u16)
    requires Reached(revision, level0, trace, edges, level) && a < 0x1000
    ensures Reached(revision, level0, trace + AccessesOf([a]), edges + if Rises(revision, level, 0) then 1 else 0, 0)
  {
    OneAccess(a);
    hide Reached, Rises, AccessesOf;
    AccessReaches(revision, level0, trace, a as int, edges, level);
  }

  lemma OneAccess(a: bv16)
    ensures AccessesOf([a]) == [M.Access(a as int)]
  {
    AccessesSnoc([], a);
    assert [] + [a] == [a];
  }

  lemma UpReaches(revision: M.Revision, level0: u16, trace: seq<M.Event>, a: bv16, b: bv16, edges: nat, level: u16)
    requires Reached(revision, level0, trace, edges, level) && 0x1000 <= a < 0x2000 && 0x1000 <= b < 0x2000
    ensures Reached(revision, level0, trace + AccessesOf([a, b]), edges + if Rises(revision, level, 1) then 1 else 0, 1)
  {
    OneAccess(a);
    AccessesSnoc([a], b);
    hide Reached, AccessesOf;
    var first, second := M.Access(a as int), M.Access(b as int);
    assert [a] + [b] == [a, b];
    assert trace + ([first] + [second]) == trace + [first] + [second];
    AccessReaches(revision, level0, trace, a as int, edges, level);
    AccessReaches(revision, level0, trace + [first], b as int, edges + if Rises(revision, level, 1) then 1 else 0, 1);
  }

  lemma PullReaches(revision: M.Revision, level0: u16, trace: seq<M.Event>, addrs: seq<bv16>, pull: Pull, edges: nat,
      level: u16)
    requires Reached(revision, level0, trace, edges, level) && Pulls(addrs, pull) && level <= 1
    ensures Reached(revision, level0, trace + AccessesOf(addrs),
                    edges + if Rises(revision, level, Pulled(level, pull)) then 1 else 0, Pulled(level, pull))
  {
    hide Reached, AccessesOf;
    match pull
    case Nothing => AboveReaches(revision, level0, trace, addrs, edges, level);
    case Down =>
      assert addrs == [addrs[0]];
      DownReaches(revision, level0, trace, addrs[0], edges, level);
    case Up =>
      assert addrs == [addrs[0], addrs[1]];
      UpReaches(revision, level0, trace, addrs[0], addrs[1], edges, level);
  }

  // ----- the edges of a frame

  /** Rendered lines: the pre-render line and the 240 of the picture. */
  const RENDERED := 241

  /** How many of the rendered lines have passed this cycle, e dots into the frame. */
  function Lines(e: nat, cycle: nat): nat {
    if e >= 341 * RENDERED then RENDERED else e / 341 + if e % 341 >= cycle then 1 else 0
  }

  /** The level e dots into the frame, and the edges until then. Lines rise at their first sprite slot and
    fall at the first tile after the sprites; a high level at the start falls at the first tile. */
  function LevelAt(e: nat, level0: u16): (level: u16)
    requires level0 <= 1
    ensures level <= 1
  {
    if e < 5 then level0 else if e < 341 * RENDERED && 260 <= e % 341 < 325 then 1 else 0
  }

  function EdgesAt(revision: M.Revision, e: nat, level0: u16): nat {
    if revision == M.Acc then Lines(e, 325) + if level0 == 1 && e >= 5 then 1 else 0 else Lines(e, 260)
  }

  lemma DotEdges(revision: M.Revision, e: nat, level0: u16)
    requires level0 <= 1 && e < 341 * RENDERED && e % 341 < 340
    ensures
      var level, to := LevelAt(e, level0), Pulled(LevelAt(e, level0), PullAt(e % 341 + 1));
      && LevelAt(e + 1, level0) == to
      && EdgesAt(revision, e + 1, level0) == EdgesAt(revision, e, level0) + if Rises(revision, level, to) then 1 else 0
  {
    SameLine(e);
    var c := e % 341;
    if c < 5 {
    } else if c < 259 {
    } else if c < 324 {
    } else {
    }
  }

  lemma SameLine(e: nat)
    requires e % 341 < 340
    ensures (e + 1) / 341 == e / 341 && (e + 1) % 341 == e % 341 + 1
  {
  }

  lemma WrapEdges(revision: M.Revision, e: nat, level0: u16)
    requires level0 <= 1 && (e >= 341 * RENDERED || e % 341 == 340)
    ensures LevelAt(e + 1, level0) == LevelAt(e, level0) && EdgesAt(revision, e + 1, level0) == EdgesAt(revision, e,
        level0)
  {
    if e < 341 * RENDERED {
      assert (e + 1) / 341 == e / 341 + 1 && (e + 1) % 341 == 0;
    }
  }

  // ----- the picture processor along the frame

  /** q is e dots into the frame that began at p, and its tile address is one of the lower table. */
  ghost predicate At(p: Ppu, q: Ppu, e: nat, env: Env) {
    && OnScreen(q, env) && q.mask == p.mask && q.ctrl == p.ctrl && q.frame == p.frame
    && e < F.PictureDots(env.region) && F.Elapsed(q, env) == e
    && (e >= 1 ==> LowRow(q.bg.tileAddr))
  }

  lemma CtrlStays(q: Ppu, env: Env)
    ensures Clock(q, env).ctrl == q.ctrl
  {
    hide Tick, VblankEdges, NextFrame;
    if q.cycle < LAST_CYCLE {
      TickCtrl(Ticking(q), env);
      EdgesCtrl(Tick(Ticking(q), env), env);
    }
  }

  lemma TickCtrl(q: Ppu, env: Env)
    requires 1 <= q.cycle
    ensures Tick(q, env).ctrl == q.ctrl && Tick(q, env).bg.tileAddr == BgWork(q, env).tileAddr
  {
    hide BgWork, SprWork, DotAt, ScreenColor;
  }

  lemma EdgesCtrl(q: Ppu, env: Env)
    ensures VblankEdges(q, env).ctrl == q.ctrl && VblankEdges(q, env).bg == q.bg
  {
    hide NmiEnabled;
  }

  ghost predicate LowTiles(tiles: B.Tiles) {
    forall v :: LowRow(tiles.addr(v))
  }

  lemma FetchLow(b: B.Bg, c: nat, tiles: B.Tiles)
    requires LowTiles(tiles)
    ensures LowRow(B.FetchNt(b, tiles).tileAddr) && B.FetchAttr(b, tiles).tileAddr == b.tileAddr
    ensures B.FetchTile(b, c, tiles).tileAddr == if c % 8 == 1 then B.FetchNt(b, tiles).tileAddr else b.tileAddr
  {
    hide LowRow, B.Load;
  }

  lemma FetchingLow(b: B.Bg, c: nat, tiles: B.Tiles)
    requires LowTiles(tiles) && (LowRow(b.tileAddr) || c == 1)
    ensures LowRow(B.Fetching(b, c, tiles).tileAddr)
  {
    hide LowRow, LowTiles, B.FetchTile, B.FetchNt, B.Scroll.Right;
    FetchLow(b, c, tiles);
  }

  lemma WorkTile(b: B.Bg, c: nat, prerender: bool, tiles: B.Tiles)
    requires LowTiles(tiles) && (LowRow(b.tileAddr) || c == 1)
    ensures LowRow(B.Work(b, c, prerender, tiles).tileAddr)
  {
    hide LowRow, LowTiles, B.FetchNt, B.FetchAttr, B.Fetching, B.Moved;
    FetchingLow(b, c, tiles);
    MovedTile(B.Fetching(b, c, tiles), c, prerender);
    FetchLow(B.Moved(B.Fetching(b, c, tiles), c, prerender), c, tiles);
  }

  lemma MovedTile(b: B.Bg, c: nat, prerender: bool)
    ensures B.Moved(b, c, prerender).tileAddr == b.tileAddr
  {
    hide B.Scroll.Down;
  }

  lemma WorkIsLow(q: Ppu, env: Env)
    requires BgBase(q.ctrl) == 0 && 1 <= q.cycle
    requires LowRow(q.bg.tileAddr) || (q.cycle == 1 && Rendering(q.mask) && RenderLine(q.scanline, env.region))
    ensures LowRow(BgWork(q, env).tileAddr)
  {
    hide BgBase, Rendering, RenderLine, LowRow, B.TileAddr, B.Work;
    forall v ensures LowRow(B.TileAddr(env.mem, 0, v)) {
      TileIsLow(env.mem, v);
    }
    WorkTile(q.bg, q.cycle, q.scanline == PrerenderLine(env.region), B.TilesOf(env.mem, 0));
  }

  lemma ClockIsLow(q: Ppu, env: Env)
    requires BgBase(q.ctrl) == 0
    requires LowRow(q.bg.tileAddr) || (q.cycle == 0 && Rendering(q.mask) && RenderLine(q.scanline, env.region))
    ensures LowRow(Clock(q, env).bg.tileAddr)
  {
    hide Tick, VblankEdges, BgBase, Rendering, RenderLine, LowRow, NextFrame, BgWork;
    if q.cycle < LAST_CYCLE {
      WorkIsLow(Ticking(q), env);
      TickCtrl(Ticking(q), env);
      EdgesCtrl(Tick(Ticking(q), env), env);
    }
  }

  /** The dots that the next clock of the frame passes. */
  function DotsOf(q: Ppu, env: Env): nat {
    if AboutToSkip(q, env) then 2 else 1
  }

  lemma ClockAt(p: Ppu, q: Ppu, e: nat, env: Env)
    requires At(p, q, e, env) && Rendering(p.mask) && Split(p.ctrl) && e + DotsOf(q, env) < F.PictureDots(env.region)
    ensures At(p, Clock(q, env), e + DotsOf(q, env), env)
  {
    hide Clock, Rendering, LowRow, BgBase, SpriteBase, TallSprites, NextFrame;
    ClockDot(q, env);
    CtrlStays(q, env);
    ClockIsLow(q, env);
  }

  lemma StatusAt(p: Ppu, q: Ppu, e: nat, env: Env)
    requires At(p, q, e, env)
    ensures At(p, ReadStatus(q, env), e, env)
  {
    hide StatusBits, LowRow;
  }

  lemma PassedNext(p: Ppu, q: Ppu, n: nat, env: Env)
    requires Rendering(p.mask) && At(p, q, F.Passed(p.frame, n, env.region), env)
    ensures F.Passed(p.frame, n + 1, env.region) == F.Passed(p.frame, n, env.region) + DotsOf(q, env)
  {
    hide Rendering, LowRow;
  }

  /** Where the frame stands after the run. */
  function After(p: Ppu, es: seq<Event>, env: Env): nat {
    F.Passed(p.frame, Tocks(es), env.region)
  }

  lemma ClockPulls(p: Ppu, q: Ppu, e: nat, env: Env)
    requires At(p, q, e, env) && Rendering(p.mask) && Split(p.ctrl) && q.cycle < LAST_CYCLE && e < 341 * RENDERED
    ensures e % 341 == q.cycle && Pulls(ClockReads(q, env), PullAt(q.cycle + 1))
  {
    hide Rendering, Reads, Pulls, PullAt, LowRow, BgBase, SpriteBase, TallSprites;
    ReadsPull(Ticking(q), env);
  }

  lemma NoReads(p: Ppu, q: Ppu, e: nat, env: Env)
    requires At(p, q, e, env) && (q.cycle >= LAST_CYCLE || e >= 341 * RENDERED)
    ensures ClockReads(q, env) == [] && (e < 341 * RENDERED ==> e % 341 == 340)
  {
    hide Rendering, B.Reads, D.Reads, LowRow;
  }

  lemma TockReaches(p: Ppu, q: Ppu, e: nat, env: Env, revision: M.Revision, level0: u16, trace: seq<M.Event>)
    requires At(p, q, e, env) && Rendering(p.mask) && Split(p.ctrl) && level0 <= 1
    requires Reached(revision, level0, trace, EdgesAt(revision, e, level0), LevelAt(e, level0))
    ensures
      var n := e + DotsOf(q, env);
      Reached(revision, level0, trace + AccessesOf(ClockReads(q, env)), EdgesAt(revision, n, level0), LevelAt(n,
          level0))
  {
    hide Reached, Rendering, Split, ClockReads, EdgesAt, LevelAt, AccessesOf, PullAt, LowRow, Pulled, Rises;
    if q.cycle < LAST_CYCLE && e < 341 * RENDERED {
      ClockPulls(p, q, e, env);
      DotEdges(revision, e, level0);
      PullReaches(revision, level0, trace, ClockReads(q, env), PullAt(q.cycle + 1), EdgesAt(revision, e, level0),
                  LevelAt(e, level0));
      if AboutToSkip(q, env) {
        SkipEdges(p, q, e, env, revision, level0);
      }
    } else {
      NoReads(p, q, e, env);
      WrapEdges(revision, e, level0);
      NoAccess(trace);
      NoSkip(p, q, e, env);
    }
  }

  lemma NoAccess(trace: seq<M.Event>)
    ensures trace + AccessesOf([]) == trace
  {
  }

  lemma NoSkip(p: Ppu, q: Ppu, e: nat, env: Env)
    requires At(p, q, e, env) && (q.cycle >= LAST_CYCLE || e >= 341 * RENDERED)
    ensures DotsOf(q, env) == 1
  {
    hide Rendering, LowRow;
  }

  /** The dot that is skipped would not have made an edge. */
  lemma SkipEdges(p: Ppu, q: Ppu, e: nat, env: Env, revision: M.Revision, level0: u16)
    requires At(p, q, e, env) && level0 <= 1 && AboutToSkip(q, env)
    ensures LevelAt(e + 2, level0) == LevelAt(e + 1, level0) && EdgesAt(revision, e + 2, level0) == EdgesAt(revision,
        e + 1, level0)
  {
    hide Rendering, LowRow;
  }

  /** Along the frame the edges that the board sees are those of the lines, with either revision. */
  lemma {:induction false} FrameEdges(p: Ppu, es: seq<Event>, env: Env, revision: M.Revision, level0: u16)
    requires F.Elapsed(p, env) == 0 && p.cycle <= LAST_CYCLE && Rendering(p.mask) && Split(p.ctrl) && level0 <= 1
    requires Quiet(es) && After(p, es, env) < F.PictureDots(env.region)
    ensures At(p, Run(p, es, env), After(p, es, env), env)
    ensures Reached(revision, level0, Accesses(p, es, env), EdgesAt(revision, After(p, es, env), level0),
                    LevelAt(After(p, es, env), level0))
  {
    hide At, Reached, Clock, ReadStatus, ClockReads, EdgesAt, LevelAt, AccessesOf, Rendering, Split, DotsOf,
        F.PictureDots, F.Passed;
    if es == [] {
      FrameBegins(p, env, revision, level0);
    } else {
      var before, last := es[..|es| - 1], es[|es| - 1];
      var q := Run(p, before, env);
      PassedGrows(p.frame, Tocks(before), env.region);
      FrameEdges(p, before, env, revision, level0);
      if last.Tock? {
        PassedNext(p, q, Tocks(before), env);
        ClockAt(p, q, After(p, before, env), env);
        TockReaches(p, q, After(p, before, env), env, revision, level0, Accesses(p, before, env));
      } else {
        StatusAt(p, q, After(p, before, env), env);
        assert Accesses(p, es, env) == Accesses(p, before, env);
      }
    }
  }

  lemma PassedGrows(frame: nat, n: nat, r: Region)
    ensures F.Passed(frame, n, r) <= F.Passed(frame, n + 1, r)
  {
  }

  lemma FrameBegins(p: Ppu, env: Env, revision: M.Revision, level0: u16)
    requires F.Elapsed(p, env) == 0 && p.cycle <= LAST_CYCLE && level0 <= 1
    ensures At(p, Run(p, [], env), After(p, [], env), env)
    ensures Reached(revision, level0, Accesses(p, [], env), EdgesAt(revision, After(p, [], env), level0),
                    LevelAt(After(p, [], env), level0))
  {
    hide LowRow;
  }

  // ----- the results

  /** Every rendered line makes exactly one edge, whatever the sprites and tiles: rising when its first
    sprite slot is loaded, falling at the first tile after the sprites. */
  lemma OneEdgePerLine(p: Ppu, es: seq<Event>, env: Env, b: M.Board)
    requires F.Elapsed(p, env) == 0 && p.cycle <= LAST_CYCLE && Rendering(p.mask) && Split(p.ctrl)
    requires Quiet(es) && After(p, es, env) < F.PictureDots(env.region) && b.lastClock <= 1
    ensures
      var edges, e := Mmc3Irq.Edges(b.revision, b.lastClock, Accesses(p, es, env)), After(p, es, env);
      && (b.revision != M.Acc ==> edges == Lines(e, 260))
      && (b.revision == M.Acc ==> edges == Lines(e, 325) + if b.lastClock == 1 && e >= 5 then 1 else 0)
  {
    hide Run, Accesses, Mmc3Irq.Edges, At, Lines, Split, Rendering;
    FrameEdges(p, es, env, b.revision, b.lastClock);
  }

  /** So with latch L the interrupt is pending from dot 260 of the rendered line number L on, counted
    from the pre-render line, and not before; with L above 240 it is not raised in the frame. */
  lemma InterruptOnLine(p: Ppu, es: seq<Event>, env: Env, b: M.Board)
    requires F.Elapsed(p, env) == 0 && p.cycle <= LAST_CYCLE && Rendering(p.mask) && Split(p.ctrl)
    requires Quiet(es) && After(p, es, env) < F.PictureDots(env.region)
    requires b.Fits() && b.lastClock <= 1 && b.revision != M.Acc && b.irqReload && b.irqEnabled && !b.irqPending
    ensures M.Run(b, Accesses(p, es, env)).irqPending <==>
      b.irqLatch < RENDERED && After(p, es, env) >= 341 * b.irqLatch + 260
  {
    hide Run, Accesses, M.Run, Mmc3Irq.Edges, Split, Rendering, F.Elapsed, F.PictureDots, After, At;
    OneEdgePerLine(p, es, env, b);
    OnlyAccesses(p, es, env);
    Mmc3Irq.FirstInterrupt(b, Accesses(p, es, env));
    LinesReach(After(p, es, env), b.irqLatch);
  }

  lemma {:induction false} OnlyAccesses(p: Ppu, es: seq<Event>, env: Env)
    ensures forall i :: 0 <= i < |Accesses(p, es, env)| ==> Accesses(p, es, env)[i].Access?
  {
    hide Run, ClockReads;
    if es != [] {
      OnlyAccesses(p, es[..|es| - 1], env);
      AreAccesses(ClockReads(Run(p, es[..|es| - 1], env), env));
    }
  }

  lemma {:induction false} AreAccesses(addrs: seq<bv16>)
    ensures forall i :: 0 <= i < |AccessesOf(addrs)| ==> AccessesOf(addrs)[i].Access?
  {
    if addrs != [] {
      AreAccesses(addrs[..|addrs| - 1]);
    }
  }

  lemma LinesReach(e: nat, latch: nat)
    ensures Lines(e, 260) > latch <==> latch < RENDERED && e >= 341 * latch + 260
  {
    assert e == 341 * (e / 341) + e % 341;
  }
}
