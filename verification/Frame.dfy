/** A frame, from the pre-render line to the swap of the buffers, with rendering on and nobody
  writing a register: the incremental machine of `PpuSpec` draws the picture that `Picture`
  looks up directly, raises the sprite 0 hit exactly when sprite 0 meets the background, and
  the overflow flag exactly when a line overflows. */
module Frame {
  import opened Words
  import opened Scroll
  import opened PpuSpec
  import opened World
  import opened Odometer
  import B = Background
  import E = SpriteEval
  import D = SpriteDraw
  import F = SpriteFrame

  // ----- the picture

  /** What a frame is drawn from: registers, memory, the scroll position, OAM as the frame begins
    and OAMADDR then. */
  datatype Scene = Scene(env: Env, bytes: Bytes, mask: bv8, ctrl: bv8, view: B.View, cast: F.Cast, oam: E.Oam,
      oamaddr: u8)

  function SceneOf(p: Ppu, env: Env): Scene {
    Scene(env, BytesOf(env.mem), p.mask, p.ctrl,
          B.View(B.TilesOf(env.mem, BgBase(p.ctrl)), p.bg.scroll.t, p.bg.scroll.fineX),
          F.Cast(F.Spilled(p.spr.oam, p.spr.oamaddr, 8), p.spr.countdown == 0,
                 n => Hit(p.ctrl, n), n => Load(p.ctrl, n, env.mem), p.spr.sprites),
          p.spr.oam, p.spr.oamaddr)
  }

  ghost predicate ViewFits(s: Scene) {
    SameBytes(s.env.mem, s.bytes) && s.view.t.row <= 29 && s.view.tiles == B.TilesOf(s.env.mem, BgBase(s.ctrl))
  }

  ghost predicate Fits(s: Scene) {
    && Rendering(s.mask) && ViewFits(s)
    && s.cast.oam == F.Spilled(s.oam, s.oamaddr, 8)
    && (forall n: nat :: s.cast.hit(n) == Hit(s.ctrl, n))
    && (forall n: nat :: s.cast.load(n) == Load(s.ctrl, n, s.env.mem))
  }

  /** Background color number and palette at column x of line y. Column x belongs to tile
    (x + fine X) / 8 of the line, and tile 0 borrows the palette of tile 1. */
  function BackgroundAt(s: Scene, x: int, y: nat): bv8
    requires 0 <= x < 256
  {
    if ShowBg(s.mask, x) then ColorAt(s.bytes, BgBase(s.ctrl), PictureX(s.view, x), PictureY(s.view, y)) else 0
  }

  function PaletteOf(s: Scene, tile: nat, y: nat): bv8 {
    PaletteAt(s.bytes, 8 * ((WorldCol(s.view.t) + tile) % 64), PictureY(s.view, y))
  }

  function Picture(s: Scene, x: int, y: nat): D.Dot
    requires 0 <= x < 256
  {
    D.Compose(x, BackgroundAt(s, x, y), PaletteOf(s, Max(1, TileOf(s.view, x)), y), F.Line(s.cast, y),
        ShowSprites(s.mask, x), F.ZeroOn(s.cast, y))
  }

  /** The dot in column 255. It is drawn on the cycle that latches how many sprites the next line has,
    so the slots are cut at that number; and slots that this line did not fill come into sight. */
  function LastDot(s: Scene, y: nat): D.Dot {
    D.Compose(255, BackgroundAt(s, 255, y), PaletteOf(s, TileOf(s.view, 255), y),
              F.Held(s.cast, y)[..|F.Line(s.cast, y + 1)|],
              ShowSprites(s.mask, 255) && D.Occupied(F.Line(s.cast, y), 255), F.ZeroOn(s.cast, y + 1))
  }

  /** What the frame shows: the picture, and in the last column what is made of it there. */
  function Shown(s: Scene, x: int, y: nat): D.Dot
    requires 0 <= x < 256
  {
    if x < 255 then Picture(s, x, y) else LastDot(s, y)
  }

  function ColorOf(s: Scene, dot: D.Dot): bv16 {
    ScreenColor(s.mask, if dot.color & 0x03 != 0 then dot.color as bv16 else 0, s.env)
  }

  // ----- a pixel

  lemma BackgroundPixel(b: B.Bg, s: Scene, x: int, y: nat, f: int)
    requires 0 <= x < 256 && ViewFits(s) && B.HoldsTiles(b, x / 8, x % 8, y, s.view)
    requires 0 <= f < 8 && f == s.view.fineX as int
    ensures (if ShowBg(s.mask, x) then BitsAt(b, f) else 0) == BackgroundAt(s, x, y)
  {
    DrawsColor(b, s.env.mem, s.bytes, BgBase(s.ctrl), s.view, x, y, f);
  }

  lemma PalettePixel(b: B.Bg, s: Scene, x: int, y: nat, f: int)
    requires 0 <= x < 256 && ViewFits(s) && B.Latched(b, x / 8, y, s.view)
    requires 0 <= f < 8
    ensures LatchAt(b, f, x) == PaletteOf(s, Max(1, (f + x) / 8), y)
  {
    DrawsLatch(b, s.env.mem, s.bytes, BgBase(s.ctrl), s.view, x, y, f);
  }

  lemma SpritePixels(mask: bv8, b: B.Bg, spr: E.Spr, k: F.Cast, x: int, y: nat, bg: bv8, palette: bv8)
    requires 0 <= x < 256 && D.Loaded(spr, F.Line(k, y), 8) && (y > 0 ==> spr.zeroVisible == F.ZeroOn(k, y))
    requires (if ShowBg(mask, x) then BgColor(b) else 0) == bg && BgPalette(b, x) == palette
    ensures DotAt(mask, b, spr, x) == D.Compose(x, bg, palette, F.Line(k, y), ShowSprites(mask, x), F.ZeroOn(k, y))
  {
    D.PresenceIsExact(spr, F.Line(k, y), x, bg, palette, ShowSprites(mask, x), spr.zeroVisible);
  }

  /** What the pipeline puts out for a column is what the picture holds there. */
  lemma PixelIs(b: B.Bg, spr: E.Spr, s: Scene, x: int, y: nat, f: int)
    requires ViewFits(s) && 0 <= x < 256 && B.DrawInv(b, x / 8, x % 8 + 1, y, s.view) && f == s.view.fineX as int
    requires D.Loaded(spr, F.Line(s.cast, y), 8) && (y > 0 ==> spr.zeroVisible == F.ZeroOn(s.cast, y))
    ensures DotAt(s.mask, b, spr, x) == Picture(s, x, y)
  {
    FineRange(s.view);
    BackgroundPixel(b, s, x, y, f);
    PalettePixel(b, s, x, y, f);
    SpritePixels(s.mask, b, spr, s.cast, x, y, BackgroundAt(s, x, y), PaletteOf(s, Max(1, TileOf(s.view, x)), y));
  }

  // ----- what a frame has drawn so far

  /** The picture as two tables: the screen color of a pixel, and whether sprite 0 meets the background there. */
  datatype Goal = Goal(color: (int, int) -> bv16, meets: (int, int) -> bool)

  function GoalOf(s: Scene): Goal {
    Goal((x, y) => if 0 <= x < 256 && 0 <= y then ColorOf(s, Shown(s, x, y)) else 0,
         (x, y) => 0 <= x < 256 && 0 <= y && Shown(s, x, y).zeroHit)
  }

  /** Column i of line j is drawn before column c of line y. */
  predicate Drawn(i: int, j: int, c: nat, y: nat) {
    0 <= i < 256 && 0 <= j < 240 && (j < y || (j == y && i < c))
  }

  ghost predicate Painted(screen: Screen, color: (int, int) -> bv16, c: nat, y: nat) {
    forall i: int, j: int :: Drawn(i, j, c, y) ==> screen[i + 256 * j] == color(i, j)
  }

  ghost predicate Met(meets: (int, int) -> bool, c: nat, y: nat) {
    exists i: int, j: int :: Drawn(i, j, c, y) && meets(i, j)
  }

  lemma PaintPixel(screen: Screen, color: (int, int) -> bv16, c: nat, y: nat, dot: bv16)
    requires c < 256 && y < 240 && Painted(screen, color, c, y) && dot == color(c, y)
    ensures Painted(screen[c + 256 * y := dot], color, c + 1, y)
  {
  }

  lemma PaintLine(screen: Screen, color: (int, int) -> bv16, c: nat, y: nat)
    requires c >= 256 && Painted(screen, color, c, y)
    ensures Painted(screen, color, 0, y + 1)
  {
  }

  lemma MeetPixel(meets: (int, int) -> bool, c: nat, y: nat)
    requires c < 256 && y < 240
    ensures Met(meets, c + 1, y) == (Met(meets, c, y) || meets(c, y))
  {
    if Met(meets, c, y) {
      var i, j :| Drawn(i, j, c, y) && meets(i, j);
      assert Drawn(i, j, c + 1, y);
    }
    if meets(c, y) {
      assert Drawn(c, y, c + 1, y);
    }
    if Met(meets, c + 1, y) {
      var i, j :| Drawn(i, j, c + 1, y) && meets(i, j);
      assert Drawn(i, j, c, y) || (i == c && j == y);
    }
  }

  lemma MeetLine(meets: (int, int) -> bool, c: nat, y: nat)
    requires c >= 256
    ensures Met(meets, 0, y + 1) == Met(meets, c, y)
  {
    if Met(meets, c, y) {
      var i, j :| Drawn(i, j, c, y) && meets(i, j);
      assert Drawn(i, j, 0, y + 1);
    }
    if Met(meets, 0, y + 1) {
      var i, j :| Drawn(i, j, 0, y + 1) && meets(i, j);
      assert Drawn(i, j, c, y);
    }
  }

  // ----- the invariant of a frame

  ghost predicate OnPrerender(p: Ppu, s: Scene) {
    && B.LinePos(p.bg, p.cycle, true, 0, s.view)
    && F.PrerenderInv(p.spr, p.cycle, s.env.region.Pal?, s.oam, s.oamaddr, s.cast)
    && (1 <= p.cycle ==> !p.zeroHit)
    && p.spr.sprites == s.cast.slots
  }

  /** After cycle c of visible line y. */
  ghost predicate OnVisible(bg: B.Bg, spr: E.Spr, zeroHit: bool, back: Screen, c: nat, y: nat, s: Scene, g: Goal) {
    && B.LinePos(bg, c, false, y, s.view)
    && F.VisibleInv(spr, c, y, s.cast) && F.SlotsInv(spr, c, y, s.cast)
    && zeroHit == Met(g.meets, Min(c, 256), y)
    && Painted(back, g.color, Min(c, 256), y)
  }

  ghost predicate AfterPicture(p: Ppu, screen: Screen, s: Scene, g: Goal) {
    && p.zeroHit == Met(g.meets, 0, 240)
    && (s.cast.clean ==> p.spr.overflow == F.LateBefore(s.cast, 240))
    && Painted(screen, g.color, 0, 240)
  }

  /** From the pre-render line up to the swap of the buffers. */
  ghost predicate InFrame(p: Ppu, s: Scene, g: Goal) {
    && p.mask == s.mask && p.ctrl == s.ctrl && p.cycle <= LAST_CYCLE
    && (if p.scanline == PrerenderLine(s.env.region) then OnPrerender(p, s)
        else if p.scanline <= LAST_VISIBLE then OnVisible(p.bg, p.spr, p.zeroHit, p.back, p.cycle, p.scanline, s, g)
        else p.scanline < VblankLine(s.env.region) - 1 && AfterPicture(p, p.back, s, g))
  }

  // ----- what a clock changes

  lemma BgWorkIs(q: Ppu, s: Scene, prerender: bool)
    requires ViewFits(s) && Rendering(q.mask) && q.ctrl == s.ctrl && RenderLine(q.scanline, s.env.region)
    requires prerender == (q.scanline == PrerenderLine(s.env.region))
    ensures BgWork(q, s.env) == B.Work(q.bg, q.cycle, prerender, s.view.tiles)
  {
  }

  lemma SprWorkVisible(q: Ppu, env: Env, hit: bv8 -> bool, load: D.Bytes4 -> E.Sprite)
    requires Rendering(q.mask) && q.scanline <= LAST_VISIBLE && 1 <= q.cycle <= LAST_CYCLE
    requires hit == Hit(q.ctrl, q.scanline) && load == Load(q.ctrl, q.scanline, env.mem)
    ensures SprWork(q, env) == F.VisibleWork(q.spr, q.cycle, hit, load)
  {
  }

  lemma TickVisible(q: Ppu, env: Env)
    requires q.scanline <= LAST_VISIBLE && 1 <= q.cycle <= LAST_CYCLE
    ensures
      var r := VblankEdges(Tick(q, env), env);
      && r.mask == q.mask && r.ctrl == q.ctrl && r.cycle == q.cycle && r.scanline == q.scanline
      && r.bg == B.Shift(BgWork(q, env), q.cycle) && r.spr == SprWork(q, env)
  {
    hide BgWork, SprWork, DotAt, ScreenColor, B.Shift;
    assert VblankEdges(Tick(q, env), env) == Tick(q, env);
  }

  lemma TickDraws(q: Ppu, env: Env)
    requires q.scanline <= LAST_VISIBLE && 1 <= q.cycle <= LAST_CYCLE
    ensures
      var r := VblankEdges(Tick(q, env), env);
      var d := if Drawing(q) then Draw(q, BgWork(q, env), SprWork(q, env), env) else q;
      r.zeroHit == d.zeroHit && r.back == d.back
  {
  }

  lemma TickPrerender(q: Ppu, env: Env)
    requires q.scanline == PrerenderLine(env.region) && 1 <= q.cycle <= LAST_CYCLE
    ensures
      var r := VblankEdges(Tick(q, env), env);
      && r.mask == q.mask && r.ctrl == q.ctrl && r.scanline == q.scanline
      && (r.cycle == q.cycle || (r.cycle == LAST_CYCLE && q.cycle == 339))
      && r.bg == B.Shift(BgWork(q, env), q.cycle)
      && r.spr == (if q.cycle == 1 then SprWork(q, env).(overflow := false) else SprWork(q, env))
      && r.zeroHit == (q.zeroHit && q.cycle != 1)
  {
    hide Tick, BgWork, SprWork, B.Shift;
    PrerenderTick(q, env);
  }

  lemma PrerenderTick(q: Ppu, env: Env)
    requires q.scanline == PrerenderLine(env.region) && 1 <= q.cycle <= LAST_CYCLE
    ensures
      var t := Tick(q, env);
      && t.mask == q.mask && t.ctrl == q.ctrl && t.scanline == q.scanline && t.zeroHit == q.zeroHit
      && (t.cycle == q.cycle || (t.cycle == LAST_CYCLE && q.cycle == 339))
      && t.bg == B.Shift(BgWork(q, env), q.cycle) && t.spr == SprWork(q, env)
  {
    hide BgWork, SprWork, DotAt, ScreenColor, B.Shift;
  }

  /** PAL evaluation on the pre-render line finds nothing: no byte reaches that far. */
  lemma NeverHit(ctrl: bv8, line: nat)
    requires line == 311
    ensures F.Never(Hit(ctrl, line))
  {
    forall y: bv8 ensures !Hit(ctrl, line)(y) {
      assert Hit(ctrl, line)(y) == D.Covers(y as int, if TallSprites(ctrl) then 16 else 8, line);
      ByteRange(y);
    }
  }

  lemma ByteRange(y: bv8)
    ensures 0 <= y as int < 256
  {
  }

  lemma SprWorkPrerender(q: Ppu, env: Env, hit: bv8 -> bool, load: D.Bytes4 -> E.Sprite)
    requires Rendering(q.mask) && q.scanline == PrerenderLine(env.region) && 1 <= q.cycle <= LAST_CYCLE
    requires hit == Hit(q.ctrl, q.scanline) && load == Load(q.ctrl, q.scanline, env.mem)
    ensures (if q.cycle == 1 then SprWork(q, env).(overflow := false) else SprWork(q, env))
         == F.PrerenderWork(q.spr, q.cycle, env.region.Pal?, hit, load)
  {
    hide E.EvalCycle, D.FetchSprites, D.Spill;
  }

  // ----- one event keeps the invariant

  lemma DrawsGoal(bg: B.Bg, spr: E.Spr, s: Scene, g: Goal, x: int, y: nat)
    requires ViewFits(s) && g == GoalOf(s) && 0 <= x < 255 && B.DrawInv(bg, x / 8, x % 8 + 1, y, s.view)
    requires D.Loaded(spr, F.Line(s.cast, y), 8) && (y > 0 ==> spr.zeroVisible == F.ZeroOn(s.cast, y))
    ensures ColorOf(s, DotAt(s.mask, bg, spr, x)) == g.color(x, y)
    ensures DotAt(s.mask, bg, spr, x).zeroHit == g.meets(x, y)
  {
    PixelIs(bg, spr, s, x, y, s.view.fineX as int);
    hide DotAt, Picture, ColorOf;
  }

  /** The last dot of a line, with the count of the next line latched. */
  lemma LastPixelIs(b: B.Bg, spr: E.Spr, s: Scene, x: int, y: nat)
    requires ViewFits(s) && x == 255 && B.DrawInv(b, x / 8, x % 8 + 1, y, s.view)
    requires F.VisibleInv(spr, 256, y, s.cast) && F.SlotsInv(spr, 256, y, s.cast)
    ensures DotAt(s.mask, b, spr, x) == LastDot(s, y)
  {
    hide D.Compose, F.Held, F.Line, D.Occupied, BackgroundAt, PaletteOf, TileOf, ShowBg, ShowSprites, E.Covering,
      E.Flat, F.ZeroOn, E.Overflows, F.LateBefore, B.HoldsTiles, B.Latched, ViewFits, BgColor, BgPalette;
    FineRange(s.view);
    LastParts(b, spr, s, x, y, s.view.fineX as int);
    LatchedCount(spr, s, y);
  }

  lemma LastParts(b: B.Bg, spr: E.Spr, s: Scene, x: int, y: nat, f: int)
    requires ViewFits(s) && x == 255 && B.DrawInv(b, x / 8, x % 8 + 1, y, s.view) && f == s.view.fineX as int
    ensures (if ShowBg(s.mask, x) then BgColor(b) else 0) == BackgroundAt(s, x, y)
    ensures BgPalette(b, x) == PaletteOf(s, TileOf(s.view, x), y)
  {
    FineRange(s.view);
    BackgroundPixel(b, s, x, y, f);
    PalettePixel(b, s, x, y, f);
  }

  lemma LatchedCount(spr: E.Spr, s: Scene, y: nat)
    requires F.VisibleInv(spr, 256, y, s.cast)
    ensures spr.count == |F.Line(s.cast, y + 1)| && spr.zeroVisible == F.ZeroOn(s.cast, y + 1)
  {
    hide E.Covering, E.Flat, E.Overflows, F.LateBefore;
  }

  lemma FitsView(s: Scene)
    requires Fits(s)
    ensures ViewFits(s)
  {
  }

  lemma GoalIs(s: Scene, g: Goal, x: int, y: nat)
    requires g == GoalOf(s) && 0 <= x < 256
    ensures g.color(x, y) == ColorOf(s, Shown(s, x, y)) && g.meets(x, y) == Shown(s, x, y).zeroHit
  {
  }

  lemma DrawsDot(b: B.Bg, spr: E.Spr, s: Scene, g: Goal, c: nat, y: nat)
    requires Fits(s) && g == GoalOf(s) && 1 <= c <= 256 && y <= LAST_VISIBLE
    requires B.LinePos(b, c - 1, false, y, s.view) && F.VisibleInv(spr, c, y, s.cast) && F.SlotsInv(spr, c, y, s.cast)
    ensures
      var dot := DotAt(s.mask, B.Work(b, c, false, s.view.tiles), spr, c - 1);
      ColorOf(s, dot) == g.color(c - 1, y) && dot.zeroHit == g.meets(c - 1, y)
  {
    hide DotAt, Picture, LastDot, ColorOf, F.SlotsInv, B.LinePos, B.Work, Fits, GoalOf, F.LateBefore, E.EvalInv,
        D.Loaded;
    FitsView(s);
    GoalIs(s, g, c - 1, y);
    var bg := B.Work(b, c, false, s.view.tiles);
    B.VisiblePos(b, c, (c - 1) / 8, (c - 1) % 8 + 1, y, s.view);
    if c < 256 {
      DrawsGoal(bg, spr, s, g, c - 1, y);
    } else {
      LastPixelIs(bg, spr, s, c - 1, y);
    }
  }

  lemma VisiblePipelines(bg: B.Bg, spr: E.Spr, s: Scene, c: nat, y: nat)
    requires Fits(s) && 1 <= c <= LAST_CYCLE
    requires B.LinePos(bg, c - 1, false, y, s.view)
    requires F.VisibleInv(spr, c - 1, y, s.cast) && F.SlotsInv(spr, c - 1, y, s.cast)
    ensures B.LinePos(B.Shift(B.Work(bg, c, false, s.view.tiles), c), c, false, y, s.view)
    ensures
      var spr' := F.VisibleWork(spr, c, s.cast.hit(y), s.cast.load(y));
      F.VisibleInv(spr', c, y, s.cast) && F.SlotsInv(spr', c, y, s.cast)
  {
    B.LineStep(bg, c, false, y, s.view);
    F.VisibleStep(spr, c, y, s.cast);
    F.SlotsStep(spr, c, y, s.cast);
  }

  lemma VisibleParts(bg: B.Bg, spr: E.Spr, zeroHit: bool, back: Screen, c: nat, y: nat, s: Scene, g: Goal)
    requires Fits(s) && g == GoalOf(s) && 1 <= c <= LAST_CYCLE && y <= LAST_VISIBLE
    requires OnVisible(bg, spr, zeroHit, back, c - 1, y, s, g)
    ensures
      var bg' := B.Work(bg, c, false, s.view.tiles);
      var spr' := F.VisibleWork(spr, c, s.cast.hit(y), s.cast.load(y));
      if c <= 256 then
        var dot := DotAt(s.mask, bg', spr', c - 1);
        OnVisible(B.Shift(bg', c), spr', zeroHit || dot.zeroHit, back[c - 1 + 256 * y := ColorOf(s, dot)], c, y, s, g)
      else OnVisible(B.Shift(bg', c), spr', zeroHit, back, c, y, s, g)
  {
    hide B.Work, B.Shift, B.LinePos, F.VisibleInv, F.SlotsInv, F.VisibleWork, DotAt, ColorOf, GoalOf, Fits, Met,
        Painted;
    VisiblePipelines(bg, spr, s, c, y);
    if c <= 256 {
      var spr' := F.VisibleWork(spr, c, s.cast.hit(y), s.cast.load(y));
      DrawsDot(bg, spr', s, g, c, y);
      MeetPixel(g.meets, c - 1, y);
      PaintPixel(back, g.color, c - 1, y, ColorOf(s, DotAt(s.mask, B.Work(bg, c, false, s.view.tiles), spr', c - 1)));
    }
  }

  lemma VisibleTock(p: Ppu, s: Scene, g: Goal, c: nat, y: nat)
    requires Fits(s) && g == GoalOf(s) && InFrame(p, s, g)
    requires c == p.cycle + 1 && c <= LAST_CYCLE && y == p.scanline <= LAST_VISIBLE
    ensures InFrame(Clock(p, s.env), s, g) && Clock(p, s.env).scanline == y && Clock(p, s.env).cycle == c
  {
    hide B.Work, B.Shift, B.LinePos, F.VisibleInv, F.SlotsInv, F.VisibleWork, DotAt, GoalOf, OnVisible, BgWork, SprWork,
        Tick, VblankEdges, Clock;
    var q := Ticking(p);
    ClockTicks(p, s.env);
    BgWorkIs(q, s, false);
    SprWorkVisible(q, s.env, s.cast.hit(y), s.cast.load(y));
    TickVisible(q, s.env);
    TickDraws(q, s.env);
    VisibleParts(p.bg, p.spr, p.zeroHit, p.back, c, y, s, g);
  }

  lemma PrerenderTock(p: Ppu, s: Scene, g: Goal, c: nat)
    requires Fits(s) && InFrame(p, s, g)
    requires c == p.cycle + 1 && c <= LAST_CYCLE && p.scanline == PrerenderLine(s.env.region)
    ensures InFrame(Clock(p, s.env), s, g)
  {
    hide B.Work, B.Shift, B.LinePos, F.PrerenderInv, F.PrerenderWork, BgWork, SprWork, Tick, VblankEdges, Clock;
    var q := Ticking(p);
    var hit, load := Hit(q.ctrl, q.scanline), Load(q.ctrl, q.scanline, s.env.mem);
    ClockTicks(p, s.env);
    BgWorkIs(q, s, true);
    SprWorkPrerender(q, s.env, hit, load);
    TickPrerender(q, s.env);
    B.LineStep(p.bg, c, true, 0, s.view);
    if s.env.region.Pal? {
      NeverHit(q.ctrl, q.scanline);
    }
    F.PrerenderStep(p.spr, c, s.env.region.Pal?, s.oam, s.oamaddr, s.cast, hit, load);
    F.PrerenderKeepsSlots(p.spr, c, s.env.region.Pal?, hit, load);
    if c == 339 {
      var r := Clock(p, s.env);
      B.NextLine(r.bg, c, true, 0, s.view);
      F.FirstVisible(r.spr, c, s.env.region.Pal?, s.oam, s.oamaddr, s.cast);
    }
  }

  /** Below the picture nothing is drawn until the buffers are swapped. */
  lemma IdleTock(p: Ppu, s: Scene, g: Goal)
    requires InFrame(p, s, g) && p.cycle < LAST_CYCLE
    requires LAST_VISIBLE < p.scanline < VblankLine(s.env.region) - 1
    ensures InFrame(Clock(p, s.env), s, g)
  {
  }

  lemma NothingDrawn(screen: Screen, g: Goal)
    ensures Painted(screen, g.color, 0, 0) && !Met(g.meets, 0, 0)
  {
  }

  lemma PrerenderEnd(p: Ppu, s: Scene, g: Goal)
    requires Fits(s) && InFrame(p, s, g) && p.cycle == LAST_CYCLE && p.scanline == PrerenderLine(s.env.region)
    ensures OnVisible(p.bg, p.spr, p.zeroHit, p.back, 0, 0, s, g)
  {
    hide B.LinePos, F.PrerenderInv, F.VisibleInv, F.SlotsInv, Painted, Met;
    B.NextLine(p.bg, p.cycle, true, 0, s.view);
    F.FirstVisible(p.spr, p.cycle, s.env.region.Pal?, s.oam, s.oamaddr, s.cast);
    F.FirstSlots(p.spr, p.cycle, s.env.region.Pal?, s.oam, s.oamaddr, s.cast);
    NothingDrawn(p.back, g);
  }

  lemma VisibleEnd(p: Ppu, s: Scene, g: Goal, y: nat)
    requires InFrame(p, s, g) && p.cycle == LAST_CYCLE && y == p.scanline <= LAST_VISIBLE
    ensures OnVisible(p.bg, p.spr, p.zeroHit, p.back, 0, y + 1, s, g)
    ensures y == LAST_VISIBLE ==> AfterPicture(p, p.back, s, g)
  {
    hide B.LinePos, F.VisibleInv, F.SlotsInv, Painted, Met;
    B.NextLine(p.bg, p.cycle, false, y, s.view);
    F.NextVisible(p.spr, y, s.cast);
    F.NextSlots(p.spr, y, s.cast);
    MeetLine(g.meets, 256, y);
    PaintLine(p.back, g.color, 256, y);
  }

  lemma ClockWraps(p: Ppu, env: Env, y: nat)
    requires p.cycle == LAST_CYCLE && y == p.scanline + 1
    ensures
      var r := Clock(p, env);
      && r.mask == p.mask && r.ctrl == p.ctrl && r.cycle == 0 && r.bg == p.bg && r.spr == p.spr
          && r.zeroHit == p.zeroHit
      && (if y == VblankLine(env.region) - 1 then r.scanline == y && r.front == p.back
          else r.scanline == (if y > PrerenderLine(env.region) then 0 else y) && r.back == p.back)
  {
    hide Tick, VblankEdges;
  }

  /** The last dot of a line leads to the next line; with the picture complete and the post-render
    lines over, the buffers are swapped. */
  lemma LineEnd(p: Ppu, s: Scene, g: Goal)
    requires Fits(s) && InFrame(p, s, g) && p.cycle == LAST_CYCLE
    ensures
      var r := Clock(p, s.env);
      && r.cycle == 0 && r.mask == s.mask && r.ctrl == s.ctrl
      && (if r.scanline == VblankLine(s.env.region) - 1 then AfterPicture(r, r.front, s, g)
          else InFrame(r, s, g))
  {
    hide OnVisible, Painted, Met, Clock, OnPrerender;
    ClockWraps(p, s.env, p.scanline + 1);
    if p.scanline == PrerenderLine(s.env.region) {
      PrerenderEnd(p, s, g);
    } else if p.scanline <= LAST_VISIBLE {
      VisibleEnd(p, s, g, p.scanline);
    }
  }

  lemma StatusFields(p: Ppu, env: Env)
    ensures
      var r := ReadStatus(p, env);
      && r.mask == p.mask && r.ctrl == p.ctrl && r.cycle == p.cycle && r.scanline == p.scanline
      && r.bg == p.bg.(scroll := p.bg.scroll.(latch := false)) && r.spr == p.spr && r.zeroHit == p.zeroHit
          && r.back == p.back && r.front == p.front
  {
  }

  /** Reading the status changes nothing that is drawn. */
  lemma StatusRead(p: Ppu, s: Scene, g: Goal)
    requires InFrame(p, s, g)
    ensures InFrame(ReadStatus(p, s.env), s, g)
  {
    hide B.LinePos, F.PrerenderInv, F.VisibleInv, F.SlotsInv, Painted, Met, ReadStatus;
    StatusFields(p, s.env);
    if p.scanline == PrerenderLine(s.env.region) {
      LatchFrame(p.bg, p.cycle, true, 0, s.view);
    } else if p.scanline <= LAST_VISIBLE {
      LatchFrame(p.bg, p.cycle, false, p.scanline, s.view);
    }
  }

  lemma LatchLine(b: B.Bg, r: B.Bg, k: nat, j: nat, n: nat, w: B.View)
    requires r == b.(scroll := b.scroll.(latch := false)) && B.LineInv(b, k, j, n, w)
    ensures B.LineInv(r, k, j, n, w)
  {
    hide B.Holds, B.Place, B.Lo, B.Hi, B.Palette;
  }

  lemma LatchBetween(b: B.Bg, r: B.Bg, c: nat, prerender: bool, m: nat, w: B.View)
    requires r == b.(scroll := b.scroll.(latch := false)) && 257 <= c && B.BetweenInv(b, c, prerender, m, w)
    ensures B.BetweenInv(r, c, prerender, m, w)
  {
    hide B.Holds, B.HalfHolds, B.Flushed, B.Place, B.Lo, B.Hi, B.Palette;
  }

  lemma LatchFrame(b: B.Bg, c: nat, prerender: bool, n: nat, w: B.View)
    requires B.LinePos(b, c, prerender, n, w)
    ensures B.LinePos(b.(scroll := b.scroll.(latch := false)), c, prerender, n, w)
  {
    hide B.LineInv, B.BetweenInv;
    var r := b.(scroll := b.scroll.(latch := false));
    if 257 <= c {
      LatchBetween(b, r, c, prerender, if prerender then 0 else n + 1, w);
    } else if !prerender && c == 0 {
      LatchLine(b, r, 0, 0, n, w);
    } else if !prerender {
      LatchLine(b, r, (c - 1) / 8, (c - 1) % 8 + 1, n, w);
    }
  }

  // ----- a whole frame

  /** Dots since the pre-render line began. */
  function Elapsed(p: Ppu, env: Env): nat {
    if p.scanline == PrerenderLine(env.region) then p.cycle else 341 * (p.scanline + 1) + p.cycle
  }

  /** Dots from the start of the pre-render line to the swap of the buffers. */
  function PictureDots(r: Region): nat { 341 * VblankLine(r) }

  /** Dots passed after n clocks of a frame with this number: odd NTSC frames skip one. */
  function Passed(frame: nat, n: nat, r: Region): nat {
    if r.Ntsc? && frame % 2 == 1 && n >= 339 then n + 1 else n
  }

  /** Before the swap the frame is under way; after it the picture is in front. */
  ghost predicate Shows(q: Ppu, frame: nat, e: nat, s: Scene, g: Goal) {
    if e < PictureDots(s.env.region) then InFrame(q, s, g) && Elapsed(q, s.env) == e && q.frame == frame
    else q.cycle == 0 && q.scanline == VblankLine(s.env.region) - 1 && AfterPicture(q, q.front, s, g)
  }

  lemma FrameTock(q: Ppu, s: Scene, g: Goal)
    requires Fits(s) && g == GoalOf(s) && InFrame(q, s, g)
    ensures
      var r := Clock(q, s.env);
      if q.cycle == LAST_CYCLE && q.scanline + 2 == VblankLine(s.env.region) then
        r.cycle == 0 && r.scanline == VblankLine(s.env.region) - 1 && AfterPicture(r, r.front, s, g)
      else InFrame(r, s, g)
  {
    hide Clock, OnPrerender, OnVisible, AfterPicture, GoalOf;
    if q.cycle == LAST_CYCLE {
      LineEnd(q, s, g);
      WrapDot(q, s.env);
    } else if q.scanline == PrerenderLine(s.env.region) {
      PrerenderTock(q, s, g, q.cycle + 1);
    } else if q.scanline <= LAST_VISIBLE {
      VisibleTock(q, s, g, q.cycle + 1, q.scanline);
    } else {
      IdleTock(q, s, g);
    }
  }

  lemma ShowsTock(q: Ppu, frame: nat, n: nat, s: Scene, g: Goal)
    requires Fits(s) && g == GoalOf(s)
    requires Shows(q, frame, Passed(frame, n, s.env.region), s, g)
    requires Passed(frame, n + 1, s.env.region) <= PictureDots(s.env.region)
    ensures Shows(Clock(q, s.env), frame, Passed(frame, n + 1, s.env.region), s, g)
  {
    hide Clock, OnPrerender, OnVisible, AfterPicture, GoalOf;
    FrameTock(q, s, g);
    ClockDot(q, s.env);
  }

  lemma ShowsStatus(q: Ppu, frame: nat, e: nat, s: Scene, g: Goal)
    requires Shows(q, frame, e, s, g)
    ensures Shows(ReadStatus(q, s.env), frame, e, s, g)
  {
    hide ReadStatus, OnPrerender, OnVisible;
    if e < PictureDots(s.env.region) {
      StatusRead(q, s, g);
    }
    StatusFields(q, s.env);
    ReadStatusKeeps(q, s.env);
  }

  lemma FrameStart(p: Ppu, env: Env)
    requires Elapsed(p, env) == 0 && Rendering(p.mask) && p.bg.scroll.t.row <= 29
    ensures Fits(SceneOf(p, env)) && Shows(p, p.frame, 0, SceneOf(p, env), GoalOf(SceneOf(p, env)))
  {
    BytesOfSame(env.mem);
    assert F.Spilled(p.spr.oam, p.spr.oamaddr, 0) == p.spr.oam;
  }

  /** From the start of the pre-render line, with rendering on and coarse Y of `t` at most 29: after
    any number of clocks and status reads up to the swap, the frame shows what it should. */
  lemma {:induction false} FrameShows(p: Ppu, es: seq<Event>, env: Env, s: Scene, g: Goal)
    requires Elapsed(p, env) == 0 && Rendering(p.mask) && p.bg.scroll.t.row <= 29
    requires s == SceneOf(p, env) && g == GoalOf(s)
    requires Quiet(es) && Passed(p.frame, Tocks(es), env.region) <= PictureDots(env.region)
    ensures Shows(Run(p, es, env), p.frame, Passed(p.frame, Tocks(es), env.region), s, g)
  {
    hide Shows, Clock, ReadStatus, GoalOf, Fits, PictureDots;
    FrameStart(p, env);
    if es != [] {
      var shorter, e := es[..|es| - 1], es[|es| - 1];
      var q := Run(p, shorter, env);
      FrameShows(p, shorter, env, s, g);
      if e.Tock? {
        ShowsTock(q, p.frame, Tocks(shorter), s, g);
      } else {
        ShowsStatus(q, p.frame, Passed(p.frame, Tocks(shorter), env.region), s, g);
      }
    }
  }

  // ----- what a frame amounts to

  /** Every pixel: once its dot has passed, the back buffer holds there what the frame shows, and
    once the buffers are swapped the front buffer does. In columns 0 to 254 that is the picture. */
  lemma PictureIsDrawn(p: Ppu, es: seq<Event>, env: Env, x: nat, y: nat)
    requires Elapsed(p, env) == 0 && Rendering(p.mask) && p.bg.scroll.t.row <= 29
    requires Quiet(es) && Passed(p.frame, Tocks(es), env.region) <= PictureDots(env.region)
    requires x < 256 && y < 240 && 341 * (y + 1) + x < Passed(p.frame, Tocks(es), env.region)
    ensures
      var q, s := Run(p, es, env), SceneOf(p, env);
      (if Passed(p.frame, Tocks(es), env.region) == PictureDots(env.region) then q.front else q.back)[x + 256 * y]
        == ColorOf(s, if x < 255 then Picture(s, x, y) else LastDot(s, y))
  {
    hide B.LinePos, F.VisibleInv, F.SlotsInv, F.PrerenderInv, Met, Run, ColorOf, Picture, LastDot, Tocks, Rendering;
    var s, q := SceneOf(p, env), Run(p, es, env);
    var g := GoalOf(s);
    FrameShows(p, es, env, s, g);
    assert g.color(x, y) == ColorOf(s, Shown(s, x, y));
    if Passed(p.frame, Tocks(es), env.region) < PictureDots(env.region) {
      ReadsPixel(q, s, g, x, y);
    } else {
      assert Drawn(x, y, 0, 240);
    }
  }

  lemma ReadsPixel(q: Ppu, s: Scene, g: Goal, x: nat, y: nat)
    requires InFrame(q, s, g) && x < 256 && y < 240 && 341 * (y + 1) + x < Elapsed(q, s.env)
    ensures q.back[x + 256 * y] == g.color(x, y)
  {
    hide B.LinePos, F.VisibleInv, F.SlotsInv, F.PrerenderInv, Met;
    if q.scanline <= LAST_VISIBLE {
      assert Drawn(x, y, Min(q.cycle, 256), q.scanline);
    } else {
      assert Drawn(x, y, 0, 240);
    }
  }

  /** On the dot of every pixel, the last column included, the two background bits that are taken
    from the shift registers are those of the picture. */
  lemma BackgroundIsDrawn(p: Ppu, es: seq<Event>, env: Env, x: nat, y: nat)
    requires Elapsed(p, env) == 0 && Rendering(p.mask) && p.bg.scroll.t.row <= 29
    requires Quiet(es) && x < 256 && y < 240 && Passed(p.frame, Tocks(es), env.region) == 341 * (y + 1) + x
    ensures
      var q, s := Run(p, es, env), SceneOf(p, env);
      && q.scanline == y && q.cycle == x
      && BgColor(BgWork(Ticking(q), env)) == ColorAt(s.bytes, BgBase(p.ctrl), PictureX(s.view, x), PictureY(s.view, y))
  {
    hide Run, GoalOf, Tocks, InFrame, AfterPicture, Rendering, Elapsed, BgColor, BgWork, ColorAt, PictureX, PictureY;
    var s, q := SceneOf(p, env), Run(p, es, env);
    FrameStart(p, env);
    FrameShows(p, es, env, s, GoalOf(s));
    FrontBits(q, s, GoalOf(s), x, y, s.view.fineX as int);
  }

  lemma FrontBits(q: Ppu, s: Scene, g: Goal, x: nat, y: nat, f: int)
    requires Fits(s) && InFrame(q, s, g) && x < 256 && y < 240 && Elapsed(q, s.env) == 341 * (y + 1) + x
    requires f == s.view.fineX as int
    ensures q.scanline == y && q.cycle == x
    ensures BgColor(BgWork(Ticking(q), s.env)) ==
        ColorAt(s.bytes, BgBase(s.ctrl), PictureX(s.view, x), PictureY(s.view, y))
  {
    hide Met, Painted, F.VisibleInv, F.SlotsInv, F.PrerenderInv, B.LinePos, B.Work, B.HoldsTiles, B.Latched, ColorAt,
      PictureX, PictureY, F.LateBefore, GoalOf;
    FineRange(s.view);
    BgWorkIs(Ticking(q), s, false);
    B.VisiblePos(q.bg, x + 1, x / 8, x % 8 + 1, y, s.view);
    DrawsColor(B.Work(q.bg, x + 1, false, s.view.tiles), s.env.mem, s.bytes, BgBase(s.ctrl), s.view, x, y, f);
  }

  /** At the swap, the hit flag says whether sprite 0 met the background anywhere, and the overflow
    flag whether some line overflowed, provided no scan was left unfinished before the frame. */
  lemma FlagsTellTheFrame(p: Ppu, es: seq<Event>, env: Env)
    requires Elapsed(p, env) == 0 && Rendering(p.mask) && p.bg.scroll.t.row <= 29
    requires Quiet(es) && Passed(p.frame, Tocks(es), env.region) == PictureDots(env.region)
    ensures
      var q, s := Run(p, es, env), SceneOf(p, env);
      && q.scanline == VblankLine(env.region) - 1 && q.cycle == 0
      && q.zeroHit == (exists x: nat, y: nat :: x < 256 && y < 240 && Picture(s, x, y).zeroHit)
      && (p.spr.countdown == 0 ==>
            q.spr.overflow == exists y: nat :: y < 240 && E.Overflows(s.cast.oam, Hit(p.ctrl, y)))
  {
    var s, q := SceneOf(p, env), Run(p, es, env);
    var g := GoalOf(s);
    FrameShows(p, es, env, s, g);
    HitAnywhere(s, g);
    LateAnywhere(p, env, s);
    hide Run, Picture, SceneOf, GoalOf, Tocks, Met, Painted, F.LateBefore;
  }

  lemma NoHitInLastColumn(s: Scene, y: nat)
    ensures !LastDot(s, y).zeroHit && !Picture(s, 255, y).zeroHit
  {
  }

  lemma HitAnywhere(s: Scene, g: Goal)
    requires g == GoalOf(s)
    ensures Met(g.meets, 0, 240) == exists x: nat, y: nat :: x < 256 && y < 240 && Picture(s, x, y).zeroHit
  {
    hide Picture, LastDot;
    if Met(g.meets, 0, 240) {
      var i, j :| Drawn(i, j, 0, 240) && g.meets(i, j);
      var x: nat, y: nat := i, j;
      NoHitInLastColumn(s, y);
      assert Picture(s, x, y).zeroHit;
    }
    if x: nat, y: nat :| x < 256 && y < 240 && Picture(s, x, y).zeroHit {
      NoHitInLastColumn(s, y);
      assert Drawn(x, y, 0, 240) && g.meets(x, y);
    }
  }

  lemma LateAnywhere(p: Ppu, env: Env, s: Scene)
    requires s == SceneOf(p, env)
    ensures F.LateBefore(s.cast, 240) == exists y: nat :: y < 240 && E.Overflows(s.cast.oam, Hit(p.ctrl, y))
  {
    hide E.Overflows, Hit;
    assert forall y: nat :: s.cast.hit(y) == Hit(p.ctrl, y);
  }

  /** At the start of visible line n, `v` is n lines below `t` and two tiles to its right. */
  lemma ScrollOverFrame(p: Ppu, es: seq<Event>, env: Env, n: nat)
    requires Elapsed(p, env) == 0 && Rendering(p.mask) && p.bg.scroll.t.row <= 29
    requires Quiet(es) && n < 240 && Passed(p.frame, Tocks(es), env.region) == 341 * (n + 1)
    ensures
      var q, t := Run(p, es, env), p.bg.scroll.t;
      && q.scanline == n && q.cycle == 0
      && WorldY(q.bg.scroll.v) == (WorldY(t) + n) % 480
      && WorldCol(q.bg.scroll.v) == (WorldCol(t) + 2) % 64
  {
    hide Run, GoalOf, Tocks, InFrame, AfterPicture, Rendering, Elapsed;
    var s, q := SceneOf(p, env), Run(p, es, env);
    FrameShows(p, es, env, s, GoalOf(s));
    LineStarts(q, s, GoalOf(s), n, 2);
  }

  lemma LineStarts(q: Ppu, s: Scene, g: Goal, n: nat, m: nat)
    requires InFrame(q, s, g) && n < 240 && Elapsed(q, s.env) == 341 * (n + 1) && s.view.t.row <= 29 && m == 2
    ensures q.scanline == n && q.cycle == 0
    ensures WorldY(q.bg.scroll.v) == (WorldY(s.view.t) + n) % 480
    ensures WorldCol(q.bg.scroll.v) == (WorldCol(s.view.t) + m) % 64
  {
    hide Met, Painted, F.VisibleInv, F.SlotsInv, F.PrerenderInv, B.Fetched, B.HoldsTiles, B.Latched, B.Place, WorldY,
        WorldCol;
    PlaceFields(s.view, n, m);
  }

  /** Reading OAMDATA while sprites are being loaded runs past the end of secondary OAM exactly on
    the lines that eight sprites or more cover; at no other dot of the frame does it fail. */
  lemma OamReadFails(p: Ppu, es: seq<Event>, env: Env)
    requires Elapsed(p, env) == 0 && Rendering(p.mask) && p.bg.scroll.t.row <= 29
    requires Quiet(es) && Passed(p.frame, Tocks(es), env.region) < PictureDots(env.region)
    ensures
      var q, s := Run(p, es, env), SceneOf(p, env);
      PeekOamData(q).PastTheEnd? <==>
        q.scanline <= LAST_VISIBLE && 257 <= q.cycle <= 320 && |E.Covering(s.cast.oam, Hit(p.ctrl, q.scanline))| >= 8
  {
    hide Run, GoalOf, Tocks, InFrame, AfterPicture, Rendering, Elapsed, E.Covering, PeekOamData;
    var s, q := SceneOf(p, env), Run(p, es, env);
    FrameShows(p, es, env, s, GoalOf(s));
    PeekFails(q, s, GoalOf(s));
  }

  lemma PeekFails(q: Ppu, s: Scene, g: Goal)
    requires Fits(s) && InFrame(q, s, g)
    ensures PeekOamData(q).PastTheEnd? <==>
      q.scanline <= LAST_VISIBLE && 257 <= q.cycle <= 320 && |E.Covering(s.cast.oam, s.cast.hit(q.scanline))| >= 8
  {
    hide Met, Painted, B.LinePos, F.SlotsInv, F.PrerenderInv, E.Covering, D.Loaded, D.Buffers, Rendering, F.LateBefore;
    if q.scanline <= LAST_VISIBLE && 257 <= q.cycle <= 320 {
      assert |F.Line(s.cast, q.scanline + 1)| == |E.FirstEight(E.Covering(s.cast.oam, s.cast.hit(q.scanline)))|;
    }
  }

  lemma {:induction false} AllFound(oam: E.Oam, hit: bv8 -> bool, i: nat)
    requires i <= 64 && hit(0) && forall n :: 0 <= n < 256 ==> oam[n] == 0
    ensures |E.Found(oam, hit, i)| == i
  {
    if i > 0 {
      AllFound(oam, hit, i - 1);
    }
  }

  /** With OAM cleared every line of the first eight is covered by all sprites, and reading $2004 while
    the next line is loaded runs past the end. */
  lemma OamReadFailsThere(p: Ppu, es: seq<Event>, env: Env, y: nat, c: nat)
    requires Elapsed(p, env) == 0 && Rendering(p.mask) && p.bg.scroll.t.row <= 29 && Quiet(es)
    requires p.spr.oamaddr == 0 && forall n :: 0 <= n < 256 ==> p.spr.oam[n] == 0
    requires y < 8 && 257 <= c <= 320 && Passed(p.frame, Tocks(es), env.region) == 341 * (y + 1) + c
    ensures PeekOamData(Run(p, es, env)).PastTheEnd?
  {
    hide Run, GoalOf, Tocks, InFrame, AfterPicture, Rendering, PeekOamData, Hit, E.Found;
    var s, q := SceneOf(p, env), Run(p, es, env);
    ZeroCovers(p.ctrl, y);
    AllFound(s.cast.oam, Hit(p.ctrl, y), 64);
    OamReadFails(p, es, env);
    FrameShows(p, es, env, s, GoalOf(s));
    PlaceIs(q, s, GoalOf(s), y, c);
  }

  lemma PlaceIs(q: Ppu, s: Scene, g: Goal, y: nat, c: nat)
    requires InFrame(q, s, g) && c <= LAST_CYCLE && Elapsed(q, s.env) == 341 * (y + 1) + c
    ensures q.scanline == y && q.cycle == c
  {
    hide OnVisible, OnPrerender, AfterPicture;
  }

  lemma ZeroCovers(ctrl: bv8, line: nat)
    requires line < 8
    ensures Hit(ctrl, line)(0)
  {
    assert (0 as bv8) as int == 0;
  }
}
