/** The last column of the screen: when it shows the picture, and a frame in which it does not. */
module LastColumn {
  import opened Words
  import opened PpuSpec
  import opened Frame
  import opened Odometer
  import opened World
  import B = Background
  import E = SpriteEval
  import D = SpriteDraw
  import F = SpriteFrame

  // ----- what slots can hold

  /** A loaded sprite has one of the four sprite palettes; one that was never loaded has no pixels. */
  predicate Sane(sprite: E.Sprite) {
    sprite.palette & 0xF3 == 0x10 || (sprite.tileHi == 0 && sprite.tileLo == 0)
  }

  predicate SaneSlots(slots: E.Slots) {
    forall i :: 0 <= i < 8 ==> Sane(slots[i])
  }

  lemma LoadedIsSane(ctrl: bv8, line: nat, mem: Memory, b: D.Bytes4)
    ensures Sane(Load(ctrl, line, mem)(b))
  {
    PaletteIsSane(b[2]);
    hide Sane;
    assert Load(ctrl, line, mem)(b).palette == ((b[2] & 0x03) << 2) | 0x10;
    SaneByPalette(Load(ctrl, line, mem)(b));
  }

  lemma PaletteIsSane(attr: bv8)
    ensures (((attr & 0x03) << 2) | 0x10) & 0xF3 == 0x10
  {
  }

  lemma SaneByPalette(sprite: E.Sprite)
    requires sprite.palette & 0xF3 == 0x10
    ensures Sane(sprite)
  {
  }

  lemma FetchStaysSane(s: E.Spr, c: int, ctrl: bv8, line: nat, mem: Memory)
    requires SaneSlots(s.sprites) && 257 <= c <= 320
    ensures SaneSlots(D.FetchSprites(s, c, Load(ctrl, line, mem)).sprites)
  {
    hide Sane, Load;
    if c % 8 == 4 {
      var slot := (c - 257) / 8;
      LoadedIsSane(ctrl, line, mem, s.sec[4 * slot..4 * slot + 4]);
    }
  }

  lemma WorkStaysSane(p: Ppu, env: Env)
    requires SaneSlots(p.spr.sprites) && 1 <= p.cycle
    ensures SaneSlots(SprWork(p, env).sprites)
  {
    hide Sane, SaneSlots, E.EvalCycle, D.FetchSprites, D.Spill, Hit, Load, Rendering;
    var hit, load := Hit(p.ctrl, p.scanline), Load(p.ctrl, p.scanline, env.mem);
    if p.cycle <= 256 {
      F.EvalKeepsSlots(p.spr, p.cycle, hit);
    }
    var e := if EvalLine(p.scanline, env.region) then D.Evaluating(p.spr, p.cycle, hit) else p.spr;
    var prerender := p.scanline == PrerenderLine(env.region);
    F.SpillKeepsSlots(e, p.cycle);
    if 257 <= p.cycle <= 320 {
      FetchStaysSane(if prerender then D.Spill(e, p.cycle).(count := 0) else e, p.cycle, p.ctrl, p.scanline, env.mem);
    }
  }

  lemma ClockSlots(p: Ppu, env: Env)
    ensures p.cycle >= LAST_CYCLE ==> Clock(p, env).spr.sprites == p.spr.sprites
    ensures p.cycle < LAST_CYCLE ==> Clock(p, env).spr.sprites == SprWork(Ticking(p), env).sprites
  {
    hide SprWork, Tick, VblankEdges;
    if p.cycle < LAST_CYCLE {
      ClockTicks(p, env);
      TickSlots(Ticking(p), env);
      EdgesKeepSlots(Tick(Ticking(p), env), env);
    }
  }

  lemma TickSlots(q: Ppu, env: Env)
    requires 1 <= q.cycle
    ensures Tick(q, env).spr == SprWork(q, env)
  {
    hide SprWork, BgWork, DotAt, ScreenColor, B.Shift, SkipsDot;
  }

  lemma EdgesKeepSlots(q: Ppu, env: Env)
    ensures VblankEdges(q, env).spr.sprites == q.spr.sprites
  {
  }

  lemma PortsKeepSlots(p: Ppu, e: Event, env: Env)
    requires !e.Tock? && !e.ResetLine?
    ensures Step(p, e, env).spr.sprites == p.spr.sprites
  {
    hide Rendering, NmiEnabled, StatusBits, StoredByte, WriteCtrl, ReadStatus, WriteOamData, WriteScroll, WriteAddr,
        AccessPort;
    match e
    case Ctrl(val) => CtrlKeepsSlots(p, val);
    case OamData(val) => OamKeepsSlots(p, val, env);
    case DataPort(val) => DataKeepsSlots(p, val, env);
    case Status => StatusKeepsSlots(p, env);
    case ScrollPort(val) => ScrollKeepsSlots(p, val);
    case AddrPort(val) => ScrollKeepsSlots(p, val);
    case Mask(val) =>
    case OamAddr(val) =>
  }

  lemma CtrlKeepsSlots(p: Ppu, val: bv8)
    ensures WriteCtrl(p, val).spr == p.spr
  {
  }

  lemma StatusKeepsSlots(p: Ppu, env: Env)
    ensures ReadStatus(p, env).spr == p.spr
  {
  }

  lemma ScrollKeepsSlots(p: Ppu, val: bv8)
    ensures WriteScroll(p, val).spr == p.spr && WriteAddr(p, val).spr == p.spr
  {
  }

  lemma DataKeepsSlots(p: Ppu, val: bv8, env: Env)
    ensures AccessPort(p, val, env).spr == p.spr
  {
  }

  lemma OamKeepsSlots(p: Ppu, val: bv8, env: Env)
    ensures WriteOamData(p, val, env).spr.sprites == p.spr.sprites
  {
    hide Rendering, StoredByte;
  }

  /** In every reachable state the slots are sane. */
  lemma {:induction false} SlotsStaySane(p: Ppu, es: seq<Event>, env: Env)
    requires SaneSlots(p.spr.sprites)
    ensures SaneSlots(Run(p, es, env).spr.sprites)
  {
    hide SaneSlots, Clock, SprWork, Step, Reset;
    if es != [] {
      var q, e := Run(p, es[..|es| - 1], env), es[|es| - 1];
      SlotsStaySane(p, es[..|es| - 1], env);
      StepSlots(q, e, env);
    }
  }

  lemma StepSlots(q: Ppu, e: Event, env: Env)
    requires SaneSlots(q.spr.sprites)
    ensures SaneSlots(Step(q, e, env).spr.sprites)
  {
    hide SaneSlots, Clock, SprWork, Reset;
    if e.Tock? {
      ClockSlots(q, env);
      if q.cycle < LAST_CYCLE {
        WorkStaysSane(Ticking(q), env);
      }
    } else if e.ResetLine? {
      ResetIsSane(q, e.kind);
    } else {
      PortsKeepSlots(q, e, env);
    }
  }

  lemma ResetIsSane(p: Ppu, kind: ResetKind)
    ensures SaneSlots(Reset(p, kind).spr.sprites)
  {
  }

  // ----- when the last dot is the picture's

  lemma LineIsSane(s: Scene, n: nat, i: nat)
    requires Fits(s) && i < |F.Line(s.cast, n)|
    ensures Sane(F.Line(s.cast, n)[i])
  {
    hide Sane, Load, E.Covering;
    var found := E.FirstEight(E.Covering(s.cast.oam, s.cast.hit(n - 1)));
    var n' := n - 1;
    assert s.cast.load(n') == Load(s.ctrl, n', s.env.mem);
    LoadedIsSane(s.ctrl, n', s.env.mem, E.OamBytes(s.cast.oam, found[i]));
  }

  lemma {:induction false} HeldIsSane(s: Scene, n: nat)
    requires Fits(s) && SaneSlots(s.cast.slots)
    ensures SaneSlots(F.Held(s.cast, n))
  {
    hide Sane, F.Line, Fits;
    if n > 0 {
      HeldIsSane(s, n - 1);
      forall i | 0 <= i < 8 ensures Sane(F.Held(s.cast, n)[i]) {
        if i < |F.Line(s.cast, n)| {
          LineIsSane(s, n, i);
        }
      }
    }
  }

  /** A sprite hides nothing of the background behind it. */
  predicate Behind(sprite: E.Sprite, bg: bv8) {
    bg != 0 && sprite.behind
  }

  /** Cutting the slots at the number of the next line neither takes away the sprite that shows in
    the last column nor brings an old one into sight. */
  predicate LastColumnHolds(slots: seq<E.Sprite>, line: seq<E.Sprite>, next: nat, bg: bv8)
    requires next <= |slots|
  {
    var k, j := D.FirstOpaque(line, 255, 0), D.FirstOpaque(slots[..next], 255, 0);
    if k < |line| then k < next || Behind(line[k], bg)
    else j == next || Behind(slots[j], bg)
  }

  lemma SpriteColors(palette: bv8, pixel: bv8, bgPalette: bv8, bg: bv8)
    requires palette & 0xF3 == 0x10 && 1 <= pixel <= 3 && bgPalette & 0xF3 == 0 && bg <= 3
    ensures palette + pixel != bgPalette + bg
  {
  }

  lemma PixelRange(sprite: E.Sprite, x: int)
    requires D.InSprite(sprite, x)
    ensures D.SpritePixel(sprite, x) <= 3
    ensures sprite.tileHi == 0 && sprite.tileLo == 0 ==> D.SpritePixel(sprite, x) == 0
  {
  }

  lemma ShowsItself(sprite: E.Sprite, x: int, bgPalette: bv8, bg: bv8)
    requires Sane(sprite) && D.InSprite(sprite, x) && D.SpritePixel(sprite, x) != 0 && bgPalette & 0xF3 == 0 && bg <= 3
    ensures sprite.palette + D.SpritePixel(sprite, x) != bgPalette + bg
  {
    PixelRange(sprite, x);
    hide D.SpritePixel;
    SpriteColors(sprite.palette, D.SpritePixel(sprite, x), bgPalette, bg);
  }

  lemma NotOccupied(line: seq<E.Sprite>, x: int)
    requires !D.Occupied(line, x)
    ensures D.FirstOpaque(line, x, 0) == |line|
  {
  }

  function OwnColor(sprite: E.Sprite): bv8
    requires D.InSprite(sprite, 255)
  {
    sprite.palette + D.SpritePixel(sprite, 255)
  }

  lemma ComposedAt(line: seq<E.Sprite>, bg: bv8, bgPalette: bv8, zero: bool)
    ensures
      var k := D.FirstOpaque(line, 255, 0);
      D.Compose(255, bg, bgPalette, line, true, zero) ==
        D.Dot(if k == |line| || Behind(line[k], bg) then bgPalette + bg else OwnColor(line[k]), false)
  {
  }

  /** Where the first opaque sprite of the cut slots is. */
  lemma FirstOfCut(slots: E.Slots, line: seq<E.Sprite>, next: nat)
    requires next <= 8 && |line| <= 8 && slots[..|line|] == line
    ensures
      var k, j := D.FirstOpaque(line, 255, 0), D.FirstOpaque(slots[..next], 255, 0);
      && (k < |line| && k < next ==> j == k)
      && (k < |line| && next <= k ==> j == next)
  {
    hide D.InSprite, D.SpritePixel;
    var k, j := D.FirstOpaque(line, 255, 0), D.FirstOpaque(slots[..next], 255, 0);
    assert forall i :: 0 <= i < |line| ==> line[i] == slots[i];
    assert forall i :: 0 <= i < next ==> slots[..next][i] == slots[i];
  }

  lemma CutIsExact(slots: E.Slots, line: seq<E.Sprite>, next: nat, bg: bv8, bgPalette: bv8, zero: bool, nextZero: bool)
    requires next <= 8 && |line| <= 8 && slots[..|line|] == line && SaneSlots(slots)
    requires bg <= 3 && bgPalette & 0xF3 == 0
    ensures D.Compose(255, bg, bgPalette, slots[..next], true, nextZero) ==
        D.Compose(255, bg, bgPalette, line, true, zero)
      <==> LastColumnHolds(slots, line, next, bg)
  {
    hide D.InSprite, D.SpritePixel, D.Compose, OwnColor, Behind, Sane;
    var k, j := D.FirstOpaque(line, 255, 0), D.FirstOpaque(slots[..next], 255, 0);
    ComposedAt(slots[..next], bg, bgPalette, nextZero);
    ComposedAt(line, bg, bgPalette, zero);
    FirstOfCut(slots, line, next);
    if k < |line| {
      assert line[k] == slots[k];
      DiffersFrom(slots[k], bgPalette, bg);
    } else if j < next {
      DiffersFrom(slots[j], bgPalette, bg);
    }
  }

  lemma DiffersFrom(sprite: E.Sprite, bgPalette: bv8, bg: bv8)
    requires Sane(sprite) && D.InSprite(sprite, 255) && D.SpritePixel(sprite, 255) != 0 && bgPalette & 0xF3 == 0
        && bg <= 3
    ensures OwnColor(sprite) != bgPalette + bg
  {
    hide Sane, D.SpritePixel;
    ShowsItself(sprite, 255, bgPalette, bg);
  }

  lemma BackgroundRange(s: Scene, y: nat)
    requires s.view.t.row <= 29
    ensures BackgroundAt(s, 255, y) <= 3 && PaletteOf(s, TileOf(s.view, 255), y) & 0xF3 == 0
  {
  }

  lemma HeldStarts(k: F.Cast, n: nat)
    requires n > 0
    ensures F.Held(k, n)[..|F.Line(k, n)|] == F.Line(k, n)
  {
    hide F.Line;
  }

  /** The last dot of a line is that of the picture exactly if no sprite of the line lies in the last
    column, or sprites are off, or cutting the slots at the sprites of the next line changes nothing
    that shows there. */
  lemma LastColumnIsExact(p: Ppu, env: Env, y: nat)
    requires Elapsed(p, env) == 0 && Rendering(p.mask) && p.bg.scroll.t.row <= 29 && SaneSlots(p.spr.sprites)
    ensures
      var s := SceneOf(p, env);
      var line, next := F.Line(s.cast, y), |F.Line(s.cast, y + 1)|;
      LastDot(s, y) == Picture(s, 255, y) <==>
        || !ShowSprites(p.mask, 255)
        || !D.Occupied(line, 255)
        || LastColumnHolds(F.Held(s.cast, y), line, next, BackgroundAt(s, 255, y))
  {
    hide F.Line, F.Held, BackgroundAt, PaletteOf, ShowSprites, Rendering, Fits, D.Occupied, D.Compose, LastColumnHolds,
        Shows;
    var s := SceneOf(p, env);
    FrameStart(p, env);
    LastIsCut(s, y);
  }

  lemma LastIsCut(s: Scene, y: nat)
    requires Fits(s) && SaneSlots(s.cast.slots)
    ensures
      var line, next := F.Line(s.cast, y), |F.Line(s.cast, y + 1)|;
      LastDot(s, y) == Picture(s, 255, y) <==>
        || !ShowSprites(s.mask, 255)
        || !D.Occupied(line, 255)
        || LastColumnHolds(F.Held(s.cast, y), line, next, BackgroundAt(s, 255, y))
  {
    var line, next := F.Line(s.cast, y), |F.Line(s.cast, y + 1)|;
    LastTile(s, y);
    hide F.Line, F.Held, BackgroundAt, PaletteOf, ShowSprites, Fits, D.Occupied, LastColumnHolds, D.FirstOpaque,
        SaneSlots;
    if ShowSprites(s.mask, 255) {
      if D.Occupied(line, 255) {
        SomeLine(s.cast, y);
        HeldStarts(s.cast, y);
        HeldIsSane(s, y);
        BackgroundRange(s, y);
        CutIsExact(F.Held(s.cast, y), line, next, BackgroundAt(s, 255, y), PaletteOf(s, TileOf(s.view, 255), y),
                   F.ZeroOn(s.cast, y), F.ZeroOn(s.cast, y + 1));
      } else {
        NotOccupied(line, 255);
      }
    }
  }

  lemma SomeLine(k: F.Cast, n: nat)
    requires D.Occupied(F.Line(k, n), 255)
    ensures n > 0
  {
  }

  lemma LastTile(s: Scene, y: nat)
    requires Fits(s)
    ensures s.view.t.row <= 29 && Max(1, TileOf(s.view, 255)) == TileOf(s.view, 255)
  {
    hide Rendering;
  }

  // ----- a frame that loses a pixel

  /** Pattern and name tables full of ones, and a palette of different colors. */
  function Solid(addr: bv16): bv8 {
    if addr < 0x3F00 then 0xFF else (addr & 0x1F) as bv8
  }

  /** One sprite at X = 248 and Y = 10; the others are below the screen. */
  function LoneOam(): E.Oam {
    seq(256, i => if i == 0 then 10 else if i == 1 || i == 2 then 0 else if i == 3 then 248 else 0xFF)
  }

  lemma {:induction false} LoneFound(hit: bv8 -> bool, i: nat)
    requires 1 <= i <= 64 && !hit(0xFF)
    ensures E.Found(LoneOam(), hit, i) == if hit(10) then [0] else []
  {
    if i > 1 {
      LoneFound(hit, i - 1);
    } else {
      assert E.Found(LoneOam(), hit, 0) == [];
    }
  }

  lemma LoneHits(line: nat)
    requires line < 240
    ensures !Hit(0, line)(0xFF) && (Hit(0, line)(10) <==> 10 <= line < 18)
  {
    assert (0xFF as bv8) as int == 255 && (10 as bv8) as int == 10;
  }

  /** The sprite as it is drawn on any of its lines. */
  lemma LoneLoads(line: nat)
    ensures var sprite := Load(0, line, Solid)([10, 0, 0, 248]);
      && sprite.x == 248 && !sprite.behind && !sprite.flipX && sprite.palette == 0x10
      && sprite.tileHi == 0xFF && sprite.tileLo == 0xFF
  {
    var row := D.SpriteRow(10, 8, line, false);
    assert (10 as bv8) as int == 10 && (248 as bv8) as int == 248;
    RowAddr(row as bv16);
  }

  lemma RowAddr(row: bv16)
    requires row < 8
    ensures Solid(row) == 0xFF && Solid(B.HighPlane(row)) == 0xFF
  {
  }

  predicate Lone(p: Ppu) {
    && p.spr.oam == LoneOam() && p.spr.oamaddr == 0 && p.ctrl == 0 && p.mask == 0x1E && p.bg.scroll.t.row <= 29
    && SaneSlots(p.spr.sprites)
  }

  lemma LoneLine(p: Ppu, env: Env, n: nat)
    requires Lone(p) && env.mem == Solid && 0 < n <= 240
    ensures
      var line := F.Line(SceneOf(p, env).cast, n);
      line == if 10 < n <= 18 then [Load(0, n - 1, Solid)([10, 0, 0, 248])] else []
  {
    hide Load, Hit, SaneSlots, E.Found, E.Covering, LoneOam;
    var k := SceneOf(p, env).cast;
    LoneHits(n - 1);
    LoneCovering(k.hit(n - 1));
    LoneBytes();
  }

  lemma LoneBytes()
    ensures E.OamBytes(LoneOam(), 0) == [10, 0, 0, 248]
  {
  }

  lemma LoneCovering(hit: bv8 -> bool)
    requires !hit(0xFF)
    ensures E.FirstEight(E.Covering(LoneOam(), hit)) == if hit(10) then [0] else []
  {
    hide E.Found, LoneOam;
    LoneFound(hit, 64);
  }

  lemma SolidPixel(sprite: E.Sprite)
    requires sprite.x == 248 && sprite.tileHi == 0xFF && sprite.tileLo == 0xFF && !sprite.flipX
    ensures D.InSprite(sprite, 255) && D.SpritePixel(sprite, 255) == 3
    ensures D.FirstOpaque([sprite], 255, 0) == 0 && D.Occupied([sprite], 255)
  {
    assert [sprite][0] == sprite;
  }

  /** On the last line of a lone opaque sprite at X = 248 its last column is not drawn: the count of
    the next line, which has no sprite, is latched on that dot. */
  lemma LastPixelIsLost(p: Ppu, env: Env)
    requires Elapsed(p, env) == 0 && Lone(p) && env.mem == Solid
    ensures
      var s := SceneOf(p, env);
      && Picture(s, 255, 18).color == 0x13
      && LastDot(s, 18) != Picture(s, 255, 18)
      && ColorOf(s, LastDot(s, 18)) != ColorOf(s, Picture(s, 255, 18))
  {
    hide F.Line, F.Held, BackgroundAt, PaletteOf, Load, SaneSlots, E.Covering, D.Compose, LoneOam, D.SpritePixel,
        ScreenColor;
    var s := SceneOf(p, env);
    LoneLine(p, env, 18);
    LoneLine(p, env, 19);
    LoneLoads(17);
    var sprite := Load(0, 17, Solid)([10, 0, 0, 248]);
    SolidPixel(sprite);
    ShownInLast(p.mask);
    LastColumnIsExact(p, env, 18);
    ComposedAt([sprite], BackgroundAt(s, 255, 18), PaletteOf(s, Max(1, TileOf(s.view, 255)), 18), F.ZeroOn(s.cast, 18));
    ComposedAt([], BackgroundAt(s, 255, 18), PaletteOf(s, TileOf(s.view, 255), 18), F.ZeroOn(s.cast, 19));
    assert F.Held(s.cast, 18)[..0] == [];
    BackgroundRange(s, 18);
    LowColors(PaletteOf(s, TileOf(s.view, 255), 18), BackgroundAt(s, 255, 18));
    Tints(LastDot(s, 18).color, env);
  }

  lemma LowColors(bgPalette: bv8, bg: bv8)
    requires bgPalette & 0xF3 == 0 && bg <= 3
    ensures bgPalette + bg < 0x10
  {
  }

  lemma Tints(color: bv8, env: Env)
    requires color < 0x10 && env.mem == Solid
    ensures ScreenColor(0x1E, if color & 0x03 != 0 then color as bv16 else 0, env) != ScreenColor(0x1E, 0x13, env)
  {
  }

  lemma ShownInLast(mask: bv8)
    requires mask == 0x1E
    ensures Rendering(mask) && ShowSprites(mask, 255) && ShowBg(mask, 255)
  {
  }
}
