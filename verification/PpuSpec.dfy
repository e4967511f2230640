/** The picture processing unit as a state and its steps.

  `Clock` is one PPU cycle; `Step` adds the register accesses that the CPU can make between
  two cycles. The pieces a cycle works on (background, sprites, screen) are those of the
  modules above.
*/
module PpuSpec {
  import opened Words
  import opened Scroll
  import Background
  import World
  import SpriteEval
  import SpriteDraw

  type Screen = s: seq<bv16> | |s| == 61440 witness seq(61440, _ => 0)

  /** What stays fixed: the console and the memory behind the PPU bus. */
  datatype Env = Env(region: Region, mem: Memory)

  datatype Ppu = Ppu(
    cycle: nat, scanline: nat, clocks: nat, masterClock: nat,
    ctrl: bv8, mask: bv8, vblank: bool, zeroHit: bool,
    nmiPending: bool, preventVbl: bool, resetSignal: bool, openBus: bv8,
    bg: Background.Bg, spr: SpriteEval.Spr,
    frame: nat, front: Screen, back: Screen)

  const LAST_CYCLE := 340
  const LAST_VISIBLE := 239

  /** The frame number wraps around like the word it is. */
  const FRAMES := 0x1_0000_0000

  function NextFrame(n: nat): nat { (n + 1) % FRAMES }

  function VblankLine(r: Region): nat { if r.Dendy? then 291 else 241 }

  function PrerenderLine(r: Region): nat { if r.Ntsc? then 261 else 311 }

  function ClockDivider(r: Region): nat { if r.Ntsc? then 4 else 5 }

  /** The odometer stays on the screen. */
  predicate OnScreen(p: Ppu, env: Env) {
    p.cycle <= LAST_CYCLE && p.scanline <= PrerenderLine(env.region)
  }

  // ----- control bits

  predicate Rendering(mask: bv8) { mask & 0x18 != 0 }

  predicate NmiEnabled(ctrl: bv8) { ctrl & 0x80 != 0 }

  predicate TallSprites(ctrl: bv8) { ctrl & 0x20 != 0 }

  function BgBase(ctrl: bv8): bv16 { if ctrl & 0x10 != 0 then 0x1000 else 0 }

  function SpriteBase(ctrl: bv8): bv16 { if ctrl & 0x08 != 0 then 0x1000 else 0 }

  predicate ShowBg(mask: bv8, x: int) { mask & 0x08 != 0 && (x < 8 ==> mask & 0x02 != 0) }

  predicate ShowSprites(mask: bv8, x: int) { mask & 0x10 != 0 && (x < 8 ==> mask & 0x04 != 0) }

  /** The three emphasis bits; red and green trade places outside NTSC. */
  function Emphasis(mask: bv8, r: Region): bv8 {
    if r.Ntsc? then mask & 0xE0
    else (mask & 0x80) | ((if mask & 0x20 != 0 then 0x40 else 0) | (if mask & 0x40 != 0 then 0x20 else 0))
  }

  // ----- one cycle of the two pipelines

  predicate RenderLine(line: nat, r: Region) {
    line <= LAST_VISIBLE || line == PrerenderLine(r)
  }

  /** PAL also evaluates sprites late in vertical blank, to refresh OAM. */
  predicate EvalLine(line: nat, r: Region) {
    line <= LAST_VISIBLE || (r.Pal? && line >= VblankLine(r) + 24)
  }

  function Hit(ctrl: bv8, line: nat): bv8 -> bool {
    y => SpriteDraw.Covers(y as int, if TallSprites(ctrl) then 16 else 8, line)
  }

  function Load(ctrl: bv8, line: nat, mem: Memory): SpriteDraw.Bytes4 -> SpriteEval.Sprite {
    (b: SpriteDraw.Bytes4) => SpriteDraw.SpriteOf(b, line, TallSprites(ctrl), SpriteBase(ctrl), mem)
  }

  function BgWork(p: Ppu, env: Env): Background.Bg {
    if Rendering(p.mask) && RenderLine(p.scanline, env.region) then
      Background.Work(p.bg, p.cycle, p.scanline == PrerenderLine(env.region),
                      Background.TilesOf(env.mem, BgBase(p.ctrl)))
    else p.bg
  }

  function SprWork(p: Ppu, env: Env): SpriteEval.Spr
    requires 1 <= p.cycle
  {
    if Rendering(p.mask) then
      SpriteDraw.Cycle(p.spr, p.cycle, EvalLine(p.scanline, env.region), RenderLine(p.scanline, env.region),
                       p.scanline == PrerenderLine(env.region), Hit(p.ctrl, p.scanline),
                           Load(p.ctrl, p.scanline, env.mem))
    else p.spr
  }

  /** What the PPU reads from its bus at a cycle, in order. */
  function Reads(p: Ppu, env: Env): seq<bv16> {
    if Rendering(p.mask) && RenderLine(p.scanline, env.region) then
      var prerender := p.scanline == PrerenderLine(env.region);
      Background.Reads(p.bg, p.cycle, prerender)
      + SpriteDraw.Reads(p.spr, p.cycle, prerender, p.scanline, TallSprites(p.ctrl), SpriteBase(p.ctrl))
    else []
  }

  /** The pre-render line of an odd NTSC frame is one cycle short. */
  predicate SkipsDot(p: Ppu, env: Env) {
    && Rendering(p.mask) && env.region.Ntsc?
    && p.cycle == 339 && p.scanline == PrerenderLine(env.region) && p.frame % 2 == 1
  }

  // ----- a pixel

  predicate Drawing(p: Ppu) { 1 <= p.cycle <= 256 && p.scanline <= LAST_VISIBLE }

  /** The color number in front of the shift registers. */
  function BgColor(bg: Background.Bg): bv8 {
    World.BitsAt(bg, bg.scroll.fineX as int)
  }

  function BgPalette(bg: Background.Bg, x: int): bv8 {
    World.LatchAt(bg, bg.scroll.fineX as int, x)
  }

  function DotAt(mask: bv8, bg: Background.Bg, spr: SpriteEval.Spr, x: int): SpriteDraw.Dot
    requires 0 <= x < 256
  {
    SpriteDraw.Compose(x, if ShowBg(mask, x) then BgColor(bg) else 0, BgPalette(bg, x),
                       spr.sprites[..spr.count], ShowSprites(mask, x) && spr.present[x], spr.zeroVisible)
  }

  /** Whether `v` points into palette memory, which then colors a blank screen. */
  predicate InPalette(v: Loopy) {
    v.fine & 3 == 3 && v.ntY == 1 && v.ntX == 1 && v.row & 0x18 == 0x18
  }

  function PaletteIndex(mask: bv8, v: Loopy, dot: SpriteDraw.Dot): bv16 {
    if Rendering(mask) || !InPalette(v) then (if dot.color & 0x03 != 0 then dot.color as bv16 else 0)
    else v.col as bv16
  }

  /** What is put on the screen: a color of the palette, made grey or tinted. */
  function ScreenColor(mask: bv8, index: bv16, env: Env): bv16 {
    ((env.mem(0x3F00 + index) as bv16) & (if mask & 0x01 != 0 then 0x30 else 0x3F))
    | ((Emphasis(mask, env.region) as bv16) << 1)
  }

  function Draw(p: Ppu, bg: Background.Bg, spr: SpriteEval.Spr, env: Env): Ppu
    requires Drawing(p)
  {
    var x := p.cycle - 1;
    var dot := DotAt(p.mask, bg, spr, x);
    p.(zeroHit := p.zeroHit || dot.zeroHit,
       back := p.back[x + 256 * p.scanline := ScreenColor(p.mask, PaletteIndex(p.mask, bg.scroll.v, dot), env)])
  }

  // ----- a clock

  function Tick(p: Ppu, env: Env): Ppu
    requires 1 <= p.cycle
  {
    var bg, spr := BgWork(p, env), SprWork(p, env);
    var d := if Drawing(p) then Draw(p, bg, spr, env) else p;
    d.(cycle := if SkipsDot(p, env) then LAST_CYCLE else p.cycle,
       openBus := if Rendering(p.mask) && 257 <= p.cycle <= 320
                     && (EvalLine(p.scanline, env.region) || RenderLine(p.scanline, env.region)) then 0 else p.openBus,
       bg := Background.Shift(bg, p.cycle), spr := spr)
  }

  function NextLine(p: Ppu, env: Env): Ppu {
    var line := p.scanline + 1;
    if line == VblankLine(env.region) - 1 then
      p.(cycle := 0, scanline := line, frame := NextFrame(p.frame), front := p.back, back := p.front)
    else
      p.(cycle := 0, scanline := if line > PrerenderLine(env.region) then 0 else line)
  }

  function StartVblank(p: Ppu): Ppu {
    p.(vblank := p.vblank || !p.preventVbl,
       nmiPending := if p.preventVbl then p.nmiPending else NmiEnabled(p.ctrl),
       preventVbl := false)
  }

  function StopVblank(p: Ppu): Ppu {
    p.(zeroHit := false, spr := p.spr.(overflow := false), vblank := false, nmiPending := false, resetSignal := false)
  }

  /** Dot 1 of two lines raises and clears the vertical blank flag. */
  function VblankEdges(p: Ppu, env: Env): Ppu {
    if p.cycle == 1 && p.scanline == VblankLine(env.region) then StartVblank(p)
    else if p.cycle == 1 && p.scanline == PrerenderLine(env.region) then StopVblank(p)
    else p
  }

  function Clock(p: Ppu, env: Env): Ppu {
    var q := p.(openBus := if p.scanline == 0 then 0 else p.openBus, clocks := p.clocks + 1);
    if q.cycle >= LAST_CYCLE then NextLine(q, env)
    else VblankEdges(Tick(q.(cycle := q.cycle + 1), env), env)
  }

  /** Dots are run while they end by the given master clock. */
  function ClockTo(p: Ppu, clock: nat, env: Env): Ppu
    decreases clock - p.masterClock
  {
    if p.masterClock + ClockDivider(env.region) <= clock then ClockTo(RunDot(p, env), clock, env) else p
  }

  function RunDot(p: Ppu, env: Env): (r: Ppu)
    ensures r.masterClock == p.masterClock + ClockDivider(env.region)
  {
    Clock(p, env).(masterClock := p.masterClock + ClockDivider(env.region))
  }

  // ----- registers

  function MoveScroll(p: Ppu, s: ScrollRegs): Ppu {
    p.(bg := p.bg.(scroll := s))
  }

  /** A value left on the bus. */
  function Drive(p: Ppu, val: bv8): Ppu {
    p.(openBus := val)
  }

  function WriteCtrl(p: Ppu, val: bv8): Ppu {
    var q := p.(openBus := val);
    if p.resetSignal then q
    else
      MoveScroll(q, SelectNametable(p.bg.scroll, val))
        .(ctrl := val, nmiPending := NmiEnabled(val) && (p.vblank || p.nmiPending))
  }

  function WriteMask(p: Ppu, val: bv8): Ppu {
    p.(openBus := val, mask := if p.resetSignal then p.mask else val)
  }

  function StatusBits(p: Ppu): bv8 {
    ((if p.vblank then 0x80 else 0) | (if p.zeroHit then 0x40 else 0)) | (if p.spr.overflow then 0x20 else 0)
  }

  /** Reading the status acknowledges the vertical blank; one dot before it begins, it suppresses it. */
  function ReadStatus(p: Ppu, env: Env): Ppu {
    MoveScroll(p, p.bg.scroll.(latch := false))
      .(nmiPending := false, vblank := false,
        preventVbl := p.preventVbl || (p.scanline == VblankLine(env.region) && p.cycle == 0),
        openBus := p.openBus | StatusBits(p))
  }

  function WriteOamAddr(p: Ppu, val: bv8): Ppu {
    p.(openBus := val, spr := p.spr.(oamaddr := val as int))
  }

  /** While the PPU is busy with OAM, a write only bumps the sprite index. */
  function WriteOamData(p: Ppu, val: bv8, env: Env): Ppu {
    p.(openBus := val,
       spr := if Rendering(p.mask) && (RenderLine(p.scanline, env.region) || EvalLine(p.scanline, env.region)) then
           Bumped(p.spr)
              else Stored(p.spr, val))
  }

  function Bumped(s: SpriteEval.Spr): SpriteEval.Spr {
    s.(oamaddr := (s.oamaddr + 4) % 256)
  }

  function Stored(s: SpriteEval.Spr, val: bv8): SpriteEval.Spr {
    s.(oam := s.oam[s.oamaddr := StoredByte(s.oamaddr, val)], oamaddr := (s.oamaddr + 1) % 256)
  }

  /** Three bits of the attribute byte do not exist. */
  function StoredByte(addr: u8, val: bv8): bv8 {
    if addr % 4 == 2 then val & 0xE3 else val
  }

  /** A byte read from OAM, or the index past its end that stops the program. */
  datatype OamByte = OamByte(val: bv8) | PastTheEnd

  /** While sprites are loaded for the next line, a read sees secondary OAM where evaluation left off. */
  function PeekOamData(p: Ppu): OamByte {
    if p.scanline <= LAST_VISIBLE && Rendering(p.mask) && 257 <= p.cycle <= 320 then
      if p.spr.secaddr < 32 then OamByte(p.spr.sec[p.spr.secaddr]) else PastTheEnd
    else OamByte(p.spr.oam[p.spr.oamaddr])
  }

  function WriteScroll(p: Ppu, val: bv8): Ppu {
    if p.resetSignal then p.(openBus := val)
    else MoveScroll(p.(openBus := val), ScrollWrite(p.bg.scroll, val))
  }

  function WriteAddr(p: Ppu, val: bv8): Ppu {
    if p.resetSignal then p.(openBus := val)
    else MoveScroll(p.(openBus := val), AddrWrite(p.bg.scroll, val))
  }

  /** The move of `v` that goes with every access to the data port. */
  function AccessData(p: Ppu, env: Env): Ppu {
    var s := p.bg.scroll;
    if Rendering(p.mask) && RenderLine(p.scanline, env.region) then MoveScroll(p, s.(v := Down(Right(s.v))))
    else MoveScroll(p, s.(v := Advance(s.v, if p.ctrl & 0x04 != 0 then 32 else 1)))
  }

  /** Reading or writing the data port leaves the value on the bus. */
  function AccessPort(p: Ppu, val: bv8, env: Env): Ppu {
    Drive(AccessData(p, env), val)
  }

  function ResetSpr(s: SpriteEval.Spr, kind: ResetKind): SpriteEval.Spr {
    s.(oamaddr := if kind.Hard? then 0 else s.oamaddr, secaddr := 0, fetch := 0, done := false, countdown := 0,
       inRange := false, zeroInRange := false, zeroVisible := false, count := 0,
       overflow := if kind.Hard? then false else s.overflow,
       sprites := seq(8, _ => SpriteDraw.BLANK_SPRITE), present := seq(256, _ => false))
  }

  /** A soft reset keeps the status flags although the position starts over. */
  function Reset(p: Ppu, kind: ResetKind): Ppu {
    var s := p.bg.scroll;
    MoveScroll(p, ScrollRegs(if kind.Hard? then ORIGIN else s.v, ORIGIN, 0, false))
      .(resetSignal := true, ctrl := 0, mask := 0,
        vblank := if kind.Hard? then false else p.vblank, zeroHit := if kind.Hard? then false else p.zeroHit,
        cycle := 0, scanline := 0, masterClock := 0, nmiPending := false, preventVbl := false, openBus := 0,
        frame := 0, front := seq(61440, _ => 0), back := seq(61440, _ => 0),
        spr := ResetSpr(p.spr, kind))
  }

  // ----- runs

  datatype Event =
    | Tock
    | Ctrl(val: bv8)
    | Mask(val: bv8)
    | Status
    | OamAddr(val: bv8)
    | OamData(val: bv8)
    | ScrollPort(val: bv8)
    | AddrPort(val: bv8)
    | DataPort(val: bv8)
    | ResetLine(kind: ResetKind)

  function Step(p: Ppu, e: Event, env: Env): Ppu {
    match e
    case Tock => Clock(p, env)
    case Ctrl(val) => WriteCtrl(p, val)
    case Mask(val) => WriteMask(p, val)
    case Status => ReadStatus(p, env)
    case OamAddr(val) => WriteOamAddr(p, val)
    case OamData(val) => WriteOamData(p, val, env)
    case ScrollPort(val) => WriteScroll(p, val)
    case AddrPort(val) => WriteAddr(p, val)
    case DataPort(val) => AccessPort(p, val, env)
    case ResetLine(kind) => Reset(p, kind)
  }

  function Run(p: Ppu, es: seq<Event>, env: Env): Ppu {
    if es == [] then p else Step(Run(p, es[..|es| - 1], env), es[|es| - 1], env)
  }
}
