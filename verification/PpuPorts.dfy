/** What the registers of the picture unit mean, in numbers: the bits of the control, mask and status bytes,
  where a pair of scroll writes puts the picture, which address a pair of address writes names and how
  far an access moves it, and which color ends up on the screen. */
module PpuPorts {
  import opened Words
  import opened Scroll
  import opened PpuSpec
  import opened ByteBits
  import Odometer
  import W = World

  // ----- control, mask and status

  /** Bit 7 asks for the interrupt, bit 5 for tall sprites, bits 4 and 3 choose the pattern tables. */
  lemma ControlBits(ctrl: bv8)
    ensures NmiEnabled(ctrl) == (ctrl as int / 128 == 1)
    ensures TallSprites(ctrl) == (ctrl as int / 32 % 2 == 1)
    ensures BgBase(ctrl) == (if ctrl as int / 16 % 2 == 1 then 0x1000 else 0)
    ensures SpriteBase(ctrl) == (if ctrl as int / 8 % 2 == 1 then 0x1000 else 0)
  {
    BitsAre(ctrl);
  }

  /** Bits 3 and 4 show background and sprites, bits 1 and 2 show them in the left eight columns too. */
  lemma MaskBits(mask: bv8, x: int)
    ensures Rendering(mask) == (mask as int / 8 % 2 == 1 || mask as int / 16 % 2 == 1)
    ensures ShowBg(mask, x) == (mask as int / 8 % 2 == 1 && (x >= 8 || mask as int / 2 % 2 == 1))
    ensures ShowSprites(mask, x) == (mask as int / 16 % 2 == 1 && (x >= 8 || mask as int / 4 % 2 == 1))
  {
    BitsAre(mask);
    EitherBit(mask);
  }

  lemma EitherBit(mask: bv8)
    ensures (mask & 0x18 != 0) == (mask & 0x08 != 0 || mask & 0x10 != 0)
  {
  }

  /** Bit 7 of the status is the vertical blank, bit 6 the sprite 0 hit, bit 5 the sprite overflow. */
  lemma StatusIs(p: Ppu)
    ensures StatusBits(p) as int == 128 * Flag(p.vblank) + 64 * Flag(p.zeroHit) + 32 * Flag(p.spr.overflow)
  {
  }

  /** The byte that a program reads has the low five bits of what was on the bus. */
  lemma StatusByte(p: Ppu)
    ensures
      (StatusBits(p) | (p.openBus & 0x1F)) as int ==
        128 * Flag(p.vblank) + 64 * Flag(p.zeroHit) + 32 * Flag(p.spr.overflow) + p.openBus as int % 32
  {
    hide StatusBits;
    StatusIs(p);
    HighBits(p);
    LowBits(p.openBus);
    Joins(StatusBits(p), p.openBus & 0x1F);
  }

  lemma HighBits(p: Ppu)
    ensures StatusBits(p) & 0x1F == 0
  {
  }

  lemma LowBits(b: bv8)
    ensures (b & 0x1F) as int == b as int % 32 && b & 0x1F < 32
  {
  }

  lemma Joins(high: bv8, low: bv8)
    requires high & 0x1F == 0 && low < 32
    ensures (high | low) as int == high as int + low as int
  {
    assert high | low == high + low;
  }

  // ----- positions

  lemma Low3(val: bv8)
    ensures ((val & 0x07) as bv3) as int == val as int % 8
  {
  }

  lemma High5(val: bv8)
    ensures ((val >> 3) as bv5) as int == val as int / 8
  {
  }

  /** Two scroll writes put the picture at x pixels and y lines from the corner of the nametable. */
  lemma ScrollsTo(s: ScrollRegs, x: bv8, y: bv8)
    requires !s.latch
    ensures
      var r := ScrollWrite(ScrollWrite(s, x), y);
      && 8 * WorldCol(r.t) + r.fineX as int == 256 * s.t.ntX as int + x as int
      && WorldY(r.t) == 240 * s.t.ntY as int + y as int
      && r.v == s.v && !r.latch && r.t.ntX == s.t.ntX && r.t.ntY == s.t.ntY
  {
    Low3(x);
    High5(x);
    Low3(y);
    High5(y);
  }

  lemma Low1(val: bv8)
    ensures ((val & 0x01) as bv1) as int == val as int % 2
  {
  }

  lemma SecondBit(val: bv8)
    ensures (((val >> 1) & 0x01) as bv1) as int == val as int / 2 % 2
  {
    Halves(val);
    Low1(val >> 1);
  }

  /** The two low control bits choose the nametable of the corner, one step right and one down. */
  lemma NametableIs(s: ScrollRegs, val: bv8)
    ensures
      var r := SelectNametable(s, val);
      && r.t.ntX as int == val as int % 2 && r.t.ntY as int == val as int / 2 % 2
      && r.t.col == s.t.col && r.t.row == s.t.row && r.t.fine == s.t.fine
      && r.v == s.v && r.fineX == s.fineX && r.latch == s.latch
  {
    Low1(val);
    SecondBit(val);
  }

  // ----- addresses

  /** The position as the address that the data port uses. */
  function Address(p: Loopy): (addr: int)
    ensures 0 <= addr < 0x4000
  {
    AddressBounds(p);
    Place(p.fine as int, p.ntY as int, p.ntX as int, p.row as int, p.col as int)
  }

  function Place(fine: int, ntY: int, ntX: int, row: int, col: int): int {
    0x1000 * (fine % 4) + 0x800 * ntY + 0x400 * ntX + 32 * row + col
  }

  lemma AddressBounds(p: Loopy)
    ensures 0 <= Place(p.fine as int, p.ntY as int, p.ntX as int, p.row as int, p.col as int) < 0x4000
  {
  }

  lemma Fine2(fine: bv3)
    ensures (fine & 3) as int == fine as int % 4
  {
  }

  lemma NextCol(col: bv5)
    requires col < 31
    ensures (col + 1) as int == col as int + 1
  {
  }

  lemma NextFine(fine: bv3)
    ensures ((fine + 1) & 3) as int == (fine as int + 1) % 4
  {
  }

  lemma Last5(b: bv5)
    ensures b as int < 32 && (b < 31 <==> b as int < 31)
  {
  }

  lemma OneBit(b: bv1)
    ensures b as int == if b == 0 then 0 else 1
  {
  }

  /** The fields after a carry into the row. */
  predicate RowMoved(fine: int, ntY: int, ntX: int, row: int, fine': int, ntY': int, ntX': int, row': int) {
    if row < 31 then row' == row + 1 && ntX' == ntX && ntY' == ntY && fine' == fine % 4
    else
      && row' == 0 && ntX' == 1 - ntX && ntY' == (if ntX == 0 then ntY else 1 - ntY)
      && fine' == (fine + if ntX == 1 && ntY == 1 then 1 else 0) % 4
  }

  /** The carry through the fields in numbers. */
  lemma Carries(fine: int, ntY: int, ntX: int, row: int, fine': int, ntY': int, ntX': int, row': int, col: int)
    requires 0 <= fine && 0 <= ntY < 2 && 0 <= ntX < 2 && 0 <= row < 32 && 0 <= col < 32
    requires RowMoved(fine, ntY, ntX, row, fine', ntY', ntX', row')
    ensures Place(fine', ntY', ntX', row', col) == (Place(fine, ntY, ntX, row, col) + 32) % 0x4000
  {
  }

  lemma RowMoves(p: Loopy)
    ensures
      var r := Advance(p, 32);
      && r.col == p.col
      && RowMoved(p.fine as int, p.ntY as int, p.ntX as int, p.row as int,
                  r.fine as int, r.ntY as int, r.ntX as int, r.row as int)
  {
    Fine2(p.fine);
    NextFine(p.fine);
    Last5(p.row);
    OneBit(p.ntX);
    OneBit(p.ntY);
    if p.row < 31 {
      NextCol(p.row);
    }
  }

  lemma AdvancesRow(p: Loopy)
    ensures Address(Advance(p, 32)) == (Address(p) + 32) % 0x4000
  {
    hide Advance, Place, RowMoved;
    var r := Advance(p, 32);
    RowMoves(p);
    Carries(p.fine as int, p.ntY as int, p.ntX as int, p.row as int,
            r.fine as int, r.ntY as int, r.ntX as int, r.row as int, p.col as int);
  }

  lemma ColumnCarries(p: Loopy)
    requires p.col == 31
    ensures Advance(p, 1) == Advance(p.(col := 0), 32) && Address(p) == Address(p.(col := 0)) + 31
  {
  }

  lemma AdvancesColumn(p: Loopy)
    requires p.col < 31
    ensures Address(Advance(p, 1)) == Address(p) + 1
  {
    NextCol(p.col);
    Fine2(p.fine);
  }

  /** An access moves the address on by 1, or by 32, within 14 bits. */
  lemma AdvancesBy(p: Loopy, step: bv16)
    requires step == 1 || step == 32
    ensures Address(Advance(p, step)) == (Address(p) + if step == 1 then 1 else 32) % 0x4000
  {
    hide Advance, Address;
    if step == 32 {
      AdvancesRow(p);
    } else if p.col < 31 {
      AdvancesColumn(p);
    } else {
      ColumnCarries(p);
      AdvancesRow(p.(col := 0));
    }
  }

  lemma ThirdBit(ctrl: bv8)
    ensures (ctrl & 0x04 != 0) == (ctrl as int / 4 % 2 == 1)
  {
    BitsAre(ctrl);
  }

  predicate AddressesPort(p: Ppu, r: Ppu, env: Env) {
    var rendering := Rendering(p.mask) && RenderLine(p.scanline, env.region);
    var v, w := p.bg.scroll.v, r.bg.scroll.v;
    && (!rendering ==> Address(w) == (Address(v) + if p.ctrl as int / 4 % 2 == 1 then 32 else 1) % 0x4000)
    && (rendering ==> WorldCol(w) == (WorldCol(v) + 1) % 64 && (v.row <= 29 ==> WorldY(w) == (WorldY(v) + 1) % 480))
    && r.bg.scroll.t == p.bg.scroll.t && r.bg.scroll.fineX == p.bg.scroll.fineX
    && r.bg.scroll.latch == p.bg.scroll.latch
  }

  lemma DriveKeeps(p: Ppu, val: bv8)
    ensures Drive(p, val).bg == p.bg && Drive(p, val).openBus == val
  {
  }

  lemma MovedScroll(p: Ppu, s: ScrollRegs)
    ensures MoveScroll(p, s).bg.scroll == s
  {
  }

  lemma AccessMoves(p: Ppu, val: bv8, env: Env)
    ensures
      var r, s := AccessPort(p, val, env), p.bg.scroll;
      && r.openBus == val
      && r.bg.scroll == s.(v :=
           if Rendering(p.mask) && RenderLine(p.scanline, env.region) then Down(Right(s.v))
           else Advance(s.v, if p.ctrl & 0x04 != 0 then 32 else 1))
  {
    hide Advance, Rendering, Right, Down, Drive, MoveScroll;
    var s := p.bg.scroll;
    DriveKeeps(AccessData(p, env), val);
    MovedScroll(p, s.(v := Down(Right(s.v))));
    MovedScroll(p, s.(v := Advance(s.v, if p.ctrl & 0x04 != 0 then 32 else 1)));
  }

  /** Every access to the data port moves the address on by 1, or with bit 2 of the control register by 32;
    while a line is rendered it moves the position one tile right and one line down instead. */
  lemma PortSteps(p: Ppu, val: bv8, env: Env)
    ensures AddressesPort(p, AccessPort(p, val, env), env) && AccessPort(p, val, env).openBus == val
  {
    hide Advance, Address, Rendering, WorldCol, WorldY, Right, Down, AccessPort;
    var v := p.bg.scroll.v;
    AccessMoves(p, val, env);
    ThirdBit(p.ctrl);
    AdvancesBy(v, if p.ctrl & 0x04 != 0 then 32 else 1);
    MovesDiagonally(v);
  }

  lemma MovesDiagonally(v: Loopy)
    ensures WorldCol(Down(Right(v))) == (WorldCol(v) + 1) % 64
    ensures v.row <= 29 ==> WorldY(Down(Right(v))) == (WorldY(v) + 1) % 480
  {
    hide Right, Down, WorldCol, WorldY;
    SameAcross(v);
    RightIsModular(v);
    if v.row <= 29 {
      DownIsModular(v);
      DownIsModular(Right(v));
    }
  }

  lemma SameAcross(v: Loopy)
    ensures Right(v).row == v.row && WorldY(Right(v)) == WorldY(v) && WorldCol(Down(Right(v))) == WorldCol(Right(v))
  {
  }

  // ----- the address port

  lemma HighFields(t: Loopy, hi: bv8)
    ensures
      var r := AddrHigh(t, hi);
      && r.ntX as int == hi as int / 4 % 2 && r.ntY as int == hi as int / 8 % 2
      && (r.row & 0x18) as int == 8 * (hi as int % 4) && r.fine as int == hi as int / 16 % 4
  {
    Quarters(hi);
    Low1(hi >> 2);
    Eighths(hi);
    Low1(hi >> 3);
    Sixteenths(hi);
    RowTop(t.row, hi);
  }

  lemma Quarters(val: bv8)
    ensures (val >> 2) as int == val as int / 4
  {
  }

  lemma Eighths(val: bv8)
    ensures (val >> 3) as int == val as int / 8
  {
  }

  lemma Sixteenths(val: bv8)
    ensures (((val >> 4) & 0x03) as bv3) as int == val as int / 16 % 4
  {
    ShiftFour(val);
    Low2(val >> 4);
  }

  lemma ShiftFour(val: bv8)
    ensures (val >> 4) as int == val as int / 16
  {
  }

  lemma Low2(val: bv8)
    ensures ((val & 0x03) as bv3) as int == val as int % 4
    ensures ((val & 0x03) as bv5) as int == val as int % 4
  {
  }

  lemma RowTop(row: bv5, hi: bv8)
    ensures (((((hi & 0x03) as bv5) << 3) | (row & 0x07)) & 0x18) as int == 8 * (hi as int % 4)
  {
    assert ((((hi & 0x03) as bv5) << 3) | (row & 0x07)) & 0x18 == ((hi & 0x03) as bv5) << 3;
    Low2(hi);
    TimesEight((hi & 0x03) as bv5);
  }

  lemma TimesEight(b: bv5)
    requires b < 4
    ensures (b << 3) as int == 8 * b as int
  {
  }

  lemma LowFields(t: Loopy, lo: bv8)
    ensures
      var r := AddrLow(t, lo);
      && r.col as int == lo as int % 32 && r.row as int == (t.row & 0x18) as int + lo as int / 32
      && r.ntX == t.ntX && r.ntY == t.ntY && r.fine == t.fine
  {
    Low5(lo);
    RowBottom(t.row & 0x18, (lo >> 5) as bv5);
    ShiftFive(lo);
  }

  lemma Low5(val: bv8)
    ensures ((val & 0x1F) as bv5) as int == val as int % 32
  {
  }

  lemma ShiftFive(val: bv8)
    ensures ((val >> 5) as bv5) as int == val as int / 32
  {
  }

  lemma RowBottom(high: bv5, low: bv5)
    requires high & 0x07 == 0 && low < 8
    ensures (high | low) as int == high as int + low as int
  {
    assert high | low == high + low;
  }

  lemma MirrorPlace(p: Loopy)
    ensures Address(Mirror(p)) == Address(p)
  {
    Fine2(p.fine);
  }

  lemma PlaceOfBytes(hi: int, lo: int)
    requires 0 <= hi < 256 && 0 <= lo < 256
    ensures
      Place(hi / 16 % 4, hi / 8 % 2, hi / 4 % 2, 8 * (hi % 4) + lo / 32, lo % 32) == 0x100 * (hi % 64) + lo
  {
    SixBits(hi);
  }

  lemma SixBits(hi: int)
    requires 0 <= hi < 256
    ensures hi % 64 == hi / 16 % 4 * 16 + hi / 8 % 2 * 8 + hi / 4 % 2 * 4 + hi % 4
  {
    TopTwo(hi);
    NextOne(hi);
    LowThree(hi);
  }

  lemma TopTwo(n: nat)
    ensures n % 64 == n / 16 % 4 * 16 + n % 16
  {
  }

  lemma NextOne(n: nat)
    ensures n % 16 == n / 8 % 2 * 8 + n % 8
  {
  }

  lemma LowThree(n: nat)
    ensures n % 8 == n / 4 % 2 * 4 + n % 4
  {
  }

  /** Two address writes name an address of 14 bits, high byte first, for the data port and for the next frame. */
  lemma AddressIs(s: ScrollRegs, hi: bv8, lo: bv8)
    requires !s.latch
    ensures
      var r := AddrWrite(AddrWrite(s, hi), lo);
      && Address(r.v) == 0x100 * (hi as int % 64) + lo as int && Address(r.t) == Address(r.v)
      && r.fineX == s.fineX && !r.latch
  {
    hide Address, AddrHigh, AddrLow, Mirror;
    var t := AddrHigh(s.t, hi);
    HighFields(s.t, hi);
    LowFields(t, lo);
    MirrorPlace(AddrLow(t, lo));
    AddressOf(AddrLow(t, lo), hi as int, lo as int);
  }

  lemma AddressOf(p: Loopy, hi: int, lo: int)
    requires 0 <= hi < 256 && 0 <= lo < 256
    requires p.ntX as int == hi / 4 % 2 && p.ntY as int == hi / 8 % 2 && p.fine as int == hi / 16 % 4
    requires p.col as int == lo % 32 && p.row as int == 8 * (hi % 4) + lo / 32
    ensures Address(p) == 0x100 * (hi % 64) + lo
  {
    hide Place;
    PlaceOfBytes(hi, lo);
  }

  /** Addresses from $3F00 on are palette memory, 32 bytes again and again. */
  lemma PaletteAddresses(v: Loopy)
    ensures InPalette(v) <==> Address(v) >= 0x3F00
    ensures v.col as int == Address(v) % 32
  {
    hide Place;
    Fine2(v.fine);
    FineThree(v.fine);
    TopRows(v.row);
    OneBit(v.ntX);
    OneBit(v.ntY);
    PaletteRange(v.fine as int, v.ntY as int, v.ntX as int, v.row as int, v.col as int);
  }

  lemma FineThree(fine: bv3)
    ensures fine & 3 == 3 <==> (fine & 3) as int == 3
  {
  }

  lemma TopRows(row: bv5)
    ensures row & 0x18 == 0x18 <==> row as int >= 24
  {
  }

  lemma PaletteRange(fine: int, ntY: int, ntX: int, row: int, col: int)
    requires 0 <= fine && 0 <= ntY < 2 && 0 <= ntX < 2 && 0 <= row < 32 && 0 <= col < 32
    ensures Place(fine, ntY, ntX, row, col) >= 0x3F00 <==> fine % 4 == 3 && ntY == 1 && ntX == 1 && row >= 24
    ensures col == Place(fine, ntY, ntX, row, col) % 32
  {
  }

  // ----- sprite memory

  /** The third byte of a sprite loses bits 2 to 4; the others are kept as they are. */
  lemma StoredIs(addr: u8, val: bv8)
    ensures
      StoredByte(addr, val) as int == if addr % 4 == 2 then val as int - val as int / 4 % 8 * 4 else val as int
  {
    ClearsThree(val);
  }

  lemma ClearsThree(val: bv8)
    ensures (val & 0xE3) as int == val as int - val as int / 4 % 8 * 4
  {
    assert val == (val & 0xE3) + (val & 0x1C);
    Middle(val);
    assert (val & 0xE3) as int + (val & 0x1C) as int == val as int;
  }

  lemma Middle(val: bv8)
    ensures (val & 0x1C) as int == val as int / 4 % 8 * 4
  {
    assert val & 0x1C == ((val >> 2) & 0x07) << 2;
    Quarters(val);
    Low3(val >> 2);
  }

  /** While a line is rendered or evaluated a write is lost, and the address moves on by a whole sprite. */
  lemma BusyWriteBumps(p: Ppu, val: bv8, env: Env)
    requires Rendering(p.mask) && (RenderLine(p.scanline, env.region) || EvalLine(p.scanline, env.region))
    ensures
      var r := WriteOamData(p, val, env);
      r.spr.oam == p.spr.oam && r.spr.oamaddr as int == (p.spr.oamaddr as int + 4) % 256 && r.openBus == val
  {
    hide Rendering, RenderLine, EvalLine;
  }

  // ----- the bus

  /** Reading the status leaves its three bits on the bus beside what is there. */
  lemma StatusOnBus(p: Ppu, env: Env)
    ensures
      var r, b := ReadStatus(p, env).openBus, p.openBus;
      && r & 0x1F == b & 0x1F
      && (r & 0x80 != 0 <==> b & 0x80 != 0 || p.vblank) && (r & 0x40 != 0 <==> b & 0x40 != 0 || p.zeroHit)
      && (r & 0x20 != 0 <==> b & 0x20 != 0 || p.spr.overflow)
  {
    BusIs(p, env);
  }

  lemma BusIs(p: Ppu, env: Env)
    ensures ReadStatus(p, env).openBus == p.openBus | StatusBits(p)
  {
    hide StatusBits;
  }

  /** It makes the next write to either address port the first of two, and keeps the flags of the sprites. */
  lemma StatusResetsLatch(p: Ppu, env: Env)
    ensures
      var r := ReadStatus(p, env);
      && !r.bg.scroll.latch && r.bg.scroll.v == p.bg.scroll.v && r.bg.scroll.t == p.bg.scroll.t
      && r.bg.scroll.fineX == p.bg.scroll.fineX && r.zeroHit == p.zeroHit && r.spr == p.spr
      && !r.vblank && !r.nmiPending
  {
    hide StatusBits;
  }

  /** The bus is cleared during the first line, and on rendered or evaluated lines while sprites are loaded. */
  lemma BusFades(p: Ppu, env: Env)
    requires p.cycle < LAST_CYCLE
    ensures
      var loading := Rendering(p.mask) && 256 <= p.cycle < 320
        && (EvalLine(p.scanline, env.region) || RenderLine(p.scanline, env.region));
      Clock(p, env).openBus == if p.scanline == 0 || loading then 0 else p.openBus
  {
    hide Clock, Tick, VblankEdges, Rendering, EvalLine, RenderLine;
    Odometer.ClockTicks(p, env);
    TickFades(Odometer.Ticking(p), env);
    EdgesLeave(Tick(Odometer.Ticking(p), env), env);
  }

  lemma TickFades(q: Ppu, env: Env)
    requires 1 <= q.cycle
    ensures
      Tick(q, env).openBus ==
        if Rendering(q.mask) && 257 <= q.cycle <= 320
           && (EvalLine(q.scanline, env.region) || RenderLine(q.scanline, env.region)) then 0
        else q.openBus
  {
    hide BgWork, SprWork, DotAt, ScreenColor, Background.Shift, Rendering, EvalLine, RenderLine, SkipsDot;
  }

  lemma EdgesLeave(q: Ppu, env: Env)
    ensures VblankEdges(q, env).openBus == q.openBus
  {
    hide NmiEnabled;
  }

  // ----- colors

  /** The three tints in numbers: red is bit 5 of the mask, green bit 6 and blue bit 7, but red and green
    trade places outside NTSC. */
  function Tint(mask: int, ntsc: bool): int {
    if ntsc then mask / 32
    else mask / 128 * 4 + mask / 32 % 2 * 2 + mask / 64 % 2
  }

  lemma TintIs(mask: bv8, r: Region)
    ensures Emphasis(mask, r) & 0x1F == 0
    ensures Emphasis(mask, r) as int == 32 * Tint(mask as int, r.Ntsc?)
  {
    BitsAre(mask);
    if r.Ntsc? {
      TopThree(mask);
    } else {
      Swapped(mask & 0x80 != 0, mask & 0x20 != 0, mask & 0x40 != 0);
      TopBit(mask);
    }
  }

  lemma TopThree(mask: bv8)
    ensures (mask & 0xE0) as int == mask as int / 32 * 32 && (mask & 0xE0) & 0x1F == 0
  {
    assert mask & 0xE0 == (mask >> 5) << 5;
  }

  lemma TopBit(mask: bv8)
    ensures mask & 0x80 == if mask & 0x80 != 0 then 0x80 else 0
  {
  }

  lemma Swapped(blue: bool, red: bool, green: bool)
    ensures
      var bits: bv8 := ((if blue then 0x80 else 0) | ((if red then 0x40 else 0) | (if green then 0x20 else 0)));
      bits as int == 128 * Flag(blue) + 64 * Flag(red) + 32 * Flag(green) && bits & 0x1F == 0
  {
  }

  /** A dot whose two low bits are clear shows the backdrop, entry 0; with rendering off every dot does, unless
    the address of the data port is in palette memory, whose entry is shown then. */
  lemma IndexIs(mask: bv8, v: Loopy, dot: SpriteDraw.Dot)
    ensures
      var index := PaletteIndex(mask, v, dot) as int;
      if Rendering(mask) || Address(v) < 0x3F00 then
        index == if dot.color as int % 4 == 0 then 0 else dot.color as int
      else index == Address(v) % 32
  {
    hide Rendering, InPalette, Address;
    PaletteAddresses(v);
    TwoLow(dot.color);
    Widens(dot.color);
    WidensFive(v.col);
    NoneLow(dot.color & 0x03);
  }

  lemma NoneLow(b: bv8)
    ensures b == 0 <==> b as int == 0
  {
  }

  lemma WidensFive(b: bv5)
    ensures (b as bv16) as int == b as int
  {
  }

  /** The byte on the screen is the palette entry, 64 colors or with bit 0 of the mask four greys, with
    the tint above it. */
  lemma ScreenColorIs(mask: bv8, index: bv16, env: Env)
    ensures
      var entry := env.mem(0x3F00 + index) as int;
      ScreenColor(mask, index, env) as int ==
        (if mask as int % 2 == 1 then entry / 16 % 4 * 16 else entry % 64) + 64 * Tint(mask as int, env.region.Ntsc?)
  {
    hide Emphasis, Tint;
    var entry := env.mem(0x3F00 + index);
    Parity(mask);
    TintIs(mask, env.region);
    Entry(entry);
    Tinted(if mask & 0x01 != 0 then (entry as bv16) & 0x30 else (entry as bv16) & 0x3F, Emphasis(mask, env.region));
  }

  lemma Entry(entry: bv8)
    ensures ((entry as bv16) & 0x30) as int == entry as int / 16 % 4 * 16
    ensures ((entry as bv16) & 0x3F) as int == entry as int % 64
  {
    assert (entry as bv16) & 0x30 == ((entry & 0x30) as bv16) && (entry as bv16) & 0x3F == ((entry & 0x3F) as bv16);
    Widens(entry & 0x30);
    Widens(entry & 0x3F);
    Grey(entry);
    SixLow(entry);
  }

  lemma Grey(entry: bv8)
    ensures (entry & 0x30) as int == entry as int / 16 % 4 * 16
  {
    assert entry & 0x30 == ((entry >> 4) & 0x03) << 4;
    ShiftFour(entry);
    Low2(entry >> 4);
    TimesSixteen((entry >> 4) & 0x03);
  }

  lemma TimesSixteen(b: bv8)
    requires b < 4
    ensures (b << 4) as int == 16 * b as int
  {
  }

  lemma SixLow(entry: bv8)
    ensures (entry & 0x3F) as int == entry as int % 64
  {
  }

  lemma Tinted(color: bv16, tint: bv8)
    requires color < 64 && tint & 0x1F == 0
    ensures (color | ((tint as bv16) << 1)) as int == color as int + 2 * tint as int
  {
    Doubled(tint);
    Disjoint(color, (tint as bv16) << 1);
  }

  lemma Doubled(tint: bv8)
    requires tint & 0x1F == 0
    ensures ((tint as bv16) << 1) as int == 2 * tint as int && ((tint as bv16) << 1) & 0xFE3F == 0
  {
  }

  lemma Disjoint(a: bv16, b: bv16)
    requires a < 64 && b & 0xFE3F == 0
    ensures (a | b) as int == a as int + b as int
  {
    Split(a | b);
    assert (a | b) & 0x3F == a && (a | b) & 0xFFC0 == b;
  }

  lemma Split(x: bv16)
    ensures (x & 0x003F) as int + (x & 0xFFC0) as int == x as int
  {
  }

  /** The palette of a background pixel: two bits of the attribute byte, by quarter. */
  lemma QuarterIs(attr: bv8, bottom: bool, right: bool)
    ensures
      W.Quarter(attr, bottom, right) as int ==
        if bottom then (if right then attr as int / 64 else attr as int / 16 % 4)
        else if right then attr as int / 4 % 4
        else attr as int % 4
  {
    Quarters(attr);
    ShiftFour(attr);
    ShiftSix(attr);
    TwoLow(attr);
    TwoLow(attr >> 2);
    TwoLow(attr >> 4);
    TwoLow(attr >> 6);
  }

  lemma ShiftSix(val: bv8)
    ensures (val >> 6) as int == val as int / 64
  {
  }

  lemma TwoLow(val: bv8)
    ensures (val & 0x03) as int == val as int % 4
  {
  }
}
