/** The background as a picture: two nametables side by side and two stacked make a plane of
  512 by 480 pixels, and a pixel is looked up by division. Nothing here knows about cycles,
  registers or packed words; the lemmas relate it to the tiles that the pipeline fetches. */
module World {
  import opened Words
  import opened Scroll
  import opened Background

  /** The same memory with numbers for addresses. */
  type Bytes = u16 -> bv8

  function BytesOf(mem: Memory): Bytes {
    (n: u16) => mem(n as bv16)
  }

  ghost predicate SameBytes(mem: Memory, bytes: Bytes) {
    forall a: bv16 :: mem(a) == bytes(a as int)
  }

  lemma BytesOfSame(mem: Memory)
    ensures SameBytes(mem, BytesOf(mem))
  {
  }

  function NameAddr(x: int, y: int): u16
    requires 0 <= x < 512 && 0 <= y < 480
  {
    0x2000 + 0x400 * (2 * (y / 240) + x / 256) + 32 * (y % 240 / 8) + x % 256 / 8
  }

  /** The byte of plane 0 or 1 for a row of a tile. */
  function TileByte(mem: Bytes, base: bv16, tile: bv8, row: int, plane: int): bv8
    requires base == 0 || base == 0x1000
    requires 0 <= row < 8 && (plane == 0 || plane == 1)
  {
    mem(base as int + 16 * tile as int + 8 * plane + row)
  }

  /** The pattern byte of plane 0 or 1 for the eight pixels around (x, y). */
  function PatternByte(mem: Bytes, base: bv16, x: int, y: int, plane: int): bv8
    requires 0 <= x < 512 && 0 <= y < 480
    requires base == 0 || base == 0x1000
    requires plane == 0 || plane == 1
  {
    TileByte(mem, base, mem(NameAddr(x, y)), y % 240 % 8, plane)
  }

  /** An attribute byte covers a block of 32 by 32 pixels; two of its bits belong to each quarter. */
  function AttributeAddr(x: int, y: int): u16
    requires 0 <= x < 512 && 0 <= y < 480
  {
    0x23C0 + 0x400 * (2 * (y / 240) + x / 256) + 8 * (y % 240 / 32) + x % 256 / 32
  }

  function Quarter(attr: bv8, bottom: bool, right: bool): bv8 {
    (if bottom then (if right then attr >> 6 else attr >> 4) else (if right then attr >> 2 else attr)) & 0x03
  }

  function PaletteAt(mem: Bytes, x: int, y: int): bv8
    requires 0 <= x < 512 && 0 <= y < 480
  {
    4 * Quarter(mem(AttributeAddr(x, y)), y % 240 / 16 % 2 == 1, x % 256 / 16 % 2 == 1)
  }

  /** The color number 0..3 of a background pixel. */
  function ColorAt(mem: Bytes, base: bv16, x: int, y: int): bv8
    requires 0 <= x < 512 && 0 <= y < 480
    requires base == 0 || base == 0x1000
  {
    (if PlaneBit(PatternByte(mem, base, x, y, 1), x % 8) then 2 else 0)
    + (if PlaneBit(PatternByte(mem, base, x, y, 0), x % 8) then 1 else 0)
  }

  // ----- positions

  lemma NtAddrInt(p: Loopy)
    ensures NtAddr(p) as int == 0x2000 + 0x400 * (2 * p.ntY as int + p.ntX as int) + 32 * p.row as int + p.col as int
  {
  }

  lemma AttrAddrInt(p: Loopy)
    ensures AttrAddr(p) as int
         == 0x23C0 + 0x400 * (2 * p.ntY as int + p.ntX as int) + 8 * (p.row >> 2) as int + (p.col >> 2) as int
  {
  }

  lemma PatternAddrLo(base: bv16, tile: bv8, fine: bv3)
    requires base == 0 || base == 0x1000
    ensures ((base | ((tile as bv16) << 4)) | (fine as bv16)) as int == base as int + 16 * tile as int + fine as int
  {
  }

  lemma PatternAddrHi(base: bv16, tile: bv8, fine: bv3)
    requires base == 0 || base == 0x1000
    ensures (((base | ((tile as bv16) << 4)) | (fine as bv16)) + 8) as int == base as int + 16 * tile as int +
        fine as int + 8
  {
  }

  /** Division takes a plane position apart into the fields of a `Loopy`. */
  lemma Fields(ntX: int, col: int, ntY: int, row: int, fine: int, x: int, y: int)
    requires 0 <= ntX < 2 && 0 <= col < 32 && 0 <= ntY < 2 && 0 <= row < 30 && 0 <= fine < 8
    requires x / 8 == 32 * ntX + col && y == 240 * ntY + 8 * row + fine
    ensures 0 <= x < 512 && 0 <= y < 480
    ensures x / 256 == ntX && x % 256 / 8 == col
    ensures y / 240 == ntY && y % 240 == 8 * row + fine
  {
    assert 0 <= x - 256 * ntX < 256;
  }

  lemma RowFields(row: int, fine: int, y: int)
    requires 0 <= row < 30 && 0 <= fine < 8 && y == 8 * row + fine
    ensures y / 8 == row && y % 8 == fine && y / 32 == row / 4 && y / 16 % 2 == row / 2 % 2
  {
  }

  lemma ColFields(col: int, x: int)
    requires 0 <= col < 32 && x / 8 == col
    ensures x / 32 == col / 4 && x / 16 % 2 == col / 2 % 2
  {
  }

  lemma FieldsOf(p: Loopy, x: int)
    requires p.row <= 29 && x / 8 == WorldCol(p)
    ensures 0 <= x < 512 && 0 <= WorldY(p) < 480
    ensures NtAddr(p) as int == NameAddr(x, WorldY(p))
    ensures p.fine as int == WorldY(p) % 240 % 8
  {
    NtAddrInt(p);
    Fields(p.ntX as int, p.col as int, p.ntY as int, p.row as int, p.fine as int, x, WorldY(p));
    RowFields(p.row as int, p.fine as int, WorldY(p) % 240);
  }

  lemma TileByteLo(mem: Memory, bytes: Bytes, base: bv16, tile: bv8, fine: bv3)
    requires SameBytes(mem, bytes)
    requires base == 0 || base == 0x1000
    ensures TileByte(bytes, base, tile, fine as int, 0) == mem((base | ((tile as bv16) << 4)) | (fine as bv16))
  {
    PatternAddrLo(base, tile, fine);
  }

  lemma TileByteHi(mem: Memory, bytes: Bytes, base: bv16, tile: bv8, fine: bv3)
    requires SameBytes(mem, bytes)
    requires base == 0 || base == 0x1000
    ensures TileByte(bytes, base, tile, fine as int, 1) == mem(((base | ((tile as bv16) << 4)) | (fine as bv16)) + 8)
  {
    PatternAddrHi(base, tile, fine);
  }

  lemma NameIs(mem: Memory, bytes: Bytes, p: Loopy, x: int)
    requires SameBytes(mem, bytes)
    requires p.row <= 29 && x / 8 == WorldCol(p)
    ensures 0 <= x < 512 && 0 <= WorldY(p) < 480
    ensures bytes(NameAddr(x, WorldY(p))) == mem(NtAddr(p))
    ensures WorldY(p) % 240 % 8 == p.fine as int
  {
    FieldsOf(p, x);
  }

  /** The two planes that the pipeline fetches for a position are those of the picture there. */
  lemma PatternLo(mem: Memory, bytes: Bytes, base: bv16, p: Loopy, x: int)
    requires SameBytes(mem, bytes)
    requires base == 0 || base == 0x1000
    requires p.row <= 29 && x / 8 == WorldCol(p)
    ensures 0 <= x < 512 && 0 <= WorldY(p) < 480
    ensures PatternByte(bytes, base, x, WorldY(p), 0) == mem(TileAddr(mem, base, p))
  {
    NameIs(mem, bytes, p, x);
    TileByteLo(mem, bytes, base, mem(NtAddr(p)), p.fine);
  }

  lemma PatternHi(mem: Memory, bytes: Bytes, base: bv16, p: Loopy, x: int)
    requires SameBytes(mem, bytes)
    requires base == 0 || base == 0x1000
    requires p.row <= 29 && x / 8 == WorldCol(p)
    ensures 0 <= x < 512 && 0 <= WorldY(p) < 480
    ensures PatternByte(bytes, base, x, WorldY(p), 1) == mem(TileAddr(mem, base, p) + 8)
  {
    NameIs(mem, bytes, p, x);
    TileByteHi(mem, bytes, base, mem(NtAddr(p)), p.fine);
  }

  lemma QuarterBits(r: bv5)
    ensures (r >> 2) as int == r as int / 4
    ensures (r & 2 != 0) == (r as int / 2 % 2 == 1)
  {
  }

  lemma PaletteBits(attr: bv8, bottom: bool, right: bool, shift: bv8)
    requires shift == (if bottom then 4 else 0) + (if right then 2 else 0)
    ensures ((attr >> shift) & 0x03) << 2 == 4 * Quarter(attr, bottom, right)
  {
  }

  lemma AttrFieldsOf(p: Loopy, x: int)
    requires p.row <= 29 && x / 8 == WorldCol(p)
    ensures 0 <= x < 512 && 0 <= WorldY(p) < 480
    ensures AttrAddr(p) as int == AttributeAddr(x, WorldY(p))
    ensures (p.row & 2 != 0) == (WorldY(p) % 240 / 16 % 2 == 1)
    ensures (p.col & 2 != 0) == (x % 256 / 16 % 2 == 1)
  {
    AttrAddrInt(p);
    QuarterBits(p.row);
    QuarterBits(p.col);
    Fields(p.ntX as int, p.col as int, p.ntY as int, p.row as int, p.fine as int, x, WorldY(p));
    RowFields(p.row as int, p.fine as int, WorldY(p) % 240);
    ColFields(p.col as int, x % 256);
  }

  /** So is the palette. */
  lemma PaletteIs(mem: Memory, bytes: Bytes, p: Loopy, x: int)
    requires SameBytes(mem, bytes)
    requires p.row <= 29 && x / 8 == WorldCol(p)
    ensures 0 <= x < 512 && 0 <= WorldY(p) < 480
    ensures PaletteAt(bytes, x, WorldY(p)) == TilePalette(mem, p)
  {
    AttrFieldsOf(p, x);
    PaletteBits(mem(AttrAddr(p)), p.row & 2 != 0, p.col & 2 != 0, AttrShift(p));
  }

  // ----- the pipeline draws the picture

  /** The picture column of screen pixel `x`. */
  function PictureX(w: View, x: nat): int {
    (8 * WorldCol(w.t) + w.fineX as int + x) % 512
  }

  /** The picture line of screen line `n`. */
  function PictureY(w: View, n: nat): int {
    (WorldY(w.t) + n) % 480
  }

  /** The tile that screen pixel `x` falls in, counted from the first tile of the line. */
  function TileOf(w: View, x: nat): nat {
    (w.fineX as int + x) / 8
  }

  lemma PlaceFields(w: View, n: nat, g: nat)
    requires w.t.row <= 29
    ensures Place(w, n, g).row <= 29
    ensures WorldY(Place(w, n, g)) == PictureY(w, n)
    ensures WorldCol(Place(w, n, g)) == (WorldCol(w.t) + g) % 64
  {
    DownByIsModular(w.t, n);
    RightByIsModular(DownBy(w.t, n), g);
    WorldYOnly(Place(w, n, g), DownBy(w.t, n));
    WorldColOnly(w.t, DownBy(w.t, n));
  }

  lemma WorldYOnly(p: Loopy, q: Loopy)
    requires SameRow(p, q)
    ensures WorldY(p) == WorldY(q)
  {
  }

  lemma WorldColOnly(p: Loopy, q: Loopy)
    requires p.ntX == q.ntX && p.col == q.col
    ensures WorldCol(p) == WorldCol(q)
  {
  }

  lemma Mod512(q: int, m: int)
    requires 0 <= m < 512
    ensures (512 * q + m) % 512 == m
  {
  }

  lemma Columns(a: int, f: int, k: nat, j: nat)
    requires 0 <= a < 64 && 0 <= f < 8 && 1 <= j <= 8
    ensures
      var x, g := 8 * k + j - 1, k + (f + j - 1) / 8;
      && (f + x) / 8 == g
      && (8 * a + f + x) % 512 % 8 == (f + j - 1) % 8
      && (8 * a + f + x) % 512 / 8 == (a + g) % 64
  {
    var g, r := k + (f + j - 1) / 8, (f + j - 1) % 8;
    var q, m := (a + g) / 64, (a + g) % 64;
    assert f + (8 * k + j - 1) == 8 * g + r;
    assert 8 * a + (8 * g + r) == 512 * q + (8 * m + r);
    Mod512(q, 8 * m + r);
  }

  lemma PictureRange(w: View, n: nat)
    requires w.t.row <= 29
    ensures 0 <= PictureY(w, n) < 480
  {
  }

  /** Tile g of line n is the picture tile it stands for: plane 0, plane 1 and palette. */
  lemma TileLoIs(mem: Memory, bytes: Bytes, base: bv16, w: View, n: nat, g: nat, x: int)
    requires SameBytes(mem, bytes)
    requires base == 0 || base == 0x1000
    requires w.tiles == TilesOf(mem, base) && w.t.row <= 29
    requires x / 8 == (WorldCol(w.t) + g) % 64
    ensures 0 <= x < 512 && 0 <= PictureY(w, n) < 480
    ensures Lo(w, n, g) == PlaneOf(PatternByte(bytes, base, x, PictureY(w, n), 0))
  {
    PlaceFields(w, n, g);
    PatternLo(mem, bytes, base, Place(w, n, g), x);
  }

  lemma TileHiIs(mem: Memory, bytes: Bytes, base: bv16, w: View, n: nat, g: nat, x: int)
    requires SameBytes(mem, bytes)
    requires base == 0 || base == 0x1000
    requires w.tiles == TilesOf(mem, base) && w.t.row <= 29
    requires x / 8 == (WorldCol(w.t) + g) % 64
    ensures 0 <= x < 512 && 0 <= PictureY(w, n) < 480
    ensures Hi(w, n, g) == PlaneOf(PatternByte(bytes, base, x, PictureY(w, n), 1))
  {
    PlaceFields(w, n, g);
    PatternHi(mem, bytes, base, Place(w, n, g), x);
  }

  lemma TilePaletteIs(mem: Memory, bytes: Bytes, base: bv16, w: View, n: nat, g: nat, x: int)
    requires SameBytes(mem, bytes)
    requires base == 0 || base == 0x1000
    requires w.tiles == TilesOf(mem, base) && w.t.row <= 29
    requires x / 8 == (WorldCol(w.t) + g) % 64
    ensures 0 <= x < 512 && 0 <= PictureY(w, n) < 480
    ensures Palette(w, n, g) == PaletteAt(bytes, x, PictureY(w, n))
  {
    PlaceFields(w, n, g);
    PaletteIs(mem, bytes, Place(w, n, g), x);
  }

  lemma WorldColRange(p: Loopy)
    ensures 0 <= WorldCol(p) < 64
  {
  }

  lemma QueueBit(q: Queue, a: Plane, b: Plane, f: int, j: nat)
    requires 0 <= f < 8 && 1 <= j <= 8 && Holds(q, a, b, j - 1)
    ensures q[f] == (if f + j - 1 < 8 then a else b)[(f + j - 1) % 8]
  {
  }

  /** The two bits that fine X selects while screen pixel 8k+j-1 of line n is drawn are those
    of the picture. */
  lemma DrawsPicture(b: Bg, mem: Memory, bytes: Bytes, base: bv16, w: View, k: nat, j: nat, n: nat, f: int, x: int)
    requires SameBytes(mem, bytes)
    requires base == 0 || base == 0x1000
    requires w.tiles == TilesOf(mem, base) && w.t.row <= 29
    requires 1 <= j <= 8 && HoldsTiles(b, k, j - 1, n, w)
    requires 0 <= f < 8 && x == (8 * WorldCol(w.t) + f + (8 * k + j - 1)) % 512
    ensures b.shiftLo[f] == PlaneBit(PatternByte(bytes, base, x, PictureY(w, n), 0), x % 8)
    ensures b.shiftHi[f] == PlaneBit(PatternByte(bytes, base, x, PictureY(w, n), 1), x % 8)
  {
    var g := if f + j - 1 < 8 then k else k + 1;
    WorldColRange(w.t);
    Columns(WorldCol(w.t), f, k, j);
    assert x % 8 == (f + j - 1) % 8;
    TileLoIs(mem, bytes, base, w, n, g, x);
    TileHiIs(mem, bytes, base, w, n, g, x);
    QueueBit(b.shiftLo, Lo(w, n, k), Lo(w, n, k + 1), f, j);
    QueueBit(b.shiftHi, Hi(w, n, k), Hi(w, n, k + 1), f, j);
  }

  /** The palette drawn with screen pixel 8k+j-1 is that of its tile, except in tile 0 of the
    line, which gets the palette of tile 1. */
  lemma DrawsPalette(b: Bg, mem: Memory, bytes: Bytes, base: bv16, w: View, k: nat, j: nat, n: nat, f: int, tile: nat)
    requires SameBytes(mem, bytes)
    requires base == 0 || base == 0x1000
    requires w.tiles == TilesOf(mem, base) && w.t.row <= 29
    requires 1 <= j <= 8 && Latched(b, k, n, w)
    requires 0 <= f < 8 && tile == Max(1, (f + (8 * k + j - 1)) / 8)
    ensures 0 <= PictureY(w, n) < 480
    ensures (if f + j - 1 < 8 then b.prev else b.curr)
         == PaletteAt(bytes, 8 * ((WorldCol(w.t) + tile) % 64), PictureY(w, n))
  {
    WorldColRange(w.t);
    Columns(WorldCol(w.t), f, k, j);
    TilePaletteIs(mem, bytes, base, w, n, tile, 8 * ((WorldCol(w.t) + tile) % 64));
  }

  lemma InTile(x: nat, k: nat, j: nat)
    requires k == x / 8 && j == x % 8 + 1
    ensures 8 * k + j - 1 == x && 1 <= j <= 8
  {
  }

  lemma FineRange(w: View)
    ensures 0 <= w.fineX as int < 8
  {
  }

  function BitsAt(b: Bg, f: int): bv8
    requires 0 <= f < 8
  {
    (if b.shiftHi[f] then 2 else 0) + (if b.shiftLo[f] then 1 else 0)
  }

  /** The color in front of the queues while column x of line n is drawn. */
  lemma DrawsColor(b: Bg, mem: Memory, bytes: Bytes, base: bv16, w: View, x: nat, n: nat, f: int)
    requires SameBytes(mem, bytes)
    requires base == 0 || base == 0x1000
    requires w.tiles == TilesOf(mem, base) && w.t.row <= 29
    requires HoldsTiles(b, x / 8, x % 8, n, w) && f == w.fineX as int && 0 <= f < 8
    ensures 0 <= PictureX(w, x) < 512 && 0 <= PictureY(w, n) < 480
    ensures BitsAt(b, f) == ColorAt(bytes, base, PictureX(w, x), PictureY(w, n))
  {
    hide PlaneBit, PatternByte, HoldsTiles, TilesOf, WorldCol, SameBytes;
    var k, j := x / 8, x % 8 + 1;
    InTile(x, k, j);
    PictureRange(w, n);
    PictureXIs(w, x, k, j, f);
    DrawsPicture(b, mem, bytes, base, w, k, j, n, f, PictureX(w, x));
  }

  lemma PictureXIs(w: View, x: nat, k: nat, j: nat, f: int)
    requires f == w.fineX as int && 8 * k + j - 1 == x
    ensures 0 <= PictureX(w, x) < 512 && PictureX(w, x) == (8 * WorldCol(w.t) + f + (8 * k + j - 1)) % 512
  {
  }

  /** The latch that a column draws with: fine X may reach into the next tile. */
  function LatchAt(b: Bg, f: int, x: int): bv8 {
    if f + x % 8 < 8 then b.prev else b.curr
  }

  /** The palette in use while column x of line n is drawn. */
  lemma DrawsLatch(b: Bg, mem: Memory, bytes: Bytes, base: bv16, w: View, x: nat, n: nat, f: int)
    requires SameBytes(mem, bytes)
    requires base == 0 || base == 0x1000
    requires w.tiles == TilesOf(mem, base) && w.t.row <= 29
    requires Latched(b, x / 8, n, w)
    requires 0 <= f < 8
    ensures 0 <= PictureY(w, n) < 480
    ensures LatchAt(b, f, x) == PaletteAt(bytes, 8 * ((WorldCol(w.t) + Max(1, (f + x) / 8)) % 64), PictureY(w, n))
  {
    var k, j := x / 8, x % 8 + 1;
    InTile(x, k, j);
    DrawsPalette(b, mem, bytes, base, w, k, j, n, f, Max(1, (f + x) / 8));
  }
}
