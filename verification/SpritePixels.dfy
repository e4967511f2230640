/** What a sprite is, in numbers: which bytes of pattern memory its four OAM bytes name on a line, which
  of their bits a column shows, and what is on the screen where sprites and background meet. */
module SpritePixels {
  import opened Words
  import opened PpuSpec
  import opened ByteBits
  import B = Background
  import D = SpriteDraw
  import E = SpriteEval
  import F = SpriteFrame
  import Frame
  import W = World

  function Height(ctrl: bv8): int {
    if ctrl as int / 32 % 2 == 1 then 16 else 8
  }

  /** The row of the sprite that a line shows, from the top or, flipped, from the bottom. */
  function RowOf(b: D.Bytes4, line: int, height: int): int {
    if b[2] as int / 128 == 1 then height - 1 - (line - b[0] as int) else line - b[0] as int
  }

  /** The place of that row in pattern memory. Small sprites lie in the table that the control register
    names; tall ones in the one that bit 0 of the tile names, in two tiles one after the other. */
  function RowAddr(b: D.Bytes4, line: int, ctrl: bv8): int {
    RowPlace(b[1] as int, RowOf(b, line, Height(ctrl)), ctrl)
  }

  function RowPlace(tile: int, row: int, ctrl: bv8): int {
    if Height(ctrl) == 8 then 0x1000 * (ctrl as int / 8 % 2) + 16 * tile + row
    else PlaceInPair(tile, row)
  }

  lemma CtrlBits(ctrl: bv8)
    ensures TallSprites(ctrl) == (Height(ctrl) == 16)
    ensures SpriteBase(ctrl) == if ctrl as int / 8 % 2 == 1 then 0x1000 else 0
  {
    BitsAre(ctrl);
  }

  /** A sprite covers the eight or sixteen lines from its Y on. */
  lemma HitsItsLines(ctrl: bv8, line: nat, y: bv8)
    ensures Hit(ctrl, line)(y) <==> y as int <= line < y as int + Height(ctrl)
  {
    CtrlBits(ctrl);
  }

  lemma AttrBits(attr: bv8)
    ensures (attr & 0x80 != 0) == (attr as int / 128 == 1)
    ensures (attr & 0x40 != 0) == (attr as int / 64 % 2 == 1)
    ensures (attr & 0x20 != 0) == (attr as int / 32 % 2 == 1)
  {
    BitsAre(attr);
  }

  lemma PaletteBits(attr: bv8)
    ensures (((attr & 0x03) << 2) | 0x10) as int == 16 + 4 * (attr as int % 4)
  {
  }

  lemma SmallAddr(tile: bv8, row: bv3, base: bv16)
    requires base == 0 || base == 0x1000
    ensures
      var addr, place := (base | ((tile as bv16) << 4)) | (row as bv16), base as int + 16 * tile as int + row as int;
      addr as int == place && B.HighPlane(addr) as int == place + 8
  {
    W.PatternAddrLo(base, tile, row);
    W.PatternAddrHi(base, tile, row);
  }

  lemma Narrow(row: int)
    requires 0 <= row < 8
    ensures (row as bv3) as bv16 == row as bv16
  {
  }

  lemma EvenTile(tile: bv8)
    ensures
      var even := EvenOf(tile);
      even as int == 16 * (tile as int - tile as int % 2) && even & 0xF01F == 0
  {
    Parity(tile);
    ClearLow(tile);
    Widened(tile & 0xFE);
  }

  lemma ClearLow(tile: bv8)
    ensures (tile & 0xFE) as int == tile as int - tile as int % 2
  {
  }

  lemma Widened(tile: bv8)
    requires tile & 0x01 == 0
    ensures ((tile as bv16) << 4) as int == 16 * tile as int && ((tile as bv16) << 4) & 0xF01F == 0
  {
  }

  lemma PartsAdd(table: bv16, even: bv16, row: bv16)
    requires (table == 0 || table == 0x1000) && even & 0xF01F == 0 && row < 0x20
    ensures ((table | even) | row) as int == table as int + even as int + row as int
  {
    assert (table | even) | row == table + even + row;
  }

  lemma NextPlane(table: bv16, even: bv16, row: bv16)
    requires (table == 0 || table == 0x1000) && even & 0xF01F == 0 && row < 0x18 && row & 0x08 == 0
    ensures B.HighPlane((table | even) | row) == (table | even) | (row + 8) && row + 8 < 0x20
  {
  }

  /** The row in a pair of tiles, sixteen bytes each. */
  lemma TallRow(row: int)
    requires 0 <= row < 16
    ensures
      var r := PairRow(row);
      r as int == 16 * (row / 8) + row % 8 && r < 0x18 && r & 0x08 == 0 && (r + 8) as int == r as int + 8
  {
    SmallNumbers(PairRow(row));
  }

  lemma SmallNumbers(r: bv16)
    requires r as int < 0x18
    ensures r < 0x18 && (r + 8) as int == r as int + 8
    ensures r as int % 16 < 8 ==> r & 0x08 == 0
  {
  }

  function Joined(table: bv16, even: bv16, row: bv16): bv16 {
    (table | even) | row
  }

  lemma JoinedParts(table: bv16, even: bv16, row: bv16)
    requires (table == 0 || table == 0x1000) && even & 0xF01F == 0 && row < 0x18 && row & 0x08 == 0
    requires (row + 8) as int == row as int + 8
    ensures
      var addr, place := Joined(table, even, row), table as int + even as int + row as int;
      addr as int == place && B.HighPlane(addr) as int == place + 8
  {
    PartsAdd(table, even, row);
    NextPlane(table, even, row);
    hide B.HighPlane;
    PartsAdd(table, even, row + 8);
  }

  function TableOf(tile: bv8): bv16 { if tile & 1 != 0 then 0x1000 else 0 }

  function EvenOf(tile: bv8): bv16 { ((tile & 0xFE) as bv16) << 4 }

  function PairRow(row: int): bv16
    requires 0 <= row < 16
  {
    (if row < 8 then row else row + 8) as bv16
  }

  lemma TallParts(tile: bv8, row: int)
    requires 0 <= row < 16
    ensures D.SpriteAddr(tile, row, true, 0) == Joined(TableOf(tile), EvenOf(tile), PairRow(row))
  {
  }

  lemma TableIs(tile: bv8)
    ensures TableOf(tile) in {0, 0x1000} && TableOf(tile) as int == 0x1000 * (tile as int % 2)
  {
    Parity(tile);
  }

  function PlaceInPair(tile: int, row: int): int {
    0x1000 * (tile % 2) + 16 * (tile - tile % 2 + row / 8) + row % 8
  }

  lemma TallPlace(tile: int, row: int, table: int, even: int, r: int)
    requires table == 0x1000 * (tile % 2) && even == 16 * (tile - tile % 2) && r == 16 * (row / 8) + row % 8
    ensures table + even + r == PlaceInPair(tile, row)
  {
  }

  lemma TallAddr(tile: bv8, row: int)
    requires 0 <= row < 16
    ensures
      var addr, place := D.SpriteAddr(tile, row, true, 0), PlaceInPair(tile as int, row);
      addr as int == place && B.HighPlane(addr) as int == place + 8
  {
    hide B.HighPlane, D.SpriteAddr, TableOf, EvenOf, PairRow, PlaceInPair, Joined;
    TableIs(tile);
    EvenTile(tile);
    TallRow(row);
    TallParts(tile, row);
    TallPlace(tile as int, row, TableOf(tile) as int, EvenOf(tile) as int, PairRow(row) as int);
    JoinedParts(TableOf(tile), EvenOf(tile), PairRow(row));
  }

  lemma TallIgnoresBase(tile: bv8, row: int, base: bv16)
    requires 0 <= row < 16
    ensures D.SpriteAddr(tile, row, true, base) == D.SpriteAddr(tile, row, true, 0)
  {
  }

  lemma PlacedAddr(b: D.Bytes4, line: nat, ctrl: bv8)
    requires b[0] as int <= line < b[0] as int + Height(ctrl)
    ensures
      var row := D.SpriteRow(b[0] as int, Height(ctrl), line, b[2] & 0x80 != 0);
      var addr := D.SpriteAddr(b[1], row, TallSprites(ctrl), SpriteBase(ctrl));
      addr as int == RowAddr(b, line, ctrl) && B.HighPlane(addr) as int == RowAddr(b, line, ctrl) + 8
  {
    hide TallSprites, SpriteBase, B.HighPlane, D.SpriteAddr;
    CtrlBits(ctrl);
    AttrBits(b[2]);
    var row := D.SpriteRow(b[0] as int, Height(ctrl), line, b[2] & 0x80 != 0);
    assert row == RowOf(b, line, Height(ctrl));
    RowInTable(b[1], row, ctrl);
    if Height(ctrl) == 8 {
      PlacedSmall(b[1], row, SpriteBase(ctrl));
    } else {
      TallAddr(b[1], row);
      TallIgnoresBase(b[1], row, SpriteBase(ctrl));
    }
  }

  lemma PlacedSmall(tile: bv8, row: int, base: bv16)
    requires 0 <= row < 8 && (base == 0 || base == 0x1000)
    ensures
      var addr, place := D.SpriteAddr(tile, row, false, base), base as int + 16 * tile as int + row;
      addr as int == place && B.HighPlane(addr) as int == place + 8
  {
    hide B.HighPlane;
    Narrow(row);
    SmallAddr(tile, row as bv3, base);
  }

  /** On each line that it covers a sprite is loaded with the two planes of the row that the line shows,
    eight bytes apart, and with the fields of its OAM bytes. */
  lemma LoadsItsRow(b: D.Bytes4, line: nat, ctrl: bv8, mem: Memory, bytes: W.Bytes)
    requires W.SameBytes(mem, bytes) && b[0] as int <= line < b[0] as int + Height(ctrl)
    ensures 0 <= RowAddr(b, line, ctrl) < 0x2000 - 8
    ensures
      var sprite := Load(ctrl, line, mem)(b);
      && sprite.tileLo == bytes(RowAddr(b, line, ctrl)) && sprite.tileHi == bytes(RowAddr(b, line, ctrl) + 8)
      && sprite.x == b[3] as int && sprite.y == b[0] as int
      && sprite.palette as int == 16 + 4 * (b[2] as int % 4)
      && sprite.behind == (b[2] as int / 32 % 2 == 1) && sprite.flipX == (b[2] as int / 64 % 2 == 1)
  {
    hide D.SpriteRow, D.SpriteAddr, TallSprites, SpriteBase, B.HighPlane;
    CtrlBits(ctrl);
    AttrBits(b[2]);
    PaletteBits(b[2]);
    PlacedAddr(b, line, ctrl);
    RowInTable(b[1], RowOf(b, line, Height(ctrl)), ctrl);
  }

  lemma RowInTable(tile: bv8, row: int, ctrl: bv8)
    requires 0 <= row < Height(ctrl)
    ensures 0 <= RowPlace(tile as int, row, ctrl) < 0x2000 - 8
  {
    InTable(tile as int, row, ctrl as int / 8 % 2, Height(ctrl) == 16);
  }

  lemma InTable(tile: int, row: int, table: int, tall: bool)
    requires 0 <= tile < 256 && 0 <= row < (if tall then 16 else 8) && 0 <= table < 2
    ensures 0 <= (if !tall then 0x1000 * table + 16 * tile + row
                  else 0x1000 * (tile % 2) + 16 * (tile - tile % 2 + row / 8) + row % 8) < 0x2000 - 8
  {
  }

  // ----- a column

  /** Bit i of a byte, counted from the left. */
  function BitAt(byte: bv8, i: nat): int
    requires i < 8
  {
    Digit(byte as int, 7 - i)
  }

  lemma PlaneBitIs(byte: bv8, i: nat)
    requires i < 8
    ensures B.PlaneBit(byte, i) == (BitAt(byte, i) == 1)
  {
    BitIs(byte, 7 - i);
    hide Digit;
  }

  predicate InColumns(b: D.Bytes4, x: int) {
    b[3] as int <= x < b[3] as int + 8
  }

  /** The color 0..3 that a sprite has in a column of a line that it covers, from its OAM bytes and from
    pattern memory: the column counts from X, or with bit 6 of the attributes from the other end. */
  function ColorIn(b: D.Bytes4, line: nat, ctrl: bv8, bytes: W.Bytes, x: int): int
    requires b[0] as int <= line < b[0] as int + Height(ctrl) && InColumns(b, x)
  {
    RowInTable(b[1], RowOf(b, line, Height(ctrl)), ctrl);
    var i := if b[2] as int / 64 % 2 == 1 then b[3] as int + 7 - x else x - b[3] as int;
    2 * BitAt(bytes(RowAddr(b, line, ctrl) + 8), i) + BitAt(bytes(RowAddr(b, line, ctrl)), i)
  }

  lemma SpriteColor(sprite: E.Sprite, x: int)
    requires D.InSprite(sprite, x)
    ensures
      var i := if sprite.flipX then sprite.x + 7 - x else x - sprite.x;
      D.SpritePixel(sprite, x) as int == 2 * BitAt(sprite.tileHi, i) + BitAt(sprite.tileLo, i)
  {
    hide Digit, B.PlaneBit;
    var i := if sprite.flipX then sprite.x + 7 - x else x - sprite.x;
    PlaneBitIs(sprite.tileHi, i);
    PlaneBitIs(sprite.tileLo, i);
  }

  lemma PixelIsColor(b: D.Bytes4, line: nat, ctrl: bv8, mem: Memory, bytes: W.Bytes, x: int)
    requires W.SameBytes(mem, bytes) && b[0] as int <= line < b[0] as int + Height(ctrl)
    ensures D.InSprite(Load(ctrl, line, mem)(b), x) == InColumns(b, x)
    ensures InColumns(b, x) ==> D.SpritePixel(Load(ctrl, line, mem)(b), x) as int == ColorIn(b, line, ctrl, bytes, x)
  {
    hide Load, RowAddr, D.SpritePixel, Height;
    LoadsItsRow(b, line, ctrl, mem, bytes);
    if InColumns(b, x) {
      SpriteColor(Load(ctrl, line, mem)(b), x);
    }
  }

  // ----- the sprites of a picture

  /** The sprites evaluated on a line: at most eight, in the order of OAM. */
  function OnLine(oam: E.Oam, ctrl: bv8, line: nat): seq<E.SpriteIndex> {
    E.FirstEight(E.Covering(oam, Hit(ctrl, line)))
  }

  lemma {:induction false} FoundInOrder(oam: E.Oam, hit: bv8 -> bool, n: nat)
    requires n <= 64
    ensures forall i :: 0 <= i < |E.Found(oam, hit, n)| ==>
      E.Found(oam, hit, n)[i] as int < n && hit(oam[4 * E.Found(oam, hit, n)[i]])
    ensures forall i, j :: 0 <= i < j < |E.Found(oam, hit, n)| ==> E.Found(oam, hit, n)[i] < E.Found(oam, hit, n)[j]
  {
    if n > 0 {
      FoundInOrder(oam, hit, n - 1);
    }
  }

  predicate Covered(oam: E.Oam, ctrl: bv8, line: nat, found: seq<E.SpriteIndex>) {
    forall i :: 0 <= i < |found| ==>
      var y := E.OamBytes(oam, found[i])[0] as int; y <= line < y + Height(ctrl)
  }

  lemma OnLineCovers(oam: E.Oam, ctrl: bv8, line: nat)
    ensures Covered(oam, ctrl, line, OnLine(oam, ctrl, line))
    ensures forall i, j :: 0 <= i < j < |OnLine(oam, ctrl, line)| ==>
      OnLine(oam, ctrl, line)[i] < OnLine(oam, ctrl, line)[j]
  {
    hide Height, E.Found, Hit;
    FoundInOrder(oam, Hit(ctrl, line), |oam| / 4);
    var found := OnLine(oam, ctrl, line);
    forall i | 0 <= i < |found|
      ensures var y := E.OamBytes(oam, found[i])[0] as int; y <= line < y + Height(ctrl)
    {
      HitsItsLines(ctrl, line, oam[4 * found[i]]);
    }
  }

  /** The first of them, from number i on, that has a color in the column. */
  function FirstColored(oam: E.Oam, ctrl: bv8, line: nat, found: seq<E.SpriteIndex>, bytes: W.Bytes, x: int, i: nat)
    : (k: nat)
    requires Covered(oam, ctrl, line, found) && i <= |found|
    ensures i <= k <= |found|
    ensures k < |found| ==>
      var b := E.OamBytes(oam, found[k]); InColumns(b, x) && ColorIn(b, line, ctrl, bytes, x) != 0
    decreases |found| - i
  {
    if i == |found| then i
    else
      var b := E.OamBytes(oam, found[i]);
      if InColumns(b, x) && ColorIn(b, line, ctrl, bytes, x) != 0 then i
      else FirstColored(oam, ctrl, line, found, bytes, x, i + 1)
  }

  lemma {:induction false} FirstIsColored(oam: E.Oam, ctrl: bv8, line: nat, found: seq<E.SpriteIndex>, mem: Memory,
      bytes: W.Bytes, x: int, i: nat)
    requires W.SameBytes(mem, bytes) && Covered(oam, ctrl, line, found) && i <= |found|
    ensures D.FirstOpaque(D.Pick(oam, found, Load(ctrl, line, mem)), x, i)
      == FirstColored(oam, ctrl, line, found, bytes, x, i)
    decreases |found| - i
  {
    hide Load, D.InSprite, D.SpritePixel, InColumns, ColorIn, Height;
    if i < |found| {
      var b := E.OamBytes(oam, found[i]);
      PixelIsColor(b, line, ctrl, mem, bytes, x);
      FirstIsColored(oam, ctrl, line, found, mem, bytes, x, i + 1);
    }
  }

  /** The dot where sprite bytes b with color c lie over background color bg of this palette. */
  function Over(b: D.Bytes4, c: int, bg: int, palette: int): int {
    if bg == 0 || b[2] as int / 32 % 2 == 0 then 16 + 4 * (b[2] as int % 4) + c else palette + bg
  }

  lemma ComposedOver(x: int, bg: bv8, palette: bv8, line: seq<E.Sprite>, zero: bool)
    requires bg <= 3 && palette <= 12
    requires D.FirstOpaque(line, x, 0) < |line| ==>
      16 <= line[D.FirstOpaque(line, x, 0)].palette as int <= 28
    ensures
      var k, dot := D.FirstOpaque(line, x, 0), D.Compose(x, bg, palette, line, true, zero);
      if k == |line| then dot.color as int == palette as int + bg as int && !dot.zeroHit
      else
        && dot.color as int == (if bg == 0 || !line[k].behind
                                then line[k].palette as int + D.SpritePixel(line[k], x) as int
                                else palette as int + bg as int)
        && dot.zeroHit == (k == 0 && bg != 0 && zero && x != 255)
  {
    hide D.InSprite;
    var k := D.FirstOpaque(line, x, 0);
    if k < |line| {
      PixelBelowFour(line[k], x);
      SmallSum(line[k].palette, D.SpritePixel(line[k], x));
    }
    SmallSum(palette, bg);
  }

  lemma PixelBelowFour(sprite: E.Sprite, x: int)
    requires D.InSprite(sprite, x)
    ensures D.SpritePixel(sprite, x) <= 3
  {
  }

  lemma SmallSum(a: bv8, b: bv8)
    requires a as int <= 28 && b <= 3
    ensures (a + b) as int == a as int + b as int
  {
  }

  lemma PaletteOfTile(s: Frame.Scene, tile: nat, y: nat)
    ensures Frame.PaletteOf(s, tile, y) <= 12
  {
  }

  lemma BackgroundColor(s: Frame.Scene, x: int, y: nat)
    requires 0 <= x < 256
    ensures Frame.BackgroundAt(s, x, y) <= 3
  {
  }

  /** What a line shows in a column: the first of its sprites that has a color there, unless bit 5 of its
    attributes puts it behind a background that has a color too. It is sprite 0 meeting that background
    exactly if its number is 0 and the column is not the last. */
  ghost predicate Shows(oam: E.Oam, ctrl: bv8, line: nat, bytes: W.Bytes, x: int, bg: int, palette: int, dot: D.Dot) {
    var found := OnLine(oam, ctrl, line);
    && Covered(oam, ctrl, line, found)
    && var k := FirstColored(oam, ctrl, line, found, bytes, x, 0);
       if k == |found| then dot.color as int == palette + bg && !dot.zeroHit
       else
         var b := E.OamBytes(oam, found[k]);
         && dot.color as int == Over(b, ColorIn(b, line, ctrl, bytes, x), bg, palette)
         && dot.zeroHit == (found[k] == 0 && bg != 0 && x != 255)
  }

  /** Every dot of the picture, in the bytes of OAM and of pattern memory. */
  lemma SpritesInPicture(s: Frame.Scene, x: int, y: nat)
    requires Frame.Fits(s) && 0 <= x < 256 && y > 0
    ensures
      var dot := Frame.Picture(s, x, y);
      var bg, palette := Frame.BackgroundAt(s, x, y), Frame.PaletteOf(s, Max(1, W.TileOf(s.view, x)), y);
      if ShowSprites(s.mask, x) then
        Shows(s.cast.oam, s.ctrl, y - 1, s.bytes, x, bg as int, palette as int, dot)
      else dot.color as int == palette as int + bg as int && !dot.zeroHit
  {
    hide Frame.BackgroundAt, Frame.PaletteOf, Frame.Fits, ShowSprites, Load, Hit, Height, ColorIn, InColumns,
      D.FirstOpaque, D.Compose, Shows, OnLine, D.Pick, F.Line, F.ZeroOn;
    var oam, line: nat := s.cast.oam, y - 1;
    var zero := F.ZeroOn(s.cast, y);
    var bg, palette := Frame.BackgroundAt(s, x, y), Frame.PaletteOf(s, Max(1, W.TileOf(s.view, x)), y);
    LineIs(s, y);
    PaletteOfTile(s, Max(1, W.TileOf(s.view, x)), y);
    BackgroundColor(s, x, y);
    FitsBytes(s);
    if ShowSprites(s.mask, x) {
      ShownDot(oam, s.ctrl, line, s.env.mem, s.bytes, x, bg, palette, zero);
    } else {
      HiddenDot(x, bg, palette, F.Line(s.cast, y), zero);
    }
  }

  /** The top line has no sprites. */
  lemma TopLine(s: Frame.Scene, x: int)
    requires 0 <= x < 256
    ensures
      var dot, bg := Frame.Picture(s, x, 0), Frame.BackgroundAt(s, x, 0);
      && dot.color as int == Frame.PaletteOf(s, Max(1, W.TileOf(s.view, x)), 0) as int + bg as int && !dot.zeroHit
  {
    hide Frame.BackgroundAt, Frame.PaletteOf, ShowSprites;
    PaletteOfTile(s, Max(1, W.TileOf(s.view, x)), 0);
    BackgroundColor(s, x, 0);
    SmallSum(Frame.PaletteOf(s, Max(1, W.TileOf(s.view, x)), 0), Frame.BackgroundAt(s, x, 0));
  }

  lemma FitsBytes(s: Frame.Scene)
    requires Frame.Fits(s)
    ensures W.SameBytes(s.env.mem, s.bytes)
  {
    hide Rendering;
  }

  lemma HiddenDot(x: int, bg: bv8, palette: bv8, line: seq<E.Sprite>, zero: bool)
    requires bg <= 3 && palette <= 12
    ensures
      var dot := D.Compose(x, bg, palette, line, false, zero);
      dot.color as int == palette as int + bg as int && !dot.zeroHit
  {
    SmallSum(palette, bg);
  }

  lemma ZeroIsFirst(oam: E.Oam, ctrl: bv8, line: nat, k: nat)
    requires k < |OnLine(oam, ctrl, line)|
    ensures (k == 0 && Hit(ctrl, line)(oam[0])) == (OnLine(oam, ctrl, line)[k] == 0)
  {
    hide Hit;
    OnLineCovers(oam, ctrl, line);
    E.ZeroFound(oam, Hit(ctrl, line), |oam| / 4);
  }

  lemma CoveredAt(oam: E.Oam, ctrl: bv8, line: nat, found: seq<E.SpriteIndex>, k: nat)
    requires Covered(oam, ctrl, line, found) && k < |found|
    ensures var y := E.OamBytes(oam, found[k])[0] as int; y <= line < y + Height(ctrl)
  {
  }

  lemma ShownDot(oam: E.Oam, ctrl: bv8, line: nat, mem: Memory, bytes: W.Bytes, x: int, bg: bv8, palette: bv8,
      zero: bool)
    requires W.SameBytes(mem, bytes) && bg <= 3 && palette <= 12 && zero == Hit(ctrl, line)(oam[0])
    ensures
      var sprites := D.Pick(oam, OnLine(oam, ctrl, line), Load(ctrl, line, mem));
      Shows(oam, ctrl, line, bytes, x, bg as int, palette as int, D.Compose(x, bg, palette, sprites, true, zero))
  {
    hide Load, Hit, Height, ColorIn, InColumns, OnLine, D.Compose, D.FirstOpaque, D.SpritePixel, FirstColored, Covered;
    OnLineCovers(oam, ctrl, line);
    var found := OnLine(oam, ctrl, line);
    var sprites := D.Pick(oam, found, Load(ctrl, line, mem));
    FirstIsColored(oam, ctrl, line, found, mem, bytes, x, 0);
    var k := FirstColored(oam, ctrl, line, found, bytes, x, 0);
    if k < |found| {
      var b := E.OamBytes(oam, found[k]);
      CoveredAt(oam, ctrl, line, found, k);
      LoadsItsRow(b, line, ctrl, mem, bytes);
      PixelIsColor(b, line, ctrl, mem, bytes, x);
      ZeroIsFirst(oam, ctrl, line, k);
    }
    ComposedOver(x, bg, palette, sprites, zero);
  }

  lemma LineIs(s: Frame.Scene, y: nat)
    requires Frame.Fits(s) && y > 0
    ensures F.Line(s.cast, y) == D.Pick(s.cast.oam, OnLine(s.cast.oam, s.ctrl, y - 1), Load(s.ctrl, y - 1, s.env.mem))
    ensures F.ZeroOn(s.cast, y) == Hit(s.ctrl, y - 1)(s.cast.oam[0])
  {
    hide Load, Hit, Rendering, E.Covering;
    var n: nat := y - 1;
    assert s.cast.hit(n) == Hit(s.ctrl, n) && s.cast.load(n) == Load(s.ctrl, n, s.env.mem);
  }
}
