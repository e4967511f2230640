/** Loading the sprites of a line and choosing the sprite of a pixel.

  While cycles 257 to 320 load up to eight sprites, `present` collects the columns that they
  cover; a pixel looks at the sprites only if its column is marked. `LineSprites` says what
  is loaded, and `PresenceIsExact` that the shortcut never changes what is drawn.
*/
module SpriteDraw {
  import opened Words
  import opened Background
  import opened SpriteEval

  // ----- from four bytes to a sprite

  predicate Covers(y: int, height: int, line: int) {
    y <= line < y + height
  }

  /** The line inside the sprite, counted from the top of its tile data. */
  function SpriteRow(y: int, height: int, line: int, flipY: bool): (row: int)
    requires height == 8 || height == 16
    ensures 0 <= row < height
  {
    var offset := if Covers(y, height, line) then line - y else 0;
    if flipY then height - 1 - offset else offset
  }

  /** Tall sprites take their pattern table from bit 0 of the tile number and continue in the
    next tile, sixteen bytes on. */
  function SpriteAddr(tile: bv8, row: int, tall: bool, base: bv16): bv16
    requires 0 <= row < if tall then 16 else 8
  {
    if tall then
      ((if tile & 1 != 0 then 0x1000 else 0) | (((tile & 0xFE) as bv16) << 4)) | (if row < 8 then row
          else row + 8) as bv16
    else (base | ((tile as bv16) << 4)) | (row as bv16)
  }

  type Bytes4 = b: seq<bv8> | |b| == 4 witness [0, 0, 0, 0]

  /** A sprite decoded from its Y, tile, attribute and X bytes. */
  function Decode(y: bv8, tile: bv8, attr: bv8, x: bv8, line: int, tall: bool, base: bv16, mem: Memory): Sprite {
    var flipY := attr & 0x80 != 0;
    var addr := SpriteAddr(tile, SpriteRow(y as int, if tall then 16 else 8, line, flipY), tall, base);
    Sprite(x as int, y as int, mem(addr), mem(HighPlane(addr)), ((attr & 0x03) << 2) | 0x10,
           attr & 0x20 != 0, attr & 0x40 != 0, flipY)
  }

  function SpriteOf(b: Bytes4, line: int, tall: bool, base: bv16, mem: Memory): Sprite {
    Decode(b[0], b[1], b[2], b[3], line, tall, base, mem)
  }

  const BLANK_SPRITE := Sprite(0xFF, 0xFF, 0, 0, 0x07, true, true, true)

  // ----- the start of the pre-render line

  /** On the pre-render line an OAMADDR of 8 or more spills eight bytes to the start of OAM. */
  function Spill(s: Spr, c: nat): Spr {
    if 1 <= c <= 8 && s.oamaddr >= 8 then
      s.(oam := s.oam[c - 1 := s.oam[s.oamaddr / 8 * 8 + c - 1]])
    else s
  }

  // ----- cycles 257 to 320

  function Mark(present: Presence, x: u8): Presence {
    seq(256, i requires 0 <= i < 256 => present[i] || x <= i < x + 8)
  }

  /** The pattern address read for a slot: that of its sprite, or for a slot that evaluation left empty
    that of the first row of tile $FF. The second plane is read after it. */
  function SlotAddr(s: Spr, slot: nat, line: int, tall: bool, base: bv16): bv16
    requires slot < 8
  {
    if slot < s.count then
      var flipY := s.sec[4 * slot + 2] & 0x80 != 0;
      var row := SpriteRow(s.sec[4 * slot] as int, if tall then 16 else 8, line, flipY);
      SpriteAddr(s.sec[4 * slot + 1], row, tall, base)
    else SpriteAddr(0xFF, 0, tall, base)
  }

  /** The addresses that a rendering line reads at a cycle on behalf of the sprites. */
  function Reads(s: Spr, c: int, prerender: bool, line: int, tall: bool, base: bv16): seq<bv16> {
    if 257 <= c <= 320 && c % 8 == 4 then
      var addr := SlotAddr(if prerender then s.(count := 0) else s, (c - 257) / 8, line, tall, base);
      [addr, HighPlane(addr)]
    else []
  }

  function LoadSlot(s: Spr, slot: nat, load: Bytes4 -> Sprite): Spr
    requires slot < 8
  {
    if slot < s.count then
      var sprite := load(s.sec[4 * slot..4 * slot + 4]);
      s.(sprites := s.sprites[slot := sprite], present := Mark(s.present, sprite.x))
    else s
  }

  function FetchSprites(s: Spr, c: int, load: Bytes4 -> Sprite): Spr
    requires 257 <= c <= 320
  {
    var s := s.(oamaddr := 0, present := if c == 257 then seq(256, _ => false) else s.present);
    if c % 8 == 4 then LoadSlot(s, (c - 257) / 8, load) else s
  }

  // ----- a cycle of a rendering line

  /** Sprite evaluation, or OAMADDR pinned to 0 while sprites are fetched. */
  function Evaluating(s: Spr, c: int, hit: bv8 -> bool): Spr
    requires 1 <= c
  {
    if c <= 256 then EvalCycle(s, c, hit)
    else if c <= 320 then s.(oamaddr := 0)
    else s
  }

  /** The spill, on the pre-render line, and loading. */
  function Rendering(s: Spr, c: int, prerender: bool, load: Bytes4 -> Sprite): Spr
    requires 1 <= c
  {
    var s := if prerender then Spill(s, c).(count := 0) else s;
    if 257 <= c <= 320 then FetchSprites(s, c, load)
    else if 321 <= c then s.(fetch := s.sec[0])
    else s
  }

  function Cycle(s: Spr, c: int, evaluates: bool, renders: bool, prerender: bool, hit: bv8 -> bool,
      load: Bytes4 -> Sprite): Spr
    requires 1 <= c
  {
    var e := if evaluates then Evaluating(s, c, hit) else s;
    if renders then Rendering(e, c, prerender, load) else e
  }

  /** Whether one of the sprites covers column x. */
  predicate Occupied(line: seq<Sprite>, x: int) {
    exists i :: 0 <= i < |line| && line[i].x <= x < line[i].x + 8
  }

  /** The first m slots hold the sprites of `line`, and their columns are marked. */
  ghost predicate Loaded(s: Spr, line: seq<Sprite>, m: nat) {
    && s.count == |line|
    && (forall i :: 0 <= i < m && i < |line| ==> s.sprites[i] == line[i])
    && (forall x :: 0 <= x < 256 ==> s.present[x] == Occupied(line[..Min(m, |line|)], x))
  }

  /** Secondary OAM holds the bytes of `line`. */
  ghost predicate Buffers(s: Spr, line: seq<Sprite>, load: Bytes4 -> Sprite) {
    && s.count == |line|
    && forall i :: 0 <= i < |line| ==> line[i] == load(s.sec[4 * i..4 * i + 4])
  }

  lemma LoadSlotStep(s: Spr, line: seq<Sprite>, slot: nat, load: Bytes4 -> Sprite)
    requires slot < 8 && Loaded(s, line, slot) && Buffers(s, line, load)
    ensures Loaded(LoadSlot(s, slot, load), line, slot + 1) && Buffers(LoadSlot(s, slot, load), line, load)
  {
    if slot < |line| {
      var r := LoadSlot(s, slot, load);
      assert line[..slot + 1] == line[..slot] + [line[slot]];
      forall x | 0 <= x < 256 ensures r.present[x] == Occupied(line[..slot + 1], x) {
        assert s.present[x] == Occupied(line[..slot], x);
        OccupiedSnoc(line[..slot], line[slot], x);
      }
    } else {
      assert line[..Min(slot + 1, |line|)] == line[..Min(slot, |line|)];
    }
  }

  lemma OccupiedSnoc(line: seq<Sprite>, sprite: Sprite, x: int)
    ensures Occupied(line + [sprite], x) == (Occupied(line, x) || sprite.x <= x < sprite.x + 8)
  {
    var all := line + [sprite];
    if Occupied(line, x) {
      var i :| 0 <= i < |line| && line[i].x <= x < line[i].x + 8;
      assert all[i] == line[i];
    }
    if sprite.x <= x < sprite.x + 8 {
      assert all[|line|] == sprite;
    }
  }

  /** Slots loaded after cycle c in 257..320; slot i is loaded at cycle 260 + 8i. */
  function SlotsDone(c: int): nat
    requires 257 <= c <= 320
  {
    (c - 252) / 8
  }

  lemma FetchStart(s: Spr, line: seq<Sprite>, c: int, load: Bytes4 -> Sprite)
    requires c == 257 && Buffers(s, line, load)
    ensures Buffers(FetchSprites(s, c, load), line, load) && Loaded(FetchSprites(s, c, load), line, SlotsDone(c))
  {
    assert line[..Min(0, |line|)] == [];
  }

  lemma FetchStep(s: Spr, line: seq<Sprite>, c: int, load: Bytes4 -> Sprite)
    requires 258 <= c <= 320 && Buffers(s, line, load) && Loaded(s, line, SlotsDone(c - 1))
    ensures Buffers(FetchSprites(s, c, load), line, load) && Loaded(FetchSprites(s, c, load), line, SlotsDone(c))
  {
    var quiet := s.(oamaddr := 0);
    QuietFetch(s, quiet, line, load, SlotsDone(c - 1));
    if c % 8 == 4 {
      var slot := (c - 257) / 8;
      assert SlotsDone(c - 1) == slot && SlotsDone(c) == slot + 1;
      LoadSlotStep(quiet, line, slot, load);
    } else {
      assert SlotsDone(c - 1) == SlotsDone(c);
    }
  }

  lemma QuietFetch(s: Spr, r: Spr, line: seq<Sprite>, load: Bytes4 -> Sprite, m: nat)
    requires r.count == s.count && r.sprites == s.sprites && r.present == s.present && r.sec == s.sec
    requires Buffers(s, line, load) && Loaded(s, line, m)
    ensures Buffers(r, line, load) && Loaded(r, line, m)
  {
  }

  // ----- what evaluation left is what is loaded

  /** The sprites of a line, straight from OAM. */
  function LineSprites(oam: Oam, hit: bv8 -> bool, load: Bytes4 -> Sprite): (line: seq<Sprite>)
    ensures |line| == |FirstEight(Covering(oam, hit))|
  {
    Pick(oam, FirstEight(Covering(oam, hit)), load)
  }

  function Pick(oam: Oam, found: seq<SpriteIndex>, load: Bytes4 -> Sprite): (line: seq<Sprite>)
    ensures |line| == |found|
  {
    seq(|found|, i requires 0 <= i < |found| => load(OamBytes(oam, found[i])))
  }

  lemma EvaluatedBuffers(s: Spr, hit: bv8 -> bool, clean: bool, flag: bool, load: Bytes4 -> Sprite)
    requires Evaluated(s, hit, clean, flag)
    ensures Buffers(s, LineSprites(s.oam, hit, load), load)
  {
    var first := FirstEight(Covering(s.oam, hit));
    var line := LineSprites(s.oam, hit, load);
    forall i | 0 <= i < |line| ensures line[i] == load(s.sec[4 * i..4 * i + 4]) {
      FlatBytes(s.oam, first, i);
      assert s.sec[4 * i..4 * i + 4] == s.sec[..4 * |first|][4 * i..4 * i + 4];
    }
  }

  // ----- a pixel

  predicate InSprite(sprite: Sprite, x: int) {
    sprite.x <= x < sprite.x + 8
  }

  function SpritePixel(sprite: Sprite, x: int): bv8
    requires InSprite(sprite, x)
  {
    var i := if sprite.flipX then 7 - (x - sprite.x) else x - sprite.x;
    (if PlaneBit(sprite.tileHi, i) then 2 else 0) + (if PlaneBit(sprite.tileLo, i) then 1 else 0)
  }

  /** The first sprite from slot i on with a visible pixel in column x, or their number. */
  function FirstOpaque(line: seq<Sprite>, x: int, i: nat): (k: nat)
    requires i <= |line|
    ensures i <= k <= |line|
    ensures k < |line| ==> InSprite(line[k], x) && SpritePixel(line[k], x) != 0
    ensures forall j :: i <= j < k && InSprite(line[j], x) ==> SpritePixel(line[j], x) == 0
    decreases |line| - i
  {
    if i == |line| || (InSprite(line[i], x) && SpritePixel(line[i], x) != 0) then i
    else FirstOpaque(line, x, i + 1)
  }

  /** A palette index, and whether sprite 0 met the background here. */
  datatype Dot = Dot(color: bv8, zeroHit: bool)

  /** The pixel of column x: the first opaque sprite, unless it hides behind an opaque background. */
  function Compose(x: int, bg: bv8, bgPalette: bv8, line: seq<Sprite>, shown: bool, zeroVisible: bool): Dot {
    var k := if shown then FirstOpaque(line, x, 0) else |line|;
    if k == |line| then Dot(bgPalette + bg, false)
    else
      Dot(if bg == 0 || !line[k].behind then line[k].palette + SpritePixel(line[k], x) else bgPalette + bg,
          k == 0 && bg != 0 && zeroVisible && x != 255)
  }

  /** The shortcut through `present` is exact: with all slots loaded it changes neither the
    color nor the hit of any column. */
  lemma PresenceIsExact(s: Spr, line: seq<Sprite>, x: int, bg: bv8, bgPalette: bv8, shown: bool, zeroVisible: bool)
    requires Loaded(s, line, 8) && |line| <= 8 && 0 <= x < 256
    ensures s.sprites[..s.count] == line
    ensures Compose(x, bg, bgPalette, s.sprites[..s.count], shown && s.present[x], zeroVisible)
         == Compose(x, bg, bgPalette, line, shown, zeroVisible)
  {
    assert line[..Min(8, |line|)] == line;
    if !s.present[x] {
      assert !Occupied(line, x);
    }
  }
}
