/** The background half of the PPU pipeline.

  Each tile costs four fetches spread over eight cycles; two 16-bit shift registers and three
  palette latches carry what was fetched to the pixel that needs it, sixteen pixels later.
  Here a shift register is the queue of bits that it is. `LineInv` and `FetchInv` say what the
  state holds at every cycle in terms of the tiles of the current picture line, and the step
  lemmas show that a line of cycles goes from one to the other.
*/
module Background {
  import opened Words
  import opened Scroll

  type Plane = s: seq<bool> | |s| == 8 witness seq(8, _ => false)
  type Queue = s: seq<bool> | |s| == 16 witness seq(16, _ => false)

  datatype Bg = Bg(
    scroll: ScrollRegs,
    shiftLo: Queue, shiftHi: Queue,
    tileLo: Plane, tileHi: Plane, tileAddr: bv16,
    prev: bv8, curr: bv8, next: bv8)

  // ----- one cycle

  /** Bit i of a pattern byte, counting from the left, as it leaves the queue. */
  predicate PlaneBit(b: bv8, i: nat)
    requires i < 8
  {
    match i
    case 0 => b & 0x80 != 0
    case 1 => b & 0x40 != 0
    case 2 => b & 0x20 != 0
    case 3 => b & 0x10 != 0
    case 4 => b & 0x08 != 0
    case 5 => b & 0x04 != 0
    case 6 => b & 0x02 != 0
    case 7 => b & 0x01 != 0
  }

  function PlaneOf(b: bv8): Plane {
    seq(8, i requires 0 <= i < 8 => PlaneBit(b, i))
  }

  /** OR a plane into the last eight places. */
  function Load(q: Queue, p: Plane): Queue {
    seq(16, i requires 0 <= i < 16 => if i < 8 then q[i] else q[i] || p[i - 8])
  }

  function Pop(q: Queue): Queue {
    q[1..] + [false]
  }

  /** What the bus answers for a position: the address of its tile row, the palette of its
    tile, and the two planes behind an address. */
  datatype Tiles = Tiles(addr: Loopy -> bv16, palette: Loopy -> bv8, lo: bv16 -> Plane, hi: bv16 -> Plane)

  /** The second plane of a pattern follows eight bytes behind the first. */
  function HighPlane(addr: bv16): bv16 {
    addr + 8
  }

  function TilesOf(mem: Memory, base: bv16): Tiles {
    Tiles(p => TileAddr(mem, base, p), p => TilePalette(mem, p), a => PlaneOf(mem(a)), a => PlaneOf(mem(HighPlane(a))))
  }

  function TileAddr(mem: Memory, base: bv16, p: Loopy): bv16 {
    (base | ((mem(NtAddr(p)) as bv16) << 4)) | (p.fine as bv16)
  }

  function TilePalette(mem: Memory, p: Loopy): bv8 {
    ((mem(AttrAddr(p)) >> AttrShift(p)) & 0x03) << 2
  }

  function FetchNt(b: Bg, tiles: Tiles): Bg {
    b.(prev := b.curr, curr := b.next,
       shiftLo := Load(b.shiftLo, b.tileLo), shiftHi := Load(b.shiftHi, b.tileHi),
       tileAddr := tiles.addr(b.scroll.v))
  }

  function FetchAttr(b: Bg, tiles: Tiles): Bg {
    b.(next := tiles.palette(b.scroll.v))
  }

  /** Every eight cycles fetch a name, an attribute and the two pattern planes. */
  function FetchTile(b: Bg, cycle: int, tiles: Tiles): Bg {
    match cycle % 8
    case 1 => FetchNt(b, tiles)
    case 3 => FetchAttr(b, tiles)
    case 5 => b.(tileLo := tiles.lo(b.tileAddr))
    case 7 => b.(tileHi := tiles.hi(b.tileAddr))
    case _ => b
  }

  predicate FetchCycle(cycle: int) {
    1 <= cycle <= 256 || 321 <= cycle <= 336
  }

  function MoveV(b: Bg, v: Loopy): Bg {
    b.(scroll := b.scroll.(v := v))
  }

  /** Tiles on the visible and the prefetch cycles, names only on the last four. */
  function Fetching(b: Bg, cycle: int, tiles: Tiles): Bg {
    if FetchCycle(cycle) then
      var f := FetchTile(b, cycle, tiles);
      if cycle % 8 == 0 then MoveV(f, Right(f.scroll.v)) else f
    else if 337 <= cycle <= 340 then FetchNt(b, tiles)
    else b
  }

  /** Down at the end of a line, back to the left after it, and to the top on the pre-render line. */
  function Moved(b: Bg, cycle: int, prerender: bool): Bg {
    var v, t := b.scroll.v, b.scroll.t;
    if cycle == 256 then MoveV(b, Down(v))
    else if cycle == 257 then MoveV(b, v.(ntX := t.ntX, col := t.col))
    else if 280 <= cycle <= 304 && prerender then MoveV(b, t.(ntX := v.ntX, col := v.col))
    else b
  }

  /** What a rendering line does to the background state at a cycle, before the pixel is drawn. */
  function Work(b: Bg, cycle: int, prerender: bool, tiles: Tiles): Bg {
    var moved := Moved(Fetching(b, cycle, tiles), cycle, prerender);
    if 257 <= cycle <= 320 && cycle % 8 == 1 then FetchNt(moved, tiles)
    else if 257 <= cycle <= 320 && cycle % 8 == 3 then FetchAttr(moved, tiles)
    else moved
  }

  /** The addresses that a rendering line reads at a cycle on behalf of the background. */
  function Reads(b: Bg, cycle: int, prerender: bool): seq<bv16> {
    if FetchCycle(cycle) then
      match cycle % 8
      case 1 => [NtAddr(b.scroll.v)]
      case 3 => [AttrAddr(b.scroll.v)]
      case 5 => [b.tileAddr]
      case 7 => [HighPlane(b.tileAddr)]
      case _ => []
    else if 337 <= cycle <= 340 then [NtAddr(b.scroll.v)]
    else
      var v := Moved(b, cycle, prerender).scroll.v;
      if cycle % 8 == 1 then [NtAddr(v)] else if cycle % 8 == 3 then [AttrAddr(v)] else []
  }

  function PopBoth(b: Bg): Bg {
    b.(shiftLo := Pop(b.shiftLo), shiftHi := Pop(b.shiftHi))
  }

  /** The shift that ends every fetch cycle, whether or not rendering is on. */
  function Shift(b: Bg, cycle: int): Bg {
    if FetchCycle(cycle) then PopBoth(b) else b
  }

  // ----- what the tiles of a picture line are

  /** What stays fixed while a frame is drawn. */
  datatype View = View(tiles: Tiles, t: Loopy, fineX: bv3)

  /** The position of tile `g` of picture line `n`: `t` moved right g tiles and down n lines. */
  function Place(w: View, n: nat, g: nat): Loopy {
    RightBy(DownBy(w.t, n), g)
  }

  function Lo(w: View, n: nat, g: nat): Plane {
    w.tiles.lo(w.tiles.addr(Place(w, n, g)))
  }

  function Hi(w: View, n: nat, g: nat): Plane {
    w.tiles.hi(w.tiles.addr(Place(w, n, g)))
  }

  function Palette(w: View, n: nat, g: nat): bv8 {
    w.tiles.palette(Place(w, n, g))
  }

  // ----- queues

  /** The queue holds planes a and b, of which j bits have left; zeros fill the end. */
  ghost predicate Holds(q: Queue, a: Plane, b: Plane, j: nat) {
    forall i :: 0 <= i < 16 ==> q[i] == (i + j < 16 && (a + b)[i + j])
  }

  lemma PopHolds(q: Queue, a: Plane, b: Plane, j: nat)
    requires Holds(q, a, b, j)
    ensures Holds(Pop(q), a, b, j + 1)
  {
  }

  lemma LoadHolds(q: Queue, a: Plane, b: Plane, c: Plane)
    requires Holds(q, a, b, 8)
    ensures Holds(Load(q, c), b, c, 0)
  {
  }

  lemma ReloadHolds(q: Queue, a: Plane, b: Plane)
    requires Holds(q, a, b, 0)
    ensures Holds(Load(q, b), a, b, 0)
  {
  }

  /** Zeros fill the last j places. */
  ghost predicate Flushed(q: Queue, j: nat) {
    forall i :: 0 <= i < 16 && 16 <= i + j ==> !q[i]
  }

  /** Plane p sits behind eight unknown bits, and j bits have left. */
  ghost predicate HalfHolds(q: Queue, p: Plane, j: nat) {
    forall i :: 0 <= i < 16 && 8 <= i + j ==> q[i] == (i + j < 16 && p[i + j - 8])
  }

  lemma PopFlushed(q: Queue, j: nat)
    requires Flushed(q, j)
    ensures Flushed(Pop(q), j + 1)
  {
  }

  lemma LoadFlushed(q: Queue, p: Plane)
    requires Flushed(q, 8)
    ensures HalfHolds(Load(q, p), p, 0)
  {
  }

  lemma PopHalf(q: Queue, p: Plane, j: nat)
    requires HalfHolds(q, p, j)
    ensures HalfHolds(Pop(q), p, j + 1)
  {
  }

  lemma LoadHalf(q: Queue, a: Plane, b: Plane)
    requires HalfHolds(q, a, 8)
    ensures Holds(Load(q, b), a, b, 0)
  {
  }

  // ----- invariants

  predicate SameRow(p: Loopy, q: Loopy) {
    p.ntY == q.ntY && p.row == q.row && p.fine == q.fine
  }

  ghost predicate HoldsTiles(b: Bg, k: nat, j: nat, n: nat, w: View) {
    Holds(b.shiftLo, Lo(w, n, k), Lo(w, n, k + 1), j) && Holds(b.shiftHi, Hi(w, n, k), Hi(w, n, k + 1), j)
  }

  /** The fetch side after cycle 8k+j of a line that draws picture line `n`. */
  ghost predicate Fetched(b: Bg, k: nat, j: nat, n: nat, w: View) {
    && b.tileLo == Lo(w, n, if j < 5 then k + 1 else k + 2)
    && b.tileHi == Hi(w, n, if j < 7 then k + 1 else k + 2)
    && (1 <= j < 8 ==> b.tileAddr == w.tiles.addr(Place(w, n, k + 2)))
    && b.next == Palette(w, n, if j < 3 then k + 1 else k + 2)
  }

  /** Where `v` is after cycle 8k+j of such a line. */
  ghost predicate Scrolled(s: ScrollRegs, k: nat, j: nat, n: nat, w: View) {
    && s.t == w.t && s.fineX == w.fineX
    && (if j < 8 then s.v == Place(w, n, k + 2)
        else if k < 31 then s.v == Place(w, n, k + 3)
        else SameRow(s.v, DownBy(w.t, n + 1)))
  }

  /** The latched palettes run ahead: they also advance on the dummy fetches 337 to 340, so
    tile 0 is drawn with the palette of tile 1. */
  ghost predicate Latched(b: Bg, k: nat, n: nat, w: View) {
    b.curr == Palette(w, n, k + 1) && b.prev == Palette(w, n, Max(1, k))
  }

  /** Everything after cycle 8k+j, for j in 1..8, or k = j = 0. */
  ghost predicate LineInv(b: Bg, k: nat, j: nat, n: nat, w: View) {
    Scrolled(b.scroll, k, j, n, w) && Fetched(b, k, j, n, w) && Latched(b, k, n, w) && HoldsTiles(b, k, j, n, w)
  }

  /** The state while the pixel of cycle 8k+j is drawn. */
  ghost predicate DrawInv(b: Bg, k: nat, j: nat, n: nat, w: View)
    requires 1 <= j <= 8
  {
    b.scroll.fineX == w.fineX && Latched(b, k, n, w) && HoldsTiles(b, k, j - 1, n, w)
  }

  lemma TileStart(b: Bg, k: nat, j: nat, n: nat, w: View)
    requires j == 8 && LineInv(b, k, j, n, w) && k < 31
    ensures DrawInv(FetchNt(b, w.tiles), k + 1, 1, n, w)
    ensures LineInv(PopBoth(FetchNt(b, w.tiles)), k + 1, 1, n, w)
  {
    LoadHolds(b.shiftLo, Lo(w, n, k), Lo(w, n, k + 1), Lo(w, n, k + 2));
    LoadHolds(b.shiftHi, Hi(w, n, k), Hi(w, n, k + 1), Hi(w, n, k + 2));
    var b' := FetchNt(b, w.tiles);
    PopHolds(b'.shiftLo, Lo(w, n, k + 1), Lo(w, n, k + 2), 0);
    PopHolds(b'.shiftHi, Hi(w, n, k + 1), Hi(w, n, k + 2), 0);
  }

  lemma CycleInTile(k: nat, j: nat)
    requires 1 <= j <= 8
    ensures (8 * k + j) % 8 == if j == 8 then 0 else j
  {
  }

  lemma FetchMiddle(b: Bg, k: nat, j: nat, n: nat, w: View)
    requires 2 <= j < 8 && Fetched(b, k, j - 1, n, w) && b.scroll.v == Place(w, n, k + 2)
    ensures Fetched(FetchTile(b, j, w.tiles), k, j, n, w)
  {
  }

  lemma PopTiles(b: Bg, k: nat, j: nat, n: nat, w: View)
    requires HoldsTiles(b, k, j, n, w)
    ensures HoldsTiles(PopBoth(b), k, j + 1, n, w)
  {
    PopHolds(b.shiftLo, Lo(w, n, k), Lo(w, n, k + 1), j);
    PopHolds(b.shiftHi, Hi(w, n, k), Hi(w, n, k + 1), j);
  }

  lemma FetchMiddleFrame(b: Bg, j: nat, tiles: Tiles)
    requires 2 <= j < 8
    ensures FetchTile(b, j, tiles) ==
      b.(next := FetchTile(b, j, tiles).next, tileLo := FetchTile(b, j, tiles).tileLo,
          tileHi := FetchTile(b, j, tiles).tileHi)
  {
  }

  lemma TileMiddle(b: Bg, k: nat, j: nat, n: nat, w: View)
    requires k < 32 && 2 <= j < 8 && LineInv(b, k, j - 1, n, w)
    ensures DrawInv(FetchTile(b, j, w.tiles), k, j, n, w)
    ensures LineInv(PopBoth(FetchTile(b, j, w.tiles)), k, j, n, w)
  {
    FetchMiddle(b, k, j, n, w);
    FetchMiddleFrame(b, j, w.tiles);
    var f := FetchTile(b, j, w.tiles);
    PopTiles(f, k, j - 1, n, w);
  }

  lemma TileEnd(b: Bg, k: nat, j: nat, v: Loopy, n: nat, w: View)
    requires k < 32 && j == 8 && LineInv(b, k, j - 1, n, w)
    requires if k < 31 then v == Right(b.scroll.v) else v == Down(Right(b.scroll.v))
    ensures DrawInv(MoveV(b, v), k, j, n, w)
    ensures LineInv(PopBoth(MoveV(b, v)), k, j, n, w)
  {
    PopTiles(MoveV(b, v), k, j - 1, n, w);
    RightByWraps(DownBy(w.t, n), k + 3);
  }

  lemma LineStart(b: Bg, n: nat, w: View)
    requires LineInv(b, 0, 0, n, w)
    ensures DrawInv(FetchNt(b, w.tiles), 0, 1, n, w)
    ensures LineInv(PopBoth(FetchNt(b, w.tiles)), 0, 1, n, w)
  {
    ReloadHolds(b.shiftLo, Lo(w, n, 0), Lo(w, n, 1));
    ReloadHolds(b.shiftHi, Hi(w, n, 0), Hi(w, n, 1));
    PopTiles(FetchNt(b, w.tiles), 0, 0, n, w);
  }

  /** What `Work` comes to on cycle 8k+j of a visible line. */
  lemma WorkVisible(b: Bg, k: nat, j: nat, tiles: Tiles)
    requires k < 32 && 1 <= j <= 8
    ensures Work(b, 8 * k + j, false, tiles) ==
      if j == 1 then FetchNt(b, tiles)
      else if j < 8 then FetchTile(b, j, tiles)
      else MoveV(b, if k < 31 then Right(b.scroll.v) else Down(Right(b.scroll.v)))
  {
    CycleInTile(k, j);
  }

  /** The state that cycle 8k+j starts from. */
  ghost predicate Before(b: Bg, k: nat, j: nat, n: nat, w: View)
    requires 1 <= j
  {
    if 1 < j then LineInv(b, k, j - 1, n, w)
    else if 0 < k then LineInv(b, k - 1, 8, n, w)
    else LineInv(b, 0, 0, n, w)
  }

  /** A visible line, one cycle at a time. */
  lemma VisibleStep(b: Bg, k: nat, j: nat, n: nat, w: View)
    requires k < 32 && 1 <= j <= 8 && Before(b, k, j, n, w)
    ensures DrawInv(Work(b, 8 * k + j, false, w.tiles), k, j, n, w)
    ensures LineInv(Shift(Work(b, 8 * k + j, false, w.tiles), 8 * k + j), k, j, n, w)
  {
    WorkVisible(b, k, j, w.tiles);
    if j == 1 && k == 0 {
      LineStart(b, n, w);
    } else if j == 1 {
      TileStart(b, k - 1, 8, n, w);
    } else if j < 8 {
      TileMiddle(b, k, j, n, w);
    } else {
      TileEnd(b, k, j, if k < 31 then Right(b.scroll.v) else Down(Right(b.scroll.v)), n, w);
    }
  }

  // ----- between two lines

  /** Where `v` is after cycle `c` in 257..320, before picture line `m`; on the pre-render line
    the vertical part arrives at cycle 280. */
  ghost predicate BlankInv(s: ScrollRegs, c: nat, prerender: bool, m: nat, w: View) {
    && s.t == w.t && s.fineX == w.fineX
    && (if prerender && c < 280 then s.v.ntX == w.t.ntX && s.v.col == w.t.col else s.v == Place(w, m, 0))
  }

  lemma BlankStart(b: Bg, prerender: bool, m: nat, w: View)
    requires b.scroll.t == w.t && b.scroll.fineX == w.fineX
    requires !prerender ==> SameRow(b.scroll.v, DownBy(w.t, m))
    ensures BlankInv(Work(b, 257, prerender, w.tiles).scroll, 257, prerender, m, w)
  {
    DownByKeeps(w.t, m);
  }

  lemma BlankStep(b: Bg, c: nat, prerender: bool, m: nat, w: View)
    requires 258 <= c <= 320 && (prerender ==> m == 0)
    requires BlankInv(b.scroll, c - 1, prerender, m, w)
    ensures BlankInv(Work(b, c, prerender, w.tiles).scroll, c, prerender, m, w)
  {
  }

  /** j cycles into the fetch of tile g of line m. */
  ghost predicate Partial(b: Bg, j: nat, m: nat, g: nat, w: View) {
    && (1 <= j < 8 ==> b.tileAddr == w.tiles.addr(Place(w, m, g)))
    && (3 <= j ==> b.next == Palette(w, m, g))
    && (5 <= j ==> b.tileLo == Lo(w, m, g))
    && (7 <= j ==> b.tileHi == Hi(w, m, g))
  }

  /** What j cycles into the next fetch have not replaced yet. */
  ghost predicate Older(b: Bg, j: nat, m: nat, g: nat, w: View) {
    && (j < 3 ==> b.next == Palette(w, m, g))
    && (j < 5 ==> b.tileLo == Lo(w, m, g))
    && (j < 7 ==> b.tileHi == Hi(w, m, g))
  }

  lemma PartialStep(b: Bg, j: nat, m: nat, g: nat, w: View)
    requires 1 <= j <= 8 && Partial(b, j - 1, m, g, w) && b.scroll.v == Place(w, m, g)
    ensures Partial(FetchTile(b, j, w.tiles), j, m, g, w)
  {
  }

  lemma OlderStep(b: Bg, j: nat, m: nat, g: nat, w: View)
    requires 2 <= j <= 8 && Older(b, j - 1, m, g, w)
    ensures Older(FetchTile(b, j, w.tiles), j, m, g, w)
  {
  }

  /** Where `v` is j cycles into the fetch of tile g of line m. */
  ghost predicate Heading(s: ScrollRegs, j: nat, m: nat, g: nat, w: View) {
    s.t == w.t && s.fineX == w.fineX && s.v == Place(w, m, if j < 8 then g else g + 1)
  }

  /** After cycle 320+j: tile 0 is being fetched while the old bits leave. */
  ghost predicate PrefetchA(b: Bg, j: nat, m: nat, w: View) {
    Heading(b.scroll, j, m, 0, w) && Partial(b, j, m, 0, w) && Flushed(b.shiftLo, j) && Flushed(b.shiftHi, j)
  }

  /** After cycle 328+j: tile 1 is being fetched while tile 0 moves up. */
  ghost predicate PrefetchB(b: Bg, j: nat, m: nat, w: View) {
    && Heading(b.scroll, j, m, 1, w) && Partial(b, j, m, 1, w) && Older(b, j, m, 0, w)
    && HalfHolds(b.shiftLo, Lo(w, m, 0), j) && HalfHolds(b.shiftHi, Hi(w, m, 0), j)
  }

  /** After the dummy fetch at 337: everything but the older palette latch is in place. */
  ghost predicate PrefetchC(b: Bg, m: nat, w: View) {
    && Scrolled(b.scroll, 0, 0, m, w) && Fetched(b, 0, 0, m, w) && HoldsTiles(b, 0, 0, m, w)
    && b.curr == Palette(w, m, 1)
  }

  lemma FetchKeepsQueues(b: Bg, j: nat, m: nat, g: nat, w: View)
    requires 1 <= j <= 8 && Heading(b.scroll, j - 1, m, g, w)
    ensures Heading(FetchStep(b, j, w.tiles).scroll, j, m, g, w)
    ensures j != 1 ==> FetchStep(b, j, w.tiles).shiftLo == b.shiftLo && FetchStep(b, j, w.tiles).shiftHi == b.shiftHi
  {
  }

  lemma PrefetchAFirst(b: Bg, j: nat, m: nat, w: View)
    requires j == 1 && PrefetchA(b, 0, m, w)
    ensures PrefetchA(PopBoth(FetchStep(b, j, w.tiles)), j, m, w)
  {
    PartialStep(b, j, m, 0, w);
    PopFlushed(Load(b.shiftLo, b.tileLo), 0);
    PopFlushed(Load(b.shiftHi, b.tileHi), 0);
  }

  lemma PrefetchAStep(b: Bg, j: nat, m: nat, w: View)
    requires 2 <= j <= 8 && PrefetchA(b, j - 1, m, w)
    ensures PrefetchA(PopBoth(FetchStep(b, j, w.tiles)), j, m, w)
  {
    PartialStep(b, j, m, 0, w);
    FetchKeepsQueues(b, j, m, 0, w);
    PopFlushed(b.shiftLo, j - 1);
    PopFlushed(b.shiftHi, j - 1);
  }

  lemma PrefetchBStart(b: Bg, j: nat, m: nat, w: View)
    requires j == 8 && PrefetchA(b, j, m, w)
    ensures PrefetchB(PopBoth(FetchNt(b, w.tiles)), 1, m, w)
  {
    LoadFlushed(b.shiftLo, b.tileLo);
    LoadFlushed(b.shiftHi, b.tileHi);
    var f := FetchNt(b, w.tiles);
    PopHalf(f.shiftLo, b.tileLo, 0);
    PopHalf(f.shiftHi, b.tileHi, 0);
  }

  lemma PrefetchBStep(b: Bg, j: nat, m: nat, w: View)
    requires 2 <= j <= 8 && PrefetchB(b, j - 1, m, w)
    ensures PrefetchB(PopBoth(FetchStep(b, j, w.tiles)), j, m, w)
  {
    PartialStep(b, j, m, 1, w);
    OlderStep(b, j, m, 0, w);
    FetchKeepsQueues(b, j, m, 1, w);
    PopHalf(b.shiftLo, Lo(w, m, 0), j - 1);
    PopHalf(b.shiftHi, Hi(w, m, 0), j - 1);
  }

  lemma PrefetchCStart(b: Bg, j: nat, m: nat, w: View)
    requires j == 8 && PrefetchB(b, j, m, w)
    ensures PrefetchC(FetchNt(b, w.tiles), m, w)
  {
    LoadHalf(b.shiftLo, Lo(w, m, 0), Lo(w, m, 1));
    LoadHalf(b.shiftHi, Hi(w, m, 0), Hi(w, m, 1));
  }

  lemma PrefetchCStep(b: Bg, m: nat, w: View)
    requires PrefetchC(b, m, w)
    ensures PrefetchC(FetchNt(b, w.tiles), m, w)
    ensures LineInv(FetchNt(b, w.tiles), 0, 0, m, w)
  {
    ReloadHolds(b.shiftLo, Lo(w, m, 0), Lo(w, m, 1));
    ReloadHolds(b.shiftHi, Hi(w, m, 0), Hi(w, m, 1));
  }

  /** Cycle j of a tile, with the move to the right that ends it. */
  function FetchStep(b: Bg, j: nat, tiles: Tiles): Bg {
    var f := FetchTile(b, j, tiles);
    if j % 8 == 0 then MoveV(f, Right(f.scroll.v)) else f
  }

  /** What the invariant is after cycle `c` in 257..340 of a line followed by picture line `m`. */
  ghost predicate BetweenInv(b: Bg, c: nat, prerender: bool, m: nat, w: View) {
    if c <= 320 then BlankInv(b.scroll, c, prerender, m, w)
    else if c <= 328 then PrefetchA(b, c - 320, m, w)
    else if c <= 336 then PrefetchB(b, c - 328, m, w)
    else if c == 337 then PrefetchC(b, m, w)
    else PrefetchC(b, m, w) && LineInv(b, 0, 0, m, w)
  }

  lemma WorkFetch(b: Bg, c: nat, j: nat, prerender: bool, tiles: Tiles)
    requires 321 <= c <= 336 && c % 8 == j % 8
    ensures Work(b, c, prerender, tiles) == FetchStep(b, j, tiles)
  {
  }

  lemma WorkNt(b: Bg, c: nat, prerender: bool, tiles: Tiles)
    requires c == 321 || c == 329 || 337 <= c <= 340
    ensures Work(b, c, prerender, tiles) == FetchNt(b, tiles)
  {
  }

  lemma PrefetchStep(b: Bg, c: nat, prerender: bool, m: nat, w: View)
    requires 321 <= c <= 336
    requires BetweenInv(b, c - 1, prerender, m, w) && (prerender ==> m == 0)
    ensures BetweenInv(PopBoth(Work(b, c, prerender, w.tiles)), c, prerender, m, w)
  {
    WorkFetch(b, c, if c <= 328 then c - 320 else c - 328, prerender, w.tiles);
    if c == 321 {
      PrefetchAFirst(b, 1, m, w);
    } else if c <= 328 {
      PrefetchAStep(b, c - 320, m, w);
    } else if c == 329 {
      PrefetchBStart(b, 8, m, w);
    } else {
      PrefetchBStep(b, c - 328, m, w);
    }
  }

  lemma DummyStep(b: Bg, c: nat, prerender: bool, m: nat, w: View)
    requires 337 <= c <= 340 && BetweenInv(b, c - 1, prerender, m, w)
    ensures BetweenInv(Work(b, c, prerender, w.tiles), c, prerender, m, w)
  {
    WorkNt(b, c, prerender, w.tiles);
    if c == 337 {
      PrefetchCStart(b, 8, m, w);
    } else {
      PrefetchCStep(b, m, w);
    }
  }

  lemma BetweenStep(b: Bg, c: nat, prerender: bool, m: nat, w: View)
    requires 258 <= c <= 340 && (prerender ==> m == 0)
    requires BetweenInv(b, c - 1, prerender, m, w)
    ensures BetweenInv(Shift(Work(b, c, prerender, w.tiles), c), c, prerender, m, w)
  {
    if c <= 320 {
      BlankStep(b, c, prerender, m, w);
    } else if c <= 336 {
      PrefetchStep(b, c, prerender, m, w);
    } else {
      DummyStep(b, c, prerender, m, w);
    }
  }

  // ----- a whole line

  /** The background state after cycle `c` of a rendering line: the pre-render line, or the
    visible line that draws picture line `n`. */
  ghost predicate LinePos(b: Bg, c: nat, prerender: bool, n: nat, w: View) {
    if 257 <= c then BetweenInv(b, c, prerender, if prerender then 0 else n + 1, w)
    else if prerender then b.scroll.t == w.t && b.scroll.fineX == w.fineX
    else if c == 0 then LineInv(b, 0, 0, n, w)
    else LineInv(b, (c - 1) / 8, (c - 1) % 8 + 1, n, w)
  }

  lemma WorkKeepsT(b: Bg, c: nat, prerender: bool, tiles: Tiles)
    ensures Work(b, c, prerender, tiles).scroll.t == b.scroll.t
    ensures Work(b, c, prerender, tiles).scroll.fineX == b.scroll.fineX
  {
  }

  lemma PosBefore(b: Bg, c: nat, k: nat, j: nat, n: nat, w: View)
    requires 1 <= j <= 8 && k < 32 && c == 8 * k + j && LinePos(b, c - 1, false, n, w)
    ensures Before(b, k, j, n, w)
  {
    if j > 1 {
      assert (c - 2) / 8 == k && (c - 2) % 8 + 1 == j - 1;
    } else if k > 0 {
      assert (c - 2) / 8 == k - 1 && (c - 2) % 8 + 1 == 8;
    }
  }

  lemma VisiblePos(b: Bg, c: nat, k: nat, j: nat, n: nat, w: View)
    requires 1 <= j <= 8 && k < 32 && c == 8 * k + j && LinePos(b, c - 1, false, n, w)
    ensures DrawInv(Work(b, c, false, w.tiles), k, j, n, w)
    ensures LineInv(Shift(Work(b, c, false, w.tiles), c), k, j, n, w)
  {
    PosBefore(b, c, k, j, n, w);
    VisibleStep(b, k, j, n, w);
  }

  /** One cycle of a rendering line. */
  lemma LineStep(b: Bg, c: nat, prerender: bool, n: nat, w: View)
    requires 1 <= c <= 340 && LinePos(b, c - 1, prerender, n, w)
    ensures LinePos(Shift(Work(b, c, prerender, w.tiles), c), c, prerender, n, w)
  {
    if c == 257 {
      if !prerender {
        LastOfLine(b, n, w);
      }
      BlankStart(b, prerender, if prerender then 0 else n + 1, w);
    } else if 257 < c {
      BetweenStep(b, c, prerender, if prerender then 0 else n + 1, w);
    } else if prerender {
      WorkKeepsT(b, c, prerender, w.tiles);
    } else {
      VisiblePos(b, c, (c - 1) / 8, (c - 1) % 8 + 1, n, w);
    }
  }

  lemma LastOfLine(b: Bg, n: nat, w: View)
    requires LinePos(b, 256, false, n, w)
    ensures b.scroll.t == w.t && b.scroll.fineX == w.fineX && SameRow(b.scroll.v, DownBy(w.t, n + 1))
  {
  }

  /** The next line starts from what the last cycles fetched; the skipped dot of an odd frame
    makes no difference. */
  lemma NextLine(b: Bg, c: nat, prerender: bool, n: nat, w: View)
    requires 339 <= c <= 340 && LinePos(b, c, prerender, n, w)
    ensures LinePos(b, 340, prerender, n, w)
    ensures LinePos(b, 0, false, if prerender then 0 else n + 1, w)
  {
  }
}
