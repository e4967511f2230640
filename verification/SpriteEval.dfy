/** Sprite evaluation: on every visible line the PPU walks its 64 sprites and copies the first
  eight that cover the line to secondary OAM, one byte every two cycles. With eight found it
  keeps walking, one sprite and one byte column at a time, to decide the overflow flag.

  `EvalCycle` is the machine. `Covering`, `FirstEight` and `Overflows` are what it is meant to
  compute, and `Evaluation` is the theorem that it does, for every OAM content.
*/
module SpriteEval {
  import opened Words

  type Oam = s: seq<bv8> | |s| == 256 witness seq(256, _ => 0)
  type SecondaryOam = s: seq<bv8> | |s| == 32 witness seq(32, _ => 0)
  type Presence = s: seq<bool> | |s| == 256 witness seq(256, _ => false)

  /** A sprite as loaded for drawing. */
  datatype Sprite = Sprite(x: u8, y: u8, tileLo: bv8, tileHi: bv8, palette: bv8,
                           behind: bool, flipX: bool, flipY: bool)

  type Slots = s: seq<Sprite> | |s| == 8 witness seq(8, _ => Sprite(0, 0, 0, 0, 0, false, false, false))

  type SpriteIndex = x: int | 0 <= x < 64
  type Lane = x: int | 0 <= x < 4
  type SecondaryAddr = x: int | 0 <= x <= 32
  type SpriteCount = x: int | 0 <= x <= 8

  datatype Spr = Spr(
    oam: Oam, oamaddr: u8, hi: SpriteIndex, lo: Lane,
    sec: SecondaryOam, secaddr: SecondaryAddr, fetch: bv8,
    done: bool, countdown: Lane, inRange: bool,
    zeroInRange: bool, zeroVisible: bool, overflow: bool,
    count: SpriteCount, sprites: Slots, present: Presence)

  // ----- the machine

  function NextIndex(i: SpriteIndex): SpriteIndex {
    (i + 1) % 64
  }

  /** Evaluation at cycle `c` in 1..256; `hit` says whether a byte, read as a Y, covers the line. */
  function EvalCycle(s: Spr, c: int, hit: bv8 -> bool): Spr
    requires 1 <= c <= 256
  {
    if c <= 64 then s.(fetch := 0xFF, sec := seq(32, _ => 0xFF))
    else if c == 65 then Read(Restart(s))
    else if c == 256 then Write(Latch(s), hit)
    else if c % 2 == 1 then Read(s)
    else Write(s, hit)
  }

  function Restart(s: Spr): Spr {
    s.(inRange := false, zeroInRange := false, secaddr := 0, done := false, hi := s.oamaddr / 4, lo := s.oamaddr % 4)
  }

  function Latch(s: Spr): Spr {
    s.(zeroVisible := s.zeroInRange, count := s.secaddr / 4)
  }

  function Read(s: Spr): Spr {
    s.(fetch := s.oam[s.oamaddr])
  }

  function Write(s: Spr, hit: bv8 -> bool): Spr {
    var w :=
      if s.done then
        s.(hi := NextIndex(s.hi), fetch := if s.secaddr == 32 then s.sec[0] else s.fetch)
      else
        var r := s.(inRange := s.inRange || hit(s.fetch));
        if s.secaddr < 32 then Copy(r) else Overflow(r.(fetch := s.sec[0]));
    w.(oamaddr := 4 * w.hi + w.lo)
  }

  /** A byte goes to secondary OAM; it stays there only if the sprite covers the line. */
  function Copy(s: Spr): Spr
    requires s.secaddr < 32
  {
    var c := s.(sec := s.sec[s.secaddr := s.fetch]);
    var next := NextIndex(s.hi);
    if !s.inRange then c.(hi := next, done := next == 0)
    else
      var c := c.(secaddr := s.secaddr + 1, zeroInRange := s.zeroInRange || s.hi == 0);
      if s.lo == 3 then c.(inRange := false, lo := 0, hi := next, done := next == 0)
      else c.(lo := s.lo + 1)
  }

  /** Secondary OAM is full: the walk moves on by a sprite and a lane at a time. */
  function Overflow(s: Spr): Spr {
    var next := NextIndex(s.hi);
    if !s.inRange then s.(hi := next, lo := (s.lo + 1) % 4, done := next == 0)
    else
      var last := s.countdown == 1;
      s.(overflow := true,
         hi := if s.lo == 3 then next else s.hi,
         lo := if s.lo == 3 || last then 0 else s.lo + 1,
         countdown := if s.countdown == 0 then 3 else s.countdown - 1,
         done := last)
  }

  // ----- what it is meant to compute

  /** The sprites before index i that cover the line, in OAM order. */
  function Found(oam: Oam, hit: bv8 -> bool, i: nat): seq<SpriteIndex>
    requires i <= 64
  {
    if i == 0 then []
    else Found(oam, hit, i - 1) + if hit(oam[4 * (i - 1)]) then [i - 1] else []
  }

  function Covering(oam: Oam, hit: bv8 -> bool): seq<SpriteIndex> {
    Found(oam, hit, |oam| / 4)
  }

  function FirstEight(found: seq<SpriteIndex>): seq<SpriteIndex> {
    found[..Min(8, |found|)]
  }

  /** The four bytes of sprite n. */
  function OamBytes(oam: Oam, n: SpriteIndex): (bytes: seq<bv8>)
    ensures |bytes| == 4
  {
    oam[4 * n as int..4 * n as int + 4]
  }

  /** The four bytes of each sprite, one sprite after the other. */
  function Flat(oam: Oam, found: seq<SpriteIndex>): (s: seq<bv8>)
    ensures |s| == 4 * |found|
  {
    if found == [] then []
    else
      var i: int := found[|found| - 1];
      Flat(oam, found[..|found| - 1]) + oam[4 * i..4 * i + 4]
  }

  /** The sprite behind the one that takes the eighth place. */
  function BehindEighth(all: seq<SpriteIndex>): (n: nat)
    requires |all| >= 8
    ensures 1 <= n <= 64
  {
    var eighth: int := all[7];
    eighth + 1
  }

  /** Byte (m mod 4) of the m-th sprite from sprite n on. */
  function DiagonalByte(oam: Oam, n: nat, m: nat): bv8
    requires n + m < 64
  {
    oam[4 * (n + m) + m % 4]
  }

  /** The overflow flag of a line: with eight sprites found, the scan goes diagonally through the
    bytes of the sprites behind the eighth. */
  ghost predicate Overflows(oam: Oam, hit: bv8 -> bool) {
    var all := Covering(oam, hit);
    |all| >= 8 && exists m: nat :: BehindEighth(all) + m < 64 && hit(DiagonalByte(oam, BehindEighth(all), m))
  }

  // ----- facts about the sprites found

  lemma {:induction false} FoundPrefix(oam: Oam, hit: bv8 -> bool, i: nat, j: nat)
    requires i <= j <= 64
    ensures Found(oam, hit, i) <= Found(oam, hit, j)
    decreases j - i
  {
    if i < j {
      FoundPrefix(oam, hit, i, j - 1);
    }
  }

  lemma {:induction false} ZeroFound(oam: Oam, hit: bv8 -> bool, i: nat)
    requires i <= 64
    ensures if i > 0 && hit(oam[0]) then |Found(oam, hit, i)| > 0 && Found(oam, hit, i)[0] == 0
            else 0 !in Found(oam, hit, i)
  {
    if i > 0 {
      ZeroFound(oam, hit, i - 1);
    }
  }

  lemma ZeroFirst(oam: Oam, hit: bv8 -> bool)
    ensures (0 in FirstEight(Covering(oam, hit))) == hit(oam[0])
  {
    ZeroFound(oam, hit, |oam| / 4);
    if hit(oam[0]) {
      assert FirstEight(Covering(oam, hit))[0] == 0;
    }
  }

  /** A covering sprite joins the sprites found. */
  lemma JoinFound(oam: Oam, hit: bv8 -> bool, i: SpriteIndex)
    requires hit(oam[4 * i])
    ensures Found(oam, hit, i + 1) == Found(oam, hit, i) + [i]
    ensures Flat(oam, Found(oam, hit, i + 1)) == Flat(oam, Found(oam, hit, i)) + oam[4 * i..4 * i + 4]
  {
    var found := Found(oam, hit, i);
    assert (found + [i])[..|found|] == found;
  }

  /** Whoever has found eight, or has seen all, has found the first eight. */
  lemma FirstFound(oam: Oam, hit: bv8 -> bool, i: nat)
    requires i <= 64 && |Found(oam, hit, i)| <= 8
    requires i == 64 || |Found(oam, hit, i)| == 8
    ensures FirstEight(Covering(oam, hit)) == Found(oam, hit, i)
  {
    FoundPrefix(oam, hit, i, 64);
    assert |oam| / 4 == 64;
  }

  lemma EighthFound(oam: Oam, hit: bv8 -> bool, i: SpriteIndex)
    requires |Found(oam, hit, i)| == 7 && hit(oam[4 * i])
    ensures |Covering(oam, hit)| >= 8 && BehindEighth(Covering(oam, hit)) == i + 1
  {
    JoinFound(oam, hit, i);
    FoundPrefix(oam, hit, i + 1, 64);
    assert |oam| / 4 == 64;
  }

  // ----- the diagonal

  /** The overflow scan from sprite n and lane l: the lane moves on with the sprite. */
  predicate DiagonalFrom(oam: Oam, hit: bv8 -> bool, n: nat, l: Lane)
    requires n <= 64
    decreases 64 - n
  {
    n < 64 && (hit(oam[4 * n + l]) || DiagonalFrom(oam, hit, n + 1, (l + 1) % 4))
  }

  predicate LateHit(oam: Oam, hit: bv8 -> bool) {
    var all := Covering(oam, hit);
    |all| >= 8 && DiagonalFrom(oam, hit, BehindEighth(all), 0)
  }

  lemma {:induction false} DiagonalIff(oam: Oam, hit: bv8 -> bool, n: nat, m: nat)
    requires n + m <= 64
    ensures DiagonalFrom(oam, hit, n + m, m % 4) <==>
      exists k: nat :: m <= k && n + k < 64 && hit(DiagonalByte(oam, n, k))
    decreases 64 - n - m
  {
    if n + m < 64 {
      assert (m % 4 + 1) % 4 == (m + 1) % 4;
      DiagonalIff(oam, hit, n, m + 1);
      if hit(DiagonalByte(oam, n, m)) {
      } else if DiagonalFrom(oam, hit, n + m + 1, (m + 1) % 4) {
        var k: nat :| m + 1 <= k && n + k < 64 && hit(DiagonalByte(oam, n, k));
      }
    }
  }

  lemma LateHitIff(oam: Oam, hit: bv8 -> bool)
    ensures LateHit(oam, hit) == Overflows(oam, hit)
  {
    var all := Covering(oam, hit);
    if |all| >= 8 {
      var start := 0;
      DiagonalIff(oam, hit, BehindEighth(all), start);
    }
  }

  // ----- the invariant of the walk

  ghost predicate Copied(s: Spr, found: seq<SpriteIndex>) {
    && |found| <= 8
    && s.secaddr == 4 * |found|
    && s.sec[..4 * |found|] == Flat(s.oam, found)
    && s.zeroInRange == (0 in found)
  }

  /** Room is left: sprites before `hi` have been passed, those of them that cover the line are
    copied, and `lo` bytes of sprite `hi` as well. A sprite passed takes one pair of cycles, a
    sprite copied four. */
  ghost predicate Walking(s: Spr, hit: bv8 -> bool, k: nat) {
    var found := Found(s.oam, hit, s.hi);
    var n := |found|;
    && !s.done && n < 8
    && s.secaddr == 4 * n + s.lo && s.oamaddr == 4 * s.hi + s.lo
    && s.inRange == (0 < s.lo) && (0 < s.lo ==> hit(s.oam[4 * s.hi]))
    && Buffered(s.sec, s.oam, found, s.hi, s.lo)
    && s.zeroInRange == (0 in found || (0 < s.lo && s.hi == 0))
    && k == s.hi + 3 * n + s.lo
  }

  /** Secondary OAM begins with the sprites found and l bytes of sprite i. */
  ghost predicate Buffered(sec: SecondaryOam, oam: Oam, found: seq<SpriteIndex>, i: SpriteIndex, l: Lane) {
    var n := 4 * |found|;
    && n + l <= 32
    && sec[..n] == Flat(oam, found)
    && sec[n..n + l] == oam[4 * i..4 * i + l]
  }

  /** Nothing is copied any more. */
  ghost predicate Over(s: Spr, hit: bv8 -> bool) {
    Copied(s, FirstEight(Covering(s.oam, hit))) && (s.done || s.secaddr == 32)
  }

  /** After k pairs of cycles. */
  ghost predicate WalkInv(s: Spr, hit: bv8 -> bool, k: nat) {
    if !s.done && s.secaddr < 32 then Walking(s, hit, k) else Over(s, hit)
  }

  // ----- one write

  predicate SameRest(s: Spr, r: Spr) {
    r.oam == s.oam && r.count == s.count && r.zeroVisible == s.zeroVisible
    && r.sprites == s.sprites && r.present == s.present
  }

  predicate SameFlag(s: Spr, r: Spr) {
    r.overflow == s.overflow && r.countdown == s.countdown
  }

  /** From s to r a byte is copied that stays. */
  ghost predicate Grows(s: Spr, r: Spr) {
    && SameRest(s, r) && s.secaddr < 32 && r.sec == s.sec[s.secaddr := s.fetch] && r.secaddr == s.secaddr + 1
    && r.zeroInRange == (s.zeroInRange || s.hi == 0) && SameFlag(s, r)
    && r.oamaddr == 4 * r.hi + r.lo
    && (if s.lo < 3 then r.inRange && r.lo == s.lo + 1 && r.hi == s.hi && !r.done
        else !r.inRange && r.lo == 0 && r.hi == (if s.hi == 63 then 0 else s.hi + 1) && r.done == (s.hi == 63))
  }

  lemma WriteGrows(s: Spr, hit: bv8 -> bool)
    requires !s.done && s.secaddr < 32 && (s.inRange || hit(s.fetch))
    ensures Grows(s, Write(s, hit))
  {
  }

  /** From s to r a sprite is passed over. */
  ghost predicate Skips(s: Spr, r: Spr) {
    && SameRest(s, r) && s.secaddr < 32 && r.sec == s.sec[s.secaddr := s.fetch] && r.secaddr == s.secaddr
    && r.zeroInRange == s.zeroInRange && r.lo == s.lo && !r.inRange && SameFlag(s, r)
    && r.hi == (if s.hi == 63 then 0 else s.hi + 1) && r.done == (s.hi == 63) && r.oamaddr == 4 * r.hi + r.lo
  }

  lemma WriteSkips(s: Spr, hit: bv8 -> bool)
    requires !s.done && s.secaddr < 32 && !s.inRange && !hit(s.fetch)
    ensures Skips(s, Write(s, hit))
  {
  }

  lemma AtNext(r: Spr, hit: bv8 -> bool, k: nat)
    requires !r.done && r.secaddr < 32 && r.lo == 0 && r.oamaddr == 4 * r.hi && !r.inRange
    requires Copied(r, Found(r.oam, hit, r.hi)) && k == r.hi + 3 * |Found(r.oam, hit, r.hi)|
    ensures Walking(r, hit, k)
  {
  }

  lemma SkipsCopied(s: Spr, r: Spr, hit: bv8 -> bool, k: nat, i: nat)
    requires Walking(s, hit, k) && s.lo == 0 && !hit(s.oam[4 * s.hi]) && i == s.hi + 1
    requires Skips(s, r)
    ensures Found(s.oam, hit, i) == Found(s.oam, hit, s.hi)
    ensures Copied(r, Found(s.oam, hit, i))
  {
    var found := Found(s.oam, hit, i);
    assert found == Found(s.oam, hit, s.hi);
    assert r.sec[..4 * |found|] == s.sec[..4 * |found|];
  }

  lemma SkipsWalk(s: Spr, r: Spr, hit: bv8 -> bool, k: nat, i: nat)
    requires Walking(s, hit, k) && s.lo == 0 && !hit(s.oam[4 * s.hi]) && i == s.hi + 1
    requires Skips(s, r)
    ensures WalkInv(r, hit, k + 1)
  {
    SkipsCopied(s, r, hit, k, i);
    assert r.oam == s.oam;
    if i == 64 {
      FirstFound(s.oam, hit, i);
    } else {
      assert r.hi == i;
      assert Copied(r, Found(r.oam, hit, r.hi));
      AtNext(r, hit, k + 1);
    }
  }

  lemma BufferByte(sec: SecondaryOam, sec': SecondaryOam, oam: Oam, found: seq<SpriteIndex>, i: SpriteIndex, l: Lane)
    requires Buffered(sec, oam, found, i, l) && 4 * |found| + l < 32 && l < 3
    requires sec' == sec[4 * |found| + l := oam[4 * i + l]]
    ensures Buffered(sec', oam, found, i, l + 1)
  {
    var n := 4 * |found|;
    assert sec'[..n] == sec[..n];
    assert sec'[n..n + l + 1] == sec[n..n + l] + [oam[4 * i + l]];
  }

  lemma BufferLast(sec: SecondaryOam, sec': SecondaryOam, oam: Oam, found: seq<SpriteIndex>, i: SpriteIndex, l: Lane)
    requires Buffered(sec, oam, found, i, l) && |found| < 8 && l == 3
    requires sec' == sec[4 * |found| + l := oam[4 * i + l]]
    ensures sec'[..4 * |found| + 4] == Flat(oam, found) + oam[4 * i..4 * i + 4]
  {
    var n := 4 * |found|;
    assert sec'[..n + 4] == sec[..n] + sec[n..n + l] + [oam[4 * i + l]];
  }

  lemma GrowsByte(s: Spr, r: Spr, hit: bv8 -> bool, k: nat)
    requires Walking(s, hit, k) && s.fetch == s.oam[s.oamaddr] && s.lo < 3 && hit(s.oam[4 * s.hi])
    requires Grows(s, r)
    ensures Walking(r, hit, k + 1)
  {
    BufferByte(s.sec, r.sec, s.oam, Found(s.oam, hit, s.hi), s.hi, s.lo);
  }

  lemma SpriteCopied(s: Spr, r: Spr, hit: bv8 -> bool, k: nat, i: nat)
    requires Walking(s, hit, k) && s.fetch == s.oam[s.oamaddr] && s.lo == 3 && i == s.hi + 1
    requires Grows(s, r)
    ensures Copied(r, Found(s.oam, hit, i))
  {
    var found, found' := Found(s.oam, hit, s.hi), Found(s.oam, hit, i);
    BufferLast(s.sec, r.sec, s.oam, found, s.hi, s.lo);
    JoinFound(s.oam, hit, s.hi);
    assert found' == found + [s.hi] && |found'| == |found| + 1;
    assert r.sec[..4 * |found'|] == Flat(s.oam, found');
  }

  lemma GrowsOn(s: Spr, r: Spr, hit: bv8 -> bool, k: nat, i: nat)
    requires Walking(s, hit, k) && s.fetch == s.oam[s.oamaddr] && s.lo == 3 && i == s.hi + 1
    requires Grows(s, r) && i < 64 && s.secaddr < 31
    ensures Walking(r, hit, k + 1)
  {
    SpriteCopied(s, r, hit, k, i);
    assert r.hi == i;
    assert r.oam == s.oam;
    assert Copied(r, Found(r.oam, hit, r.hi));
    assert |Found(s.oam, hit, i)| == |Found(s.oam, hit, s.hi)| + 1;
    AtNext(r, hit, k + 1);
  }

  lemma GrowsOver(s: Spr, r: Spr, hit: bv8 -> bool, k: nat, i: nat)
    requires Walking(s, hit, k) && s.fetch == s.oam[s.oamaddr] && s.lo == 3 && i == s.hi + 1
    requires Grows(s, r) && (i == 64 || s.secaddr == 31)
    ensures Over(r, hit)
  {
    SpriteCopied(s, r, hit, k, i);
    FirstFound(s.oam, hit, i);
  }

  lemma GrowsLast(s: Spr, r: Spr, hit: bv8 -> bool, k: nat, i: nat)
    requires Walking(s, hit, k) && s.fetch == s.oam[s.oamaddr] && s.lo == 3 && i == s.hi + 1
    requires Grows(s, r)
    ensures WalkInv(r, hit, k + 1)
  {
    if i == 64 || s.secaddr == 31 {
      GrowsOver(s, r, hit, k, i);
    } else {
      GrowsOn(s, r, hit, k, i);
    }
  }

  lemma WriteOver(s: Spr, hit: bv8 -> bool)
    requires Over(s, hit)
    ensures SameRest(s, Write(s, hit)) && Over(Write(s, hit), hit)
  {
  }

  lemma WriteGrowing(s: Spr, hit: bv8 -> bool, k: nat)
    requires Walking(s, hit, k) && s.fetch == s.oam[s.oamaddr] && (s.lo == 0 ==> hit(s.fetch))
    ensures SameRest(s, Write(s, hit)) && WalkInv(Write(s, hit), hit, k + 1)
  {
    WriteGrows(s, hit);
    if s.lo < 3 {
      GrowsByte(s, Write(s, hit), hit, k);
    } else {
      GrowsLast(s, Write(s, hit), hit, k, s.hi + 1);
    }
  }

  /** Every write keeps the invariant. */
  lemma WriteWalks(s: Spr, hit: bv8 -> bool, k: nat)
    requires WalkInv(s, hit, k) && s.fetch == s.oam[s.oamaddr]
    ensures SameRest(s, Write(s, hit)) && WalkInv(Write(s, hit), hit, k + 1)
  {
    if s.done || s.secaddr == 32 {
      WriteOver(s, hit);
    } else if s.lo == 0 && !hit(s.fetch) {
      WriteSkips(s, hit);
      SkipsWalk(s, Write(s, hit), hit, k, s.hi + 1);
    } else {
      WriteGrowing(s, hit, k);
    }
  }

  // ----- the overflow flag

  /** The overflow side after k pairs, on a line that began with the flag at `flag` and the
    countdown at 0. */
  ghost predicate FlagInv(s: Spr, hit: bv8 -> bool, flag: bool, k: nat) {
    if s.done then s.countdown == 0 && s.overflow == (flag || LateHit(s.oam, hit))
    else if s.secaddr < 32 then s.countdown == 0 && s.overflow == flag
    else if !s.inRange then Scanning(s, hit, flag, k)
    else s.overflow && 1 <= s.countdown && LateHit(s.oam, hit) && k + s.countdown <= 91
  }

  ghost predicate Scanning(s: Spr, hit: bv8 -> bool, flag: bool, k: nat) {
    && s.countdown == 0 && s.overflow == flag
    && s.oamaddr == 4 * s.hi + s.lo && k == s.hi + 24
    && LateHit(s.oam, hit) == DiagonalFrom(s.oam, hit, s.hi, s.lo)
  }

  /** Copying and skipping leave the flag alone. */
  lemma WalkFlag(s: Spr, r: Spr, hit: bv8 -> bool, flag: bool, k: nat, i: nat)
    requires Walking(s, hit, k) && s.fetch == s.oam[s.oamaddr] && i == s.hi + 1
    requires s.countdown == 0 && s.overflow == flag
    requires (Grows(s, r) && hit(s.oam[4 * s.hi])) || (Skips(s, r) && s.lo == 0 && !hit(s.oam[4 * s.hi]))
    ensures FlagInv(r, hit, flag, k + 1)
  {
    assert r.oam == s.oam;
    if r.done {
      assert |s.oam| / 4 == i;
      if |Found(s.oam, hit, i)| == 8 {
        EighthFound(s.oam, hit, s.hi);
      }
    } else if r.secaddr == 32 {
      EighthFound(s.oam, hit, s.hi);
    }
  }

  lemma ScanFlag(s: Spr, hit: bv8 -> bool, flag: bool, k: nat)
    requires s.secaddr == 32 && !s.done && !s.inRange && Scanning(s, hit, flag, k)
    requires s.fetch == s.oam[s.oamaddr]
    ensures FlagInv(Write(s, hit), hit, flag, k + 1)
  {
    var next := s.hi + 1;
    assert next == 64 ==> !DiagonalFrom(s.oam, hit, next, (s.lo + 1) % 4);
  }

  lemma HitFlag(s: Spr, hit: bv8 -> bool, flag: bool, k: nat)
    requires s.secaddr == 32 && !s.done && s.inRange && FlagInv(s, hit, flag, k)
    ensures FlagInv(Write(s, hit), hit, flag, k + 1)
  {
    var r := Write(s, hit);
    assert r.oam == s.oam && r.secaddr == 32;
    assert r.overflow && r.inRange && r.countdown == s.countdown - 1 && r.done == (s.countdown == 1);
  }

  lemma DoneFlag(s: Spr, hit: bv8 -> bool, flag: bool, k: nat)
    requires s.done && FlagInv(s, hit, flag, k)
    ensures FlagInv(Write(s, hit), hit, flag, k + 1)
  {
  }

  /** Every write keeps the flag invariant. */
  lemma WriteFlags(s: Spr, hit: bv8 -> bool, flag: bool, k: nat)
    requires WalkInv(s, hit, k) && s.fetch == s.oam[s.oamaddr] && FlagInv(s, hit, flag, k)
    ensures FlagInv(Write(s, hit), hit, flag, k + 1)
  {
    if s.done {
      DoneFlag(s, hit, flag, k);
    } else if s.secaddr < 32 {
      if s.lo == 0 && !hit(s.fetch) {
        WriteSkips(s, hit);
      } else {
        WriteGrows(s, hit);
      }
      WalkFlag(s, Write(s, hit), hit, flag, k, s.hi + 1);
    } else if s.inRange {
      HitFlag(s, hit, flag, k);
    } else {
      ScanFlag(s, hit, flag, k);
    }
  }

  // ----- a line of cycles

  /** What evaluation leaves behind, on a line that began with the overflow flag at `flag` and,
    if `clean`, with the countdown at 0. */
  ghost predicate Evaluated(s: Spr, hit: bv8 -> bool, clean: bool, flag: bool) {
    var first := FirstEight(Covering(s.oam, hit));
    && s.count == |first| && s.secaddr == 4 * |first|
    && s.sec[..4 * |first|] == Flat(s.oam, first)
    && s.zeroVisible == hit(s.oam[0])
    && (clean ==> s.countdown == 0 && s.overflow == (flag || Overflows(s.oam, hit)))
  }

  /** After k pairs of such a line. */
  ghost predicate PairInv(s: Spr, hit: bv8 -> bool, clean: bool, flag: bool, k: nat) {
    WalkInv(s, hit, k) && (clean ==> FlagInv(s, hit, flag, k))
  }

  /** After cycle c of a line that began with OAMADDR at 0. */
  ghost predicate EvalInv(s: Spr, c: nat, hit: bv8 -> bool, clean: bool, flag: bool) {
    if c < 65 then s.oamaddr == 0 && (clean ==> s.countdown == 0 && s.overflow == flag)
    else if c < 256 then
      PairInv(s, hit, clean, flag, (c - 64) / 2) && (c % 2 == 1 ==> s.fetch == s.oam[s.oamaddr])
    else Evaluated(s, hit, clean, flag)
  }

  lemma Latched(s: Spr, hit: bv8 -> bool, clean: bool, flag: bool)
    requires Over(s, hit)
    requires clean ==> s.done && s.countdown == 0 && s.overflow == (flag || LateHit(s.oam, hit))
    ensures
      var e := Write(Latch(s), hit);
      SameInputs(s, e) && Evaluated(e, hit, clean, flag)
  {
    ZeroFirst(s.oam, hit);
    LateHitIff(s.oam, hit);
  }

  lemma OutOfTime(s: Spr, hit: bv8 -> bool, clean: bool, flag: bool, k: nat)
    requires k >= 91 && PairInv(s, hit, clean, flag, k)
    ensures Over(s, hit) && (clean ==> s.done)
  {
  }

  /** What evaluation never touches. */
  predicate SameInputs(s: Spr, r: Spr) {
    r.oam == s.oam && r.sprites == s.sprites && r.present == s.present
  }

  lemma ClearStep(s: Spr, c: nat, hit: bv8 -> bool, clean: bool, flag: bool)
    requires 1 <= c <= 64 && EvalInv(s, c - 1, hit, clean, flag)
    ensures SameInputs(s, EvalCycle(s, c, hit)) && EvalInv(EvalCycle(s, c, hit), c, hit, clean, flag)
  {
  }

  lemma BeginStep(s: Spr, c: nat, hit: bv8 -> bool, clean: bool, flag: bool)
    requires c == 65 && EvalInv(s, c - 1, hit, clean, flag)
    ensures SameInputs(s, EvalCycle(s, c, hit)) && EvalInv(EvalCycle(s, c, hit), c, hit, clean, flag)
  {
    var r := EvalCycle(s, c, hit);
    assert Found(s.oam, hit, r.hi) == [];
  }

  lemma ReadStep(s: Spr, c: nat, hit: bv8 -> bool, clean: bool, flag: bool)
    requires 65 < c < 256 && c % 2 == 1 && EvalInv(s, c - 1, hit, clean, flag)
    ensures SameInputs(s, EvalCycle(s, c, hit)) && EvalInv(EvalCycle(s, c, hit), c, hit, clean, flag)
  {
    ReadKeeps(s, hit, clean, flag, (c - 65) / 2);
    assert (c - 65) / 2 == (c - 64) / 2;
  }

  lemma ReadKeeps(s: Spr, hit: bv8 -> bool, clean: bool, flag: bool, k: nat)
    requires PairInv(s, hit, clean, flag, k)
    ensures PairInv(Read(s), hit, clean, flag, k)
    ensures SameInputs(s, Read(s)) && Read(s).fetch == Read(s).oam[Read(s).oamaddr]
  {
  }

  lemma WriteStep(s: Spr, c: nat, hit: bv8 -> bool, clean: bool, flag: bool)
    requires 65 < c < 256 && c % 2 == 0 && EvalInv(s, c - 1, hit, clean, flag)
    ensures SameInputs(s, EvalCycle(s, c, hit)) && EvalInv(EvalCycle(s, c, hit), c, hit, clean, flag)
  {
    WriteKeeps(s, hit, clean, flag, (c - 65) / 2);
    assert (c - 64) / 2 == (c - 65) / 2 + 1;
  }

  lemma WriteKeeps(s: Spr, hit: bv8 -> bool, clean: bool, flag: bool, k: nat)
    requires PairInv(s, hit, clean, flag, k) && s.fetch == s.oam[s.oamaddr]
    ensures PairInv(Write(s, hit), hit, clean, flag, k + 1)
    ensures SameInputs(s, Write(s, hit))
  {
    WriteWalks(s, hit, k);
    if clean {
      WriteFlags(s, hit, flag, k);
    }
  }

  lemma LatchStep(s: Spr, c: nat, hit: bv8 -> bool, clean: bool, flag: bool)
    requires c == 256 && EvalInv(s, c - 1, hit, clean, flag)
    ensures SameInputs(s, EvalCycle(s, c, hit)) && EvalInv(EvalCycle(s, c, hit), c, hit, clean, flag)
  {
    OutOfTime(s, hit, clean, flag, 95);
    Latched(s, hit, clean, flag);
  }

  /** Sprite evaluation, one cycle at a time: for every OAM, a line that begins with OAMADDR at 0
    leaves the first eight covering sprites in order, and the flag of the diagonal scan. */
  lemma EvalStep(s: Spr, c: nat, hit: bv8 -> bool, clean: bool, flag: bool)
    requires 1 <= c <= 256 && EvalInv(s, c - 1, hit, clean, flag)
    ensures SameInputs(s, EvalCycle(s, c, hit)) && EvalInv(EvalCycle(s, c, hit), c, hit, clean, flag)
  {
    if c <= 64 {
      ClearStep(s, c, hit, clean, flag);
    } else if c == 65 {
      BeginStep(s, c, hit, clean, flag);
    } else if c == 256 {
      LatchStep(s, c, hit, clean, flag);
    } else if c % 2 == 1 {
      ReadStep(s, c, hit, clean, flag);
    } else {
      WriteStep(s, c, hit, clean, flag);
    }
  }

  // ----- a whole line

  /** The first c cycles of a line. */
  function EvalCycles(s: Spr, c: nat, hit: bv8 -> bool): Spr
    requires c <= 256
  {
    if c == 0 then s else EvalCycle(EvalCycles(s, c - 1, hit), c, hit)
  }

  lemma {:induction false} EvalRun(s: Spr, c: nat, hit: bv8 -> bool)
    requires c <= 256 && s.oamaddr == 0
    ensures
      var r := EvalCycles(s, c, hit);
      SameInputs(s, r) && EvalInv(r, c, hit, s.countdown == 0, s.overflow)
  {
    hide EvalCycle, EvalInv;
    if c == 0 {
      EvalStart(s, hit);
    } else {
      EvalRun(s, c - 1, hit);
      EvalStep(EvalCycles(s, c - 1, hit), c, hit, s.countdown == 0, s.overflow);
    }
  }

  lemma EvalStart(s: Spr, hit: bv8 -> bool)
    requires s.oamaddr == 0
    ensures EvalInv(s, 0, hit, s.countdown == 0, s.overflow)
  {
  }

  lemma {:induction false} FlatBytes(oam: Oam, found: seq<SpriteIndex>, i: nat)
    requires i < |found|
    ensures Flat(oam, found)[4 * i..4 * i + 4] == OamBytes(oam, found[i])
  {
    var n := |found| - 1;
    if i < n {
      FlatBytes(oam, found[..n], i);
    }
  }

  /** Cycles 1 to 256 of a line, for every OAM: the count is that of the covering sprites, at most
    eight; their bytes are in secondary OAM, in the order of OAM; sprite 0 is noted iff it covers the
    line. If no scan was left over, none is left over again, and the flag is raised exactly by the
    diagonal scan. */
  lemma Evaluation(s: Spr, hit: bv8 -> bool)
    requires s.oamaddr == 0
    ensures
      var r, all := EvalCycles(s, 256, hit), Covering(s.oam, hit);
      && r.count == Min(8, |all|)
      && (forall i :: 0 <= i < r.count ==> r.sec[4 * i..4 * i + 4] == OamBytes(s.oam, all[i]))
      && r.zeroVisible == hit(s.oam[0])
      && (s.countdown == 0 ==> r.countdown == 0 && r.overflow == (s.overflow || Overflows(s.oam, hit)))
  {
    hide EvalCycle, Covering, Overflows, Flat;
    EvalRun(s, 256, hit);
    var r, all := EvalCycles(s, 256, hit), Covering(s.oam, hit);
    var first := FirstEight(all);
    forall i | 0 <= i < r.count ensures r.sec[4 * i..4 * i + 4] == OamBytes(s.oam, all[i]) {
      FlatBytes(s.oam, first, i);
      assert r.sec[..4 * |first|][4 * i..4 * i + 4] == r.sec[4 * i..4 * i + 4];
    }
  }

  /** The walk is over after 91 of the 95 writes before the count is latched. */
  lemma EvaluationIsEarly(s: Spr, c: nat, hit: bv8 -> bool)
    requires s.oamaddr == 0 && s.countdown == 0 && 64 + 2 * 91 <= c < 256
    ensures EvalCycles(s, c, hit).done && EvalCycles(s, c, hit).countdown == 0
  {
    hide EvalCycle, WalkInv, Over;
    EvalRun(s, c, hit);
    OutOfTime(EvalCycles(s, c, hit), hit, true, s.overflow, (c - 64) / 2);
    DoneCounts(EvalCycles(s, c, hit), hit, s.overflow, (c - 64) / 2);
  }

  lemma DoneCounts(s: Spr, hit: bv8 -> bool, flag: bool, k: nat)
    requires s.done && FlagInv(s, hit, flag, k)
    ensures s.countdown == 0
  {
  }

  // ----- the scan behind the eighth sprite

  function Scanned(s: Spr, k: nat): Spr {
    if k == 0 then s else Overflow(Scanned(s, k - 1))
  }

  /** Once the scan has found a byte in range it goes on through the next three, one at a time, and is done. */
  lemma ScanEnds(s: Spr, k: nat)
    requires s.inRange && !s.done && s.countdown == 0 && 4 * s.hi + s.lo < 252 && k <= 4
    ensures
      var r, place := Scanned(s, k), 4 * s.hi + s.lo + k;
      && (k > 0 ==> r.overflow) && r.done == (k == 4) && r.countdown == (if 0 < k < 4 then 4 - k else 0)
      && (k < 4 ==> 4 * r.hi + r.lo == place) && (k == 4 ==> r.lo == 0 && r.hi == place / 4)
      && r.inRange && r.sec == s.sec && r.oam == s.oam
  {
    if k > 0 {
      ScanEnds(s, k - 1);
    }
  }
}
