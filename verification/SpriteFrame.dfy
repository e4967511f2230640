/** The sprite side of a frame: what the sprite state holds at every cycle of the pre-render line
  and of the 240 visible lines, when rendering stays on and nobody writes a register. */
module SpriteFrame {
  import opened Words
  import opened SpriteEval
  import opened SpriteDraw

  /** What the sprites of a frame are, line by line: those evaluated on line n are drawn on n + 1.
    `slots` is what the slots hold before the frame. */
  datatype Cast = Cast(oam: Oam, clean: bool, hit: nat -> (bv8 -> bool), load: nat -> (Bytes4 -> Sprite), slots: Slots)

  function Line(k: Cast, n: nat): (line: seq<Sprite>)
    ensures |line| <= 8
  {
    if n == 0 then [] else LineSprites(k.oam, k.hit(n - 1), k.load(n - 1))
  }

  /** Whether sprite 0 is drawn on line n. */
  predicate ZeroOn(k: Cast, n: nat) {
    n > 0 && k.hit(n - 1)(k.oam[0])
  }

  /** Whether a line before n has raised the overflow flag. */
  ghost predicate LateBefore(k: Cast, n: nat) {
    exists m: nat :: m < n && Overflows(k.oam, k.hit(m))
  }

  /** After cycle c of visible line n. */
  ghost predicate VisibleInv(s: Spr, c: nat, n: nat, k: Cast) {
    && s.oam == k.oam
    && (if c < 256 then Loaded(s, Line(k, n), 8) && (n > 0 ==> s.zeroVisible == ZeroOn(k, n))
        else s.zeroVisible == ZeroOn(k, n + 1))
    && (if c <= 256 then EvalInv(s, c, k.hit(n), k.clean, LateBefore(k, n))
        else Loading(s, c, n + 1, k))
  }

  /** After cycle c in 257..340 before visible line n. */
  ghost predicate Loading(s: Spr, c: nat, n: nat, k: Cast)
    requires n > 0
  {
    && s.oamaddr == 0
    && (k.clean ==> s.countdown == 0 && s.overflow == LateBefore(k, n))
    && (if c < 257 then true
        else if c <= 320 then
          s.secaddr == 4 * |Line(k, n)| && Buffers(s, Line(k, n), k.load(n - 1)) && Loaded(s, Line(k, n), SlotsDone(c))
        else Loaded(s, Line(k, n), 8))
  }

  /** The slots with the first m sprites of a line loaded over what they held. */
  function Renewed(slots: Slots, line: seq<Sprite>, m: nat): Slots
    requires |line| <= 8
  {
    seq(8, i requires 0 <= i < 8 => if i < m && i < |line| then line[i] else slots[i])
  }

  /** What all slots hold while line n is drawn: those that the line does not fill keep what an
    earlier line or frame has left in them. */
  function Held(k: Cast, n: nat): Slots {
    if n == 0 then k.slots else Renewed(Held(k, n - 1), Line(k, n), 8)
  }

  /** All slots and the marked columns, after cycle c of visible line n. */
  ghost predicate SlotsInv(s: Spr, c: nat, n: nat, k: Cast) {
    if c <= 256 then s.sprites == Held(k, n) && forall x :: 0 <= x < 256 ==> s.present[x] == Occupied(Line(k, n), x)
    else if c <= 320 then s.sprites == Renewed(Held(k, n), Line(k, n + 1), SlotsDone(c))
    else s.sprites == Held(k, n + 1)
  }

  /** A cycle of a visible line. */
  function VisibleWork(s: Spr, c: int, hit: bv8 -> bool, load: Bytes4 -> Sprite): Spr
    requires 1 <= c <= 340
  {
    if c <= 256 then EvalCycle(s, c, hit)
    else if c <= 320 then FetchSprites(s.(oamaddr := 0), c, load)
    else s.(fetch := s.sec[0])
  }

  lemma LateNext(k: Cast, n: nat)
    ensures LateBefore(k, n + 1) == (LateBefore(k, n) || Overflows(k.oam, k.hit(n)))
  {
    if LateBefore(k, n + 1) && !Overflows(k.oam, k.hit(n)) {
      var m: nat :| m < n + 1 && Overflows(k.oam, k.hit(m));
      assert m != n;
    }
  }

  lemma LoadedFrame(s: Spr, r: Spr, line: seq<Sprite>, m: nat)
    requires Loaded(s, line, m) && SameInputs(s, r) && r.count == s.count
    ensures Loaded(r, line, m)
  {
  }

  lemma CopyKeeps(s: Spr)
    requires s.secaddr < 32
    ensures SameRest(s, Copy(s)) && SameFlag(s, Copy(s))
  {
  }

  lemma OverflowKeeps(s: Spr)
    ensures SameRest(s, SpriteEval.Overflow(s))
  {
  }

  lemma WriteKeepsRest(s: Spr, hit: bv8 -> bool)
    ensures SameRest(s, Write(s, hit))
  {
    var r := s.(inRange := s.inRange || hit(s.fetch));
    if !s.done {
      if s.secaddr < 32 {
        CopyKeeps(r);
      } else {
        OverflowKeeps(r.(fetch := s.sec[0]));
      }
    }
  }

  /** Before its last cycle, evaluation leaves alone what is being drawn. */
  lemma EvalKeepsDrawing(s: Spr, c: int, hit: bv8 -> bool)
    requires 1 <= c < 256
    ensures SameRest(s, EvalCycle(s, c, hit))
  {
    if 65 < c && c % 2 == 0 {
      WriteKeepsRest(s, hit);
    }
  }

  lemma EvalVisible(s: Spr, c: nat, n: nat, k: Cast)
    requires 1 <= c <= 256 && VisibleInv(s, c - 1, n, k)
    ensures VisibleInv(EvalCycle(s, c, k.hit(n)), c, n, k)
  {
    EvalStep(s, c, k.hit(n), k.clean, LateBefore(k, n));
    if c < 256 {
      EvalKeepsDrawing(s, c, k.hit(n));
      LoadedFrame(s, EvalCycle(s, c, k.hit(n)), Line(k, n), 8);
    }
  }

  lemma BeginLoading(s: Spr, c: nat, n: nat, k: Cast)
    requires c == 257 && VisibleInv(s, c - 1, n, k)
    ensures VisibleInv(FetchSprites(s.(oamaddr := 0), c, k.load(n)), c, n, k)
  {
    LateNext(k, n);
    EvaluatedBuffers(s, k.hit(n), k.clean, LateBefore(k, n), k.load(n));
    var q := s.(oamaddr := 0);
    BuffersFrame(s, q, Line(k, n + 1), k.load(n));
    FetchStart(q, Line(k, n + 1), c, k.load(n));
  }

  lemma BuffersFrame(s: Spr, r: Spr, line: seq<Sprite>, load: Bytes4 -> Sprite)
    requires Buffers(s, line, load) && r.sec == s.sec && r.count == s.count
    ensures Buffers(r, line, load)
  {
  }

  lemma LoadSlotFrame(s: Spr, slot: nat, load: Bytes4 -> Sprite)
    requires slot < 8
    ensures Untouched(s, LoadSlot(s, slot, load)) && LoadSlot(s, slot, load).oamaddr == s.oamaddr
  {
  }

  /** What loading never touches. */
  predicate Untouched(s: Spr, r: Spr) {
    && r.oam == s.oam && r.zeroVisible == s.zeroVisible
    && r.countdown == s.countdown && r.overflow == s.overflow && r.count == s.count && r.secaddr == s.secaddr
  }

  /** Loading touches only the slots, their columns and OAMADDR. */
  lemma FetchFrame(s: Spr, c: int, load: Bytes4 -> Sprite)
    requires 257 <= c <= 320
    ensures Untouched(s, FetchSprites(s, c, load)) && FetchSprites(s, c, load).oamaddr == 0
  {
    var q := s.(oamaddr := 0, present := if c == 257 then seq(256, _ => false) else s.present);
    if c % 8 == 4 {
      LoadSlotFrame(q, (c - 257) / 8, load);
    }
  }

  lemma KeepLoading(s: Spr, c: nat, n: nat, k: Cast)
    requires 258 <= c <= 320 && VisibleInv(s, c - 1, n, k)
    ensures VisibleInv(FetchSprites(s.(oamaddr := 0), c, k.load(n)), c, n, k)
  {
    var q := s.(oamaddr := 0);
    QuietFetch(s, q, Line(k, n + 1), k.load(n), SlotsDone(c - 1));
    FetchStep(q, Line(k, n + 1), c, k.load(n));
    FetchFrame(q, c, k.load(n));
  }

  lemma Loadeds(s: Spr, r: Spr, c: nat, n: nat, k: Cast)
    requires 321 <= c <= 340 && VisibleInv(s, c - 1, n, k) && r == s.(fetch := s.sec[0])
    ensures VisibleInv(r, c, n, k)
  {
    if c == 321 {
      assert SlotsDone(320) == 8;
    }
    LoadedFrame(s, r, Line(k, n + 1), 8);
  }

  /** One cycle of a visible line. */
  lemma VisibleStep(s: Spr, c: nat, n: nat, k: Cast)
    requires 1 <= c <= 340 && VisibleInv(s, c - 1, n, k)
    ensures VisibleInv(VisibleWork(s, c, k.hit(n), k.load(n)), c, n, k)
  {
    if c <= 256 {
      EvalVisible(s, c, n, k);
    } else if c == 257 {
      BeginLoading(s, c, n, k);
    } else if c <= 320 {
      KeepLoading(s, c, n, k);
    } else {
      Loadeds(s, s.(fetch := s.sec[0]), c, n, k);
    }
  }

  lemma LoadRenews(s: Spr, slots: Slots, line: seq<Sprite>, slot: nat, load: Bytes4 -> Sprite)
    requires slot < 8 && |line| <= 8 && Buffers(s, line, load) && s.sprites == Renewed(slots, line, slot)
    ensures LoadSlot(s, slot, load).sprites == Renewed(slots, line, slot + 1)
  {
  }

  lemma FetchRenews(s: Spr, c: nat, slots: Slots, line: seq<Sprite>, load: Bytes4 -> Sprite)
    requires 258 <= c <= 320 && |line| <= 8 && Buffers(s, line, load)
        && s.sprites == Renewed(slots, line, SlotsDone(c - 1))
    ensures FetchSprites(s, c, load).sprites == Renewed(slots, line, SlotsDone(c))
  {
    if c % 8 == 4 {
      var q := s.(oamaddr := 0);
      BuffersFrame(s, q, line, load);
      LoadRenews(q, slots, line, (c - 257) / 8, load);
      assert SlotsDone(c) == (c - 257) / 8 + 1;
    } else {
      assert SlotsDone(c) == SlotsDone(c - 1);
    }
  }

  /** One cycle of a visible line, for the slots that are not drawn on it too. */
  lemma SlotsStep(s: Spr, c: nat, n: nat, k: Cast)
    requires 1 <= c <= 340 && VisibleInv(s, c - 1, n, k) && SlotsInv(s, c - 1, n, k)
    ensures SlotsInv(VisibleWork(s, c, k.hit(n), k.load(n)), c, n, k)
  {
    hide Held, Renewed, Occupied, EvalInv, EvalCycle, Loaded;
    if c <= 256 {
      EvalStep(s, c, k.hit(n), k.clean, LateBefore(k, n));
    } else if c == 257 {
      NoneRenewed(Held(k, n), Line(k, n + 1));
    } else if c <= 320 {
      var q := s.(oamaddr := 0);
      BuffersFrame(s, q, Line(k, n + 1), k.load(n));
      FetchRenews(q, c, Held(k, n), Line(k, n + 1), k.load(n));
    } else {
      AllRenewed(k, n);
    }
  }

  lemma NoneRenewed(slots: Slots, line: seq<Sprite>)
    requires |line| <= 8
    ensures Renewed(slots, line, 0) == slots
  {
  }

  lemma AllRenewed(k: Cast, n: nat)
    ensures Renewed(Held(k, n), Line(k, n + 1), SlotsDone(320)) == Held(k, n + 1)
  {
  }

  lemma NextSlots(s: Spr, n: nat, k: Cast)
    requires VisibleInv(s, 340, n, k) && SlotsInv(s, 340, n, k)
    ensures SlotsInv(s, 0, n + 1, k)
  {
    MarksOf(s, Line(k, n + 1));
  }

  lemma MarksOf(s: Spr, line: seq<Sprite>)
    requires Loaded(s, line, 8) && |line| <= 8
    ensures forall x :: 0 <= x < 256 ==> s.present[x] == Occupied(line, x)
  {
    assert line[..Min(8, |line|)] == line;
  }

  lemma NextVisible(s: Spr, n: nat, k: Cast)
    requires VisibleInv(s, 340, n, k)
    ensures VisibleInv(s, 0, n + 1, k)
    ensures k.clean ==> s.overflow == LateBefore(k, n + 1)
  {
  }

  // ----- the pre-render line

  /** OAM after an OAMADDR of `a` has spilled the m first bytes of its row of eight. */
  function Spilled(oam: Oam, a: u8, m: nat): Oam
    requires m <= 8
  {
    if a < 8 then oam else oam[a / 8 * 8..a / 8 * 8 + m] + oam[m..]
  }

  /** After cycle c of the pre-render line of a frame that began with `oam` and OAMADDR at `a`.
    PAL evaluates sprites here too, but no sprite reaches so far down. */
  ghost predicate PrerenderInv(s: Spr, c: nat, pal: bool, oam: Oam, a: u8, k: Cast) {
    && s.oam == Spilled(oam, a, Min(8, c))
    && (c <= 8 ==> s.oamaddr == a)
    && (k.clean ==> s.countdown == 0)
    && (1 <= c ==> s.count == 0 && !s.overflow)
    && (pal && 65 <= c <= 256 ==> !s.inRange && s.secaddr == 0)
    && (257 <= c ==> s.oamaddr == 0 && Loaded(s, [], 8))
  }

  /** The oldest part of a cycle of the pre-render line, up to the spill. */
  function PrerenderEval(s: Spr, c: int, pal: bool, hit: bv8 -> bool): Spr
    requires 1 <= c <= 340
  {
    if !pal then s
    else if c <= 256 then EvalCycle(s, c, hit)
    else if c <= 320 then s.(oamaddr := 0)
    else s
  }

  ghost predicate Never(hit: bv8 -> bool) {
    forall y :: !hit(y)
  }

  lemma NothingWritten(s: Spr, hit: bv8 -> bool)
    requires Never(hit) && !s.inRange && s.secaddr == 0
    ensures
      var r := Write(s, hit);
      SameRest(s, r) && SameFlag(s, r) && !r.inRange && r.secaddr == 0
  {
    if !s.done {
      CopyKeeps(s);
    }
  }

  lemma NothingInRange(s: Spr, c: int, hit: bv8 -> bool)
    requires Never(hit) && 1 <= c <= 256 && (65 < c ==> !s.inRange && s.secaddr == 0)
    ensures
      var r := EvalCycle(s, c, hit);
      && SameInputs(s, r) && SameFlag(s, r)
      && (c <= 65 ==> r.oamaddr == s.oamaddr)
      && (c < 256 ==> r.count == s.count)
      && (65 <= c ==> !r.inRange && r.secaddr == 0)
  {
    if c == 256 {
      NothingWritten(Latch(s), hit);
    } else if 65 < c && c % 2 == 0 {
      NothingWritten(s, hit);
    }
  }

  lemma SpillStep(s: Spr, c: nat, oam: Oam, a: u8)
    requires 1 <= c <= 8 && s.oam == Spilled(oam, a, c - 1) && s.oamaddr == a
    ensures Spill(s, c).oam == Spilled(oam, a, c)
  {
    var row := a / 8 * 8;
    if 8 <= a {
      assert Spilled(oam, a, c - 1)[row + c - 1] == oam[row + c - 1];
      assert oam[row..row + c] == oam[row..row + (c - 1)] + [oam[row + c - 1]];
    }
  }

  /** A cycle of the pre-render line; its first dot clears the overflow flag. */
  function PrerenderWork(s: Spr, c: int, pal: bool, hit: bv8 -> bool, load: Bytes4 -> Sprite): Spr
    requires 1 <= c <= 340
  {
    var e := Spill(PrerenderEval(s, c, pal, hit), c).(count := 0);
    if c == 1 then e.(overflow := false)
    else if c <= 256 then e
    else if c <= 320 then FetchSprites(e, c, load)
    else e.(fetch := e.sec[0])
  }

  lemma PrerenderSpills(s: Spr, c: nat, pal: bool, oam: Oam, a: u8, k: Cast, hit: bv8 -> bool, load: Bytes4 -> Sprite)
    requires (pal ==> Never(hit)) && 1 <= c <= 8 && PrerenderInv(s, c - 1, pal, oam, a, k)
    ensures PrerenderInv(PrerenderWork(s, c, pal, hit, load), c, pal, oam, a, k)
  {
    SpillStep(PrerenderEval(s, c, pal, hit), c, oam, a);
  }

  lemma PrerenderEvaluates(s: Spr, c: nat, pal: bool, oam: Oam, a: u8, k: Cast, hit: bv8 -> bool,
      load: Bytes4 -> Sprite)
    requires (pal ==> Never(hit)) && 9 <= c <= 256 && PrerenderInv(s, c - 1, pal, oam, a, k)
    ensures PrerenderInv(PrerenderWork(s, c, pal, hit, load), c, pal, oam, a, k)
  {
    if pal {
      NothingInRange(s, c, hit);
    }
  }

  lemma PrerenderClears(s: Spr, c: nat, load: Bytes4 -> Sprite)
    requires 257 <= c <= 320 && s.count == 0 && (257 < c ==> Loaded(s, [], 8))
    ensures Loaded(FetchSprites(s, c, load), [], 8) && FetchSprites(s, c, load).oamaddr == 0
    ensures Untouched(s, FetchSprites(s, c, load))
  {
    var none: seq<Sprite> := [];
    FetchFrame(s, c, load);
    if c == 257 {
      FetchStart(s, none, c, load);
    } else {
      NoneLoaded(s, 8, SlotsDone(c - 1));
      FetchStep(s, none, c, load);
    }
    NoneLoaded(FetchSprites(s, c, load), SlotsDone(c), 8);
  }

  lemma NoneLoaded(s: Spr, m: nat, m': nat)
    requires Loaded(s, [], m)
    ensures Loaded(s, [], m')
  {
    var none: seq<Sprite> := [];
    assert none[..Min(m, 0)] == none[..Min(m', 0)];
  }

  lemma PrerenderLoads(s: Spr, c: nat, pal: bool, oam: Oam, a: u8, k: Cast, hit: bv8 -> bool, load: Bytes4 -> Sprite)
    requires (pal ==> Never(hit)) && 257 <= c <= 320 && PrerenderInv(s, c - 1, pal, oam, a, k)
    ensures PrerenderInv(PrerenderWork(s, c, pal, hit, load), c, pal, oam, a, k)
  {
    PrerenderClears(PrerenderEval(s, c, pal, hit).(count := 0), c, load);
  }

  lemma PrerenderEnds(s: Spr, c: nat, pal: bool, oam: Oam, a: u8, k: Cast, hit: bv8 -> bool, load: Bytes4 -> Sprite)
    requires (pal ==> Never(hit)) && 321 <= c <= 340 && PrerenderInv(s, c - 1, pal, oam, a, k)
    ensures PrerenderInv(PrerenderWork(s, c, pal, hit, load), c, pal, oam, a, k)
  {
  }

  /** One cycle of the pre-render line. */
  lemma PrerenderStep(s: Spr, c: nat, pal: bool, oam: Oam, a: u8, k: Cast, hit: bv8 -> bool, load: Bytes4 -> Sprite)
    requires (pal ==> Never(hit)) && 1 <= c <= 340 && PrerenderInv(s, c - 1, pal, oam, a, k)
    ensures PrerenderInv(PrerenderWork(s, c, pal, hit, load), c, pal, oam, a, k)
  {
    if c <= 8 {
      PrerenderSpills(s, c, pal, oam, a, k, hit, load);
    } else if c <= 256 {
      PrerenderEvaluates(s, c, pal, oam, a, k, hit, load);
    } else if c <= 320 {
      PrerenderLoads(s, c, pal, oam, a, k, hit, load);
    } else {
      PrerenderEnds(s, c, pal, oam, a, k, hit, load);
    }
  }

  /** Nothing is loaded on the pre-render line. */
  lemma PrerenderKeepsSlots(s: Spr, c: nat, pal: bool, hit: bv8 -> bool, load: Bytes4 -> Sprite)
    requires 1 <= c <= 340
    ensures PrerenderWork(s, c, pal, hit, load).sprites == s.sprites
  {
    hide EvalCycle, Spill;
    SpillKeepsSlots(PrerenderEval(s, c, pal, hit), c);
    if pal && c <= 256 {
      EvalKeepsSlots(s, c, hit);
    }
  }

  lemma SpillKeepsSlots(s: Spr, c: nat)
    ensures Spill(s, c).sprites == s.sprites
  {
  }

  lemma EvalKeepsSlots(s: Spr, c: int, hit: bv8 -> bool)
    requires 1 <= c <= 256
    ensures SameInputs(s, EvalCycle(s, c, hit))
  {
    if c < 256 {
      EvalKeepsDrawing(s, c, hit);
    } else {
      WriteKeepsRest(Latch(s), hit);
    }
  }

  lemma FirstSlots(s: Spr, c: nat, pal: bool, oam: Oam, a: u8, k: Cast)
    requires 339 <= c <= 340 && PrerenderInv(s, c, pal, oam, a, k) && s.sprites == k.slots
    ensures SlotsInv(s, 0, 0, k)
  {
    MarksOf(s, []);
  }

  lemma FirstVisible(s: Spr, c: nat, pal: bool, oam: Oam, a: u8, k: Cast)
    requires 339 <= c <= 340 && PrerenderInv(s, c, pal, oam, a, k) && k.oam == Spilled(oam, a, 8)
    ensures PrerenderInv(s, 340, pal, oam, a, k) && VisibleInv(s, 0, 0, k)
  {
  }
}
