/** The PPU scroll registers `v`, `t`, `x` and the write latch, as positions.

  The hardware keeps a position packed into one word, `yyy NN YYYYY XXXXX`, and moves it
  with masks, shifts and carries. A `Loopy` is the same position taken apart; the lemmas
  whose names end in `Bits` show that each packed update does to the word what a plain
  function does to the position.
*/
module Scroll {

  /** Nametable, tile and line inside the tile. Fine X lives in a register of its own. */
  datatype Loopy = Loopy(ntX: bv1, col: bv5, ntY: bv1, row: bv5, fine: bv3)

  datatype ScrollRegs = ScrollRegs(v: Loopy, t: Loopy, fineX: bv3, latch: bool)

  const ORIGIN := Loopy(0, 0, 0, 0, 0)

  /** The position that a packed word stands for (bit 15 is unused). */
  function Decode(w: bv16): Loopy {
    Loopy(((w >> 10) & 0x01) as bv1, (w & 0x1F) as bv5, ((w >> 11) & 0x01) as bv1,
          ((w >> 5) & 0x1F) as bv5, ((w >> 12) & 0x07) as bv3)
  }

  lemma DecodeInjective(a: bv16, b: bv16)
    requires a & 0x8000 == 0 && b & 0x8000 == 0
    requires Decode(a) == Decode(b)
    ensures a == b
  {
    assert Decode(a).ntX == Decode(b).ntX && Decode(a).col == Decode(b).col;
    assert Decode(a).ntY == Decode(b).ntY && Decode(a).row == Decode(b).row;
  }

  // ----- moving a position

  /** One tile to the right, through both horizontal nametables. */
  function Right(p: Loopy): Loopy {
    if p.col == 31 then p.(col := 0, ntX := 1 - p.ntX) else p.(col := p.col + 1)
  }

  /** One line down. Row 29 is the last of a nametable; row 31 wraps without leaving it. */
  function Down(p: Loopy): Loopy {
    if p.fine < 7 then p.(fine := p.fine + 1)
    else if p.row == 29 then p.(fine := 0, row := 0, ntY := 1 - p.ntY)
    else if p.row == 31 then p.(fine := 0, row := 0)
    else p.(fine := 0, row := p.row + 1)
  }

  function RightBy(p: Loopy, n: nat): Loopy {
    if n == 0 then p else Right(RightBy(p, n - 1))
  }

  function DownBy(p: Loopy, n: nat): Loopy {
    if n == 0 then p else Down(DownBy(p, n - 1))
  }

  /** The tile column in the 64-tile row formed by two nametables side by side. */
  function WorldCol(p: Loopy): int {
    32 * p.ntX as int + p.col as int
  }

  /** The line in the 480-line picture formed by two nametables stacked. */
  function WorldY(p: Loopy): int {
    240 * p.ntY as int + 8 * p.row as int + p.fine as int
  }

  lemma RightIsModular(p: Loopy)
    ensures WorldCol(Right(p)) == if WorldCol(p) == 63 then 0 else WorldCol(p) + 1
    ensures 0 <= WorldCol(p) < 64
  {
  }

  lemma DownIsModular(p: Loopy)
    requires p.row <= 29
    ensures Down(p).row <= 29
    ensures WorldY(Down(p)) == if WorldY(p) == 479 then 0 else WorldY(p) + 1
    ensures 0 <= WorldY(p) < 480
  {
  }

  /** n steps of a counter that returns to 0 after `last`. */
  function Wrap(a: int, last: int, n: nat): int {
    if n == 0 then a
    else if Wrap(a, last, n - 1) == last then 0
    else Wrap(a, last, n - 1) + 1
  }

  lemma {:induction false} WrapIsMod64(a: int, n: nat)
    requires 0 <= a < 64
    ensures Wrap(a, 63, n) == (a + n) % 64
  {
    if n > 0 {
      WrapIsMod64(a, n - 1);
    }
  }

  lemma {:induction false} WrapIsMod480(a: int, n: nat)
    requires 0 <= a < 480
    ensures Wrap(a, 479, n) == (a + n) % 480
  {
    if n > 0 {
      WrapIsMod480(a, n - 1);
    }
  }

  lemma {:induction false} RightByWraps(p: Loopy, n: nat)
    ensures WorldCol(RightBy(p, n)) == Wrap(WorldCol(p), 63, n)
    ensures RightBy(p, n).ntY == p.ntY && RightBy(p, n).row == p.row && RightBy(p, n).fine == p.fine
  {
    if n > 0 {
      RightByWraps(p, n - 1);
      RightIsModular(RightBy(p, n - 1));
    }
  }

  lemma {:induction false} DownByKeeps(p: Loopy, n: nat)
    ensures DownBy(p, n).ntX == p.ntX && DownBy(p, n).col == p.col
    ensures p.row <= 29 ==> DownBy(p, n).row <= 29
  {
    if n > 0 {
      DownByKeeps(p, n - 1);
    }
  }

  lemma {:induction false} DownByWraps(p: Loopy, n: nat)
    requires p.row <= 29
    ensures WorldY(DownBy(p, n)) == Wrap(WorldY(p), 479, n)
  {
    if n > 0 {
      DownByKeeps(p, n - 1);
      DownByWraps(p, n - 1);
      DownWraps(DownBy(p, n - 1), WorldY(p), n - 1);
    }
  }

  lemma DownWraps(p: Loopy, a: int, n: nat)
    requires p.row <= 29
    requires WorldY(p) == Wrap(a, 479, n)
    ensures WorldY(Down(p)) == Wrap(a, 479, n + 1)
  {
    DownIsModular(p);
  }

  lemma RightByIsModular(p: Loopy, n: nat)
    ensures WorldCol(RightBy(p, n)) == (WorldCol(p) + n) % 64
    ensures RightBy(p, n).ntY == p.ntY && RightBy(p, n).row == p.row && RightBy(p, n).fine == p.fine
  {
    RightIsModular(p);
    RightByWraps(p, n);
    WrapIsMod64(WorldCol(p), n);
  }

  lemma DownByIsModular(p: Loopy, n: nat)
    requires p.row <= 29
    ensures WorldY(DownBy(p, n)) == (WorldY(p) + n) % 480
    ensures DownBy(p, n).row <= 29
    ensures DownBy(p, n).ntX == p.ntX && DownBy(p, n).col == p.col
  {
    DownIsModular(p);
    DownByKeeps(p, n);
    DownByWraps(p, n);
    WrapIsMod480(WorldY(p), n);
  }

  // ----- addresses

  function NtAddr(p: Loopy): bv16 {
    (((0x2000 | ((p.ntY as bv16) << 11)) | ((p.ntX as bv16) << 10)) | ((p.row as bv16) << 5)) | (p.col as bv16)
  }

  function AttrAddr(p: Loopy): bv16 {
    (((0x23C0 | ((p.ntY as bv16) << 11)) | ((p.ntX as bv16) << 10)) | (((p.row >> 2) as bv16) << 3))
    | ((p.col >> 2) as bv16)
  }

  function AttrShift(p: Loopy): bv8 {
    (if p.row & 2 != 0 then 4 else 0) + (if p.col & 2 != 0 then 2 else 0)
  }

  lemma NtAddrBits(v: bv16)
    ensures 0x2000 | (v & 0x0FFF) == NtAddr(Decode(v))
  {
  }

  lemma AttrAddrBits(v: bv16)
    ensures ((0x23C0 | (v & 0x0C00)) | ((v >> 4) & 0x38)) | ((v >> 2) & 0x07) == AttrAddr(Decode(v))
  {
  }

  lemma AttrShiftBits(v: bv16)
    ensures (v & 0x02) | ((v >> 4) & 0x04) == AttrShift(Decode(v)) as bv16
  {
  }

  // ----- register writes

  function ScrollWrite(s: ScrollRegs, val: bv8): ScrollRegs {
    if s.latch then
      s.(t := s.t.(row := (val >> 3) as bv5, fine := (val & 0x07) as bv3), latch := false)
    else
      s.(t := s.t.(col := (val >> 3) as bv5), fineX := (val & 0x07) as bv3, latch := true)
  }

  /** Rows are split between the two address bytes: the top two bits belong to the first. */
  function AddrHigh(t: Loopy, val: bv8): Loopy {
    Loopy(((val >> 2) & 0x01) as bv1, t.col, ((val >> 3) & 0x01) as bv1,
          (((val & 0x03) as bv5) << 3) | (t.row & 0x07), ((val >> 4) & 0x03) as bv3)
  }

  function AddrLow(t: Loopy, val: bv8): Loopy {
    t.(col := (val & 0x1F) as bv5, row := (t.row & 0x18) | ((val >> 5) as bv5))
  }

  /** Addresses have 14 bits. */
  function Mirror(p: Loopy): Loopy {
    p.(fine := p.fine & 3)
  }

  function AddrWrite(s: ScrollRegs, val: bv8): ScrollRegs {
    if s.latch then s.(t := AddrLow(s.t, val), v := Mirror(AddrLow(s.t, val)), latch := false)
    else s.(t := AddrHigh(s.t, val), latch := true)
  }

  function SelectNametable(s: ScrollRegs, val: bv8): ScrollRegs {
    s.(t := s.t.(ntX := (val & 0x01) as bv1, ntY := ((val >> 1) & 0x01) as bv1))
  }

  /** Adding 1 or 32 to the 14-bit address, as a carry through the fields. */
  function Advance(p: Loopy, step: bv16): Loopy {
    if step == 1 && p.col < 31 then p.(col := p.col + 1, fine := p.fine & 3)
    else
      var p := if step == 1 then p.(col := 0) else p;
      if p.row < 31 then p.(row := p.row + 1, fine := p.fine & 3)
      else if p.ntX == 0 then p.(row := 0, ntX := 1, fine := p.fine & 3)
      else if p.ntY == 0 then p.(row := 0, ntX := 0, ntY := 1, fine := p.fine & 3)
      else p.(row := 0, ntX := 0, ntY := 0, fine := (p.fine + 1) & 3)
  }

  // ----- the packed updates

  lemma RightBits(v: bv16, w: bv16)
    requires v & 0x8000 == 0
    requires w == if v & 0x001F == 31 then (v & !0x001F) ^ 0x0400 else v + 1
    ensures w & 0x8000 == 0 && Decode(w) == Right(Decode(v))
  {
  }

  lemma DownBits(v: bv16, w: bv16)
    requires v & 0x8000 == 0
    requires w == if v & 0x7000 == 0x7000 then
                    var y := (v & 0x03E0) >> 5;
                    var u := v & !0x7000;
                    if y == 29 then (u ^ 0x0800) & !0x03E0
                    else if y == 31 then u & !0x03E0
                    else (u & !0x03E0) | ((y + 1) << 5)
                  else v + 0x1000
    ensures w & 0x8000 == 0 && Decode(w) == Down(Decode(v))
  {
  }

  lemma AdvanceBits(v: bv16, step: bv16, w: bv16)
    requires v & 0x8000 == 0 && (step == 1 || step == 32)
    requires w == (v + step) & 0x3FFF
    ensures w & 0x8000 == 0 && Decode(w) == Advance(Decode(v), step)
  {
  }

  lemma AddrHighBits(t: bv16, val: bv8, w: bv16)
    requires t & 0x8000 == 0
    requires w == (t & 0x00FF) | (((val as bv16) & 0x003F) << 8)
    ensures w & 0x8000 == 0 && Decode(w) == AddrHigh(Decode(t), val)
  {
  }

  lemma AddrLowBits(t: bv16, val: bv8, w: bv16)
    requires t & 0x8000 == 0
    requires w == (t & 0x7F00) | (val as bv16)
    ensures w & 0x8000 == 0 && Decode(w) == AddrLow(Decode(t), val)
  {
  }

  lemma MirrorBits(w: bv16, m: bv16)
    requires m == w & 0x3FFF
    ensures m & 0x8000 == 0 && Decode(m) == Mirror(Decode(w))
  {
  }

  lemma CopyXBits(v: bv16, t: bv16, w: bv16)
    requires v & 0x8000 == 0 && t & 0x8000 == 0
    requires w == (v & !0x041F) | (t & 0x041F)
    ensures w & 0x8000 == 0 && Decode(w) == Decode(v).(ntX := Decode(t).ntX, col := Decode(t).col)
  {
  }

  lemma CopyYBits(v: bv16, t: bv16, w: bv16)
    requires v & 0x8000 == 0 && t & 0x8000 == 0
    requires w == (v & !0x7BE0) | (t & 0x7BE0)
    ensures w & 0x8000 == 0 && Decode(w) == Decode(t).(ntX := Decode(v).ntX, col := Decode(v).col)
  {
  }
}
