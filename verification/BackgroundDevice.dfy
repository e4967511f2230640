/** The background unit of the PPU as an object: the scroll registers, the fetched tile, the shift
  registers and the palette latches, changed in place. */
module BackgroundDevice {
  import opened Words
  import opened Scroll
  import opened ScrollDevice
  import BitQueues
  import B = Background
  import S = PpuSpec

  class BackgroundUnit {
    const scroll: PpuScroll

    var tileShiftLo: bv16
    var tileShiftHi: bv16
    var tileLo: bv8
    var tileHi: bv8
    var tileAddr: bv16
    var prevPalette: bv8
    var currPalette: bv8
    var nextPalette: bv8

    ghost var state: B.Bg

    ghost predicate Valid()
      reads this, scroll
    {
      && scroll.Valid() && state.scroll == scroll.Regs()
      && state.shiftLo == BitQueues.QueueOf(tileShiftLo) && state.shiftHi == BitQueues.QueueOf(tileShiftHi)
      && state.tileLo == B.PlaneOf(tileLo) && state.tileHi == B.PlaneOf(tileHi) && state.tileAddr == tileAddr
      && state.prev == prevPalette && state.curr == currPalette && state.next == nextPalette
    }

    constructor ()
      ensures Valid() && fresh(scroll)
      ensures state.scroll == ScrollRegs(ORIGIN, ORIGIN, 0, false)
    {
      scroll := new PpuScroll();
      tileShiftLo, tileShiftHi, tileLo, tileHi, tileAddr := 0, 0, 0, 0, 0;
      prevPalette, currPalette, nextPalette := 0, 0, 0;
      new;
      state := B.Bg(scroll.Regs(), BitQueues.QueueOf(0), BitQueues.QueueOf(0), B.PlaneOf(0), B.PlaneOf(0), 0, 0, 0, 0);
    }

    method FetchBgNtByte(ctrl: bv8, mem: Memory)
      requires Valid()
      modifies this
      ensures Valid() && state == B.FetchNt(old(state), B.TilesOf(mem, S.BgBase(ctrl)))
    {
      hide BitQueues.QueueOf, B.Load, B.PlaneOf, B.TileAddr, Decode, S.BgBase;
      prevPalette := currPalette;
      currPalette := nextPalette;
      BitQueues.OrLoads(tileShiftLo, tileLo);
      BitQueues.OrLoads(tileShiftHi, tileHi);
      tileShiftLo := tileShiftLo | (tileLo as bv16);
      tileShiftHi := tileShiftHi | (tileHi as bv16);
      var addr := TileRowAddr(mem, scroll.v, ctrl);
      tileAddr := addr;
      state := B.FetchNt(state, B.TilesOf(mem, S.BgBase(ctrl)));
    }

    /** The name at `v`, and from it the address of the pattern row. */
    static method TileRowAddr(mem: Memory, v: bv16, ctrl: bv8) returns (addr: bv16)
      requires v & 0x8000 == 0
      ensures addr == B.TileAddr(mem, S.BgBase(ctrl), Decode(v))
    {
      var tileIndex := mem(0x2000 | (v & 0x0FFF)) as bv16;
      NtAddrBits(v);
      FineYBits(v);
      addr := (S.BgBase(ctrl) | (tileIndex << 4)) | (v >> 12);
    }

    method FetchBgAttrByte(ctrl: bv8, mem: Memory)
      requires Valid()
      modifies this
      ensures Valid() && state == B.FetchAttr(old(state), B.TilesOf(mem, S.BgBase(ctrl)))
    {
      hide BitQueues.QueueOf, B.PlaneOf, Decode, S.BgBase, B.TilePalette, AttrAddr, AttrShift;
      var addr := scroll.AttributeAddr();
      var shift := scroll.AttributeShift();
      var palette := Quarter(mem, addr, shift, Decode(scroll.v));
      nextPalette := palette;
      state := B.FetchAttr(state, B.TilesOf(mem, S.BgBase(ctrl)));
    }

    /** The two attribute bits of a quarter, in place as a palette. */
    static method Quarter(mem: Memory, addr: bv16, shift: bv16, ghost p: Loopy) returns (palette: bv8)
      requires addr == AttrAddr(p) && shift == AttrShift(p) as bv16
      ensures palette == B.TilePalette(mem, p)
    {
      hide AttrAddr;
      var attributes := mem(addr);
      ShiftAmount(p, shift, attributes);
      palette := ((attributes >> shift) & 0x03) << 2;
    }

    method FetchTileLo(mem: Memory)
      requires Valid()
      modifies this
      ensures Valid() && state == old(state).(tileLo := B.PlaneOf(mem(old(state).tileAddr)))
    {
      hide BitQueues.QueueOf, B.PlaneOf, Decode;
      tileLo := mem(tileAddr);
      state := state.(tileLo := B.PlaneOf(mem(state.tileAddr)));
    }

    method FetchTileHi(mem: Memory)
      requires Valid()
      modifies this
      ensures Valid() && state == old(state).(tileHi := B.PlaneOf(mem(B.HighPlane(old(state).tileAddr))))
    {
      hide BitQueues.QueueOf, B.PlaneOf, Decode, B.HighPlane;
      tileHi := mem(B.HighPlane(tileAddr));
      state := state.(tileHi := B.PlaneOf(mem(B.HighPlane(state.tileAddr))));
    }

    method FetchBackground(cycle: nat, ctrl: bv8, mem: Memory)
      requires Valid()
      modifies this
      ensures Valid() && state == B.FetchTile(old(state), cycle, B.TilesOf(mem, S.BgBase(ctrl)))
    {
      hide BitQueues.QueueOf, B.PlaneOf, Decode, S.BgBase, B.FetchNt, B.FetchAttr;
      match cycle % 8
      case 1 => FetchBgNtByte(ctrl, mem);
      case 3 => FetchBgAttrByte(ctrl, mem);
      case 5 => FetchTileLo(mem);
      case 7 => FetchTileHi(mem);
      case _ =>
    }

    /** Every fetch cycle ends with a shift. */
    method ShiftTiles()
      requires Valid()
      modifies this
      ensures Valid() && state == B.PopBoth(old(state))
    {
      hide BitQueues.QueueOf, B.PlaneOf, B.Pop, Decode;
      var lo := Shifted(tileShiftLo);
      var hi := Shifted(tileShiftHi);
      tileShiftLo, tileShiftHi := lo, hi;
      state := B.PopBoth(state);
    }

    static method Shifted(w: bv16) returns (r: bv16)
      ensures BitQueues.QueueOf(r) == B.Pop(BitQueues.QueueOf(w))
    {
      hide BitQueues.QueueOf, B.Pop;
      BitQueues.ShiftPops(w);
      r := w << 1;
    }

    // ----- moving `v`

    method IncrementX()
      requires Valid()
      modifies this, scroll
      ensures Valid() && state == B.MoveV(old(state), Right(old(state).scroll.v))
    {
      hide BitQueues.QueueOf, B.PlaneOf, Decode, Right;
      scroll.IncrementX();
      state := B.MoveV(state, Right(state.scroll.v));
    }

    method IncrementY()
      requires Valid()
      modifies this, scroll
      ensures Valid() && state == B.MoveV(old(state), Down(old(state).scroll.v))
    {
      hide BitQueues.QueueOf, B.PlaneOf, Decode, Down;
      scroll.IncrementY();
      state := B.MoveV(state, Down(state.scroll.v));
    }

    method CopyX()
      requires Valid()
      modifies this, scroll
      ensures Valid()
      ensures state == B.MoveV(old(state), old(state).scroll.v.(ntX := old(state).scroll.t.ntX,
          col := old(state).scroll.t.col))
    {
      hide BitQueues.QueueOf, B.PlaneOf, Decode;
      scroll.CopyX();
      state := B.MoveV(state, state.scroll.v.(ntX := state.scroll.t.ntX, col := state.scroll.t.col));
    }

    method CopyY()
      requires Valid()
      modifies this, scroll
      ensures Valid()
      ensures state == B.MoveV(old(state), old(state).scroll.t.(ntX := old(state).scroll.v.ntX,
          col := old(state).scroll.v.col))
    {
      hide BitQueues.QueueOf, B.PlaneOf, Decode;
      scroll.CopyY();
      state := B.MoveV(state, state.scroll.t.(ntX := state.scroll.v.ntX, col := state.scroll.v.col));
    }

    // ----- a cycle of a rendering line

    method RunCycle(cycle: nat, prerender: bool, ctrl: bv8, mem: Memory)
      requires Valid()
      modifies this, scroll
      ensures Valid() && state == B.Work(old(state), cycle, prerender, B.TilesOf(mem, S.BgBase(ctrl)))
    {
      hide Valid, B.FetchTile, B.FetchNt, B.FetchAttr, B.TilesOf, B.MoveV, S.BgBase, Right, Down;
      Fetch(cycle, ctrl, mem);
      Move(cycle, prerender);
      if 257 <= cycle <= 320 {
        if cycle % 8 == 1 {
          FetchBgNtByte(ctrl, mem);
        } else if cycle % 8 == 3 {
          FetchBgAttrByte(ctrl, mem);
        }
      }
    }

    /** Tiles are fetched on the visible and the prefetch cycles; the last four fetch names only. */
    method Fetch(cycle: nat, ctrl: bv8, mem: Memory)
      requires Valid()
      modifies this, scroll
      ensures Valid() && state == B.Fetching(old(state), cycle, B.TilesOf(mem, S.BgBase(ctrl)))
    {
      hide Valid, B.FetchTile, B.FetchNt, B.TilesOf, B.MoveV, S.BgBase, Right;
      if 1 <= cycle <= 256 || 321 <= cycle <= 336 {
        FetchBackground(cycle, ctrl, mem);
        if cycle % 8 == 0 {
          IncrementX();
        }
      } else if 337 <= cycle <= 340 {
        FetchBgNtByte(ctrl, mem);
      }
    }

    method Move(cycle: nat, prerender: bool)
      requires Valid()
      modifies this, scroll
      ensures Valid() && state == B.Moved(old(state), cycle, prerender)
    {
      hide Valid, B.MoveV, Down;
      if cycle == 256 {
        IncrementY();
      } else if cycle == 257 {
        CopyX();
      } else if 280 <= cycle <= 304 && prerender {
        CopyY();
      }
    }

    /** PPUADDR. */
    method Addr() returns (v: bv16)
      requires Valid()
      ensures Decode(v) == state.scroll.v && v & 0x8000 == 0
    {
      hide BitQueues.QueueOf, B.PlaneOf;
      v := scroll.v;
    }

    // ----- the pixel in front

    method FrontColor() returns (color: bv8)
      requires Valid()
      ensures color == S.BgColor(state)
    {
      hide BitQueues.QueueOf, B.PlaneOf, Decode;
      color := Selected(tileShiftHi, tileShiftLo, scroll.x, state.shiftHi, state.shiftLo, state.scroll.fineX);
    }

    /** The two bits that fine X selects. */
    static method Selected(hi: bv16, lo: bv16, x: bv16, ghost qHi: B.Queue, ghost qLo: B.Queue, ghost fineX: bv3)
        returns (color: bv8)
      requires x < 8 && fineX == x as bv3 && qHi == BitQueues.QueueOf(hi) && qLo == BitQueues.QueueOf(lo)
      ensures color == (if qHi[fineX as int] then 2 else 0) + (if qLo[fineX as int] then 1 else 0)
    {
      FineX(x, fineX);
      BitQueues.FrontBits(hi, lo, x, fineX as int);
      color := ((((hi << x) & 0x8000) >> 14) | (((lo << x) & 0x8000) >> 15)) as bv8;
    }

    method FrontPalette(x: nat) returns (palette: bv8)
      requires Valid()
      ensures palette == S.BgPalette(state, x)
    {
      hide BitQueues.QueueOf, B.PlaneOf, Decode;
      FineX(scroll.x, state.scroll.fineX);
      palette := if scroll.x as int + x % 8 < 8 then prevPalette else currPalette;
    }

    // ----- registers

    method WriteScroll(val: bv8)
      requires Valid()
      modifies this, scroll
      ensures Valid() && state == old(state).(scroll := ScrollWrite(old(state).scroll, val))
    {
      hide BitQueues.QueueOf, B.PlaneOf, Decode, ScrollWrite;
      scroll.Write(val);
      state := state.(scroll := ScrollWrite(state.scroll, val));
    }

    method WriteAddr(val: bv8)
      requires Valid()
      modifies this, scroll
      ensures Valid() && state == old(state).(scroll := AddrWrite(old(state).scroll, val))
    {
      hide BitQueues.QueueOf, B.PlaneOf, Decode, AddrWrite;
      scroll.WriteAddr(val);
      state := state.(scroll := AddrWrite(state.scroll, val));
    }

    method WriteNametableSelect(val: bv8)
      requires Valid()
      modifies this, scroll
      ensures Valid() && state == old(state).(scroll := SelectNametable(old(state).scroll, val))
    {
      hide BitQueues.QueueOf, B.PlaneOf, Decode, SelectNametable;
      scroll.WriteNametableSelect(val);
      state := state.(scroll := SelectNametable(state.scroll, val));
    }

    method Increment(step: bv16)
      requires Valid() && (step == 1 || step == 32)
      modifies this, scroll
      ensures Valid() && state == B.MoveV(old(state), Advance(old(state).scroll.v, step))
    {
      hide BitQueues.QueueOf, B.PlaneOf, Decode, Advance;
      scroll.Increment(step);
      state := B.MoveV(state, Advance(state.scroll.v, step));
    }

    method ResetLatch()
      requires Valid()
      modifies this, scroll
      ensures Valid() && state == old(state).(scroll := old(state).scroll.(latch := false))
    {
      hide BitQueues.QueueOf, B.PlaneOf, Decode;
      scroll.ResetLatch();
      state := state.(scroll := state.scroll.(latch := false));
    }

    method ResetScroll(kind: ResetKind)
      requires Valid()
      modifies this, scroll
      ensures Valid()
      ensures state == old(state).(scroll := ScrollRegs(if kind.Hard? then ORIGIN else old(state).scroll.v, ORIGIN, 0,
          false))
    {
      hide BitQueues.QueueOf, B.PlaneOf, Decode;
      scroll.Reset(kind);
      state := state.(scroll := ScrollRegs(if kind.Hard? then ORIGIN else state.scroll.v, ORIGIN, 0, false));
    }
  }

  lemma FineYBits(v: bv16)
    requires v & 0x8000 == 0
    ensures v >> 12 == Decode(v).fine as bv16
  {
  }

  lemma FineX(x: bv16, fineX: bv3)
    requires x < 8 && fineX == x as bv3
    ensures x as int == fineX as int < 8
  {
  }

  lemma ShiftAmount(p: Loopy, shift: bv16, a: bv8)
    requires shift == AttrShift(p) as bv16
    ensures shift <= 8 && a >> shift == a >> AttrShift(p)
  {
  }
}
