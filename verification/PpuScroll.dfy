/** The packed scroll registers, updated in place. */
module ScrollDevice {
  import opened Words
  import opened Scroll

  class PpuScroll {
    var v: bv16
    var t: bv16
    var x: bv16
    var writeLatch: bool

    ghost predicate Valid()
      reads this
    {
      v & 0x8000 == 0 && t & 0x8000 == 0 && x < 8
    }

    ghost function Regs(): ScrollRegs
      requires Valid()
      reads this
    {
      ScrollRegs(Decode(v), Decode(t), x as bv3, writeLatch)
    }

    constructor ()
      ensures Valid()
      ensures Regs() == ScrollRegs(ORIGIN, ORIGIN, 0, false)
    {
      v, t, x, writeLatch := 0, 0, 0, false;
    }

    method AttributeAddr() returns (addr: bv16)
      ensures addr == AttrAddr(Decode(v))
    {
      var nametable := v & 0x0C00;
      var yBits := (v >> 4) & 0x38;
      var xBits := (v >> 2) & 0x07;
      addr := ((0x23C0 | nametable) | yBits) | xBits;
      AttrAddrBits(v);
    }

    method AttributeShift() returns (shift: bv16)
      ensures shift == AttrShift(Decode(v)) as bv16
    {
      shift := (v & 0x02) | ((v >> 4) & 0x04);
      AttrShiftBits(v);
    }

    method Write(val: bv8)
      requires Valid()
      modifies this
      ensures Valid()
      ensures Regs() == ScrollWrite(old(Regs()), val)
    {
      var wide := val as bv16;
      if writeLatch {
        t := t & !0x73E0;
        t := t | (((wide >> 3) & 0x1F) << 5);
        t := t | ((wide & 0x07) << 12);
      } else {
        t := t & !0x001F;
        t := t | ((wide >> 3) & 0x1F);
        x := wide & 0x07;
      }
      writeLatch := !writeLatch;
    }

    method WriteAddr(val: bv8)
      requires Valid()
      modifies this
      ensures Valid()
      ensures Regs() == AddrWrite(old(Regs()), val)
    {
      if writeLatch {
        var addr := WithLowByte(t, val);
        var target := Mirrored(addr);
        t, v := addr, target;
      } else {
        var addr := WithHighByte(t, val);
        t := addr;
      }
      writeLatch := !writeLatch;
    }

    /** The first address byte: six bits, above the low byte of t. */
    static method WithHighByte(t: bv16, val: bv8) returns (w: bv16)
      requires t & 0x8000 == 0
      ensures w & 0x8000 == 0 && Decode(w) == AddrHigh(Decode(t), val)
    {
      w := (t & 0x00FF) | (((val as bv16) & 0x003F) << 8);
      AddrHighBits(t, val, w);
    }

    static method WithLowByte(t: bv16, val: bv8) returns (w: bv16)
      requires t & 0x8000 == 0
      ensures w & 0x8000 == 0 && Decode(w) == AddrLow(Decode(t), val)
    {
      w := (t & 0x7F00) | (val as bv16);
      AddrLowBits(t, val, w);
    }

    static method Mirrored(w: bv16) returns (m: bv16)
      ensures m & 0x8000 == 0 && Decode(m) == Mirror(Decode(w))
    {
      m := w & 0x3FFF;
      MirrorBits(w, m);
    }

    method WriteNametableSelect(val: bv8)
      requires Valid()
      modifies this
      ensures Valid()
      ensures Regs() == SelectNametable(old(Regs()), val)
    {
      t := (t & !0x0C00) | (((val as bv16) & 0x03) << 10);
    }

    method Increment(val: bv16)
      requires Valid()
      requires val == 1 || val == 32
      modifies this
      ensures Valid()
      ensures Regs() == old(Regs()).(v := Advance(old(Regs()).v, val))
    {
      v := v + val;
      v := v & 0x3FFF;
      AdvanceBits(old(v), val, v);
    }

    method CopyX()
      requires Valid()
      modifies this
      ensures Valid()
      ensures Regs() == old(Regs()).(v := old(Regs()).v.(ntX := old(Regs()).t.ntX, col := old(Regs()).t.col))
    {
      var copied := (v & !0x041F) | (t & 0x041F);
      CopyXBits(v, t, copied);
      v := copied;
    }

    method CopyY()
      requires Valid()
      modifies this
      ensures Valid()
      ensures Regs() == old(Regs()).(v := old(Regs()).t.(ntX := old(Regs()).v.ntX, col := old(Regs()).v.col))
    {
      var copied := (v & !0x7BE0) | (t & 0x7BE0);
      CopyYBits(v, t, copied);
      v := copied;
    }

    method IncrementX()
      requires Valid()
      modifies this
      ensures Valid()
      ensures Regs() == old(Regs()).(v := Right(old(Regs()).v))
    {
      if v & 0x001F == 31 {
        v := (v & !0x001F) ^ 0x0400;
      } else {
        v := v + 1;
      }
      RightBits(old(v), v);
    }

    method IncrementY()
      requires Valid()
      modifies this`v
      ensures Valid()
      ensures Regs() == old(Regs()).(v := Down(old(Regs()).v))
    {
      var next := LineBelow(v);
      v := next;
    }

    static method LineBelow(v: bv16) returns (w: bv16)
      requires v & 0x8000 == 0
      ensures w & 0x8000 == 0 && Decode(w) == Down(Decode(v))
    {
      if v & 0x7000 == 0x7000 {
        w := v & !0x7000;
        var y := (w & 0x03E0) >> 5;
        if y == 29 {
          y := 0;
          w := w ^ 0x0800;
        } else if y == 31 {
          y := 0;
        } else {
          y := y + 1;
        }
        w := (w & !0x03E0) | (y << 5);
      } else {
        w := v + 0x1000;
      }
      DownBits(v, w);
    }

    method ResetLatch()
      requires Valid()
      modifies this
      ensures Valid()
      ensures Regs() == old(Regs()).(latch := false)
    {
      writeLatch := false;
    }

    method Reset(kind: ResetKind)
      requires Valid()
      modifies this
      ensures Valid()
      ensures Regs() == ScrollRegs(if kind.Hard? then ORIGIN else old(Regs()).v, ORIGIN, 0, false)
    {
      if kind == Hard {
        v := 0;
      }
      t, x, writeLatch := 0, 0, false;
    }
  }
}
