/** The MMC1 board as the object that the emulator clocks and writes. */
module Mmc1Device {
  import opened Words
  import opened Bits
  import M = MemBanks
  import opened Mapping
  import opened Mmc1Spec

  class Sxrom {
    var writeJustOccurred: nat
    var shiftRegister: nat
    var control: nat
    var chr0: nat
    var chr1: nat
    var prg: nat
    const submapper: u8
    var mirroring: Mirroring
    const revision: Revision
    const chrSelect: bool
    const chrBanks: M.MemBanks
    const prgRamBanks: M.MemBanks
    const prgRomBanks: M.MemBanks
    /** The pages that the two bank tables hold. */
    ghost var prgPages: seq<nat>
    ghost var chrPages: seq<nat>

    ghost predicate Valid()
      reads this, chrBanks.banks, prgRamBanks.banks, prgRomBanks.banks
    {
      && prgRomBanks.banks != chrBanks.banks && prgRomBanks.banks != prgRamBanks.banks
      && chrBanks.banks != prgRamBanks.banks
      && M.Table(prgRomBanks, 15, 14, prgPages)
      && M.Table(chrBanks, 13, 12, chrPages)
      && M.Table(prgRamBanks, 13, 13, [0])
    }

    ghost function State(): (s: Board)
      requires Valid()
      reads this, chrBanks.banks, prgRamBanks.banks, prgRomBanks.banks
      ensures s.Fits()
    {
      hide M.MemBanks.Holds;
      Sizes();
      Board(writeJustOccurred, shiftRegister, control, chr0, chr1, prg, submapper, mirroring, revision, chrSelect,
            prgRomBanks.pageCount, chrBanks.pageCount, prgPages, chrPages)
    }

    constructor (prgLen: nat, chrLen: nat, prgRamLen: nat, submapper: u8, revision: Revision)
      ensures Valid() && fresh(prgRomBanks.banks) && fresh(chrBanks.banks) && fresh(prgRamBanks.banks)
      ensures State().shiftRegister == EMPTY && State().writeJustOccurred == 0
      ensures State().submapper == submapper && State().revision == revision
      ensures State().prgCount == Max(1, prgLen / PRG_ROM_WINDOW) && State().chrCount == Max(1, chrLen / CHR_WINDOW)
      ensures State().chrSelect == (prgLen == 0x8_0000)
      ensures State() == Mmc1Spec.UpdateBanks(State().(control := 0x0C, chr0 := 0, chr1 := 0, prg := 0), 0)
    {
      Sizes();
      hide M.PageOf, M.MemBanks.Valid, M.MemBanks.Holds, ChrTable, PrgTable;
      writeJustOccurred, shiftRegister, control, chr0, chr1, prg := 0, EMPTY, 0x0C, 0, 0, 0;
      this.submapper := submapper;
      mirroring := SingleScreenA;
      this.revision := revision;
      chrSelect := prgLen == 0x8_0000;
      var chr := new M.MemBanks(0x0000, 0x1FFF, chrLen, CHR_WINDOW, 13, 12);
      var ram := new M.MemBanks(0x6000, 0x7FFF, prgRamLen, PRG_RAM_WINDOW, 13, 13);
      var rom := new M.MemBanks(0x8000, 0xFFFF, prgLen, PRG_ROM_WINDOW, 15, 14);
      chrBanks, prgRamBanks, prgRomBanks := chr, ram, rom;
      prgPages, chrPages := [0, 1], [0, 1];
      new;
      Identities();
      hide M.Table, Pow2;
      ghost var b := State();
      UpdateBanks(0x0000);
      SameTables(b, State(), 0);
    }

    method SetPrg(slot: nat, bank: nat)
      requires Valid() && slot < 2
      modifies this`prgPages, prgRomBanks.banks
      ensures Valid() && |prgPages| == |old(prgPages)| == 2
      ensures prgPages == old(prgPages)[slot := M.PageOf(bank, prgRomBanks.pageCount)]
    {
      Sizes();
      prgRomBanks.Set(slot, bank, prgPages);
      prgPages := prgPages[slot := M.PageOf(bank, prgRomBanks.pageCount)];
    }

    method SetPrgPair(bank: nat)
      requires Valid()
      modifies this`prgPages, prgRomBanks.banks
      ensures Valid() && prgPages == Pair(M.PageOf(bank, prgRomBanks.pageCount))
    {
      Sizes();
      prgRomBanks.SetRange(0, 1, bank, prgPages);
      prgPages := M.Ranged(prgPages, 0, 1, M.PageOf(bank, prgRomBanks.pageCount));
    }

    method UpdateChr()
      requires Valid()
      modifies this`chrPages, chrBanks.banks
      ensures Valid() && chrPages == ChrTable(old(State()))
    {
      Sizes();
      hide M.PageOf, And, Pow2;
      var chr4k := And(control, 0x10) == 0x10;
      ghost var count := chrBanks.pageCount;
      if chr4k {
        chrBanks.Set(0, chr0, chrPages);
        chrPages := chrPages[0 := M.PageOf(chr0, count)];
        chrBanks.Set(1, chr1, chrPages);
        chrPages := chrPages[1 := M.PageOf(chr1, count)];
      } else {
        chrBanks.SetRange(0, 1, And(chr0, 0x1E), chrPages);
        chrPages := M.Ranged(chrPages, 0, 1, M.PageOf(And(chr0, 0x1E), count));
      }
    }

    method UpdatePrg(addr: u16)
      requires Valid()
      modifies this`prgPages, prgRomBanks.banks
      ensures Valid() && prgPages == PrgTable(old(State()), addr)
    {
      ghost var b := State();
      hide M.PageOf, M.MemBanks.Valid, M.MemBanks.Holds, M.Table, And, Or;
      if submapper == 5 {
        SetPrgPair(0);
      } else {
        var extraReg := if 0xC000 <= addr <= 0xDFFF && And(control, 0x10) == 0x10 then chr1 else chr0;
        var bankSelect := if chrSelect then And(extraReg, 0x10) else 0;
        assert bankSelect == b.Outer(addr);
        var prgBank := And(prg, 0x0F);
        var prgMode := ShiftRight(And(control, 0x0C), 2);
        assert prgMode == b.PrgMode();
        hide Board.Outer, Board.PrgMode, ShiftRight;
        if prgMode == 0 || prgMode == 1 {
          SetPrgPair(Or(bankSelect, And(prgBank, 0x1E)));
        } else if prgMode == 2 {
          SetPrg(0, bankSelect);
          SetPrg(1, Or(bankSelect, prgBank));
        } else {
          var last := LastBank();
          SetPrg(0, Or(bankSelect, prgBank));
          SetPrg(1, Or(bankSelect, last));
        }
      }
    }

    function LastBank(): (last: nat)
      requires Valid()
      reads this, chrBanks.banks, prgRamBanks.banks, prgRomBanks.banks
      ensures last == State().prgCount - 1
    {
      prgRomBanks.Last()
    }

    method UpdateBanks(addr: u16)
      requires Valid()
      modifies this`mirroring, this`prgPages, this`chrPages, prgRomBanks.banks, chrBanks.banks
      ensures Valid() && State() == Mmc1Spec.UpdateBanks(old(State()), addr)
    {
      ghost var b := State();
      hide M.PageOf, M.MemBanks.Valid, M.MemBanks.Holds, M.Table, And, PrgTable, ChrTable;
      mirroring := MirroringOf(control);
      ghost var mirrored := State();
      UpdateChr();
      ghost var middle := State();
      UpdatePrg(addr);
      SameTables(b, mirrored, addr);
      SameTables(b, middle, addr);
    }

    function PrgRamEnabled(): bool
      reads this
    {
      revision == A || And(prg, 0x10) == 0
    }

    function MapPeek(addr: u16): Mapped
      requires Valid()
      reads this, chrBanks.banks, prgRamBanks.banks, prgRomBanks.banks
    {
      if addr <= 0x1FFF then Chr(chrBanks.Translate(addr))
      else if 0x6000 <= addr <= 0x7FFF && PrgRamEnabled() then PrgRam(prgRamBanks.Translate(addr))
      else if 0x8000 <= addr then PrgRom(prgRomBanks.Translate(addr))
      else Nothing
    }

    /** The masks and shifts of the bank tables find the page and the offset. */
    lemma PeekIs(addr: u16)
      requires Valid()
      ensures MapPeek(addr) == Peek(State(), addr)
    {
      Sizes();
      hide M.MemBanks.Translate, And, Pow2;
      if addr <= 0x1FFF {
        chrBanks.TranslateIs(addr, chrPages);
      } else if 0x6000 <= addr <= 0x7FFF {
        prgRamBanks.TranslateIs(addr, [0]);
      } else if 0x8000 <= addr {
        prgRomBanks.TranslateIs(addr, prgPages);
      }
    }

    /** Returns where the byte goes, if the board passes it on. */
    method MapWrite(addr: u16, val: u8) returns (mapped: Mapped)
      requires Valid()
      modifies this, prgRomBanks.banks, chrBanks.banks
      ensures Valid() && State() == Mmc1Spec.Write(old(State()), addr, val)
      ensures mapped == if addr < 0x8000 then Peek(old(State()), addr) else Nothing
    {
      hide Peek, M.MemBanks.Valid, M.MemBanks.Holds, M.Table, And, Or, Mmc1Spec.UpdateBanks, Shifted;
      mapped := Nothing;
      if addr < 0x8000 {
        PeekIs(addr);
        mapped := MapPeek(addr);
      } else if writeJustOccurred == 0 {
        writeJustOccurred := 2;
        Take(addr, val);
      }
    }

    method Take(addr: u16, val: u8)
      requires Valid()
      modifies this, prgRomBanks.banks, chrBanks.banks
      ensures Valid() && State() == Accept(old(State()), addr, val)
    {
      ghost var b := State();
      hide M.MemBanks.Valid, M.MemBanks.Holds, M.Table, And, Or, ShiftLeft, ShiftRight, Mmc1Spec.UpdateBanks;
      if And(val, 0x80) > 0 {
        shiftRegister := EMPTY;
        control := Or(control, 0x0C);
      } else {
        var write := And(shiftRegister, 1) == 1;
        shiftRegister := Or(ShiftRight(shiftRegister, 1), ShiftLeft(And(val, 1), 4));
        if write {
          if addr <= 0x9FFF {
            control := shiftRegister;
          } else if addr <= 0xBFFF {
            chr0 := And(shiftRegister, 0x1F);
          } else if addr <= 0xDFFF {
            chr1 := And(shiftRegister, 0x1F);
          } else {
            prg := And(shiftRegister, 0x1F);
          }
          shiftRegister := EMPTY;
          assert State() == Load(b, addr, Shifted(b.shiftRegister, val)).(shiftRegister := EMPTY);
          UpdateBanks(addr);
        }
      }
    }

    method Clock()
      requires Valid()
      modifies this`writeJustOccurred
      ensures Valid() && State() == Mmc1Spec.Clock(old(State()))
    {
      hide M.MemBanks.Valid, M.MemBanks.Holds, M.Table;
      if writeJustOccurred > 0 {
        writeJustOccurred := writeJustOccurred - 1;
      }
    }

    method Reset(kind: ResetKind)
      requires Valid()
      modifies this, prgRomBanks.banks, chrBanks.banks
      ensures Valid() && State() == Mmc1Spec.Reset(old(State()), kind)
    {
      hide M.MemBanks.Valid, M.MemBanks.Holds, M.Table, Mmc1Spec.UpdateBanks;
      ghost var b := State();
      shiftRegister := EMPTY;
      control := 0x0C;
      prg := 0x10;
      assert State() == b.(shiftRegister := EMPTY, control := 0x0C, prg := 0x10);
      UpdateBanks(0x0000);
      if kind == Hard {
        writeJustOccurred := 0;
      }
    }
  }

  lemma SameTables(a: Board, b: Board, addr: u16)
    requires a.Fits() && b.Fits()
    requires a == b.(mirroring := a.mirroring, prgPages := a.prgPages, chrPages := a.chrPages)
    ensures ChrTable(a) == ChrTable(b) && PrgTable(a, addr) == PrgTable(b, addr)
  {
    hide M.PageOf, And, Or;
  }

  lemma Identities()
    ensures M.Identity(13, 13) == [0]
    ensures M.Identity(15, 14) == [0, 1]
    ensures M.Identity(13, 12) == [0, 1]
  {
    Sizes();
  }

  lemma Sizes()
    ensures Pow2(0) == 1 && Pow2(1) == 2
    ensures Pow2(12) == CHR_WINDOW && Pow2(13) == PRG_RAM_WINDOW && Pow2(14) == PRG_ROM_WINDOW && Pow2(15) == 0x8000
  {
  }
}
