/** The MMC3 board as the object that the emulator clocks and writes. */
module Mmc3Device {
  import opened Words
  import opened Bits
  import opened Mapping
  import M = MemBanks
  import opened Mmc3Spec

  /** Loading subtracts one from the number of the last bank, which stops the program if that is 0. */
  datatype Loading = Ready(board: Txrom) | Underflow

  class Txrom {
    var bankSelect: bv8
    var bankValues: seq<bv8>
    var irqLatch: u8
    var irqCounter: u8
    var irqEnabled: bool
    var irqReload: bool
    var lastClock: u16
    var mirroring: Mirroring
    var irqPending: bool
    var revision: Revision
    const chrBanks: M.MemBanks
    const prgRamBanks: M.MemBanks
    const prgRomBanks: M.MemBanks
    /** The pages that the two bank tables hold. */
    ghost var prgPages: seq<nat>
    ghost var chrPages: seq<nat>

    ghost predicate Valid()
      reads this, chrBanks.banks, prgRamBanks.banks, prgRomBanks.banks
    {
      && prgRomBanks.banks != chrBanks.banks && prgRomBanks.banks != prgRamBanks.banks
      && chrBanks.banks != prgRamBanks.banks
      && |bankValues| == 8
      && M.Table(prgRomBanks, 15, 13, prgPages) && prgRomBanks.pageCount >= 2
      && M.Table(chrBanks, 13, 10, chrPages)
      && M.Table(prgRamBanks, 13, 13, [0])
    }

    ghost function State(): (s: Board)
      requires Valid()
      reads this, chrBanks.banks, prgRamBanks.banks, prgRomBanks.banks
      ensures s.Fits()
    {
      hide M.MemBanks.Holds;
      Sizes();
      Board(bankSelect, bankValues, irqLatch, irqCounter, irqEnabled, irqReload, lastClock, mirroring, irqPending,
            revision, prgRomBanks.pageCount, chrBanks.pageCount, prgPages, chrPages)
    }

    constructor (prgLen: nat, chrLen: nat, prgRamLen: nat, mirroring: Mirroring)
      requires prgLen >= 2 * PRG_WINDOW
      ensures Valid() && Loaded(State())
      ensures State().mirroring == mirroring && State().revision == BC
      ensures State().prgCount == prgLen / PRG_WINDOW && State().chrCount == Max(1, chrLen / CHR_WINDOW)
      ensures fresh(prgRomBanks.banks) && fresh(chrBanks.banks) && fresh(prgRamBanks.banks)
    {
      Sizes();
      hide M.PageOf, M.MemBanks.Valid, M.MemBanks.Holds;
      bankSelect, bankValues := 0, [0, 0, 0, 0, 0, 0, 0, 0];
      irqLatch, irqCounter, irqEnabled, irqReload, lastClock := 0, 0, false, false, 0;
      this.mirroring := mirroring;
      irqPending, revision := false, BC;
      var chr := new M.MemBanks(0x0000, 0x1FFF, chrLen, CHR_WINDOW, 13, 10);
      var ram := new M.MemBanks(0x6000, 0x7FFF, prgRamLen, PRG_WINDOW, 13, 13);
      var rom := new M.MemBanks(0x8000, 0xFFFF, prgLen, PRG_WINDOW, 15, 13);
      chrBanks, prgRamBanks, prgRomBanks := chr, ram, rom;
      prgPages, chrPages := [0, 1, 2, 3], [0, 1, 2, 3, 4, 5, 6, 7];
      new;
      Identities();
      hide M.Table, Pow2;
      FixLast();
    }

    static method Load(prgLen: nat, chrLen: nat, prgRamLen: nat, mirroring: Mirroring) returns (r: Loading)
      ensures r.Underflow? <==> prgLen < 2 * PRG_WINDOW
      ensures r.Ready? ==>
        && fresh(r.board) && r.board.Valid() && Loaded(r.board.State())
        && r.board.State().mirroring == mirroring && r.board.State().revision == BC
        && r.board.State().prgCount == prgLen / PRG_WINDOW && r.board.State().chrCount == Max(1, chrLen / CHR_WINDOW)
    {
      if Max(1, prgLen / PRG_WINDOW) - 1 < 1 {
        return Underflow;
      }
      hide Loaded;
      var board := new Txrom(prgLen, chrLen, prgRamLen, mirroring);
      r := Ready(board);
    }

    method FixLast()
      requires Valid()
      modifies this`prgPages, prgRomBanks.banks
      ensures Valid()
      ensures var count := prgRomBanks.pageCount;
        prgPages == old(prgPages)[2 := M.PageOf(count - 2, count)][3 := M.PageOf(count - 1, count)]
    {
      Sizes();
      assert |prgPages| == 4;
      hide M.PageOf, M.MemBanks.Valid, M.MemBanks.Holds;
      var lastBank := prgRomBanks.Last();
      prgRomBanks.Set(2, lastBank - 1, prgPages);
      prgPages := prgPages[2 := M.PageOf(lastBank - 1, prgRomBanks.pageCount)];
      prgRomBanks.Set(3, lastBank, prgPages);
      prgPages := prgPages[3 := M.PageOf(lastBank, prgRomBanks.pageCount)];
    }

    method SetRevision(revision: Revision)
      requires Valid()
      modifies this
      ensures Valid() && State() == old(State()).(revision := revision)
    {
      this.revision := revision;
    }

    method UpdatePrg()
      requires Valid()
      modifies this`prgPages, prgRomBanks.banks
      ensures Valid()
      ensures |prgPages| == 4 && forall slot :: 0 <= slot < 4 ==> prgPages[slot] == PrgPage(old(State()), slot)
    {
      Sizes();
      ghost var b := State();
      hide M.PageOf, M.MemBanks.Valid, M.MemBanks.Holds;
      var prgLast := prgRomBanks.Last();
      var prgLo, prgHi := bankValues[6] as nat, bankValues[7] as nat;
      ghost var count := prgRomBanks.pageCount;
      ghost var pages := prgPages;
      if bankSelect & 0x40 == 0x40 {
        prgRomBanks.Set(0, prgLast - 1, pages);
        pages := pages[0 := M.PageOf(prgLast - 1, count)];
        prgRomBanks.Set(1, prgHi, pages);
        pages := pages[1 := M.PageOf(prgHi, count)];
        prgRomBanks.Set(2, prgLo, pages);
        pages := pages[2 := M.PageOf(prgLo, count)];
      } else {
        prgRomBanks.Set(0, prgLo, pages);
        pages := pages[0 := M.PageOf(prgLo, count)];
        prgRomBanks.Set(1, prgHi, pages);
        pages := pages[1 := M.PageOf(prgHi, count)];
        prgRomBanks.Set(2, prgLast - 1, pages);
        pages := pages[2 := M.PageOf(prgLast - 1, count)];
      }
      prgRomBanks.Set(3, prgLast, pages);
      prgPages := pages[3 := M.PageOf(prgLast, count)];
    }

    method SetChr(slot: nat, bank: nat)
      requires Valid() && slot < 8
      modifies this`chrPages, chrBanks.banks
      ensures Valid() && |chrPages| == |old(chrPages)| == 8
      ensures chrPages == old(chrPages)[slot := M.PageOf(bank, chrBanks.pageCount)]
    {
      Sizes();
      chrBanks.Set(slot, bank, chrPages);
      chrPages := chrPages[slot := M.PageOf(bank, chrBanks.pageCount)];
    }

    method SetChrPair(slot: nat, bank: nat)
      requires Valid() && slot < 7
      modifies this`chrPages, chrBanks.banks
      ensures Valid() && |chrPages| == |old(chrPages)| == 8
      ensures var page := M.PageOf(bank, chrBanks.pageCount);
        chrPages == old(chrPages)[slot := page][slot + 1 := page + 1]
    {
      Sizes();
      chrBanks.SetRange(slot, slot + 1, bank, chrPages);
      chrPages := M.Ranged(chrPages, slot, slot + 1, M.PageOf(bank, chrBanks.pageCount));
    }

    method UpdateChrInverted()
      requires Valid() && bankSelect & 0x80 == 0x80
      modifies this`chrPages, chrBanks.banks
      ensures Valid() && chrPages == ChrList(old(State()))
    {
      hide M.PageOf, Even, M.MemBanks.Valid, M.MemBanks.Holds;
      Sizes();
      var chr := bankValues;
      assert |chr| == 8;
      hide Txrom.Valid;
      SetChr(0, chr[2] as nat);
      SetChr(1, chr[3] as nat);
      SetChr(2, chr[4] as nat);
      SetChr(3, chr[5] as nat);
      SetChrPair(4, Even(chr[0]));
      SetChrPair(6, Even(chr[1]));
    }

    method UpdateChrStraight()
      requires Valid() && bankSelect & 0x80 != 0x80
      modifies this`chrPages, chrBanks.banks
      ensures Valid() && chrPages == ChrList(old(State()))
    {
      hide M.PageOf, Even, M.MemBanks.Valid, M.MemBanks.Holds;
      Sizes();
      var chr := bankValues;
      assert |chr| == 8;
      hide Txrom.Valid;
      SetChrPair(0, Even(chr[0]));
      SetChrPair(2, Even(chr[1]));
      SetChr(4, chr[2] as nat);
      SetChr(5, chr[3] as nat);
      SetChr(6, chr[4] as nat);
      SetChr(7, chr[5] as nat);
    }

    method UpdateChr()
      requires Valid()
      modifies this`chrPages, chrBanks.banks
      ensures Valid()
      ensures |chrPages| == 8 && forall slot :: 0 <= slot < 8 ==> chrPages[slot] == ChrPage(old(State()), slot)
    {
      hide ChrPage, ChrList, M.MemBanks.Valid, M.MemBanks.Holds;
      ChrListIs(State());
      if bankSelect & 0x80 == 0x80 {
        UpdateChrInverted();
      } else {
        UpdateChrStraight();
      }
    }

    method UpdateBanks()
      requires Valid()
      modifies this`prgPages, this`chrPages, prgRomBanks.banks, chrBanks.banks
      ensures Valid() && State() == Mmc3Spec.UpdateBanks(old(State()))
    {
      hide PrgPage, ChrPage, M.MemBanks.Valid, M.MemBanks.Holds;
      ghost var b := State();
      UpdatePrg();
      ghost var middle := State();
      UpdateChr();
      assert forall slot :: 0 <= slot < 8 ==> ChrPage(middle, slot) == ChrPage(b, slot) by {
        SameChr(b, middle);
      }
      assert prgPages == Mmc3Spec.UpdateBanks(b).prgPages;
      assert chrPages == Mmc3Spec.UpdateBanks(b).chrPages;
    }

    method ClockIrq(addr: u16)
      requires Valid()
      modifies this`irqCounter, this`irqPending, this`irqReload, this`lastClock
      ensures Valid() && State() == Mmc3Spec.ClockIrq(old(State()), addr)
    {
      hide M.MemBanks.Valid, M.MemBanks.Holds, Line12;
      if addr < 0x2000 {
        var nextClock := Line12(addr);
        var last, next := 0, 1;
        if revision == Acc {
          last, next := 1, 0;
        }
        if lastClock == last && nextClock == next {
          var counter := irqCounter;
          if counter == 0 || irqReload {
            irqCounter := irqLatch;
          } else {
            irqCounter := irqCounter - 1;
          }
          if (counter % 2 == 1 || revision == BC || irqReload) && irqCounter == 0 && irqEnabled {
            irqPending := true;
          }
          irqReload := false;
        }
        lastClock := nextClock;
      }
    }

    function MapPeek(addr: u16): Mapped
      requires Valid()
      reads this, chrBanks.banks, prgRamBanks.banks, prgRomBanks.banks
    {
      if addr <= 0x1FFF then Chr(chrBanks.Translate(addr))
      else if addr <= 0x3EFF && mirroring == FourScreen then ExRam(And(addr, 0x1FFF))
      else if 0x6000 <= addr <= 0x7FFF then PrgRam(prgRamBanks.Translate(addr))
      else if 0x8000 <= addr then PrgRom(prgRomBanks.Translate(addr))
      else Nothing
    }

    /** The masks and shifts of the bank tables find the page and the offset. */
    lemma PeekIs(addr: u16)
      requires Valid()
      ensures MapPeek(addr) == Peek(State(), addr)
    {
      Sizes();
      hide M.MemBanks.Translate, And, Pow2;
      if addr <= 0x1FFF {
        chrBanks.TranslateIs(addr, chrPages);
      } else if addr <= 0x3EFF {
        AndMask(addr, 13);
      } else if 0x6000 <= addr <= 0x7FFF {
        prgRamBanks.TranslateIs(addr, [0]);
      } else if 0x8000 <= addr {
        prgRomBanks.TranslateIs(addr, prgPages);
      }
    }

    method MapRead(addr: u16) returns (mapped: Mapped)
      requires Valid()
      modifies this`irqCounter, this`irqPending, this`irqReload, this`lastClock
      ensures Valid() && State() == Mmc3Spec.ClockIrq(old(State()), addr)
      ensures mapped == Peek(State(), addr)
    {
      hide Peek, M.MemBanks.Valid, M.MemBanks.Holds, Mmc3Spec.ClockIrq;
      ClockIrq(addr);
      PeekIs(addr);
      mapped := MapPeek(addr);
    }

    method SelectBank(val: bv8)
      requires Valid()
      modifies this`bankSelect, this`prgPages, this`chrPages, prgRomBanks.banks, chrBanks.banks
      ensures Valid() && State() == Mmc3Spec.UpdateBanks(old(State()).(bankSelect := val))
    {
      hide M.MemBanks.Valid, M.MemBanks.Holds, Mmc3Spec.UpdateBanks;
      ghost var b := State();
      bankSelect := val;
      assert State() == b.(bankSelect := val);
      UpdateBanks();
    }

    method SetBank(val: bv8)
      requires Valid()
      modifies this`bankValues, this`prgPages, this`chrPages, prgRomBanks.banks, chrBanks.banks
      ensures Valid()
      ensures var b := old(State());
        State() == Mmc3Spec.UpdateBanks(b.(bankValues := b.bankValues[Selected(b) := val]))
    {
      hide M.MemBanks.Valid, M.MemBanks.Holds, Mmc3Spec.UpdateBanks;
      ghost var b := State();
      var bank := (bankSelect & 0x07) as nat;
      assert bank == Selected(b);
      hide Selected;
      bankValues := bankValues[bank := val];
      assert State() == b.(bankValues := b.bankValues[Selected(b) := val]);
      UpdateBanks();
    }

    method Mirror(mirroring: Mirroring)
      requires Valid()
      modifies this`mirroring, this`prgPages, this`chrPages, prgRomBanks.banks, chrBanks.banks
      ensures Valid() && State() == Mmc3Spec.UpdateBanks(old(State()).(mirroring := mirroring))
    {
      hide M.MemBanks.Valid, M.MemBanks.Holds, Mmc3Spec.UpdateBanks;
      ghost var b := State();
      this.mirroring := mirroring;
      assert State() == b.(mirroring := mirroring);
      UpdateBanks();
    }

    /** Returns where the byte goes, if the board passes it on. */
    method MapWrite(addr: u16, val: bv8) returns (mapped: Mapped)
      requires Valid()
      modifies this, prgRomBanks.banks, chrBanks.banks
      ensures Valid() && State() == Mmc3Spec.Write(old(State()), addr, val)
      ensures mapped == if addr < 0x8000 then Peek(old(State()), addr) else Nothing
    {
      hide Peek, M.MemBanks.Valid, M.MemBanks.Holds, Mmc3Spec.UpdateBanks, And;
      mapped := Nothing;
      if addr < 0x8000 {
        PeekIs(addr);
        mapped := MapPeek(addr);
      } else {
        var register := And(addr, 0xE001);
        if register == 0x8000 {
          SelectBank(val);
        } else if register == 0x8001 {
          SetBank(val);
        } else if register == 0xA000 {
          if mirroring != FourScreen {
            Mirror(if val & 0x01 == 0 then Vertical else Horizontal);
          }
        } else if register == 0xA001 {
        } else if register == 0xC000 {
          irqLatch := val as u8;
        } else if register == 0xC001 {
          irqReload := true;
        } else if register == 0xE000 {
          irqPending := false;
          irqEnabled := false;
        } else {
          irqEnabled := true;
        }
      }
    }

    method Reset()
      requires Valid()
      modifies this, prgRomBanks.banks, chrBanks.banks
      ensures Valid() && State() == Mmc3Spec.Reset(old(State()))
    {
      hide M.MemBanks.Valid, M.MemBanks.Holds, Mmc3Spec.UpdateBanks;
      ghost var b := State();
      irqPending := false;
      bankSelect, bankValues := 0, [0, 0, 0, 0, 0, 0, 0, 0];
      irqLatch, irqCounter, irqEnabled, irqReload, lastClock := 0, 0, false, false, 0;
      assert State() == Cleared(b);
      UpdateBanks();
    }
  }

  lemma Identities()
    ensures M.Identity(13, 13) == [0]
    ensures M.Identity(15, 13) == [0, 1, 2, 3]
    ensures M.Identity(13, 10) == [0, 1, 2, 3, 4, 5, 6, 7]
  {
    Sizes();
  }

  lemma Sizes()
    ensures Pow2(0) == 1 && Pow2(2) == 4 && Pow2(3) == 8
    ensures Pow2(10) == CHR_WINDOW && Pow2(13) == PRG_WINDOW && Pow2(15) == 0x8000
  {
  }

  /** The pages of the pattern windows, read off the assignments. */
  function ChrList(b: Board): (pages: seq<nat>)
    requires b.Fits()
    ensures |pages| == 8
  {
    var first, second := M.PageOf(Even(b.bankValues[0]), b.chrCount), M.PageOf(Even(b.bankValues[1]), b.chrCount);
    var pairs := [first, first + 1, second, second + 1];
    var singles := [M.PageOf(b.bankValues[2] as nat, b.chrCount), M.PageOf(b.bankValues[3] as nat, b.chrCount),
                    M.PageOf(b.bankValues[4] as nat, b.chrCount), M.PageOf(b.bankValues[5] as nat, b.chrCount)];
    if b.Inverted() then singles + pairs else pairs + singles
  }

  lemma ChrListIs(b: Board)
    requires b.Fits()
    ensures forall slot :: 0 <= slot < 8 ==> ChrList(b)[slot] == ChrPage(b, slot)
  {
    hide M.PageOf, Even;
  }

  lemma SameChr(a: Board, b: Board)
    requires a.Fits() && b.Fits()
    requires a.bankSelect == b.bankSelect && a.bankValues == b.bankValues && a.chrCount == b.chrCount
    ensures forall slot :: 0 <= slot < 8 ==> ChrPage(a, slot) == ChrPage(b, slot)
  {
    hide M.PageOf, Even;
  }
}
