/** What the MMC1 maps: the fixed banks, the size of the ROM, and the write that leaves the bank
  tables behind the registers. */
module Mmc1Banks {
  import opened Words
  import opened Bits
  import opened MemBanks
  import opened Mapping
  import opened Mmc1Spec

  /** Only a 512K cartridge has an outer bank bit. */
  predicate Sized(b: Board) {
    b.Fits() && (b.chrSelect ==> b.prgCount == 32)
  }

  lemma LastPage(outer: nat, count: nat)
    requires count > 0 && (outer == 0 || (outer == 0x10 && count == 32))
    ensures PageOf(Or(outer, count - 1), count) == count - 1
  {
    AndSame(count - 1);
    if outer == 0x10 {
      OuterLast();
    }
  }

  lemma OuterLast()
    ensures Or(0x10, 31) == 31
  {
  }

  lemma OuterIs(b: Board, addr: u16)
    ensures b.Outer(addr) in {0, 0x10} && (!b.chrSelect ==> b.Outer(addr) == 0)
  {
    HighBit(b.chr0);
    HighBit(b.chr1);
  }

  lemma HighBit(n: nat)
    ensures And(n, 0x10) in {0, 0x10}
  {
    assert ShiftLeft(1, 4) == 0x10 && ShiftLeft(0, 4) == 0 && Pow2(1) == 2;
    AndShifted(n, 1, 4);
    AndMask(ShiftRight(n, 4), 1);
  }

  /** In mode 3 the window at $C000 shows the last bank of the ROM, whatever the registers hold. */
  lemma LastBankFixed(b: Board, addr: u16, at: u16)
    requires Sized(b) && b.submapper != 5 && b.PrgMode() == 3 && at >= 0xC000
    ensures Peek(UpdateBanks(b, addr), at) == PrgRom((b.prgCount - 1) * PRG_ROM_WINDOW + at % PRG_ROM_WINDOW)
  {
    hide And, Or, PageOf, ChrTable, Board.Outer;
    OuterIs(b, addr);
    LastPage(b.Outer(addr), b.prgCount);
    assert at % 0x8000 / PRG_ROM_WINDOW == 1;
  }

  /** In mode 2 the window at $8000 shows the first bank of the half that the outer bit selects. */
  lemma FirstBankFixed(b: Board, addr: u16, at: u16)
    requires Sized(b) && b.submapper != 5 && b.PrgMode() == 2 && 0x8000 <= at < 0xC000
    ensures var first := if b.chrSelect then b.Outer(addr) else 0;
      Peek(UpdateBanks(b, addr), at) == PrgRom(first * PRG_ROM_WINDOW + at % PRG_ROM_WINDOW)
  {
    hide And, Or, PageOf, ChrTable, Board.Outer;
    OuterIs(b, addr);
    FirstPages(b.prgCount);
    assert at % 0x8000 / PRG_ROM_WINDOW == 0;
  }

  lemma FirstPages(count: nat)
    requires count > 0
    ensures PageOf(0, count) == 0
    ensures count == 32 ==> PageOf(0x10, count) == 0x10
  {
  }

  function WithRegisters(b: Board, control: nat, chr0: nat, chr1: nat, prg: nat): (r: Board)
    ensures Sized(b) ==> Sized(r)
  {
    b.(control := control, chr0 := chr0, chr1 := chr1, prg := prg)
  }

  /** With these register values the program windows show banks of the ROM. */
  predicate Inside(b: Board, addr: u16, control: nat, chr0: nat, chr1: nat, prg: nat)
    requires Sized(b)
  {
    AllBelow(PrgTable(WithRegisters(b, control, chr0, chr1, prg), addr), b.prgCount)
  }

  predicate Wide(b: Board) {
    b.prgCount % 2 == 0 || b.prgCount > if b.submapper == 5 then 1 else 0x10
  }

  /** Every program window shows a bank of the ROM, whatever the registers hold, exactly if the
    number of banks is even or larger than what a pair of banks can select. */
  lemma PrgInside(b: Board, addr: u16)
    requires Sized(b)
    ensures Wide(b)
      <==> forall control: nat, chr0: nat, chr1: nat, prg: nat ::
             Inside(b, addr, control, chr0, chr1, prg)
  {
    if Wide(b) {
      forall control: nat, chr0: nat, chr1: nat, prg: nat
        ensures Inside(b, addr, control, chr0, chr1, prg)
      {
        TableInside(WithRegisters(b, control, chr0, chr1, prg), addr);
      }
    } else {
      TableOutside(b, addr);
    }
  }

  predicate AllBelow(pages: seq<nat>, count: nat) {
    forall i :: 0 <= i < |pages| ==> pages[i] < count
  }

  /** A pair that the registers can select starts at an even bank below 16, or at one of the second
    half of a 512K ROM. */
  lemma PairStart(outer: nat, prg: nat)
    requires outer in {0, 0x10}
    ensures var start := Or(outer, And(And(prg, 0x0F), 0x1E));
      start % 2 == 0 && (outer == 0 ==> start < 0x10)
    ensures prg < 0x10 && prg % 2 == 0 && outer == 0 ==> Or(outer, And(And(prg, 0x0F), 0x1E)) == prg
  {
    hide And, Or;
    var bank := And(prg, 0x0F);
    Nibble(prg);
    Nibble(bank / 2);
    EvenMask(bank);
    EvenOr(outer, And(bank, 0x1E));
  }

  lemma Nibble(n: nat)
    ensures And(n, 0x0F) < 0x10
    ensures n < 0x10 ==> And(n, 0x0F) == n
  {
    assert Pow2(4) == 0x10;
    AndMask(n, 4);
    AndBelow(n, 0x0F);
  }

  lemma EvenMask(bank: nat)
    ensures And(bank, 0x1E) == 2 * And(bank / 2, 0x0F)
  {
  }

  lemma EvenOr(outer: nat, bank: nat)
    requires outer in {0, 0x10} && bank % 2 == 0
    ensures Or(outer, bank) % 2 == 0
    ensures outer == 0 ==> Or(outer, bank) == bank
  {
  }

  lemma TableInside(b: Board, addr: u16)
    requires Sized(b) && Wide(b)
    ensures AllBelow(PrgTable(b, addr), b.prgCount)
  {
    hide And, Or, Board.Outer;
    OuterIs(b, addr);
    var outer := b.Outer(addr);
    PairStart(outer, b.prg);
    var start := Or(outer, And(And(b.prg, 0x0F), 0x1E));
    if b.prgCount % 2 == 0 {
      EvenPageOf(start, b.prgCount);
      EvenPageOf(0, b.prgCount);
    } else {
      FirstPages(b.prgCount);
      AndBelow(b.prgCount - 1, start);
      AndCommutes(b.prgCount - 1, start);
    }
  }

  lemma TableOutside(b: Board, addr: u16)
    requires Sized(b) && !Wide(b)
    ensures exists control: nat, chr0: nat, chr1: nat, prg: nat ::
              !Inside(b, addr, control, chr0, chr1, prg)
  {
    hide And, Or;
    var r := WithRegisters(b, 0, 0, 0, b.prgCount - 1);
    ModeZero();
    PairStart(0, r.prg);
    LastPage(0, b.prgCount);
    FirstPages(b.prgCount);
    ZeroOr(b.prgCount - 1);
    var pages := PrgTable(r, addr);
    assert pages[1] == b.prgCount;
    assert !Inside(b, addr, 0, 0, 0, b.prgCount - 1);
  }

  lemma ModeZero()
    ensures ShiftRight(And(0, 0x0C), 2) == 0
  {
  }

  lemma ZeroOr(n: nat)
    ensures Or(0, n) == n
  {
  }

  /** The tables that the registers name do not depend on the mode, or fit mode 3 already. */
  predicate FitsModeThree(b: Board, addr: u16)
    requires b.Fits()
  {
    var bank := And(b.prg, 0x0F);
    || b.submapper == 5
    || b.PrgMode() == 3
    || (b.PrgMode() == 2 && b.prgCount == 1)
    || (b.PrgMode() < 2 && bank % 2 == 0 && PageOf(Or(b.Outer(addr), bank), b.prgCount) == b.prgCount - 2)
  }

  /** A write with bit 7 changes the control register and not the tables, so that the windows show
    what the registers say afterwards exactly if the registers had them fit mode 3 before: in the
    32K modes with an even bank that selects the last two, in mode 2 with a single bank. */
  lemma ResetWriteLags(b: Board, addr: u16, at: u16, val: u8)
    requires Sized(b) && b.prgPages == PrgTable(b, addr)
    requires b.writeJustOccurred == 0 && at >= 0x8000 && And(val, 0x80) > 0
    ensures
      var r := Write(b, at, val);
      r.prgPages == PrgTable(r, addr) <==> FitsModeThree(b, addr)
  {
    hide And, Or, PageOf;
    var r := Write(b, at, val);
    ModeThree(b.control);
    assert r.PrgMode() == 3;
    OuterKeeps(b.control);
    assert r.Outer(addr) == b.Outer(addr);
    OuterIs(b, addr);
    LastPage(b.Outer(addr), b.prgCount);
    assert r.prgPages == b.prgPages;
    hide Board.Outer, Board.PrgMode;
    ThreeTable(b, r, addr);
    OuterPage(b.Outer(addr), b.prgCount);
    Nibble(b.prg);
    PairPages(b.Outer(addr), And(b.prg, 0x0F), b.prgCount);
  }

  lemma ThreeTable(b: Board, r: Board, addr: u16)
    requires r.Fits() && r.PrgMode() == 3 && r.Outer(addr) == b.Outer(addr) && r.prg == b.prg
    requires r.submapper == b.submapper && r.prgCount == b.prgCount
    requires PageOf(Or(b.Outer(addr), b.prgCount - 1), b.prgCount) == b.prgCount - 1
    ensures PrgTable(r, addr) ==
      if b.submapper == 5 then Pair(PageOf(0, b.prgCount))
      else [PageOf(Or(b.Outer(addr), And(b.prg, 0x0F)), b.prgCount), b.prgCount - 1]
  {
    hide And, Or, PageOf, Board.Outer, Board.PrgMode;
  }

  /** The first bank of a half is the last bank of the ROM only if there is no other. */
  lemma OuterPage(outer: nat, count: nat)
    requires count > 0 && (outer == 0 || (outer == 0x10 && count == 32))
    ensures PageOf(outer, count) == count - 1 <==> count == 1
    ensures count == 1 ==> forall bank: nat :: PageOf(bank, count) == 0
  {
    FirstPages(count);
  }

  /** A pair of banks, and the bank alone: they start at the same page if the bank is even, and an odd
    bank never selects the second-to-last page while its pair does. */
  lemma PairPages(outer: nat, bank: nat, count: nat)
    requires outer in {0, 0x10} && bank < 0x10 && count > 0
    ensures bank % 2 == 0 ==> Or(outer, And(bank, 0x1E)) == Or(outer, bank)
    ensures bank % 2 == 1 && PageOf(Or(outer, And(bank, 0x1E)), count) == count - 2 ==>
      PageOf(Or(outer, bank), count) != count - 2
  {
    hide And, Or, PageOf;
    Nibble(bank / 2);
    EvenMask(bank);
    var even := And(bank, 0x1E);
    assert even == bank - bank % 2;
    EvenOr(outer, even);
    if bank % 2 == 1 {
      OddOr(outer, even);
      OddPage(Or(outer, even), count);
    }
  }

  lemma OddOr(outer: nat, even: nat)
    requires outer in {0, 0x10} && even % 2 == 0
    ensures Or(outer, even + 1) == Or(outer, even) + 1
  {
    assert (even + 1) / 2 == even / 2;
  }

  lemma OddPage(even: nat, count: nat)
    requires even % 2 == 0 && count > 0
    ensures PageOf(even, count) == count - 2 ==> PageOf(even + 1, count) != count - 2
  {
    assert (even + 1) / 2 == even / 2;
  }

  /** A board with eight banks in mode 2 that shows bank 5 at $C000: after the write the registers
    name banks 5 and 7, and the windows still show 0 and 5. */
  lemma TablesLag(b: Board, addr: u16, at: u16)
    requires Sized(b) && b.prgPages == PrgTable(b, addr) && b.writeJustOccurred == 0 && at >= 0x8000
    requires b.control == 0x08 && b.prg == 5 && b.prgCount == 8 && b.submapper == 0
    ensures
      var r := Write(b, at, 0x80);
      r.prgPages == [0, 5] && PrgTable(r, addr) == [5, 7]
  {
    hide And, Or, PageOf, ShiftRight;
    LagNumbers();
    ModeThree(b.control);
  }

  lemma LagNumbers()
    ensures And(0x80, 0x80) > 0 && And(5, 0x0F) == 5 && ShiftRight(And(0x08, 0x0C), 2) == 2
    ensures Or(0, 5) == 5 && Or(0, 7) == 7 && PageOf(0, 8) == 0 && PageOf(5, 8) == 5 && PageOf(7, 8) == 7
  {
    ModeTwo();
    hide And, Or, ShiftRight;
    assert Pow2(3) == 8;
    AndSame(0x80);
    Nibble(5);
    ZeroOr(5);
    ZeroOr(7);
    FirstPages(8);
    AndMask(5, 3);
    AndMask(7, 3);
  }

  lemma ModeTwo()
    ensures ShiftRight(And(0x08, 0x0C), 2) == 2
  {
  }

  lemma ModeThree(control: nat)
    ensures ShiftRight(And(Or(control, 0x0C), 0x0C), 2) == 3
  {
    AndAbsorbs(control, 0x0C);
  }

  lemma OuterKeeps(control: nat)
    ensures And(Or(control, 0x0C), 0x10) == And(control, 0x10)
  {
    assert ShiftLeft(1, 4) == 0x10 && Pow2(4) == 0x10;
    hide And, Or, ShiftLeft, ShiftRight, Pow2;
    AndShifted(control, 1, 4);
    AndShifted(Or(control, 0x0C), 1, 4);
    OrKeepsHigh(control, 0x0C, 4);
  }
}
