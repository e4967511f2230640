/** What the MMC3 maps, over every sequence of accesses, writes and resets. */
module Mmc3Banks {
  import opened Words
  import opened Bits
  import opened MemBanks
  import opened Mapping
  import opened Mmc3Spec

  /** The mask leaves the eight register addresses and no other. */
  lemma RegisterIs(addr: u16)
    requires addr >= 0x8000
    ensures RegisterOf(addr) == addr / 0x2000 * 0x2000 + addr % 2
    ensures RegisterOf(addr) in {0x8000, 0x8001, 0xA000, 0xA001, 0xC000, 0xC001, 0xE000, 0xE001}
  {
    hide And, ShiftLeft, ShiftRight;
    MaskShape();
    AndShifted(addr / 2, 7, 12);
    ShiftRightIsDivision(addr / 2, 12);
    AndMask(addr / 0x2000, 3);
    ShiftLeftIsTimes(addr / 0x2000 % 8, 12);
    AndOdd(addr, 0x7000);
    assert addr / 2 / 0x1000 == addr / 0x2000;
    assert 4 <= addr / 0x2000 < 8;
  }

  lemma MaskShape()
    ensures Pow2(12) == 0x1000 && Pow2(3) == 8 && ShiftLeft(7, 12) == 0x7000
  {
  }

  lemma AndOdd(a: nat, high: nat)
    ensures And(a, 2 * high + 1) == 2 * And(a / 2, high) + a % 2
  {
  }

  /** The event makes the board rebuild its bank tables. */
  predicate Rebuilds(b: Board, event: Event) {
    match event
    case Access(_) => false
    case Store(addr, _) =>
      && addr >= 0x8000
      && (RegisterOf(addr) == 0x8000 || RegisterOf(addr) == 0x8001
          || (RegisterOf(addr) == 0xA000 && b.mirroring != FourScreen))
    case Restart => true
  }

  predicate SameBanks(a: Board, b: Board) {
    && a.bankSelect == b.bankSelect && a.bankValues == b.bankValues
    && a.prgCount == b.prgCount && a.chrCount == b.chrCount
    && a.prgPages == b.prgPages && a.chrPages == b.chrPages
  }

  lemma StepKeeps(b: Board, event: Event)
    requires b.Fits()
    ensures Step(b, event).prgCount == b.prgCount && Step(b, event).chrCount == b.chrCount
    ensures Step(b, event).revision == b.revision
    ensures if Rebuilds(b, event) then Synced(Step(b, event)) else SameBanks(Step(b, event), b)
  {
    hide UpdateBanks, PrgPage, ChrPage, Synced, NextCounter, Raises, And, RegisterOf, Line12;
    match event
    case Access(_) =>
    case Restart => RebuiltIsSynced(Cleared(b));
    case Store(addr, val) => WriteKeeps(b, addr, val);
  }

  lemma WriteKeeps(b: Board, addr: u16, val: bv8)
    requires b.Fits()
    ensures var r := Write(b, addr, val);
      && r.prgCount == b.prgCount && r.chrCount == b.chrCount && r.revision == b.revision
      && if Rebuilds(b, Store(addr, val)) then Synced(r) else SameBanks(r, b)
  {
    hide UpdateBanks, PrgPage, ChrPage, Synced, And, RegisterOf;
    if RegisterOf(addr) == 0x8000 {
      RebuiltIsSynced(b.(bankSelect := val));
    } else if RegisterOf(addr) == 0x8001 {
      RebuiltIsSynced(b.(bankValues := b.bankValues[Selected(b) := val]));
    } else {
      RebuiltIsSynced(b.(mirroring := if val & 0x01 == 0 then Vertical else Horizontal));
    }
  }

  lemma RebuiltIsSynced(b: Board)
    requires b.Fits()
    ensures Synced(UpdateBanks(b))
    ensures var r := UpdateBanks(b); r.prgCount == b.prgCount && r.chrCount == b.chrCount && r.revision == b.revision
  {
    hide PageOf, Even;
    var r := UpdateBanks(b);
    forall slot | 0 <= slot < 4 ensures r.prgPages[slot] == PrgPage(r, slot) {
      assert r.prgPages[slot] == PrgPage(b, slot);
    }
    forall slot | 0 <= slot < 8 ensures r.chrPages[slot] == ChrPage(r, slot) {
      assert r.chrPages[slot] == ChrPage(b, slot);
    }
  }

  lemma SameBanksSynced(a: Board, b: Board)
    requires a.Fits() && b.Fits() && SameBanks(a, b) && Synced(b)
    ensures Synced(a)
  {
    hide PageOf, Even;
    forall slot | 0 <= slot < 4 ensures a.prgPages[slot] == PrgPage(a, slot) {
      assert b.prgPages[slot] == PrgPage(b, slot);
    }
    forall slot | 0 <= slot < 8 ensures a.chrPages[slot] == ChrPage(a, slot) {
      assert b.chrPages[slot] == ChrPage(b, slot);
    }
  }

  /** From the first rebuild on, the tables are always what the registers say. */
  lemma {:induction false} StaysSynced(b: Board, events: seq<Event>, k: nat)
    requires b.Fits() && k < |events|
    requires Rebuilds(Run(b, events[..k]), events[k])
    ensures Synced(Run(b, events))
  {
    hide Step, Rebuilds, Synced, SameBanks;
    var before := events[..|events| - 1];
    StepKeeps(Run(b, before), events[|events| - 1]);
    if k == |before| {
      assert before == events[..k];
    } else {
      assert before[..k] == events[..k];
      StaysSynced(b, before, k);
      if !Rebuilds(Run(b, before), events[|events| - 1]) {
        SameBanksSynced(Run(b, events), Run(b, before));
      }
    }
  }

  /** $E000-$FFFF is the last bank in every state of every run of a loaded cartridge. */
  lemma {:induction false} LastBankStays(b: Board, events: seq<Event>, addr: u16)
    requires Loaded(b) && addr >= 0xE000
    ensures var r := Run(b, events);
      && r.prgCount == b.prgCount
      && r.prgPages[3] == b.prgCount - 1
      && Peek(r, addr) == PrgRom((b.prgCount - 1) * PRG_WINDOW + addr % PRG_WINDOW)
  {
    hide Step, Even;
    LastPage(b.prgCount);
    hide PageOf;
    TopWindow(addr);
    if events != [] {
      var before := Run(b, events[..|events| - 1]);
      LastBankStays(b, events[..|events| - 1], addr);
      StepKeeps(before, events[|events| - 1]);
    }
  }

  lemma TopWindow(addr: u16)
    requires addr >= 0xE000
    ensures addr % 0x8000 / PRG_WINDOW == 3
  {
  }

  lemma LastPage(count: nat)
    requires count > 0
    ensures PageOf(count - 1, count) == count - 1
  {
    AndSame(count - 1);
  }

  /** The page that the mask makes of the second-to-last bank is that bank if the number of banks is
    even. */
  lemma SecondToLast(count: nat)
    requires count >= 2
    ensures PageOf(count - 2, count) == count - 2 <==> count % 2 == 0
  {
    if count % 2 == 0 {
      assert (count - 2) / 2 == (count - 1) / 2;
      AndSame((count - 1) / 2);
    }
  }

  /** The window that the mode bit fixes: $8000-$9FFF or $C000-$DFFF. */
  function FixedSlot(b: Board): (slot: nat)
    ensures slot < 4
  {
    if b.PrgMode() then 0 else 2
  }

  predicate InFixedWindow(b: Board, addr: u16) {
    addr >= 0x8000 && addr % 0x8000 / PRG_WINDOW == FixedSlot(b)
  }

  lemma {:induction false} FixedPageStays(b: Board, events: seq<Event>)
    requires Loaded(b)
    ensures var r := Run(b, events);
      r.prgCount == b.prgCount && r.prgPages[FixedSlot(r)] == PageOf(b.prgCount - 2, b.prgCount)
  {
    hide Step, Even, PageOf, Rebuilds;
    if events != [] {
      var before, last := events[..|events| - 1], events[|events| - 1];
      FixedPageStays(b, before);
      var s, r := Run(b, before), Run(b, events);
      StepKeeps(s, last);
      if Rebuilds(s, last) {
        assert r.prgPages[FixedSlot(r)] == PrgPage(r, FixedSlot(r));
      }
    }
  }

  /** In every state of every run of a loaded cartridge the window that the mode bit fixes maps the
    second-to-last bank, exactly if the number of banks is even. */
  lemma SecondToLastStays(b: Board, events: seq<Event>, addr: u16)
    requires Loaded(b) && InFixedWindow(Run(b, events), addr)
    ensures Peek(Run(b, events), addr) == PrgRom((b.prgCount - 2) * PRG_WINDOW + addr % PRG_WINDOW)
      <==> b.prgCount % 2 == 0
  {
    hide PageOf, Run;
    FixedPageStays(b, events);
    SecondToLast(b.prgCount);
  }

  const PRG_ROM_BANK_SIZE := 0x4000

  /** The program memory that is made for a header with this number of banks. */
  function PrgLength(banks: nat): nat {
    banks * PRG_ROM_BANK_SIZE
  }

  /** A header counts banks of 16K, each of which is two of the board's; so on every cartridge the
    window that the mode bit fixes maps the second-to-last bank, whatever happens. */
  lemma CartridgesAreEven(b: Board, banks: nat, events: seq<Event>, addr: u16)
    requires Loaded(b) && b.prgCount == PrgLength(banks) / PRG_WINDOW && InFixedWindow(Run(b, events), addr)
    ensures b.prgCount == 2 * banks
    ensures Peek(Run(b, events), addr) == PrgRom((2 * banks - 2) * PRG_WINDOW + addr % PRG_WINDOW)
  {
    hide Run, Peek, Loaded, InFixedWindow;
    SecondToLastStays(b, events, addr);
  }

  /** Every program address leads into the ROM, for any number of banks. */
  lemma PrgInside(b: Board, addr: u16)
    requires b.Fits() && Synced(b) && addr >= 0x8000
    ensures Peek(b, addr).PrgRom? && Peek(b, addr).offset < b.prgCount * PRG_WINDOW
  {
    hide PrgPage;
    var slot := addr % 0x8000 / PRG_WINDOW;
    assert b.prgPages[slot] == PrgPage(b, slot);
    PrgWindowInside(b, addr);
  }

  /** A pattern address leads into the memory if the pages of its window are all there. */
  lemma ChrWindowInside(b: Board, addr: u16)
    requires b.Fits() && addr < 0x2000 && b.chrPages[addr / CHR_WINDOW] < b.chrCount
    ensures Peek(b, addr).Chr? && Peek(b, addr).offset < b.chrCount * CHR_WINDOW
  {
    var page := b.chrPages[addr / CHR_WINDOW];
    TimesBelow(page, b.chrCount, CHR_WINDOW);
    Times(page, 1, CHR_WINDOW);
  }

  /** Every pattern address leads into the memory, whatever the registers hold, exactly if the number
    of 1K pages is even or larger than what a register can select. */
  lemma ChrInside(b: Board)
    requires b.Fits()
    ensures b.chrCount % 2 == 0 || b.chrCount > 0x100
      <==> forall select: bv8, values: seq<bv8>, slot: nat :: |values| == 8 && slot < 8 ==>
             ChrPage(b.(bankSelect := select, bankValues := values), slot) < b.chrCount
  {
    if b.chrCount % 2 == 0 || b.chrCount > 0x100 {
      forall select: bv8, values: seq<bv8>, slot: nat | |values| == 8 && slot < 8
        ensures ChrPage(b.(bankSelect := select, bankValues := values), slot) < b.chrCount
      {
        PairInside(b.(bankSelect := select, bankValues := values), slot);
      }
    } else {
      ChrOutside(b);
    }
  }

  lemma PairInside(b: Board, slot: nat)
    requires b.Fits() && (b.chrCount % 2 == 0 || b.chrCount > 0x100) && slot < 8
    ensures ChrPage(b, slot) < b.chrCount
  {
    hide And, Even;
    var place := if b.Inverted() then (slot + 4) % 8 else slot;
    if place < 4 {
      var bank := Even(b.bankValues[place / 2]);
      if b.chrCount % 2 == 0 {
        EvenPageOf(bank, b.chrCount);
      } else {
        AndBelow(b.chrCount - 1, bank);
        AndCommutes(b.chrCount - 1, bank);
      }
    }
  }

  lemma ChrOutside(b: Board)
    requires b.Fits() && b.chrCount % 2 == 1 && b.chrCount <= 0x100
    ensures exists select: bv8, values: seq<bv8>, slot: nat :: |values| == 8 && slot < 8
              && ChrPage(b.(bankSelect := select, bankValues := values), slot) == b.chrCount
  {
    hide PageOf, Even;
    var low := EvenByte(b.chrCount - 1);
    var r := b.(bankSelect := 0, bankValues := [low, 0, 0, 0, 0, 0, 0, 0]);
    LastPage(b.chrCount);
    assert !r.Inverted();
    assert ChrPage(r, 1) == PageOf(Even(low), b.chrCount) + 1;
  }

  lemma EvenByte(n: nat) returns (val: bv8)
    requires n < 0x100 && n % 2 == 0
    ensures Even(val) == n
  {
    val := n as bv8;
  }

  lemma PrgWindowInside(b: Board, addr: u16)
    requires b.Fits() && addr >= 0x8000 && b.prgPages[addr % 0x8000 / PRG_WINDOW] < b.prgCount
    ensures Peek(b, addr).PrgRom? && Peek(b, addr).offset < b.prgCount * PRG_WINDOW
  {
    var page := b.prgPages[addr % 0x8000 / PRG_WINDOW];
    TimesBelow(page, b.prgCount, PRG_WINDOW);
    Times(page, 1, PRG_WINDOW);
  }

  /** The pages that a loaded cartridge shows before the first rebuild are there too, if there are at
    least as many 1K pages as windows. */
  ghost predicate PagesInside(b: Board) {
    && b.Fits()
    && (forall slot :: 0 <= slot < 4 ==> b.prgPages[slot] < b.prgCount)
    && (ChrSuffices(b.chrCount) ==> forall slot :: 0 <= slot < 8 ==> b.chrPages[slot] < b.chrCount)
  }

  predicate ChrSuffices(count: nat) {
    count >= 8 && (count % 2 == 0 || count > 0x100)
  }

  lemma SyncedIsInside(b: Board)
    requires b.Fits() && Synced(b)
    ensures PagesInside(b)
  {
    hide PrgPage, ChrPage;
    forall slot | 0 <= slot < 4 ensures b.prgPages[slot] < b.prgCount {
      assert b.prgPages[slot] == PrgPage(b, slot);
    }
    if ChrSuffices(b.chrCount) {
      forall slot | 0 <= slot < 8 ensures b.chrPages[slot] < b.chrCount {
        assert b.chrPages[slot] == ChrPage(b, slot);
        PairInside(b, slot);
      }
    }
  }

  lemma {:induction false} PagesStayInside(b: Board, events: seq<Event>)
    requires Loaded(b)
    ensures PagesInside(Run(b, events))
    ensures Run(b, events).prgCount == b.prgCount && Run(b, events).chrCount == b.chrCount
  {
    hide Step, Rebuilds, Synced, PageOf;
    if events == [] {
      LoadedIsInside(b);
    } else {
      var before, last := events[..|events| - 1], events[|events| - 1];
      PagesStayInside(b, before);
      StepKeeps(Run(b, before), last);
      if Rebuilds(Run(b, before), last) {
        SyncedIsInside(Run(b, events));
      }
    }
  }

  lemma LoadedIsInside(b: Board)
    requires Loaded(b)
    ensures PagesInside(b)
  {
    AndBelow(b.prgCount - 1, b.prgCount - 2);
    AndCommutes(b.prgCount - 1, b.prgCount - 2);
    LastPage(b.prgCount);
  }

  /** In every state of every run of a loaded cartridge every program address leads into the ROM. */
  lemma PrgStaysInside(b: Board, events: seq<Event>, addr: u16)
    requires Loaded(b) && addr >= 0x8000
    ensures var place := Peek(Run(b, events), addr);
      place.PrgRom? && place.offset < b.prgCount * PRG_WINDOW
  {
    hide Run, PageOf;
    PagesStayInside(b, events);
    PrgWindowInside(Run(b, events), addr);
  }

  predicate InChr(place: Mapped, count: nat) {
    place.Chr? && place.offset < count * CHR_WINDOW
  }

  /** And every pattern address leads into its memory in every state of every run, exactly if that has
    an even number of 1K pages from eight on, or more than a register can select. */
  lemma ChrStaysInside(b: Board)
    requires Loaded(b)
    ensures ChrSuffices(b.chrCount)
      <==> forall events: seq<Event>, addr: u16 :: addr < 0x2000 ==> InChr(Peek(Run(b, events), addr), b.chrCount)
  {
    hide Run, PageOf, Peek;
    if ChrSuffices(b.chrCount) {
      forall events: seq<Event>, addr: u16 | addr < 0x2000 ensures InChr(Peek(Run(b, events), addr), b.chrCount) {
        PagesStayInside(b, events);
        ChrWindowInside(Run(b, events), addr);
      }
    } else if b.chrCount < 8 {
      LoadedLeavesChr(b);
    } else {
      var events := OddPair(b);
    }
  }

  lemma LoadedLeavesChr(b: Board)
    requires Loaded(b) && b.chrCount < 8
    ensures !InChr(Peek(Run(b, []), 0x1C00), b.chrCount)
  {
    hide PageOf;
  }

  /** With an odd number of pages, register 0 can name the last one and its missing neighbour. */
  lemma OddPair(b: Board) returns (events: seq<Event>)
    requires Loaded(b) && b.chrCount % 2 == 1 && b.chrCount <= 0x100
    ensures !InChr(Peek(Run(b, events), 0x0400), b.chrCount)
  {
    hide PageOf, Even, PrgPage;
    var low := EvenByte(b.chrCount - 1);
    events := [Store(0x8001, low)];
    RegisterIs(0x8001);
    LastPage(b.chrCount);
    var r := Step(b, events[0]);
    assert Run(b, []) == b && events[..0] == [];
    assert r == UpdateBanks(b.(bankValues := b.bankValues[0 := low]));
    assert r.chrPages[1] == PageOf(Even(low), b.chrCount) + 1;
  }

  /** Flipping the inversion bit is flipping address line 12. */
  lemma InversionIsXor(b: Board, flipped: Board, addr: u16)
    requires b.Fits() && Synced(b) && flipped.Fits() && Synced(flipped)
    requires flipped.bankSelect == b.bankSelect ^ 0x80 && flipped.bankValues == b.bankValues
    requires flipped.chrCount == b.chrCount
    requires addr < 0x2000
    ensures Xor(addr, 0x1000) < 0x2000
    ensures Peek(flipped, addr) == Peek(b, Xor(addr, 0x1000))
  {
    InversionFlips(b, flipped);
    hide ChrPage, PrgPage, Xor, Board.Inverted, Board.PrgMode;
    FlippedLines(addr);
    HalfOff(addr);
    var slot := addr / CHR_WINDOW;
    InvertedPage(b, flipped, slot);
    assert flipped.chrPages[slot] == ChrPage(flipped, slot);
    assert b.chrPages[(slot + 4) % 8] == ChrPage(b, (slot + 4) % 8);
  }

  lemma HalfOff(a: nat)
    requires a < 0x2000
    ensures (a + 0x1000) % 0x2000 / CHR_WINDOW == (a / CHR_WINDOW + 4) % 8
    ensures (a + 0x1000) % 0x2000 % CHR_WINDOW == a % CHR_WINDOW
  {
    var slot, offset := a / CHR_WINDOW, a % CHR_WINDOW;
    assert a == slot * CHR_WINDOW + offset && 0 <= slot < 8;
    assert (a + 0x1000) % 0x2000 == (slot + 4) % 8 * CHR_WINDOW + offset;
  }

  lemma InvertedPage(b: Board, flipped: Board, slot: nat)
    requires b.Fits() && flipped.Fits() && slot < 8
    requires flipped.Inverted() == !b.Inverted() && flipped.bankValues == b.bankValues
    requires flipped.chrCount == b.chrCount
    ensures ChrPage(flipped, slot) == ChrPage(b, (slot + 4) % 8)
  {
    hide PageOf, Even, Board.Inverted;
  }

  lemma InversionFlips(b: Board, flipped: Board)
    requires flipped.bankSelect == b.bankSelect ^ 0x80
    ensures flipped.Inverted() == !b.Inverted()
  {
  }

  lemma ModeFlips(b: Board, flipped: Board)
    requires flipped.bankSelect == b.bankSelect ^ 0x40
    ensures flipped.PrgMode() == !b.PrgMode()
  {
  }

  lemma FlippedLines(addr: u16)
    ensures addr < 0x2000 ==> Xor(addr, 0x1000) == (addr + 0x1000) % 0x2000
    ensures addr >= 0x8000 ==> Xor(addr, 0x4000) == (addr + 0x4000) % 0x8000 + 0x8000
  {
    hide Xor, ShiftRight;
    LineShapes();
    XorBit(addr, 12);
    XorBit(addr, 14);
    ShiftRightIsDivision(addr, 12);
    ShiftRightIsDivision(addr, 14);
  }

  lemma LineShapes()
    ensures Pow2(12) == 0x1000 && Pow2(14) == 0x4000
  {
  }

  /** Flipping the program mode bit exchanges $8000-$9FFF with $C000-$DFFF and nothing else. */
  lemma ModeExchanges(b: Board, flipped: Board, addr: u16)
    requires b.Fits() && Synced(b) && flipped.Fits() && Synced(flipped)
    requires flipped.bankSelect == b.bankSelect ^ 0x40 && flipped.bankValues == b.bankValues
    requires flipped.prgCount == b.prgCount
    requires addr >= 0x8000
    ensures Xor(addr, 0x4000) < 0x1_0000
    ensures Peek(flipped, addr) == Peek(b, if addr / PRG_WINDOW % 2 == 0 then Xor(addr, 0x4000) else addr)
  {
    ModeFlips(b, flipped);
    hide ChrPage, PrgPage, Xor, Board.Inverted, Board.PrgMode;
    FlippedLines(addr);
    WindowOff(addr);
    var slot := addr % 0x8000 / PRG_WINDOW;
    var other := if slot % 2 == 0 then (slot + 2) % 4 else slot;
    ExchangedPage(b, flipped, slot);
    assert flipped.prgPages[slot] == PrgPage(flipped, slot);
    assert b.prgPages[other] == PrgPage(b, other);
  }

  lemma WindowOff(a: nat)
    requires 0x8000 <= a < 0x1_0000
    ensures var moved := (a + 0x4000) % 0x8000 + 0x8000;
      && moved % 0x8000 / PRG_WINDOW == (a % 0x8000 / PRG_WINDOW + 2) % 4
      && moved % PRG_WINDOW == a % PRG_WINDOW
    ensures a % 0x8000 / PRG_WINDOW % 2 == a / PRG_WINDOW % 2
  {
    var slot, offset := a / PRG_WINDOW, a % PRG_WINDOW;
    assert a == slot * PRG_WINDOW + offset && 4 <= slot < 8;
    assert a % 0x8000 == (slot - 4) * PRG_WINDOW + offset;
  }

  lemma ExchangedPage(b: Board, flipped: Board, slot: nat)
    requires b.Fits() && flipped.Fits() && slot < 4
    requires flipped.PrgMode() == !b.PrgMode() && flipped.bankValues == b.bankValues
    requires flipped.prgCount == b.prgCount
    ensures PrgPage(flipped, slot) == PrgPage(b, if slot % 2 == 0 then (slot + 2) % 4 else slot)
  {
    hide PageOf, Board.PrgMode;
  }
}
