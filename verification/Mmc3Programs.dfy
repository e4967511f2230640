/** What a program does to the MMC3: the number written last under each selection is the bank that its
  window shows, over every run. The registers are told by their addresses, the windows by theirs. */
module Mmc3Programs {
  import opened Words
  import opened Bits
  import opened ByteBits
  import opened MemBanks
  import opened Mapping
  import opened Mmc3Spec
  import opened Mmc3Banks
  import Mmc3Irq

  // ----- what has been written last

  /** Even addresses below $A000 select a register, odd ones write it. */
  predicate Selects(event: Event) {
    event.Store? && 0x8000 <= event.addr < 0xA000 && event.addr % 2 == 0
  }

  predicate Writes(event: Event) {
    event.Store? && 0x8000 <= event.addr < 0xA000 && event.addr % 2 == 1
  }

  predicate Mirrors(event: Event) {
    event.Store? && 0xA000 <= event.addr < 0xC000 && event.addr % 2 == 0
  }

  /** The selection in force: the last one since the last reset. */
  function Selection(events: seq<Event>): (val: int)
    ensures 0 <= val < 0x100
  {
    if events == [] then 0
    else
      var last := events[|events| - 1];
      if last.Restart? then 0
      else if Selects(last) then last.val as int
      else Selection(events[..|events| - 1])
  }

  /** The number written last to a register, while it was selected. */
  function Bank(events: seq<Event>, register: nat): (val: int)
    ensures 0 <= val < 0x100
  {
    if events == [] then 0
    else
      var before, last := events[..|events| - 1], events[|events| - 1];
      if last.Restart? then 0
      else if Writes(last) && Selection(before) % 8 == register then last.val as int
      else Bank(before, register)
  }

  /** The arrangement of the nametables: bit 0 of the last byte written to $A000 chooses it, unless the
    cartridge has memory for four. */
  function Arrangement(first: Mirroring, events: seq<Event>): Mirroring {
    if events == [] || first == FourScreen then first
    else if Mirrors(events[|events| - 1]) then
      if events[|events| - 1].val as int % 2 == 1 then Horizontal else Vertical
    else Arrangement(first, events[..|events| - 1])
  }

  lemma WhichRegister(addr: u16)
    requires addr >= 0x8000
    ensures RegisterOf(addr) == 0x8000 <==> addr < 0xA000 && addr % 2 == 0
    ensures RegisterOf(addr) == 0x8001 <==> addr < 0xA000 && addr % 2 == 1
    ensures RegisterOf(addr) == 0xA000 <==> 0xA000 <= addr < 0xC000 && addr % 2 == 0
    ensures RegisterOf(addr) == 0xC000 <==> 0xC000 <= addr < 0xE000 && addr % 2 == 0
    ensures RegisterOf(addr) == 0xC001 <==> 0xC000 <= addr < 0xE000 && addr % 2 == 1
    ensures RegisterOf(addr) == 0xE000 <==> addr >= 0xE000 && addr % 2 == 0
    ensures RegisterOf(addr) == 0xE001 <==> addr >= 0xE000 && addr % 2 == 1
  {
    hide RegisterOf;
    RegisterIs(addr);
  }

  /** The registers hold what was written last. */
  ghost predicate Told(b: Board, events: seq<Event>) {
    && |b.bankValues| == 8 && b.bankSelect as int == Selection(events)
    && forall r :: 0 <= r < 8 ==> b.bankValues[r] as int == Bank(events, r)
  }

  lemma RebuildTells(b: Board)
    requires b.Fits()
    ensures UpdateBanks(b).bankSelect == b.bankSelect && UpdateBanks(b).bankValues == b.bankValues
    ensures UpdateBanks(b).mirroring == b.mirroring
  {
    hide PrgPage, ChrPage;
  }

  lemma StoreTells(b: Board, before: seq<Event>, addr: u16, val: bv8)
    requires b.Fits() && Told(b, before)
    ensures Told(Write(b, addr, val), before + [Store(addr, val)])
  {
    hide RegisterOf, UpdateBanks, Selected;
    var events := before + [Store(addr, val)];
    assert events[..|events| - 1] == before;
    if addr >= 0x8000 {
      WhichRegister(addr);
      SelectedIs(b);
      RebuildTells(b.(bankSelect := val));
      RebuildTells(b.(bankValues := b.bankValues[Selected(b) := val]));
      RebuildTells(b.(mirroring := if val & 0x01 == 0 then Vertical else Horizontal));
    }
  }

  lemma SelectedIs(b: Board)
    ensures Selected(b) == b.bankSelect as int % 8
  {
    LowThree(b.bankSelect);
  }

  lemma OtherTells(b: Board, before: seq<Event>, event: Event)
    requires b.Fits() && Told(b, before) && !event.Store?
    ensures Told(Step(b, event), before + [event])
  {
    hide PrgPage, ChrPage, NextCounter, Raises, Line12;
    var events := before + [event];
    assert events[..|events| - 1] == before;
    ZeroByte();
  }

  lemma ZeroByte()
    ensures (0 as bv8) as int == 0
  {
  }

  lemma {:induction false} RegistersTold(b: Board, events: seq<Event>)
    requires Loaded(b)
    ensures Told(Run(b, events), events)
  {
    hide Step, Selection, Bank, Selects, Writes;
    if events == [] {
      NothingTold(b);
    } else {
      var before, last := events[..|events| - 1], events[|events| - 1];
      RegistersTold(b, before);
      assert events == before + [last];
      StepTells(Run(b, before), before, last);
    }
  }

  lemma NothingTold(b: Board)
    requires Loaded(b)
    ensures Told(b, [])
  {
    ZeroByte();
  }

  lemma StepTells(b: Board, before: seq<Event>, event: Event)
    requires b.Fits() && Told(b, before)
    ensures Told(Step(b, event), before + [event])
  {
    hide Write, Told;
    if event.Store? {
      StoreTells(b, before, event.addr, event.val);
    } else {
      OtherTells(b, before, event);
    }
  }

  // ----- what the windows show

  /** Something has been selected or written, or the board has been reset. */
  predicate Touched(events: seq<Event>) {
    exists k :: 0 <= k < |events| && (Selects(events[k]) || Writes(events[k]) || events[k].Restart?)
  }

  lemma TouchedIsSynced(b: Board, events: seq<Event>)
    requires Loaded(b) && Touched(events)
    ensures Synced(Run(b, events)) && Run(b, events).prgCount == b.prgCount && Run(b, events).chrCount == b.chrCount
  {
    hide Step, Run, Synced, RegisterOf;
    var k :| 0 <= k < |events| && (Selects(events[k]) || Writes(events[k]) || events[k].Restart?);
    if events[k].Store? {
      WhichRegister(events[k].addr);
    }
    StaysSynced(b, events, k);
    PagesStayInside(b, events);
  }

  lemma ModeBits(val: bv8)
    ensures (val & 0x40 == 0x40) == (val as int / 64 % 2 == 1) && (val & 0x80 == 0x80) == (val as int / 128 == 1)
  {
    BitsAre(val);
    assert (val & 0x40 == 0x40) == (val & 0x40 != 0) && (val & 0x80 == 0x80) == (val & 0x80 != 0);
  }

  lemma ModesAre(b: Board)
    ensures b.PrgMode() == (b.bankSelect as int / 64 % 2 == 1) && b.Inverted() == (b.bankSelect as int / 128 == 1)
  {
    ModeBits(b.bankSelect);
  }

  lemma EvenIs(val: bv8)
    ensures Even(val) == val as int - val as int % 2
  {
    Parity(val);
  }

  /** The bank that an 8K window shows. */
  predicate ShowsPrg(b: Board, base: u16, bank: int)
    requires b.Fits() && base <= 0xE000 && bank >= 0
  {
    forall a: u16 :: base <= a < base + PRG_WINDOW ==> Peek(b, a) == PrgRom(bank * PRG_WINDOW + a - base)
  }

  lemma WindowShows(b: Board, slot: nat)
    requires b.Fits() && slot < 4
    ensures ShowsPrg(b, 0x8000 + slot * PRG_WINDOW, b.prgPages[slot])
  {
    var base := 0x8000 + slot * PRG_WINDOW;
    forall a: u16 | base <= a < base + PRG_WINDOW
      ensures Peek(b, a) == PrgRom(b.prgPages[slot] * PRG_WINDOW + a - base)
    {
      PlaceInWindow(slot, a - base);
    }
  }

  lemma PlaceInWindow(slot: nat, o: nat)
    requires slot < 4 && o < PRG_WINDOW
    ensures
      var a := 0x8000 + slot * PRG_WINDOW + o;
      0x8000 <= a < 0x1_0000 && a % 0x8000 / PRG_WINDOW == slot && a % PRG_WINDOW == o
  {
  }

  /** With a power of two of banks: register 6 names the bank at $8000, or with bit 6 of the selection
    that at $C000, register 7 the one at $A000; the other two windows show the last two banks. */
  lemma PrgWindows(b: Board, events: seq<Event>)
    requires Loaded(b) && Touched(events) && IsPow2(b.prgCount)
    ensures
      var r, mode := Run(b, events), Selection(events) / 64 % 2 == 1;
      && ShowsPrg(r, if mode then 0xC000 else 0x8000, Bank(events, 6) % b.prgCount)
      && ShowsPrg(r, 0xA000, Bank(events, 7) % b.prgCount)
      && ShowsPrg(r, if mode then 0x8000 else 0xC000, b.prgCount - 2)
      && ShowsPrg(r, 0xE000, b.prgCount - 1)
  {
    hide Run, IsPow2, Peek, ShowsPrg, Touched, Selection, Bank, PrgPage, Synced;
    RegistersTold(b, events);
    TouchedIsSynced(b, events);
    var r := Run(b, events);
    PrgPagesAre(r, Selection(events), Bank(events, 6), Bank(events, 7));
    WindowShows(r, 0);
    WindowShows(r, 1);
    WindowShows(r, 2);
    WindowShows(r, 3);
  }

  lemma PrgPagesAre(b: Board, selection: int, six: nat, seven: nat)
    requires b.Fits() && Synced(b) && IsPow2(b.prgCount)
    requires b.bankSelect as int == selection && b.bankValues[6] as int == six && b.bankValues[7] as int == seven
    ensures
      var mode := selection / 64 % 2 == 1;
      && b.prgPages[if mode then 2 else 0] == six % b.prgCount && b.prgPages[1] == seven % b.prgCount
      && b.prgPages[if mode then 0 else 2] == b.prgCount - 2 && b.prgPages[3] == b.prgCount - 1
  {
    hide PageOf, IsPow2, Board.PrgMode, PrgPage, Synced;
    ModesAre(b);
    PagesOf(b);
    Wraps(six, b.prgCount);
    Wraps(seven, b.prgCount);
    LastTwo(b.prgCount);
  }

  lemma LastTwo(count: nat)
    requires count >= 2 && IsPow2(count)
    ensures PageOf(count - 1, count) == count - 1 && PageOf(count - 2, count) == count - 2
  {
    LastPage(count);
    SecondToLast(count);
  }

  lemma PagesOf(b: Board)
    requires b.Fits() && Synced(b)
    ensures
      && b.prgPages[if b.PrgMode() then 2 else 0] == PageOf(b.bankValues[6] as int, b.prgCount)
      && b.prgPages[1] == PageOf(b.bankValues[7] as int, b.prgCount)
      && b.prgPages[if b.PrgMode() then 0 else 2] == PageOf(b.prgCount - 2, b.prgCount)
      && b.prgPages[3] == PageOf(b.prgCount - 1, b.prgCount)
  {
    hide PageOf, Board.PrgMode;
    assert b.prgPages[0] == PrgPage(b, 0) && b.prgPages[1] == PrgPage(b, 1);
    assert b.prgPages[2] == PrgPage(b, 2) && b.prgPages[3] == PrgPage(b, 3);
  }

  /** The page that a 1K pattern window shows. */
  predicate ShowsChr(b: Board, base: u16, page: int)
    requires b.Fits() && base <= 0x1C00 && page >= 0
  {
    forall a: u16 :: base <= a < base + CHR_WINDOW ==> Peek(b, a) == Chr(page * CHR_WINDOW + a - base)
  }

  lemma ChrShows(b: Board, slot: nat)
    requires b.Fits() && slot < 8
    ensures ShowsChr(b, slot * CHR_WINDOW, b.chrPages[slot])
  {
    var base := slot * CHR_WINDOW;
    forall a: u16 | base <= a < base + CHR_WINDOW
      ensures Peek(b, a) == Chr(b.chrPages[slot] * CHR_WINDOW + a - base)
    {
      PlaceInChr(slot, a - base);
    }
  }

  lemma PlaceInChr(slot: nat, o: nat)
    requires slot < 8 && o < CHR_WINDOW
    ensures var a := slot * CHR_WINDOW + o; a < 0x2000 && a / CHR_WINDOW == slot && a % CHR_WINDOW == o
  {
  }

  /** Registers 0 and 1 name the pairs of pages at $0000 and $0800, registers 2 to 5 the pages from $1000
    on; with bit 7 of the selection the two halves change places. */
  lemma ChrWindows(b: Board, events: seq<Event>, window: nat)
    requires Loaded(b) && Touched(events) && IsPow2(b.chrCount) && window < 8
    ensures
      var place := if Selection(events) / 128 == 1 then (window + 4) % 8 else window;
      var bank := Bank(events, if window < 4 then window / 2 else window - 2);
      ShowsChr(Run(b, events), place * CHR_WINDOW,
               if window < 4 then (bank - bank % 2) % b.chrCount + window % 2 else bank % b.chrCount)
  {
    hide Run, IsPow2, Peek, ShowsChr, Touched, Selection, Bank, ChrPage, Synced;
    RegistersTold(b, events);
    TouchedIsSynced(b, events);
    var r := Run(b, events);
    ChrPageIs(r, Selection(events), Bank(events, if window < 4 then window / 2 else window - 2), window);
    ChrShows(r, if Selection(events) / 128 == 1 then (window + 4) % 8 else window);
  }

  lemma ChrPagesOf(b: Board, window: nat)
    requires b.Fits() && Synced(b) && window < 8
    ensures
      b.chrPages[if b.Inverted() then (window + 4) % 8 else window] ==
        if window < 4 then PageOf(Even(b.bankValues[window / 2]), b.chrCount) + window % 2
        else PageOf(b.bankValues[window - 2] as nat, b.chrCount)
  {
    hide PageOf, Even, Board.Inverted;
    var place := if b.Inverted() then (window + 4) % 8 else window;
    assert b.chrPages[place] == ChrPage(b, place);
  }

  lemma ChrPageIs(b: Board, selection: int, bank: nat, window: nat)
    requires b.Fits() && Synced(b) && IsPow2(b.chrCount) && window < 8
    requires b.bankSelect as int == selection
    requires b.bankValues[if window < 4 then window / 2 else window - 2] as int == bank
    ensures
      b.chrPages[if selection / 128 == 1 then (window + 4) % 8 else window] ==
        if window < 4 then (bank - bank % 2) % b.chrCount + window % 2 else bank % b.chrCount
  {
    hide PageOf, IsPow2, Even, Board.Inverted, ChrPage, PrgPage, Synced;
    ModesAre(b);
    ChrPagesOf(b, window);
    if window < 4 {
      EvenIs(b.bankValues[window / 2]);
      Wraps(bank - bank % 2, b.chrCount);
    } else {
      Wraps(bank, b.chrCount);
    }
  }

  // ----- the other registers

  lemma StepArranges(b: Board, event: Event)
    requires b.Fits()
    ensures Step(b, event).mirroring ==
      if Mirrors(event) && b.mirroring != FourScreen then (if event.val as int % 2 == 1 then Horizontal else Vertical)
      else b.mirroring
  {
    hide RegisterOf, UpdateBanks, Selected, NextCounter, Raises, Line12;
    match event
    case Access(_) =>
    case Restart => RebuildTells(Cleared(b));
    case Store(addr, val) =>
      Parity(val);
      if addr >= 0x8000 {
        WhichRegister(addr);
        RebuildTells(b.(bankSelect := val));
        RebuildTells(b.(bankValues := b.bankValues[Selected(b) := val]));
        RebuildTells(b.(mirroring := if val & 0x01 == 0 then Vertical else Horizontal));
      }
  }

  lemma {:induction false} MirroringTold(b: Board, events: seq<Event>)
    requires b.Fits()
    ensures Run(b, events).mirroring == Arrangement(b.mirroring, events)
    ensures Run(b, events).mirroring == FourScreen <==> b.mirroring == FourScreen
  {
    hide Step, Mirrors;
    if events == [] {
      assert Run(b, events) == b;
    } else {
      var before := events[..|events| - 1];
      MirroringTold(b, before);
      StepArranges(Run(b, before), events[|events| - 1]);
    }
  }

  /** What the four registers of the interrupt do. */
  lemma IrqRegisters(b: Board, val: bv8)
    requires b.Fits()
    ensures Write(b, 0xC000, val) == b.(irqLatch := val as int)
    ensures Write(b, 0xC001, val) == b.(irqReload := true)
    ensures Write(b, 0xE000, val) == b.(irqPending := false, irqEnabled := false)
    ensures Write(b, 0xE001, val) == b.(irqEnabled := true)
  {
    hide RegisterOf, UpdateBanks;
    WhichRegister(0xC000);
    WhichRegister(0xC001);
    WhichRegister(0xE000);
    WhichRegister(0xE001);
  }

  /** The board after a program has written L to $C000, and anything to $C001, $E000 and $E001. */
  function Programmed(b: Board, latch: bv8, x: bv8, y: bv8, z: bv8): (r: Board)
    requires b.Fits()
    ensures r.Fits()
  {
    Write(Write(Write(Write(b, 0xC000, latch), 0xC001, x), 0xE000, y), 0xE001, z)
  }

  /** From then on the interrupt is pending exactly if more than L edges have passed. */
  lemma ProgramCounts(b: Board, latch: bv8, x: bv8, y: bv8, z: bv8, accesses: seq<Event>)
    requires b.Fits() && forall i :: 0 <= i < |accesses| ==> accesses[i].Access?
    ensures
      var r := Run(Programmed(b, latch, x, y, z), accesses);
      r.irqPending <==> Mmc3Irq.Edges(b.revision, b.lastClock, accesses) > latch as int
  {
    hide Write, Run, Mmc3Irq.Edges;
    IrqRegisters(b, latch);
    var c := Write(b, 0xC000, latch);
    IrqRegisters(c, x);
    var d := Write(c, 0xC001, x);
    IrqRegisters(d, y);
    IrqRegisters(Write(d, 0xE000, y), z);
    Mmc3Irq.FirstInterrupt(Programmed(b, latch, x, y, z), accesses);
  }

  /** A write to $E000 takes the request back, and no access raises another. */
  lemma {:induction false} Acknowledged(b: Board, val: bv8, accesses: seq<Event>)
    requires b.Fits() && forall i :: 0 <= i < |accesses| ==> accesses[i].Access?
    ensures
      var r := Run(Write(b, 0xE000, val), accesses);
      !r.irqPending && !r.irqEnabled
  {
    hide Write, NextCounter, Line12, RegisterOf;
    IrqRegisters(b, val);
    if accesses != [] {
      Acknowledged(b, val, accesses[..|accesses| - 1]);
    }
  }

  /** A reset takes the request back, disables the interrupt and clears its counter and latch. */
  lemma ResetSilences(b: Board)
    requires b.Fits()
    ensures
      var r := Reset(b);
      && !r.irqPending && !r.irqEnabled && !r.irqReload && r.irqCounter == 0 && r.irqLatch == 0
      && r.mirroring == b.mirroring && r.revision == b.revision
  {
    hide PrgPage, ChrPage;
  }

  // ----- addresses

  lemma LineIs(addr: u16)
    ensures Line12(addr) == addr / 0x1000 % 2
  {
    assert Pow2(12) == 0x1000 && Pow2(1) == 2;
    hide Pow2, And, ShiftRight;
    ShiftRightIsDivision(addr, 12);
    AndMask(ShiftRight(addr, 12), 1);
  }

  /** The counter is clocked when the accesses pass from the lower pattern table to the upper one, on the
    board that counts falling edges when they come back. */
  lemma EdgeIs(revision: Revision, last: u16, addr: u16)
    requires last < 0x2000
    ensures IsEdge(revision, Line12(last), addr) <==>
      addr < 0x2000 && if revision == Acc then last >= 0x1000 > addr else addr >= 0x1000 > last
  {
    hide Line12;
    LineIs(last);
    LineIs(addr);
  }

  /** Outside the bank windows: 8K of work RAM at $6000, and with memory for four nametables that memory from
    $2000 up to the palette. */
  lemma MemoriesShow(b: Board, a: u16)
    requires b.Fits() && 0x2000 <= a < 0x8000
    ensures
      Peek(b, a) ==
        if a >= 0x6000 then PrgRam(a - 0x6000)
        else if a < 0x3F00 && b.mirroring == FourScreen then ExRam(a - 0x2000)
        else Nothing
  {
  }
}
