/** What a program does to the MMC1: each register holds the number that was spelled last at its
  addresses, and the windows show the banks that these numbers name. */
module Mmc1Programs {
  import opened Words
  import opened Bits
  import opened MemBanks
  import opened Mapping
  import opened Mmc1Spec
  import opened Mmc1Port
  import opened Mmc1Banks
  import opened Mmc1Runs

  datatype Register = Control | Chr0 | Chr1 | Prg

  function Held(b: Board, register: Register): nat {
    match register
    case Control => b.control
    case Chr0 => b.chr0
    case Chr1 => b.chr1
    case Prg => b.prg
  }

  // ----- masks as numbers

  lemma BitSeven(val: u8)
    ensures And(val, 0x80) == 0 <==> val < 0x80
  {
    assert ShiftLeft(1, 7) == 0x80 && Pow2(7) == 0x80 && Pow2(1) == 2;
    hide And, ShiftLeft, Pow2;
    AndShifted(val, 1, 7);
    AndMask(ShiftRight(val, 7), 1);
    ShiftRightIsDivision(val, 7);
    ShiftLeftIsTimes(And(ShiftRight(val, 7), 1), 7);
  }

  lemma BitFour(n: nat)
    ensures And(n, 0x10) == n / 16 % 2 * 16
  {
    assert ShiftLeft(1, 4) == 0x10 && Pow2(4) == 0x10 && Pow2(1) == 2;
    hide And, ShiftLeft, Pow2;
    AndShifted(n, 1, 4);
    AndMask(ShiftRight(n, 4), 1);
    ShiftRightIsDivision(n, 4);
    ShiftLeftIsTimes(And(ShiftRight(n, 4), 1), 4);
  }

  lemma ModeIs(control: nat)
    ensures ShiftRight(And(control, 0x0C), 2) == control / 4 % 4
  {
    assert ShiftLeft(3, 2) == 0x0C && Pow2(2) == 4;
    hide And, ShiftLeft, ShiftRight, Pow2;
    AndShifted(control, 3, 2);
    AndMask(ShiftRight(control, 2), 2);
    ShiftRightIsDivision(control, 2);
    ShiftLeftIsTimes(control / 4 % 4, 2);
    ShiftRightIsDivision(And(control, 0x0C), 2);
  }

  lemma LowTwo(control: nat)
    ensures And(control, 0x03) == control % 4
  {
    assert Pow2(2) == 4;
    AndMask(control, 2);
  }

  lemma LowFive(n: nat)
    requires n < 32
    ensures And(n, 0x1F) == n && And(n, 0x1E) == n - n % 2
  {
    assert Pow2(5) == 32;
    AndMask(n, 5);
    hide And;
    EvenMask(n);
    Nibble(n / 2);
  }

  lemma LowFour(n: nat)
    ensures And(n, 0x0F) == n % 16
  {
    assert Pow2(4) == 16;
    AndMask(n, 4);
  }

  lemma OrStep(a: nat, b: nat)
    ensures Or(a, b) == 2 * Or(a / 2, b / 2) + if a % 2 == 1 || b % 2 == 1 then 1 else 0
  {
  }

  lemma OrNone(a: nat)
    ensures Or(a, 0) == a
  {
  }

  lemma SetMode(control: nat)
    ensures Or(control, 0x0C) == control / 16 * 16 + 12 + control % 4
  {
    hide Or;
    OrStep(control, 12);
    OrStep(control / 2, 6);
    OrStep(control / 2 / 2, 3);
    OrStep(control / 2 / 2 / 2, 1);
    OrNone(control / 2 / 2 / 2 / 2);
    Quarters(control);
  }

  lemma Quarters(n: nat)
    ensures n / 2 / 2 / 2 / 2 == n / 16 && n % 4 == 2 * (n / 2 % 2) + n % 2
  {
  }

  lemma OuterOr(bit: nat, bank: nat)
    requires bit < 2 && bank < 16
    ensures Or(bit * 16, bank) == bit * 16 + bank
  {
    assert Pow2(4) == 16;
    hide Or;
    OrAdds(bit, bank, 4);
  }

  // ----- what five writes do

  /** The number that five writes spell, first bit lowest. */
  function Spelled(writes: seq<(u16, u8)>): (n: nat)
    requires |writes| == 5
    ensures n < 32
  {
    writes[0].1 % 2 + 2 * (writes[1].1 % 2) + 4 * (writes[2].1 % 2) + 8 * (writes[3].1 % 2) + 16 * (writes[4].1 % 2)
  }

  /** Writes to the port without bit 7, two clocks or more apart. */
  predicate Apart(writes: seq<(u16, u8)>, clocks: seq<nat>) {
    && |writes| == |clocks|
    && forall i :: 0 <= i < |writes| ==> writes[i].0 >= 0x8000 && writes[i].1 < 0x80 && clocks[i] >= 2
  }

  lemma ApartIsSpaced(writes: seq<(u16, u8)>, clocks: seq<nat>)
    requires Apart(writes, clocks)
    ensures Spaced(writes, clocks)
  {
    hide And;
    forall i | 0 <= i < |writes| ensures And(writes[i].1, 0x80) == 0 {
      BitSeven(writes[i].1);
    }
  }

  lemma UpdateKeeps(b: Board, addr: u16)
    requires b.Fits()
    ensures
      var r := UpdateBanks(b, addr);
      && r.control == b.control && r.chr0 == b.chr0 && r.chr1 == b.chr1 && r.prg == b.prg
      && r.shiftRegister == b.shiftRegister && r.writeJustOccurred == b.writeJustOccurred && r.revision == b.revision
  {
    hide ChrTable, PrgTable, MirroringOf;
  }

  /** Five writes load one register, the one that the last address selects: $8000-$9FFF the control
    register, $A000-$BFFF and $C000-$DFFF the two pattern banks, from $E000 on the program bank. The
    others keep their numbers, the port is empty again, and the windows follow. */
  lemma FiveWritesLoad(b: Board, writes: seq<(u16, u8)>, clocks: seq<nat>)
    requires b.Fits() && b.shiftRegister == EMPTY && b.writeJustOccurred == 0
    requires Apart(writes, clocks) && |writes| == 5
    ensures
      var r, n, addr := Deposits(b, writes, clocks), Spelled(writes), writes[4].0;
      && r.control == (if 0x8000 <= addr < 0xA000 then n else b.control)
      && r.chr0 == (if 0xA000 <= addr < 0xC000 then n else b.chr0)
      && r.chr1 == (if 0xC000 <= addr < 0xE000 then n else b.chr1)
      && r.prg == (if 0xE000 <= addr < 0x1_0000 then n else b.prg)
      && r.shiftRegister == EMPTY && r.writeJustOccurred == 0
      && SameCart(r, b) && r.revision == b.revision && Current(r, addr)
  {
    ApartIsSpaced(writes, clocks);
    FiveWrites(b, writes, clocks);
    FiveBits(writes);
    LowFive(Spelled(writes));
    hide And, Deposits, UpdateBanks, Current, BitsOf, Number, Spaced;
    var loaded := Load(b, writes[4].0, Spelled(writes));
    LoadsCart(b, writes[4].0, Spelled(writes));
    UpdateKeeps(loaded, writes[4].0);
    RebuiltIsCurrent(loaded, writes[4].0);
  }

  // ----- what the registers hold over a run

  function RegisterAt(addr: u16): Register
    requires addr >= 0x8000
  {
    if addr < 0xA000 then Control else if addr < 0xC000 then Chr0 else if addr < 0xE000 then Chr1 else Prg
  }

  /** The event ends a number: the fifth bit since the port was last empty, taken in time. */
  predicate Completes(gap: nat, before: seq<Event>, event: Event) {
    && event.Store? && event.addr >= 0x8000 && event.val < 0x80
    && Gap(gap, before) >= 2 && |Pending(gap, before)| == 4
  }

  /** The event empties the port: a byte of $80 or more, taken in time. */
  predicate Empties(gap: nat, before: seq<Event>, event: Event) {
    event.Store? && event.addr >= 0x8000 && event.val >= 0x80 && Gap(gap, before) >= 2
  }

  /** The number in a register: the one spelled last at its addresses since the last reset. A byte of
    $80 or more puts the control register into mode 3. */
  function Told(first: nat, register: Register, gap: nat, events: seq<Event>): nat {
    if events == [] then first
    else
      var before, last := events[..|events| - 1], events[|events| - 1];
      var val := Told(first, register, gap, before);
      if last.Restart? && register == Control then 12
      else if last.Restart? && register == Prg then 16
      else if Completes(gap, before, last) && RegisterAt(last.addr) == register then
        Number(Pending(gap, before) + [last.val % 2])
      else if Empties(gap, before, last) && register == Control then val / 16 * 16 + 12 + val % 4
      else val
  }

  lemma {:induction false} RegistersTold(b: Board, gap: nat, events: seq<Event>, register: Register)
    requires Starts(b, gap)
    ensures Held(Run(b, events), register) == Told(Held(b, register), register, gap, events)
  {
    hide Step, Gap, Pending, Number, RegisterAt, Completes, Empties;
    if events != [] {
      var before, last := events[..|events| - 1], events[|events| - 1];
      RegistersTold(b, gap, before, register);
      StepTells(b, gap, before, last, register);
    }
  }

  lemma StepTells(b: Board, gap: nat, before: seq<Event>, event: Event, register: Register)
    requires Starts(b, gap)
    ensures
      var val := Held(Run(b, before), register);
      Held(Step(Run(b, before), event), register) ==
        if event.Restart? && register == Control then 12
        else if event.Restart? && register == Prg then 16
        else if Completes(gap, before, event) && RegisterAt(event.addr) == register then
          Number(Pending(gap, before) + [event.val % 2])
        else if Empties(gap, before, event) && register == Control then val / 16 * 16 + 12 + val % 4
        else val
  {
    hide Run, Gap, Pending, Number, UpdateBanks, And, Or, Write, Reset, Holds;
    match event
    case Cycle =>
    case Restart(kind) => ResetTells(Run(b, before), kind);
    case Store(addr, val) =>
      if addr >= 0x8000 {
        StoreTells(b, gap, before, addr, val);
      } else {
        assert Write(Run(b, before), addr, val) == Run(b, before) by {
          LowWrite(Run(b, before), addr, val);
        }
      }
  }

  lemma LowWrite(b: Board, addr: u16, val: u8)
    requires b.Fits() && addr < 0x8000
    ensures Write(b, addr, val) == b
  {
  }

  lemma ResetTells(b: Board, kind: ResetKind)
    requires b.Fits()
    ensures
      var r := Reset(b, kind);
      r.control == 12 && r.prg == 16 && r.chr0 == b.chr0 && r.chr1 == b.chr1
  {
    hide UpdateBanks;
    UpdateKeeps(b.(shiftRegister := EMPTY, control := 0x0C, prg := 0x10), 0);
  }

  lemma StoreTells(b: Board, gap: nat, before: seq<Event>, addr: u16, val: u8)
    requires Starts(b, gap) && addr >= 0x8000
    ensures
      var s, event := Run(b, before), Store(addr, val);
      var r := Write(s, addr, val);
      if Completes(gap, before, event) then
        forall register ::
          Held(r, register) ==
            if RegisterAt(addr) == register then Number(Pending(gap, before) + [val % 2]) else Held(s, register)
      else if Empties(gap, before, event) then
        r == Taken(s).(control := s.control / 16 * 16 + 12 + s.control % 4)
      else
        r.control == s.control && r.chr0 == s.chr0 && r.chr1 == s.chr1 && r.prg == s.prg
  {
    hide Run, Gap, Pending, Number, UpdateBanks, And, Or, Write, Holds;
    var s := Run(b, before);
    BitSeven(val);
    PendingIsShort(b, gap, before);
    if Gap(gap, before) < 2 {
      EarlyWrite(b, gap, before, addr, val);
    } else if val >= 0x80 {
      ResetWrite(b, gap, before, addr, val);
      SetMode(s.control);
    } else if |Pending(gap, before)| < 4 {
      NextBit(b, gap, before, addr, val);
    } else {
      var n := Number(Pending(gap, before) + [val % 2]);
      FifthBit(b, gap, before, addr, val);
      FifthIsSmall(b, gap, before, val);
      LowFive(n);
      UpdateKeeps(Load(Taken(s), addr, n), addr);
    }
  }

  lemma PendingIsShort(b: Board, gap: nat, events: seq<Event>)
    requires Starts(b, gap)
    ensures |Pending(gap, events)| <= 4
  {
    hide Run, Pending, Gap;
    PortHolds(b, gap, events);
  }

  lemma FifthIsSmall(b: Board, gap: nat, events: seq<Event>, val: u8)
    requires Starts(b, gap) && |Pending(gap, events)| == 4
    ensures Number(Pending(gap, events) + [val % 2]) < 32
  {
    hide Run, Pending, Gap, Holds, Number;
    PortHolds(b, gap, events);
    PushIs(Run(b, events).shiftRegister, Pending(gap, events), val);
  }

  // ----- what the windows show

  /** The registers have five bits. */
  predicate Narrow(b: Board) {
    b.control < 32 && b.chr0 < 32 && b.chr1 < 32 && b.prg < 32
  }

  /** The number of the half of a 512K ROM, by 16 banks: bit 4 of the first pattern bank, or of the second
    one after a write to it in 4K mode. */
  function OuterBank(b: Board, addr: u16): nat {
    if !b.chrSelect then 0
    else if 0xC000 <= addr < 0xE000 && b.control / 16 % 2 == 1 then b.chr1 / 16 % 2 * 16
    else b.chr0 / 16 % 2 * 16
  }

  lemma OuterBankIs(b: Board, addr: u16)
    ensures b.Outer(addr) == OuterBank(b, addr)
    ensures OuterBank(b, addr) in {0, 16}
  {
    hide And;
    BitFour(b.chr0);
    BitFour(b.chr1);
    BitFour(b.control);
  }

  /** The banks of the two program windows. */
  function Banks(b: Board, addr: u16): (banks: seq<nat>)
    requires b.prgCount > 0
    ensures |banks| == 2
  {
    var outer, bank, mode, count := OuterBank(b, addr), b.prg % 16, b.control / 4 % 4, b.prgCount;
    if b.submapper == 5 then [0, 1]
    else if mode < 2 then [(outer + bank - bank % 2) % count, (outer + bank - bank % 2) % count + 1]
    else if mode == 2 then [outer % count, (outer + bank) % count]
    else [(outer + bank) % count, count - 1]
  }

  lemma BanksAre(b: Board, addr: u16)
    requires Sized(b) && IsPow2(b.prgCount)
    ensures PrgTable(b, addr) == Banks(b, addr)
  {
    hide And, Or, PageOf, IsPow2, Board.Outer, OuterBank, ShiftRight;
    OuterBankIs(b, addr);
    OuterIs(b, addr);
    LowFour(b.prg);
    ModeIs(b.control);
    var outer, bank := OuterBank(b, addr), b.prg % 16;
    LowFive(bank);
    OuterOr(outer / 16, bank);
    OuterOr(outer / 16, bank - bank % 2);
    LastPage(outer, b.prgCount);
    FirstPages(b.prgCount);
    Wraps(outer, b.prgCount);
    Wraps(outer + bank, b.prgCount);
    Wraps(outer + bank - bank % 2, b.prgCount);
  }

  /** The page that a 16K program window shows. */
  predicate ShowsPrg(b: Board, base: u16, page: int)
    requires b.Fits() && base <= 0xC000 && page >= 0
  {
    forall a: u16 :: base <= a < base + PRG_ROM_WINDOW ==> Peek(b, a) == PrgRom(page * PRG_ROM_WINDOW + a - base)
  }

  /** The page that a 4K pattern window shows. */
  predicate ShowsChr(b: Board, base: u16, page: int)
    requires b.Fits() && base <= 0x1000 && page >= 0
  {
    forall a: u16 :: base <= a < base + CHR_WINDOW ==> Peek(b, a) == Chr(page * CHR_WINDOW + a - base)
  }

  lemma WindowsShow(b: Board)
    requires b.Fits()
    ensures ShowsPrg(b, 0x8000, b.prgPages[0]) && ShowsPrg(b, 0xC000, b.prgPages[1])
    ensures ShowsChr(b, 0, b.chrPages[0]) && ShowsChr(b, 0x1000, b.chrPages[1])
  {
  }

  /** The program windows: in mode 3 the bank and the last one, in mode 2 the first one and the bank, in
    the others the pair of the bank, all in the half that the outer bit selects. */
  lemma PrgShows(b: Board, addr: u16)
    requires Sized(b) && IsPow2(b.prgCount) && Current(b, addr)
    ensures ShowsPrg(b, 0x8000, Banks(b, addr)[0]) && ShowsPrg(b, 0xC000, Banks(b, addr)[1])
  {
    hide PrgTable, ChrTable, Banks, ShowsPrg, ShowsChr, IsPow2;
    BanksAre(b, addr);
    WindowsShow(b);
  }

  /** The pattern windows: two banks of 4K with bit 4 of the control register, else the pair of the first. */
  lemma ChrShows(b: Board, addr: u16)
    requires b.Fits() && b.chr0 < 32 && IsPow2(b.chrCount) && Current(b, addr)
    ensures
      if b.control / 16 % 2 == 1 then
        ShowsChr(b, 0, b.chr0 % b.chrCount) && ShowsChr(b, 0x1000, b.chr1 % b.chrCount)
      else
        var even := (b.chr0 - b.chr0 % 2) % b.chrCount;
        ShowsChr(b, 0, even) && ShowsChr(b, 0x1000, even + 1)
  {
    hide PrgTable, ShowsPrg, ShowsChr, IsPow2, And, PageOf;
    BitFour(b.control);
    LowFive(b.chr0);
    Wraps(b.chr0, b.chrCount);
    Wraps(b.chr1, b.chrCount);
    Wraps(b.chr0 - b.chr0 % 2, b.chrCount);
    WindowsShow(b);
  }

  /** The two low bits of the control register name the arrangement of the nametables. */
  lemma MirroringShows(b: Board, addr: u16)
    requires b.Fits() && Current(b, addr)
    ensures b.mirroring == [SingleScreenA, SingleScreenB, Vertical, Horizontal][b.control % 4]
  {
    hide And, PrgTable, ChrTable;
    LowTwo(b.control);
  }

  /** The work RAM is there on revision A, and on others while bit 4 of the program bank is clear. */
  lemma RamShows(b: Board, a: u16)
    requires b.Fits() && 0x6000 <= a < 0x8000
    ensures Peek(b, a) == if b.revision == A || b.prg / 16 % 2 == 0 then PrgRam(a % 0x2000) else Nothing
  {
    hide And;
    BitFour(b.prg);
  }

  /** In mode 3, five writes that spell n from $E000 on show bank n at $8000 and the last bank at $C000. */
  lemma BankIsSwitched(b: Board, writes: seq<(u16, u8)>, clocks: seq<nat>)
    requires Sized(b) && b.shiftRegister == EMPTY && b.writeJustOccurred == 0
    requires Apart(writes, clocks) && |writes| == 5 && writes[4].0 >= 0xE000
    requires b.control / 4 % 4 == 3 && b.submapper != 5 && !b.chrSelect && IsPow2(b.prgCount)
    ensures
      var r := Deposits(b, writes, clocks);
      && ShowsPrg(r, 0x8000, Spelled(writes) % 16 % b.prgCount) && ShowsPrg(r, 0xC000, b.prgCount - 1)
      && r.control == b.control
  {
    hide Deposits, Spelled, Current, ShowsPrg, IsPow2;
    FiveWritesLoad(b, writes, clocks);
    PrgShows(Deposits(b, writes, clocks), writes[4].0);
  }

  // ----- over a run

  /** The event rebuilds the windows. */
  predicate Rebuilds(gap: nat, before: seq<Event>, event: Event) {
    event.Restart? || Completes(gap, before, event)
  }

  lemma RebuildsIs(b: Board, gap: nat, before: seq<Event>, event: Event)
    requires Starts(b, gap)
    ensures Rebuilds(gap, before, event) == Updates(Run(b, before), event)
  {
    hide Run, Gap, Pending, And, Holds;
    PortHolds(b, gap, before);
    PushIs(Run(b, before).shiftRegister, Pending(gap, before), 0);
    if event.Store? {
      BitSeven(event.val);
    }
  }

  /** In every state of every run the program windows show the banks that the registers named when a number
    was last completed or the board was last reset. */
  lemma WindowsTold(b: Board, gap: nat, events: seq<Event>, k: nat)
    requires Starts(b, gap) && Sized(b) && IsPow2(b.prgCount)
    requires k < |events| && Rebuilds(gap, events[..k], events[k])
    requires forall i :: k < i < |events| ==> !Rebuilds(gap, events[..i], events[i])
    ensures
      var u, r := Run(b, events[..k + 1]), Run(b, events);
      var banks := Banks(u, UpdateAddr(events[k]));
      && ShowsPrg(r, 0x8000, banks[0]) && ShowsPrg(r, 0xC000, banks[1])
      && r.mirroring == [SingleScreenA, SingleScreenB, Vertical, Horizontal][u.control % 4]
  {
    hide Step, Run, Updates, Rebuilds, Starts, IsPow2, Banks, ShowsPrg, ShowsChr, PrgTable, ChrTable, MirroringOf;
    forall i | k <= i < |events|
      ensures Rebuilds(gap, events[..i], events[i]) == Updates(Run(b, events[..i]), events[i])
    {
      RebuildsIs(b, gap, events[..i], events[i]);
    }
    TablesFromLastUpdate(b, events, k);
    CartStays(b, events[..k + 1]);
    CartStays(b, events);
    var u, r := Run(b, events[..k + 1]), Run(b, events);
    BanksAre(u, UpdateAddr(events[k]));
    MirroringShows(u, UpdateAddr(events[k]));
    WindowsShow(r);
  }

  lemma {:induction false} CartStays(b: Board, events: seq<Event>)
    requires b.Fits()
    ensures SameCart(Run(b, events), b)
  {
    hide Step, Updates, Current;
    if events != [] {
      CartStays(b, events[..|events| - 1]);
      StepTables(Run(b, events[..|events| - 1]), events[|events| - 1]);
    }
  }
}
