/** The MMC1 bank tables over every run: what they hold, and that they stay inside the ROM. */
module Mmc1Runs {
  import opened Words
  import opened Bits
  import opened MemBanks
  import opened Mapping
  import opened Mmc1Spec
  import opened Mmc1Banks

  /** The event rebuilds the bank tables: a reset, or the write of a fifth bit. */
  predicate Updates(s: Board, event: Event) {
    match event
    case Cycle => false
    case Restart(_) => true
    case Store(addr, val) =>
      addr >= 0x8000 && s.writeJustOccurred == 0 && And(val, 0x80) == 0 && And(s.shiftRegister, 1) == 1
  }

  /** The address that the rebuild goes by. */
  function UpdateAddr(event: Event): u16 {
    if event.Store? then event.addr else 0
  }

  /** The windows show what the registers say. */
  predicate Current(b: Board, addr: u16)
    requires b.Fits()
  {
    b.prgPages == PrgTable(b, addr) && b.chrPages == ChrTable(b) && b.mirroring == MirroringOf(b.control)
  }

  predicate SameTables(a: Board, b: Board) {
    a.prgPages == b.prgPages && a.chrPages == b.chrPages && a.mirroring == b.mirroring
  }

  predicate SameCart(a: Board, b: Board) {
    a.chrSelect == b.chrSelect && a.prgCount == b.prgCount && a.chrCount == b.chrCount && a.submapper == b.submapper
  }

  lemma RebuiltIsCurrent(b: Board, addr: u16)
    requires b.Fits()
    ensures Current(UpdateBanks(b, addr), addr) && SameCart(UpdateBanks(b, addr), b)
  {
    hide PageOf, And, Or;
  }

  lemma PauseKeeps(b: Board, addr: u16, pause: nat)
    requires b.Fits() && Current(b, addr)
    ensures Current(b.(writeJustOccurred := pause), addr)
  {
    hide PageOf, And, Or;
  }

  lemma StepTables(s: Board, event: Event)
    requires s.Fits()
    ensures
      var r := Step(s, event);
      && SameCart(r, s)
      && if Updates(s, event) then Current(r, UpdateAddr(event)) else SameTables(r, s)
  {
    hide And, Or, Shifted, UpdateBanks, Current, Load;
    match event
    case Cycle =>
    case Restart(kind) =>
      RebuiltIsCurrent(s.(shiftRegister := EMPTY, control := 0x0C, prg := 0x10), 0);
      PauseKeeps(UpdateBanks(s.(shiftRegister := EMPTY, control := 0x0C, prg := 0x10), 0), 0, 0);
    case Store(addr, val) =>
      var q := Load(s.(writeJustOccurred := 2), addr, Shifted(s.shiftRegister, val)).(shiftRegister := EMPTY);
      RebuiltIsCurrent(q, addr);
      LoadsCart(s.(writeJustOccurred := 2), addr, Shifted(s.shiftRegister, val));
  }

  lemma LoadsCart(b: Board, addr: u16, val: nat)
    ensures SameCart(Load(b, addr, val), b)
  {
    hide And;
  }

  /** In every state of every run the tables are what the registers said at the last reset or fifth
    bit, whatever has happened to the registers since. */
  lemma {:induction false} TablesFromLastUpdate(b: Board, events: seq<Event>, k: nat)
    requires b.Fits() && k < |events| && Updates(Run(b, events[..k]), events[k])
    requires forall i :: k < i < |events| ==> !Updates(Run(b, events[..i]), events[i])
    ensures
      var u := Run(b, events[..k + 1]);
      Current(u, UpdateAddr(events[k])) && SameTables(Run(b, events), u)
  {
    hide Step, Updates, Current;
    var before, last := events[..|events| - 1], events[|events| - 1];
    StepTables(Run(b, before), last);
    if k == |before| {
      assert before == events[..k] && events == events[..k + 1];
    } else {
      assert before[..k] == events[..k] && before[..k + 1] == events[..k + 1];
      assert forall i :: k < i < |before| ==> before[..i] == events[..i];
      TablesFromLastUpdate(b, before, k);
    }
  }

  /** A bank table that was built once never leaves the ROM again, if the ROM is wide enough. */
  lemma {:induction false} StaysInside(b: Board, events: seq<Event>, addr: u16)
    requires Sized(b) && Wide(b) && AllBelow(b.prgPages, b.prgCount) && addr >= 0x8000
    ensures
      var r := Run(b, events);
      && SameCart(r, b) && AllBelow(r.prgPages, b.prgCount)
      && Peek(r, addr).PrgRom? && Peek(r, addr).offset < b.prgCount * PRG_ROM_WINDOW
  {
    hide Step, Updates, ChrTable, PrgTable;
    if events != [] {
      var before, last := events[..|events| - 1], events[|events| - 1];
      StaysInside(b, before, addr);
      StepTables(Run(b, before), last);
      TableInside(Run(b, events), UpdateAddr(last));
    }
    WindowInside(Run(b, events), addr);
  }

  lemma WindowInside(b: Board, addr: u16)
    requires b.Fits() && AllBelow(b.prgPages, b.prgCount) && addr >= 0x8000
    ensures Peek(b, addr).PrgRom? && Peek(b, addr).offset < b.prgCount * PRG_ROM_WINDOW
  {
    var page := b.prgPages[addr % 0x8000 / PRG_ROM_WINDOW];
    TimesBelow(page, b.prgCount, PRG_ROM_WINDOW);
    Times(page, 1, PRG_ROM_WINDOW);
  }

  /** The tables of a new board are inside. */
  lemma NewIsInside(b: Board)
    requires Sized(b) && Wide(b) && b == UpdateBanks(b, 0)
    ensures AllBelow(b.prgPages, b.prgCount)
  {
    TableInside(b, 0);
  }
}
