/** The MMC3 board on values: its bank registers and what they map, and its interrupt counter. */
module Mmc3Spec {
  import opened Words
  import opened Bits
  import opened MemBanks
  import opened Mapping

  /** `A` and `BC` count rising edges of address line 12, `Acc` falling ones. */
  datatype Revision = A | BC | Acc

  const PRG_WINDOW := 0x2000
  const CHR_WINDOW := 0x400

  datatype Board = Board(
    bankSelect: bv8,
    bankValues: seq<bv8>,
    irqLatch: u8,
    irqCounter: u8,
    irqEnabled: bool,
    irqReload: bool,
    lastClock: u16,
    mirroring: Mirroring,
    irqPending: bool,
    revision: Revision,
    prgCount: nat,
    chrCount: nat,
    prgPages: seq<nat>,
    chrPages: seq<nat>
  ) {
    predicate Fits() {
      && |bankValues| == 8 && |prgPages| == 4 && |chrPages| == 8
      && prgCount >= 2 && chrCount >= 1
    }

    predicate PrgMode() {
      bankSelect & 0x40 == 0x40
    }

    predicate Inverted() {
      bankSelect & 0x80 == 0x80
    }
  }

  /** Low bit cleared: pairs of 1K pages start at an even one. */
  function Even(val: bv8): (r: nat)
    ensures r % 2 == 0 && r <= 0xFE
    ensures val as nat % 2 == 0 ==> r == val as nat
  {
    (val & 0xFE) as nat
  }

  /** The page that the registers put into an 8K window at $8000, $A000, $C000 or $E000. */
  function PrgPage(b: Board, slot: nat): (page: nat)
    requires b.Fits() && slot < 4
    ensures page < b.prgCount
  {
    if slot == 3 then PageOf(b.prgCount - 1, b.prgCount)
    else if slot == 1 then PageOf(b.bankValues[7] as nat, b.prgCount)
    else if (slot == 0) != b.PrgMode() then PageOf(b.bankValues[6] as nat, b.prgCount)
    else PageOf(b.prgCount - 2, b.prgCount)
  }

  /** The page that the registers put into a 1K window: two pairs in one half, four single pages in
    the other, and the halves change places with the inversion bit. */
  function ChrPage(b: Board, slot: nat): nat
    requires b.Fits() && slot < 8
  {
    var place := if b.Inverted() then (slot + 4) % 8 else slot;
    if place < 4 then PageOf(Even(b.bankValues[place / 2]), b.chrCount) + place % 2
    else PageOf(b.bankValues[place - 2] as nat, b.chrCount)
  }

  function UpdateBanks(b: Board): (r: Board)
    requires b.Fits()
    ensures r.Fits()
  {
    b.(prgPages := seq(4, slot requires 0 <= slot < 4 => PrgPage(b, slot)),
       chrPages := seq(8, slot requires 0 <= slot < 8 => ChrPage(b, slot)))
  }

  /** The bank tables are what the registers say. */
  predicate Synced(b: Board)
    requires b.Fits()
  {
    && (forall slot :: 0 <= slot < 4 ==> b.prgPages[slot] == PrgPage(b, slot))
    && (forall slot :: 0 <= slot < 8 ==> b.chrPages[slot] == ChrPage(b, slot))
  }

  /** A cartridge as it is loaded. */
  predicate Loaded(b: Board) {
    && b.Fits()
    && b.bankSelect == 0 && b.bankValues == [0, 0, 0, 0, 0, 0, 0, 0]
    && b.irqLatch == 0 && b.irqCounter == 0 && !b.irqEnabled && !b.irqReload && b.lastClock == 0 && !b.irqPending
    && b.prgPages == [0, 1, PageOf(b.prgCount - 2, b.prgCount), PageOf(b.prgCount - 1, b.prgCount)]
    && b.chrPages == [0, 1, 2, 3, 4, 5, 6, 7]
  }

  function Peek(b: Board, a: u16): Mapped
    requires b.Fits()
  {
    if a < 0x2000 then Chr(b.chrPages[a / CHR_WINDOW] * CHR_WINDOW + a % CHR_WINDOW)
    else if a < 0x3F00 && b.mirroring == FourScreen then ExRam(a % 0x2000)
    else if 0x6000 <= a < 0x8000 then PrgRam(a % PRG_WINDOW)
    else if a >= 0x8000 then PrgRom(b.prgPages[a % 0x8000 / PRG_WINDOW] * PRG_WINDOW + a % PRG_WINDOW)
    else Nothing
  }

  function RegisterOf(addr: u16): nat {
    And(addr, 0xE001)
  }

  function Selected(b: Board): (register: nat)
    ensures register < 8
  {
    (b.bankSelect & 0x07) as nat
  }

  function Write(b: Board, addr: u16, val: bv8): (r: Board)
    requires b.Fits()
    ensures r.Fits()
  {
    hide And, PrgPage, ChrPage;
    if addr < 0x8000 then b
    else if RegisterOf(addr) == 0x8000 then UpdateBanks(b.(bankSelect := val))
    else if RegisterOf(addr) == 0x8001 then
      UpdateBanks(b.(bankValues := b.bankValues[Selected(b) := val]))
    else if RegisterOf(addr) == 0xA000 then
      if b.mirroring == FourScreen then b
      else UpdateBanks(b.(mirroring := if val & 0x01 == 0 then Vertical else Horizontal))
    else if RegisterOf(addr) == 0xA001 then b
    else if RegisterOf(addr) == 0xC000 then b.(irqLatch := val as u8)
    else if RegisterOf(addr) == 0xC001 then b.(irqReload := true)
    else if RegisterOf(addr) == 0xE000 then b.(irqPending := false, irqEnabled := false)
    else b.(irqEnabled := true)
  }

  /** Address line 12 of a pattern table access. */
  function Line12(addr: u16): (line: u16)
    ensures line <= 1
  {
    AndBelow(ShiftRight(addr, 12), 1);
    And(ShiftRight(addr, 12), 1)
  }

  /** The access that counts: a change of address line 12 in the direction of the revision. */
  predicate IsEdge(revision: Revision, lastClock: u16, addr: u16) {
    && addr < 0x2000
    && lastClock == (if revision == Acc then 1 else 0)
    && Line12(addr) == (if revision == Acc then 0 else 1)
  }

  function NextCounter(b: Board): u8 {
    if b.irqCounter == 0 || b.irqReload then b.irqLatch else b.irqCounter - 1
  }

  /** The edge raises the interrupt line. */
  predicate Raises(b: Board) {
    && (b.irqCounter % 2 == 1 || b.revision == BC || b.irqReload)
    && NextCounter(b) == 0
    && b.irqEnabled
  }

  function ClockIrq(b: Board, addr: u16): (r: Board)
    ensures b.Fits() ==> r.Fits()
  {
    if addr >= 0x2000 then b
    else
      var counted :=
        if IsEdge(b.revision, b.lastClock, addr)
        then b.(irqCounter := NextCounter(b), irqPending := b.irqPending || Raises(b), irqReload := false)
        else b;
      counted.(lastClock := Line12(addr))
  }

  function Cleared(b: Board): Board {
    b.(irqPending := false, bankSelect := 0, bankValues := [0, 0, 0, 0, 0, 0, 0, 0],
       irqLatch := 0, irqCounter := 0, irqEnabled := false, irqReload := false, lastClock := 0)
  }

  function Reset(b: Board): (r: Board)
    requires b.Fits()
    ensures r.Fits()
  {
    UpdateBanks(Cleared(b))
  }

  /** What reaches the board: an access that it watches, a write, a reset. */
  datatype Event = Access(addr: u16) | Store(addr: u16, val: bv8) | Restart

  function Step(b: Board, event: Event): (r: Board)
    requires b.Fits()
    ensures r.Fits()
  {
    match event
    case Access(addr) => ClockIrq(b, addr)
    case Store(addr, val) => Write(b, addr, val)
    case Restart => Reset(b)
  }

  function Run(b: Board, events: seq<Event>): (r: Board)
    requires b.Fits()
    ensures r.Fits()
  {
    if events == [] then b else Step(Run(b, events[..|events| - 1]), events[|events| - 1])
  }
}
