/** The MMC1 board on values: a serial port loads four registers, which select the banks. */
module Mmc1Spec {
  import opened Words
  import opened Bits
  import opened MemBanks
  import opened Mapping

  datatype Revision = A | BC

  const PRG_RAM_WINDOW := 0x2000
  const PRG_ROM_WINDOW := 0x4000
  const CHR_WINDOW := 0x1000
  const EMPTY: nat := 0x10

  datatype Board = Board(
    writeJustOccurred: nat,
    shiftRegister: nat,
    control: nat,
    chr0: nat,
    chr1: nat,
    prg: nat,
    submapper: u8,
    mirroring: Mirroring,
    revision: Revision,
    chrSelect: bool,
    prgCount: nat,
    chrCount: nat,
    prgPages: seq<nat>,
    chrPages: seq<nat>
  ) {
    predicate Fits() {
      |prgPages| == 2 && |chrPages| == 2 && prgCount >= 1 && chrCount >= 1
    }

    predicate SplitChr() {
      And(control, 0x10) == 0x10
    }

    function PrgMode(): (mode: nat)
      ensures mode < 4
    {
      AndBelow(control, 0x0C);
      ShiftRightIsDivision(And(control, 0x0C), 2);
      assert Pow2(2) == 4;
      ShiftRight(And(control, 0x0C), 2)
    }

    /** The outer bank bit, which only 512K cartridges have. */
    function Outer(addr: u16): nat {
      if !chrSelect then 0
      else if 0xC000 <= addr <= 0xDFFF && SplitChr() then And(chr1, 0x10)
      else And(chr0, 0x10)
    }
  }

  function MirroringOf(control: nat): Mirroring {
    if And(control, 0x03) == 0 then SingleScreenA
    else if And(control, 0x03) == 1 then SingleScreenB
    else if And(control, 0x03) == 2 then Vertical
    else Horizontal
  }

  /** The pages of the pattern windows: two pages, or one pair that starts at an even page. */
  function ChrTable(b: Board): (pages: seq<nat>)
    requires b.Fits()
    ensures |pages| == 2
  {
    if b.SplitChr() then [PageOf(b.chr0, b.chrCount), PageOf(b.chr1, b.chrCount)]
    else Pair(PageOf(And(b.chr0, 0x1E), b.chrCount))
  }

  function Pair(page: nat): seq<nat> {
    [page, page + 1]
  }

  /** The pages of the program windows. */
  function PrgTable(b: Board, addr: u16): (pages: seq<nat>)
    requires b.Fits()
    ensures |pages| == 2
  {
    var outer, bank := b.Outer(addr), And(b.prg, 0x0F);
    if b.submapper == 5 then Pair(PageOf(0, b.prgCount))
    else if b.PrgMode() < 2 then Pair(PageOf(Or(outer, And(bank, 0x1E)), b.prgCount))
    else if b.PrgMode() == 2 then [PageOf(outer, b.prgCount), PageOf(Or(outer, bank), b.prgCount)]
    else [PageOf(Or(outer, bank), b.prgCount), PageOf(Or(outer, b.prgCount - 1), b.prgCount)]
  }

  function UpdateBanks(b: Board, addr: u16): (r: Board)
    requires b.Fits()
    ensures r.Fits()
  {
    b.(mirroring := MirroringOf(b.control), chrPages := ChrTable(b), prgPages := PrgTable(b, addr))
  }

  predicate RamEnabled(b: Board) {
    b.revision == A || And(b.prg, 0x10) == 0
  }

  function Peek(b: Board, addr: u16): Mapped
    requires b.Fits()
  {
    if addr < 0x2000 then Chr(b.chrPages[addr / CHR_WINDOW] * CHR_WINDOW + addr % CHR_WINDOW)
    else if 0x6000 <= addr < 0x8000 && RamEnabled(b) then PrgRam(addr % PRG_RAM_WINDOW)
    else if addr >= 0x8000 then
      PrgRom(b.prgPages[addr % 0x8000 / PRG_ROM_WINDOW] * PRG_ROM_WINDOW + addr % PRG_ROM_WINDOW)
    else Nothing
  }

  function Shifted(register: nat, val: u8): nat {
    Or(ShiftRight(register, 1), ShiftLeft(And(val, 1), 4))
  }

  /** The register that the address of a completing write selects takes the value. */
  function Load(b: Board, addr: u16, val: nat): (r: Board)
    ensures b.Fits() ==> r.Fits()
  {
    if addr < 0xA000 then b.(control := val)
    else if addr < 0xC000 then b.(chr0 := And(val, 0x1F))
    else if addr < 0xE000 then b.(chr1 := And(val, 0x1F))
    else b.(prg := And(val, 0x1F))
  }

  function Accept(b: Board, addr: u16, val: u8): (r: Board)
    requires b.Fits()
    ensures r.Fits()
  {
    hide And, Or, Shifted, Load, UpdateBanks;
    if And(val, 0x80) > 0 then b.(shiftRegister := EMPTY, control := Or(b.control, 0x0C))
    else if And(b.shiftRegister, 1) == 1 then
      UpdateBanks(Load(b, addr, Shifted(b.shiftRegister, val)).(shiftRegister := EMPTY), addr)
    else b.(shiftRegister := Shifted(b.shiftRegister, val))
  }

  function Write(b: Board, addr: u16, val: u8): (r: Board)
    requires b.Fits()
    ensures r.Fits()
  {
    if addr < 0x8000 || b.writeJustOccurred > 0 then b
    else Accept(b.(writeJustOccurred := 2), addr, val)
  }

  function Clock(b: Board): (r: Board)
    ensures b.Fits() ==> r.Fits()
  {
    if b.writeJustOccurred > 0 then b.(writeJustOccurred := b.writeJustOccurred - 1) else b
  }

  function Reset(b: Board, kind: ResetKind): (r: Board)
    requires b.Fits()
    ensures r.Fits()
  {
    var updated := UpdateBanks(b.(shiftRegister := EMPTY, control := 0x0C, prg := 0x10), 0);
    if kind == Hard then updated.(writeJustOccurred := 0) else updated
  }

  datatype Event = Store(addr: u16, val: u8) | Cycle | Restart(kind: ResetKind)

  function Step(b: Board, event: Event): (r: Board)
    requires b.Fits()
    ensures r.Fits()
  {
    match event
    case Store(addr, val) => Write(b, addr, val)
    case Cycle => Clock(b)
    case Restart(kind) => Reset(b, kind)
  }

  function Run(b: Board, events: seq<Event>): (r: Board)
    requires b.Fits()
    ensures r.Fits()
  {
    if events == [] then b else Step(Run(b, events[..|events| - 1]), events[|events| - 1])
  }
}
