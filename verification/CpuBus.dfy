/** Where an address leads, in numbers: work RAM four times over, the eight ports of the picture unit again
  and again, and the page that a write to $4014 has copied. */
module CpuBus {
  import opened Words
  import opened CpuSpec
  import opened ByteBits
  import PpuPorts
  import StackFrame
  import Dma

  // ----- words as numbers

  function High(addr: bv16): bv8 { (addr >> 8) as bv8 }

  function Low(addr: bv16): bv8 { (addr & 0xFF) as bv8 }

  lemma HalvesAre(addr: bv16)
    ensures addr as int == 0x100 * High(addr) as int + Low(addr) as int
  {
    StackFrame.WordApart(addr);
    StackFrame.WordIs(High(addr), Low(addr));
  }

  lemma MaskedHalves(addr: bv16)
    ensures addr & 0x07FF == Word(High(addr) & 0x07, Low(addr)) && addr & 0x0007 == (Low(addr) & 0x07) as bv16
  {
  }

  lemma Remainders(n: int, hi: int, lo: int)
    requires n == 0x100 * hi + lo && 0 <= hi && 0 <= lo < 0x100
    ensures n % 0x800 == 0x100 * (hi % 8) + lo && n % 8 == lo % 8
  {
    Bits.ModUnique(n, 0x800, hi / 8, 0x100 * (hi % 8) + lo);
    Bits.ModUnique(n, 8, 32 * hi + lo / 8, lo % 8);
  }

  lemma RamMask(addr: bv16)
    ensures (addr & 0x07FF) as int == 0x100 * (High(addr) as int % 8) + Low(addr) as int
  {
    hide High, Low, Word;
    MaskedHalves(addr);
    LowThree(High(addr));
    StackFrame.WordIs(High(addr) & 0x07, Low(addr));
  }

  lemma PortMask(addr: bv16)
    ensures (addr & 0x0007) as int == Low(addr) as int % 8
  {
    hide High, Low, Word;
    MaskedHalves(addr);
    LowThree(Low(addr));
    Widens(Low(addr) & 0x07);
  }

  lemma Masks(addr: bv16)
    ensures (addr & 0x07FF) as int == addr as int % 0x800
    ensures (addr & 0x0007) as int == addr as int % 8
  {
    hide High, Low;
    HalvesAre(addr);
    RamMask(addr);
    PortMask(addr);
    Remainders(addr as int, High(addr) as int, Low(addr) as int);
  }

  lemma InRam(addr: bv16)
    ensures addr < 0x2000 <==> addr as int < 0x2000
  {
  }

  lemma BelowIo(addr: bv16)
    ensures addr < 0x4000 <==> addr as int < 0x4000
  {
  }

  lemma InCartridge(addr: bv16)
    ensures 0x4020 <= addr <==> 0x4020 <= addr as int
  {
  }

  // ----- work RAM

  /** Below $2000 every address is one of 2048 bytes, four times over; from there on it is the cartridge's. */
  lemma PeekIs(wram: Wram, addr: bv16, env: Env)
    ensures Peek(wram, addr, env) == if addr as int < 0x2000 then wram[addr as int % 0x800] else env.rom(addr)
  {
    Masks(addr);
    InRam(addr);
  }

  /** What is written to work RAM is read back at each of its four addresses, and nowhere else. */
  lemma RamMirrors(c: Cpu, a: bv16, val: bv8, b: bv16, env: Env)
    requires a as int < 0x2000 && b as int < 0x2000
    ensures
      ReadCycle(WriteCycle(c, a, val, env), b, env).val ==
        if a as int % 0x800 == b as int % 0x800 then val else c.wram[b as int % 0x800]
  {
    hide WriteCycle, ReadCycle, Peek;
    InRam(a);
    InRam(b);
    StackFrame.WriteStores(c, a, val, env);
    ReadPasses(WriteCycle(c, a, val, env), b, env);
    Masks(a);
    PeekIs(WriteCycle(c, a, val, env).wram, b, env);
  }

  // ----- the ports

  /** What a write to port 0 to 7 does to the picture unit. */
  predicate WritesPort(p: P.Ppu, r: P.Ppu, port: int, val: bv8, env: P.Env) {
    && (port == 0 ==> r == P.WriteCtrl(p, val)) && (port == 1 ==> r == P.WriteMask(p, val))
    && (port == 2 ==> r == P.Drive(p, val)) && (port == 3 ==> r == P.WriteOamAddr(p, val))
    && (port == 4 ==> r == P.WriteOamData(p, val, env)) && (port == 5 ==> r == P.WriteScroll(p, val))
    && (port == 6 ==> r == P.WriteAddr(p, val)) && (port == 7 ==> r == P.AccessPort(p, val, env))
  }

  lemma SmallPort(port: bv16)
    requires port as int < 8
    ensures (port == 0) == (port as int == 0) && (port == 1) == (port as int == 1)
    ensures (port == 2) == (port as int == 2) && (port == 3) == (port as int == 3)
    ensures (port == 4) == (port as int == 4) && (port == 5) == (port as int == 5)
    ensures (port == 6) == (port as int == 6) && (port == 7) == (port as int == 7)
  {
  }

  lemma PortWrites(p: P.Ppu, port: bv16, val: bv8, env: Env)
    requires port as int < 8
    ensures WritesPort(p, PortWrite(p, port, val, env), port as int, val, env.ppu)
  {
    hide P.WriteCtrl, P.WriteMask, P.Drive, P.WriteOamAddr, P.WriteOamData, P.WriteScroll, P.WriteAddr, P.AccessPort;
    SmallPort(port);
  }

  /** From $2000 to $3FFF the remainder by eight names the port, and nothing else is written. */
  lemma PortsRepeat(c: Cpu, addr: bv16, val: bv8, env: Env)
    requires 0x2000 <= addr as int < 0x4000
    ensures
      var r := BusWrite(c, addr, val, env);
      && WritesPort(c.ppu, r.ppu, addr as int % 8, val, env.ppu)
      && r.wram == c.wram && r.regs == c.regs && r.lines == c.lines && r.openBus == val
  {
    hide PortWrite, WritesPort;
    InRam(addr);
    BelowIo(addr);
    Masks(addr);
    PortWrites(c.ppu, addr & 0x0007, val, env);
  }

  /** What a read of a port answers. */
  predicate Answers(c: Cpu, val: bv8, port: int, env: Env) {
    && (port == 2 ==>
          val as int == 128 * Flag(c.ppu.vblank) + 64 * Flag(c.ppu.zeroHit)
            + 32 * Flag(c.ppu.spr.overflow) + c.ppu.openBus as int % 32)
    && (port == 4 ==> val == match P.PeekOamData(c.ppu) case OamByte(b) => b case PastTheEnd => 0)
    && (port == 7 ==> val == env.data(c.polls))
    && (port in {0, 1, 3, 5, 6} ==> val == c.ppu.openBus)
  }

  lemma PortAnswers(c: Cpu, port: bv16, env: Env)
    requires port as int < 8
    ensures Answers(c, PortRead(c, port, env).val, port as int, env)
  {
    hide P.ReadStatus, P.StatusBits, P.PeekOamData, P.AccessPort, P.Drive;
    SmallPort(port);
    PpuPorts.StatusByte(c.ppu);
  }

  /** The ports repeat for reads too. */
  lemma PortsAnswer(c: Cpu, addr: bv16, env: Env)
    requires 0x2000 <= addr as int < 0x4000
    ensures Answers(c, BusRead(c, addr, env).val, addr as int % 8, env)
  {
    hide PortRead, Answers, Peek;
    InRam(addr);
    BelowIo(addr);
    InCartridge(addr);
    Masks(addr);
    PortAnswers(c, addr & 0x0007, env);
  }

  /** Between the ports and the cartridge, addresses without a device answer what was last on the bus. */
  lemma OpenBusAnswers(c: Cpu, a: bv16, val: bv8, b: bv16, env: Env)
    requires a as int < 0x2000 && 0x4000 <= b as int < 0x4020 && b !in [0x4015, 0x4016, 0x4017]
    ensures ReadCycle(WriteCycle(c, a, val, env), b, env).val == val
    ensures ReadCycle(ReadCycle(c, a, env).cpu, b, env).val == ReadCycle(c, a, env).val
  {
    hide StartCycle, EndCycle, Peek;
    InRam(a);
    InRam(b);
    BelowIo(b);
    InCartridge(b);
    BusStays(BusWrite(StartCycle(c, false, env), a, val, env), false, env);
    BusStays(BusRead(StartCycle(c, true, env), a, env).cpu, true, env);
    BusStays(WriteCycle(c, a, val, env), true, env);
    BusStays(ReadCycle(c, a, env).cpu, true, env);
  }

  /** The sound unit and the controllers answer for themselves. */
  lemma DevicesAnswer(c: Cpu, b: bv16, env: Env)
    requires b in [0x4015, 0x4016, 0x4017]
    ensures BusRead(c, b, env).val == env.data(c.polls) && BusRead(c, b, env).cpu.openBus == env.data(c.polls)
  {
  }

  lemma BusStays(c: Cpu, read: bool, env: Env)
    ensures StartCycle(c, read, env).openBus == c.openBus && EndCycle(c, read, env).openBus == c.openBus
  {
    hide CatchUp;
  }

  /** The cycles that DMA waits repeat the read that it interrupted, but not one of a controller, which
    would lose a bit. */
  lemma WaitRepeats(c: Cpu, addr: bv16, env: Env)
    ensures
      var r := DmaWait(c, addr, env);
      if addr == 0x4016 || addr == 0x4017 then r.openBus == c.openBus
      else (Plain(addr) ==> r.openBus == Peek(c.wram, addr, env))
           && (addr == 0x4015 ==> r.openBus == env.data(c.polls))
  {
    hide StartCycle, EndCycle, Peek, Plain;
    var s := Settle(c);
    StartKeeps(s, true, env);
    BusStays(s, true, env);
    BusStays(StartCycle(s, true, env), true, env);
    BusStays(BusRead(StartCycle(s, true, env), addr, env).cpu, true, env);
    SoundStatus(addr);
  }

  lemma SoundStatus(addr: bv16)
    ensures addr == 0x4015 ==> !Plain(addr) && addr >= 0x4000
  {
  }

  // ----- the page for OAM

  lemma TimesPage(val: bv8)
    ensures ((val as bv16) << 8) as int == 0x100 * val as int
  {
  }

  /** Writing a number to $4014 asks for the page of that number; no other write asks for one. */
  lemma PageIsNamed(c: Cpu, addr: bv16, val: bv8, env: Env)
    ensures
      var r := BusWrite(c, addr, val, env);
      if addr == 0x4014 then r.lines.oam && r.lines.oamAddr as int == 0x100 * val as int
      else r.lines.oam == c.lines.oam && r.lines.oamAddr == c.lines.oamAddr
  {
    hide PortWrite;
    TimesPage(val);
  }

  lemma InPage(val: bv8, i: nat)
    requires i < 0x100
    ensures PageAddr((val as bv16) << 8, i) as int == 0x100 * val as int + i
  {
    hide Word;
    var low := StackFrame.Byte(i);
    Joins(val, low);
    SmallWord(i);
    StackFrame.WordIs(val, low);
  }

  lemma SmallWord(i: nat)
    requires i < 0x100
    ensures (i % 0x100) as bv16 == (StackFrame.Byte(i) as bv16)
  {
    Narrow(StackFrame.Byte(i));
  }

  lemma BackAgain(addr: bv16)
    ensures (addr as int) as bv16 == addr
  {
  }

  lemma Narrow(b: bv8)
    ensures (b as int) as bv16 == b as bv16
  {
    Widens(b);
    BackAgain(b as bv16);
  }

  lemma Joins(hi: bv8, lo: bv8)
    ensures ((hi as bv16) << 8) + (lo as bv16) == Word(hi, lo)
  {
  }

  /** Byte i of page n is the byte at 256 n + i, in work RAM around its 2048 bytes. */
  lemma PageHolds(wram: Wram, val: bv8, i: nat, env: Env)
    requires i < 0x100
    ensures
      var addr := 0x100 * val as int + i;
      Dma.PageBytes(wram, (val as bv16) << 8, 0x100, env)[i] ==
        if addr < 0x2000 then wram[addr % 0x800] else env.rom(addr as bv16)
  {
    hide Peek, PageAddr;
    var addr := PageAddr((val as bv16) << 8, i);
    InPage(val, i);
    PeekIs(wram, addr, env);
    BackAgain(addr);
  }
}
