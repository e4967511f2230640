/** The CPU's cycle engine as a state and its steps: every bus cycle advances the master clock,
  catches the PPU up and samples the interrupt lines; between two cycles DMA may take the bus. */
module CpuSpec {
  import opened Words
  import P = PpuSpec

  type Wram = s: seq<bv8> | |s| == 2048 witness seq(2048, _ => 0)

  /** What the CPU cannot decide: the PPU's surroundings, the cartridge, and what the lines and
    ports that are not modelled answer at each poll. Finitely many polls find a DMC request. */
  datatype Env = Env(ppu: P.Env, rom: Memory, dmc: seq<bool>, dmcAddr: nat -> bv16, irqs: nat -> bool, data: nat -> bv8,
                     accurate: bool)

  /** What the log of interrupts records: a sampled rising edge, and a fetch of the NMI vector. */
  datatype Mark = Edge | Vector

  datatype Interrupts = Interrupts(nmi: bool, prevNmi: bool, prevNmiPending: bool, runIrq: bool, prevRunIrq: bool,
      marks: seq<Mark>)

  /** The requests of the two DMA units, and the cycles that DMC DMA still has to wait. */
  datatype DmaLines = DmaLines(oam: bool, oamAddr: bv16, dmc: bool, halt: bool, dummy: bool)

  datatype Registers = Registers(pc: bv16, sp: bv8, status: bv8)

  /** A byte that DMC DMA has handed over, and the poll that named its address. */
  datatype Sample = Sample(poll: nat, val: bv8)

  /** The last three are logs: the writes to $2004, what DMC DMA has handed over, and the number of
    accesses that can take an NMI request back, which are reads of the status and writes of the
    control register. */
  datatype Cpu = Cpu(
    cycle: nat, masterClock: nat, ppu: P.Ppu, wram: Wram, openBus: bv8, panicked: bool,
    regs: Registers, ints: Interrupts, lines: DmaLines, polls: nat, written: seq<bv8>, loaded: seq<Sample>, acks: nat)

  // ----- clocks

  function StartClocks(r: Region): nat {
    match r case Ntsc => 6 case Pal => 8 case Dendy => 7
  }

  function EndClocks(r: Region): nat {
    match r case Ntsc => 6 case Pal => 8 case Dendy => 8
  }

  /** Master clocks per CPU cycle. */
  function CycleClocks(r: Region): nat {
    StartClocks(r) + EndClocks(r)
  }

  /** The PPU lags the master clock by one. */
  const PPU_OFFSET := 1

  function CatchUp(p: P.Ppu, masterClock: nat, env: Env): P.Ppu {
    if masterClock < PPU_OFFSET then p else P.ClockTo(p, masterClock - PPU_OFFSET, env.ppu)
  }

  /** The master clock within a cycle: reads sample the bus two clocks earlier than writes. */
  function StartClock(clock: nat, read: bool, r: Region): nat {
    clock + StartClocks(r) + (if read then -1 else 1)
  }

  function EndClock(clock: nat, read: bool, r: Region): nat {
    clock + EndClocks(r) + (if read then 1 else -1)
  }

  function StartCycle(c: Cpu, read: bool, env: Env): Cpu {
    var clock := StartClock(c.masterClock, read, env.ppu.region);
    c.(masterClock := clock, cycle := c.cycle + 1, ppu := if env.accurate then CatchUp(c.ppu, clock, env) else c.ppu)
  }

  function EndCycle(c: Cpu, read: bool, env: Env): Cpu {
    var clock := EndClock(c.masterClock, read, env.ppu.region);
    HandleInterrupts(c.(masterClock := clock, ppu := if env.accurate then CatchUp(c.ppu, clock, env) else c.ppu), env)
  }

  // ----- interrupts

  const IRQ_DISABLE: bv8 := 0x04

  /** NMI is an edge, IRQ a level; both count from the second-to-last cycle of an instruction. */
  function Sampled(i: Interrupts, pending: bool, irq: bool): Interrupts {
    var edge := !i.prevNmiPending && pending;
    Interrupts(i.nmi || edge, i.nmi, pending, irq, i.runIrq, if edge then i.marks + [Edge] else i.marks)
  }

  function Requested(l: DmaLines, request: bool): DmaLines {
    if request then l.(dmc := true, halt := true, dummy := true) else l
  }

  predicate DmcRequest(env: Env, poll: nat) {
    poll < |env.dmc| && env.dmc[poll]
  }

  function HandleInterrupts(c: Cpu, env: Env): Cpu {
    c.(ints := Sampled(c.ints, c.ppu.nmiPending, env.irqs(c.polls) && c.regs.status & IRQ_DISABLE == 0),
       lines := Requested(c.lines, DmcRequest(env, c.polls)), polls := c.polls + 1)
  }

  // ----- the bus

  /** A byte with the state that reading it leaves. */
  datatype Fetch = Fetch(cpu: Cpu, val: bv8)

  function OnBus(c: Cpu, val: bv8): Fetch {
    Fetch(c.(openBus := val), val)
  }

  /** Memory without side effects: work RAM and the cartridge. */
  function Peek(wram: Wram, addr: bv16, env: Env): bv8 {
    if addr < 0x2000 then wram[(addr & 0x07FF) as int] else env.rom(addr)
  }

  predicate Plain(addr: bv16) {
    addr < 0x2000 || 0x4020 <= addr
  }

  function BusRead(c: Cpu, addr: bv16, env: Env): Fetch {
    if Plain(addr) then OnBus(c, Peek(c.wram, addr, env))
    else if addr < 0x4000 then PortRead(c, addr & 0x0007, env)
    else OnBus(c, if Listens(addr) then env.data(c.polls) else c.openBus)
  }

  /** The status of the sound unit and the two controllers, whose answers are not modelled. */
  predicate Listens(addr: bv16) { addr == 0x4015 || addr == 0x4016 || addr == 0x4017 }

  /** Reading OAM may run past its end, which stops the program; what the data port answers is
    up to its memory. */
  function PortRead(c: Cpu, port: bv16, env: Env): Fetch {
    if port == 2 then
      OnBus(c.(ppu := P.ReadStatus(c.ppu, env.ppu), acks := c.acks + 1), P.StatusBits(c.ppu) | (c.ppu.openBus & 0x1F))
    else if port == 4 then
      match P.PeekOamData(c.ppu)
      case OamByte(val) => OnBus(c.(ppu := P.Drive(c.ppu, val)), val)
      case PastTheEnd => OnBus(c.(panicked := true), 0)
    else if port == 7 then OnBus(c.(ppu := P.AccessPort(c.ppu, env.data(c.polls), env.ppu)), env.data(c.polls))
    else OnBus(c, c.ppu.openBus)
  }

  function BusWrite(c: Cpu, addr: bv16, val: bv8, env: Env): Cpu {
    if addr < 0x2000 then c.(wram := c.wram[(addr & 0x07FF) as int := val], openBus := val)
    else if addr < 0x4000 then
      ToPort(c, addr & 0x0007, val, env).(openBus := val)
    else if addr == 0x4014 then c.(lines := c.lines.(oam := true, oamAddr := (val as bv16) << 8), openBus := val)
    else c.(openBus := val)
  }

  function ToPort(c: Cpu, port: bv16, val: bv8, env: Env): Cpu {
    c.(ppu := PortWrite(c.ppu, port, val, env),
       written := if port == 4 then c.written + [val] else c.written, acks := if port == 0 then c.acks + 1 else c.acks)
  }

  function PortWrite(p: P.Ppu, port: bv16, val: bv8, env: Env): P.Ppu {
    if port == 0 then P.WriteCtrl(p, val)
    else if port == 1 then P.WriteMask(p, val)
    else if port == 2 then P.Drive(p, val)
    else if port == 3 then P.WriteOamAddr(p, val)
    else if port == 4 then P.WriteOamData(p, val, env.ppu)
    else if port == 5 then P.WriteScroll(p, val)
    else if port == 6 then P.WriteAddr(p, val)
    else P.AccessPort(p, val, env.ppu)
  }

  /** A read cycle without DMA. */
  function ReadCycle(c: Cpu, addr: bv16, env: Env): Fetch {
    var f := BusRead(StartCycle(c, true, env), addr, env);
    Fetch(EndCycle(f.cpu, true, env), f.val)
  }

  function WriteCycle(c: Cpu, addr: bv16, val: bv8, env: Env): Cpu {
    EndCycle(BusWrite(StartCycle(c, false, env), addr, val, env), false, env)
  }

  // ----- DMA

  /** The loop variables: bytes read, bus cycles of OAM DMA done, and the byte in transit. */
  datatype Dma = Dma(offset: nat, count: nat, val: bv8)

  datatype Turn = Turn(cpu: Cpu, dma: Dma)

  /** A cycle of either DMA counts as the halt or the dummy read that DMC DMA waits for. */
  function Settled(l: DmaLines): DmaLines {
    if l.halt then l.(halt := false) else if l.dummy then l.(dummy := false) else l
  }

  function Settle(c: Cpu): Cpu {
    c.(lines := Settled(c.lines))
  }

  predicate SkipsDummies(addr: bv16) { addr == 0x4016 || addr == 0x4017 }

  /** A read cycle on behalf of DMA. */
  function DmaRead(c: Cpu, addr: bv16, env: Env): Fetch {
    ReadCycle(Settle(c), addr, env)
  }

  /** A cycle that only waits; the interrupted read is repeated. */
  function DmaWait(c: Cpu, addr: bv16, env: Env): Cpu {
    if SkipsDummies(addr) then EndCycle(StartCycle(Settle(c), true, env), true, env)
    else DmaRead(c, addr, env).cpu
  }

  function LoadDmc(c: Cpu, d: Dma, env: Env): Turn {
    var f := DmaRead(c, env.dmcAddr(c.polls), env);
    Turn(f.cpu.(lines := f.cpu.lines.(dmc := false), loaded := f.cpu.loaded + [Sample(c.polls, f.val)]),
        d.(val := f.val))
  }

  /** Byte i of the page that OAM DMA copies. */
  function PageAddr(base: bv16, i: nat): bv16 {
    base + (i % 0x100) as bv16
  }

  function ReadOam(c: Cpu, d: Dma, env: Env): Turn {
    var f := DmaRead(c, PageAddr(c.lines.oamAddr, d.offset), env);
    Turn(f.cpu, Dma(d.offset + 1, d.count + 1, f.val))
  }

  function WriteOam(c: Cpu, d: Dma, env: Env): Turn {
    var w := EndCycle(BusWrite(StartCycle(Settle(c), true, env), 0x2004, d.val, env), true, env);
    Turn(if d.count + 1 == 0x200 then w.(lines := w.lines.(oam := false)) else w, d.(count := d.count + 1))
  }

  /** One turn of the DMA loop: reads on even cycles, OAM writes on odd ones. */
  function DmaTurn(c: Cpu, d: Dma, addr: bv16, env: Env): Turn {
    if c.cycle % 2 == 0 then
      if c.lines.dmc && !c.lines.halt && !c.lines.dummy then LoadDmc(c, d, env)
      else if c.lines.oam then ReadOam(c, d, env)
      else Turn(DmaWait(c, addr, env), d)
    else if c.lines.oam && d.count % 2 == 1 then WriteOam(c, d, env)
    else Turn(DmaWait(c, addr, env), d)
  }

  // ----- what a bus cycle leaves alone

  /** Cycles never touch the registers or work RAM. */
  predicate SameCore(c: Cpu, r: Cpu) {
    r.wram == c.wram && r.regs == c.regs && r.written == c.written && r.loaded == c.loaded
  }

  /** From c to r a bus cycle has passed. */
  predicate Passed(c: Cpu, r: Cpu, env: Env) {
    r.cycle == c.cycle + 1 && r.polls == c.polls + 1 && r.lines == Requested(c.lines, DmcRequest(env, c.polls))
  }

  lemma StartKeeps(c: Cpu, read: bool, env: Env)
    ensures
      var r := StartCycle(c, read, env);
      SameCore(c, r) && r.cycle == c.cycle + 1 && r.polls == c.polls && r.lines == c.lines && r.ints == c.ints
  {
    hide CatchUp, StartClock;
  }

  lemma PortReadKeeps(c: Cpu, port: bv16, env: Env)
    ensures
      var r := PortRead(c, port, env).cpu;
      && SameCore(c, r) && r.cycle == c.cycle && r.polls == c.polls && r.lines == c.lines && r.ints == c.ints
      && r.masterClock == c.masterClock
  {
    hide P.ReadStatus, P.PeekOamData, P.AccessPort, P.StatusBits, P.Drive;
  }

  /** A read changes nothing but the buses, the PPU and whether the program has stopped. */
  lemma BusReadKeeps(c: Cpu, addr: bv16, env: Env)
    ensures
      var r := BusRead(c, addr, env).cpu;
      && SameCore(c, r) && r.cycle == c.cycle && r.polls == c.polls && r.lines == c.lines && r.ints == c.ints
      && r.masterClock == c.masterClock
  {
    hide PortRead, Peek, Plain;
    PortReadKeeps(c, addr & 0x0007, env);
  }

  lemma EndKeeps(c: Cpu, read: bool, env: Env)
    ensures
      var r := EndCycle(c, read, env);
      SameCore(c, r) && r.cycle == c.cycle && r.polls == c.polls + 1
          && r.lines == Requested(c.lines, DmcRequest(env, c.polls))
  {
    hide CatchUp, EndClock, Sampled, Requested;
  }

  lemma ReadPasses(c: Cpu, addr: bv16, env: Env)
    ensures
      var f := ReadCycle(c, addr, env);
      && Passed(c, f.cpu, env) && SameCore(c, f.cpu)
      && (Plain(addr) ==> f.val == Peek(c.wram, addr, env))
  {
    hide StartCycle, PortRead, EndCycle, Requested, Peek, Plain;
    StartKeeps(c, true, env);
    var s := StartCycle(c, true, env);
    BusReadKeeps(s, addr, env);
    EndKeeps(BusRead(s, addr, env).cpu, true, env);
  }

  lemma IdlePasses(c: Cpu, env: Env)
    ensures
      var r := EndCycle(StartCycle(c, true, env), true, env);
      Passed(c, r, env) && SameCore(c, r)
  {
    hide StartCycle, EndCycle, Requested;
    StartKeeps(c, true, env);
    EndKeeps(StartCycle(c, true, env), true, env);
  }

  lemma WaitPasses(c: Cpu, addr: bv16, env: Env)
    ensures Passed(Settle(c), DmaWait(c, addr, env), env) && SameCore(c, DmaWait(c, addr, env))
  {
    hide StartCycle, EndCycle, ReadCycle, Requested, Settled;
    ReadPasses(Settle(c), addr, env);
    IdlePasses(Settle(c), env);
  }

  lemma OamPort(c: Cpu, val: bv8, env: Env)
    ensures
      var r := BusWrite(c, 0x2004, val, env);
      && r.wram == c.wram && r.regs == c.regs && r.loaded == c.loaded && r.written == c.written + [val]
      && r.cycle == c.cycle && r.polls == c.polls && r.lines == c.lines && r.ints == c.ints
          && r.masterClock == c.masterClock
      && r.ppu == P.WriteOamData(c.ppu, val, env.ppu)
  {
    hide P.WriteOamData;
  }

  /** The write cycle of OAM DMA. */
  lemma WritePasses(c: Cpu, val: bv8, env: Env)
    ensures
      var r := EndCycle(BusWrite(StartCycle(c, true, env), 0x2004, val, env), true, env);
      && Passed(c, r, env)
      && r.wram == c.wram && r.regs == c.regs && r.loaded == c.loaded && r.written == c.written + [val]
  {
    hide StartCycle, EndCycle, BusWrite, Requested;
    StartKeeps(c, true, env);
    OamPort(StartCycle(c, true, env), val, env);
    EndKeeps(BusWrite(StartCycle(c, true, env), 0x2004, val, env), true, env);
  }

  // ----- the loop

  /** Polls that may still find a request. */
  function PollsLeft(c: Cpu, env: Env): nat {
    if c.polls < |env.dmc| then |env.dmc| - c.polls else 0
  }

  /** What is left to do, with the alignment cycle an odd cycle may need first. */
  function WorkLeft(c: Cpu, d: Dma): int {
    2 * ((if c.lines.oam then 0x200 - d.count else 0) + Flag(c.lines.dmc) + Flag(c.lines.halt) + Flag(c.lines.dummy)) +
        c.cycle % 2
  }

  /** An odd count, a byte in transit, is only met on an odd cycle. */
  predicate Busy(c: Cpu, d: Dma) {
    c.lines.oam ==> d.count < 0x200 && (d.count % 2 == 1 ==> c.cycle % 2 == 1)
  }

  ghost predicate Progress(c: Cpu, d: Dma, t: Turn, env: Env) {
    && Busy(t.cpu, t.dma)
    && (PollsLeft(t.cpu, env) < PollsLeft(c, env)
        || (PollsLeft(t.cpu, env) == PollsLeft(c, env) && 0 <= WorkLeft(t.cpu, t.dma) < WorkLeft(c, d)))
  }

  lemma WaitProgresses(c: Cpu, d: Dma, addr: bv16, env: Env)
    requires Busy(c, d) && (c.cycle % 2 == 0 ==> c.lines.halt || c.lines.dummy) && (c.lines.oam ==> d.count % 2 == 0)
    ensures Progress(c, d, Turn(DmaWait(c, addr, env), d), env)
  {
    hide DmaWait, SameCore;
    WaitPasses(c, addr, env);
  }

  lemma LoadDmcProgresses(c: Cpu, d: Dma, env: Env)
    requires Busy(c, d) && c.cycle % 2 == 0 && c.lines.dmc && !c.lines.halt && !c.lines.dummy
    ensures Progress(c, d, LoadDmc(c, d, env), env)
  {
    hide ReadCycle, SameCore, Peek, Plain;
    ReadPasses(Settle(c), env.dmcAddr(c.polls), env);
  }

  lemma ReadOamProgresses(c: Cpu, d: Dma, env: Env)
    requires Busy(c, d) && c.cycle % 2 == 0 && c.lines.oam
    ensures Progress(c, d, ReadOam(c, d, env), env)
  {
    hide ReadCycle, SameCore, Peek, Plain, PageAddr;
    ReadPasses(Settle(c), PageAddr(c.lines.oamAddr, d.offset), env);
  }

  lemma WriteOamProgresses(c: Cpu, d: Dma, env: Env)
    requires Busy(c, d) && c.cycle % 2 == 1 && c.lines.oam && d.count % 2 == 1
    ensures Progress(c, d, WriteOam(c, d, env), env)
  {
    hide StartCycle, EndCycle, BusWrite;
    WritePasses(Settle(c), d.val, env);
  }

  /** A turn uses up a poll; once no poll can find a request, it gets something done. */
  lemma TurnProgresses(c: Cpu, d: Dma, addr: bv16, env: Env)
    requires Busy(c, d) && (c.lines.oam || c.lines.dmc)
    ensures Progress(c, d, DmaTurn(c, d, addr, env), env)
  {
    hide LoadDmc, ReadOam, WriteOam, DmaWait, Progress;
    if c.cycle % 2 == 0 && c.lines.dmc && !c.lines.halt && !c.lines.dummy {
      LoadDmcProgresses(c, d, env);
    } else if c.cycle % 2 == 0 && c.lines.oam {
      ReadOamProgresses(c, d, env);
    } else if c.cycle % 2 == 1 && c.lines.oam && d.count % 2 == 1 {
      WriteOamProgresses(c, d, env);
    } else {
      WaitProgresses(c, d, addr, env);
    }
  }

  function DmaLoop(c: Cpu, d: Dma, addr: bv16, env: Env): Cpu
    requires Busy(c, d)
    decreases PollsLeft(c, env), WorkLeft(c, d)
  {
    if !c.lines.oam && !c.lines.dmc then c
    else
      TurnProgresses(c, d, addr, env);
      var t := DmaTurn(c, d, addr, env);
      DmaLoop(t.cpu, t.dma, addr, env)
  }

  /** DMA takes the bus: the read that it interrupts is done once to halt the CPU. */
  function HandleDma(c: Cpu, addr: bv16, env: Env): Cpu {
    DmaLoop(Halted(c, addr, env), Dma(0, 0, 0), addr, env)
  }

  function Halted(c: Cpu, addr: bv16, env: Env): Cpu {
    var r := ReadCycle(c, addr, env).cpu;
    r.(lines := r.lines.(halt := false))
  }

  function Read(c: Cpu, addr: bv16, env: Env): Fetch {
    ReadCycle(if c.lines.halt || c.lines.oam then HandleDma(c, addr, env) else c, addr, env)
  }

  // ----- interrupts and instructions

  const NMI_VECTOR: bv16 := 0xFFFA
  const IRQ_VECTOR: bv16 := 0xFFFE

  /** The stack grows down in page 1. */
  function Push(c: Cpu, val: bv8, env: Env): Cpu {
    var w := WriteCycle(c, 0x0100 | (c.regs.sp as bv16), val, env);
    w.(regs := w.regs.(sp := c.regs.sp - 1))
  }

  function PushWord(c: Cpu, val: bv16, env: Env): Cpu {
    Push(Push(c, (val >> 8) as bv8, env), (val & 0xFF) as bv8, env)
  }

  function NextAddr(addr: bv16): bv16 { addr + 1 }

  function Word(hi: bv8, lo: bv8): bv16 { ((hi as bv16) << 8) | (lo as bv16) }

  /** The program counter is loaded from a vector. */
  function JumpThrough(c: Cpu, vector: bv16, env: Env): Cpu {
    var lo := Read(c, vector, env);
    var hi := Read(lo.cpu, NextAddr(vector), env);
    hi.cpu.(regs := hi.cpu.regs.(pc := Word(hi.val, lo.val)))
  }

  /** The NMI request is used up when its vector is taken. */
  function Take(i: Interrupts): Interrupts {
    i.(nmi := false, marks := i.marks + [Vector])
  }

  function PushStatus(c: Cpu, status: bv8, env: Env): Cpu {
    var p := Push(c, status, env);
    p.(regs := p.regs.(status := p.regs.status | IRQ_DISABLE))
  }

  /** The end of an interrupt sequence: NMI takes over any of them. */
  function Vectored(c: Cpu, status: bv8, env: Env): Cpu {
    if c.ints.nmi then JumpThrough(PushStatus(c.(ints := Take(c.ints)), status, env), NMI_VECTOR, env)
    else JumpThrough(PushStatus(c, status, env), IRQ_VECTOR, env)
  }

  const UNUSED: bv8 := 0x20
  const BREAK: bv8 := 0x10

  function Irq(c: Cpu, env: Env): Cpu {
    var d := Read(Read(c, c.regs.pc, env).cpu, c.regs.pc, env).cpu;
    Vectored(PushWord(d, c.regs.pc, env), (c.regs.status | UNUSED) & !BREAK, env)
  }

  /** After BRK an NMI waits for the next instruction. */
  function Brk(c: Cpu, env: Env): Cpu {
    var pc := NextAddr(c.regs.pc);
    var d := Read(c.(regs := c.regs.(pc := pc)), c.regs.pc, env).cpu;
    var v := Vectored(PushWord(d, pc, env), (c.regs.status | UNUSED) | BREAK, env);
    v.(ints := v.ints.(prevNmi := false))
  }

  function Pop(c: Cpu, env: Env): Fetch {
    var sp := c.regs.sp + 1;
    Read(c.(regs := c.regs.(sp := sp)), 0x0100 | (sp as bv16), env)
  }

  /** The return from an interrupt sequence: the status without the two bits that are not there, and the
    program counter. */
  function Rti(c: Cpu, env: Env): Cpu {
    PopPc(PopStatus(Read(c, 0x0100 | (c.regs.sp as bv16), env).cpu, env), env)
  }

  function PopStatus(c: Cpu, env: Env): Cpu {
    var flags := Pop(c, env);
    flags.cpu.(regs := flags.cpu.regs.(status := (flags.val & !UNUSED) & !BREAK))
  }

  function PopPc(c: Cpu, env: Env): Cpu {
    var lo := Pop(c, env);
    var hi := Pop(lo.cpu, env);
    hi.cpu.(regs := hi.cpu.regs.(pc := Word(hi.val, lo.val)))
  }

  /** An instruction ends with the interrupt that its second-to-last cycle saw; without cycle
    accuracy the PPU catches up only now. */
  function Finish(c: Cpu, env: Env): Cpu {
    var i := if c.ints.prevRunIrq || c.ints.prevNmi then Irq(c, env) else c;
    if env.accurate then i else HandleInterrupts(i.(ppu := CatchUp(i.ppu, i.masterClock, env)), env)
  }

  // ----- runs

  /** What instructions are made of: bus cycles, changes of registers, BRK, and their end. A reset
    takes seven cycles without the bus. */
  datatype Act = Rd(addr: bv16) | Wr(addr: bv16, val: bv8) | Idle | Set(regs: Registers) | Break | End

  function IdleCycle(c: Cpu, env: Env): Cpu {
    EndCycle(StartCycle(c, true, env), true, env)
  }

  function Step(c: Cpu, a: Act, env: Env): Cpu {
    match a
    case Rd(addr) => Read(c, addr, env).cpu
    case Wr(addr, val) => WriteCycle(c, addr, val, env)
    case Idle => IdleCycle(c, env)
    case Set(regs) => c.(regs := regs)
    case Break => Brk(c, env)
    case End => Finish(c, env)
  }

  function Run(c: Cpu, acts: seq<Act>, env: Env): Cpu {
    if acts == [] then c else Step(Run(c, acts[..|acts| - 1], env), acts[|acts| - 1], env)
  }
}
