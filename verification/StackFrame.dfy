/** What an interrupt sequence leaves on the stack and where it goes on, in numbers, over any DMA on the
  way; and that RTI undoes it. */
module StackFrame {
  import opened CpuSpec
  import opened ByteBits
  import CpuRuns
  import Lockstep

  // ----- reads leave registers and work RAM alone

  predicate SameStore(c: Cpu, r: Cpu) {
    r.wram == c.wram && r.regs == c.regs
  }

  lemma TurnStores(c: Cpu, d: Dma, addr: bv16, env: Env)
    ensures SameStore(c, DmaTurn(c, d, addr, env).cpu)
  {
    hide StartCycle, EndCycle, ReadCycle, BusWrite, DmaWait, PageAddr, Peek, Plain, Passed;
    WaitPasses(c, addr, env);
    ReadPasses(Settle(c), env.dmcAddr(c.polls), env);
    ReadPasses(Settle(c), PageAddr(c.lines.oamAddr, d.offset), env);
    WritePasses(Settle(c), d.val, env);
  }

  lemma {:induction false} LoopStores(c: Cpu, d: Dma, addr: bv16, env: Env)
    requires Busy(c, d)
    ensures SameStore(c, DmaLoop(c, d, addr, env))
    decreases PollsLeft(c, env), WorkLeft(c, d)
  {
    hide DmaTurn;
    if c.lines.oam || c.lines.dmc {
      TurnProgresses(c, d, addr, env);
      TurnStores(c, d, addr, env);
      var t := DmaTurn(c, d, addr, env);
      LoopStores(t.cpu, t.dma, addr, env);
    }
  }

  lemma ReadStores(c: Cpu, addr: bv16, env: Env)
    ensures SameStore(c, Read(c, addr, env).cpu)
    ensures Plain(addr) ==> Read(c, addr, env).val == Peek(c.wram, addr, env)
  {
    hide DmaLoop, ReadCycle, Peek, Plain, Passed;
    ReadPasses(c, addr, env);
    LoopStores(Halted(c, addr, env), CpuSpec.Dma(0, 0, 0), addr, env);
    ReadPasses(if c.lines.halt || c.lines.oam then HandleDma(c, addr, env) else c, addr, env);
  }

  // ----- the stack

  /** The byte of work RAM that the stack pointer names, and those below it, around the page. */
  function Slot(sp: int): (i: nat)
    ensures 0x100 <= i < 0x200
  {
    0x100 + sp % 0x100
  }

  lemma StackAddr(sp: bv8)
    ensures
      var addr := 0x0100 | (sp as bv16);
      addr < 0x0200 && Plain(addr) && (addr & 0x07FF) as int == Slot(sp as int)
  {
  }

  lemma PointerFalls(sp: bv8)
    ensures (sp - 1) as int == if sp == 0 then 0xFF else sp as int - 1
  {
  }

  lemma PointerRises(sp: bv8)
    ensures (sp + 1) as int == if sp == 0xFF then 0 else sp as int + 1
  {
  }

  lemma PointerMoves(sp: bv8)
    ensures (sp - 1) as int == (sp as int - 1) % 0x100 && (sp + 1) as int == (sp as int + 1) % 0x100
  {
    PointerFalls(sp);
    PointerRises(sp);
    assert (sp == 0) == (sp as int == 0) && (sp == 0xFF) == (sp as int == 0xFF);
  }

  lemma WriteStores(c: Cpu, addr: bv16, val: bv8, env: Env)
    requires addr < 0x2000
    ensures
      var r := WriteCycle(c, addr, val, env);
      r.wram == c.wram[(addr & 0x07FF) as int := val] && r.regs == c.regs
  {
    hide StartCycle, EndCycle;
    StartKeeps(c, false, env);
    EndKeeps(BusWrite(StartCycle(c, false, env), addr, val, env), false, env);
  }

  lemma PushStores(c: Cpu, val: bv8, env: Env)
    ensures
      var r := Push(c, val, env);
      && r.wram == c.wram[Slot(c.regs.sp as int) := val]
      && r.regs == c.regs.(sp := c.regs.sp - 1) && r.regs.sp as int == (c.regs.sp as int - 1) % 0x100
  {
    hide WriteCycle, Slot, Plain;
    StackAddr(c.regs.sp);
    PointerMoves(c.regs.sp);
    WriteStores(c, 0x0100 | (c.regs.sp as bv16), val, env);
  }

  lemma HighHalf(hi: bv8)
    ensures ((hi as bv16) << 8) as int == 0x100 * hi as int
  {
  }

  lemma LowHalf(lo: bv8)
    ensures (lo as bv16) as int == lo as int
  {
  }

  lemma WordHalves(hi: bv8, lo: bv8)
    ensures Word(hi, lo) & 0xFF00 == (hi as bv16) << 8 && Word(hi, lo) & 0x00FF == lo as bv16
  {
  }

  /** The high byte counts 256. */
  lemma WordIs(hi: bv8, lo: bv8)
    ensures Word(hi, lo) as int == 0x100 * hi as int + lo as int
  {
    hide Word;
    WordHalves(hi, lo);
    ByteBits.Halves16(Word(hi, lo));
    HighHalf(hi);
    LowHalf(lo);
  }

  lemma WordApart(val: bv16)
    ensures Word((val >> 8) as bv8, (val & 0xFF) as bv8) == val
  {
  }

  lemma WordBytes(val: bv16)
    ensures ((val >> 8) as bv8) as int == val as int / 0x100 && ((val & 0xFF) as bv8) as int == val as int % 0x100
  {
    hide Word;
    WordApart(val);
    WordDivides(val, (val >> 8) as bv8, (val & 0xFF) as bv8);
  }

  lemma WordDivides(val: bv16, hi: bv8, lo: bv8)
    requires Word(hi, lo) == val
    ensures hi as int == val as int / 0x100 && lo as int == val as int % 0x100
  {
    hide Word;
    WordIs(hi, lo);
  }

  /** A byte as the number that it is. */
  function Byte(n: int): (b: bv8)
    requires 0 <= n < 0x100
    ensures b as int == n
  {
    n as bv8
  }

  lemma ByteIs(b: bv8)
    ensures Byte(b as int) == b
  {
  }

  /** Work RAM after a program counter and a status have been pushed: high byte, low byte, status. */
  function Framed(w: Wram, sp: int, pc: int, status: int): Wram
    requires 0 <= pc < 0x1_0000 && 0 <= status < 0x100
  {
    w[Slot(sp) := Byte(pc / 0x100)][Slot(sp - 1) := Byte(pc % 0x100)][Slot(sp - 2) := Byte(status)]
  }

  lemma PushWordStores(c: Cpu, val: bv16, env: Env)
    ensures
      var r := PushWord(c, val, env);
      && r.wram == c.wram[Slot(c.regs.sp as int) := Byte(val as int / 0x100)]
                         [Slot(c.regs.sp as int - 1) := Byte(val as int % 0x100)]
      && r.regs == c.regs.(sp := r.regs.sp) && r.regs.sp as int == (c.regs.sp as int - 2) % 0x100
  {
    hide Push, Byte;
    WordBytes(val);
    ByteIs((val >> 8) as bv8);
    ByteIs((val & 0xFF) as bv8);
    PushStores(c, (val >> 8) as bv8, env);
    PushStores(Push(c, (val >> 8) as bv8, env), (val & 0xFF) as bv8, env);
  }

  // ----- the sequence

  /** The status with its bit 2 set, which keeps interrupts out. */
  function Disabled(status: int): int {
    status - status / 4 % 2 * 4 + 4
  }

  /** The status as it is pushed: bit 5 set, and bit 4 set by BRK only. */
  function Pushed(status: int, brk: bool): int {
    status - status / 32 % 2 * 32 - status / 16 % 2 * 16 + 32 + if brk then 16 else 0
  }

  lemma SetsBit(s: bv8)
    ensures (s | IRQ_DISABLE) as int == Disabled(s as int)
  {
    BitsAre(s);
    assert s & 0x04 == 0 ==> s | 0x04 == s + 0x04 && s <= 0xFB;
    assert s & 0x04 != 0 ==> s | 0x04 == s;
  }

  lemma PushesFlags(s: bv8)
    ensures ((s | UNUSED) & !BREAK) as int == Pushed(s as int, false)
    ensures ((s | UNUSED) | BREAK) as int == Pushed(s as int, true)
  {
    BitsAre(s);
    var low := s & 0xCF;
    LowStatus(s);
    FlagSums(s & 0xCF);
  }

  lemma LowStatus(s: bv8)
    ensures (s & 0xCF) as int == s as int - s as int / 32 % 2 * 32 - s as int / 16 % 2 * 16
    ensures (s | UNUSED) & !BREAK == (s & 0xCF) + 0x20 && (s | UNUSED) | BREAK == (s & 0xCF) + 0x30
  {
    BitsAre(s);
  }

  lemma FlagSums(low: bv8)
    requires low & 0x30 == 0
    ensures (low + 0x20) as int == low as int + 32 && (low + 0x30) as int == low as int + 48
  {
  }

  lemma JumpStores(c: Cpu, vector: bv16, env: Env)
    ensures
      var r := JumpThrough(c, vector, env);
      r.wram == c.wram && r.regs == c.regs.(pc := r.regs.pc)
  {
    hide Read, Plain, Word, NextAddr;
    ReadStores(c, vector, env);
    ReadStores(Read(c, vector, env).cpu, NextAddr(vector), env);
  }

  lemma VectoredStores(c: Cpu, status: bv8, env: Env)
    ensures
      var r := Vectored(c, status, env);
      && r.wram == c.wram[Slot(c.regs.sp as int) := status]
      && r.regs.sp as int == (c.regs.sp as int - 1) % 0x100 && r.regs.status == c.regs.status | IRQ_DISABLE
  {
    hide Push, JumpThrough, Slot;
    var t := if c.ints.nmi then c.(ints := Take(c.ints)) else c;
    PushStores(t, status, env);
    JumpStores(PushStatus(t, status, env), if c.ints.nmi then NMI_VECTOR else IRQ_VECTOR, env);
  }

  /** From c an interrupt sequence has pushed this program counter and gone to the vector of NMI, or to
    that of IRQ and BRK. Nothing else in work RAM has changed. */
  ghost predicate Entered(c: Cpu, r: Cpu, pc: int, brk: bool, nmi: bool, env: Env)
    requires 0 <= pc < 0x1_0000
  {
    var sp, status := c.regs.sp as int, c.regs.status as int;
    && PushedFits(status, brk)
    && r.wram == Framed(c.wram, sp, pc, Pushed(status, brk))
    && r.regs.sp as int == (sp - 3) % 0x100
    && r.regs.status as int == Disabled(status)
    && r.regs.pc as int ==
         if nmi then env.rom(0xFFFA) as int + 0x100 * env.rom(0xFFFB) as int
         else env.rom(0xFFFE) as int + 0x100 * env.rom(0xFFFF) as int
  }

  predicate PushedFits(status: int, brk: bool) {
    0 <= Pushed(status, brk) < 0x100
  }

  lemma TargetIs(env: Env)
    ensures CpuRuns.Target(env, NMI_VECTOR) as int == env.rom(0xFFFA) as int + 0x100 * env.rom(0xFFFB) as int
    ensures CpuRuns.Target(env, IRQ_VECTOR) as int == env.rom(0xFFFE) as int + 0x100 * env.rom(0xFFFF) as int
  {
    hide Word;
    WordIs(env.rom(0xFFFB), env.rom(0xFFFA));
    WordIs(env.rom(0xFFFF), env.rom(0xFFFE));
  }

  /** The pushes of a sequence that begins with these registers. */
  lemma SequenceStores(c: Cpu, pc: bv16, status: bv8, brk: bool, env: Env)
    requires status as int == Pushed(c.regs.status as int, brk)
    ensures PushedFits(c.regs.status as int, brk)
    ensures
      var r := Vectored(PushWord(c, pc, env), status, env);
      && r.wram == Framed(c.wram, c.regs.sp as int, pc as int, Pushed(c.regs.status as int, brk))
      && r.regs.sp as int == (c.regs.sp as int - 3) % 0x100
      && r.regs.status as int == Disabled(c.regs.status as int)
  {
    hide PushWord, Vectored, Slot, Byte, Pushed, Disabled;
    PushWordStores(c, pc, env);
    var p := PushWord(c, pc, env);
    VectoredStores(p, status, env);
    ByteIs(status);
    SetsBit(c.regs.status);
    PointersAdd(c.regs.sp as int);
    SameSlot(c.regs.sp as int);
  }

  lemma PointersAdd(sp: int)
    ensures ((sp - 2) % 0x100 - 1) % 0x100 == (sp - 3) % 0x100
  {
  }

  lemma SameSlot(sp: int)
    ensures Slot((sp - 2) % 0x100) == Slot(sp - 2)
  {
  }

  /** An interrupt at any point of any run, with any DMA between its cycles: it pushes the program
    counter, high byte first, and the status without the break bit, and goes on at the vector of NMI
    exactly if it uses up an NMI, which it does if one is latched. */
  lemma IrqEnters(c0: Cpu, acts: seq<Act>, env: Env)
    requires CpuRuns.PowerOn(c0)
    ensures
      var c := Run(c0, acts, env);
      var r := Irq(c, env);
      var used := CpuRuns.Vectors(r.ints.marks) - CpuRuns.Vectors(c.ints.marks);
      && 0 <= used <= 1 && (c.ints.nmi ==> used == 1)
      && Entered(c, r, c.regs.pc as int, false, used == 1, env)
  {
    hide Run, Irq, Entered, Framed, Pushed, PushedFits, Disabled, CpuRuns.Interrupted, CpuRuns.Sound, CpuRuns.Target,
      CpuRuns.Vectors, CpuRuns.PrevSeen, Lockstep.Good;
    var c := Run(c0, acts, env);
    CpuRuns.RunHealthy(c0, acts, env);
    var v := CpuRuns.Vectors(c.ints.marks);
    CpuRuns.IrqSound(c0, c, env, v);
    IrqStores(c, env);
    var nmi :| CpuRuns.Interrupted(c0, Irq(c, env), env, v, nmi);
    Counted(c0, Irq(c, env), env, v, nmi);
    Assembled(c, Irq(c, env), c.regs.pc as int, false, nmi, env);
    if c.ints.nmi {
      Counted(c0, Irq(c, env), env, v, true);
    }
  }

  lemma Assembled(c: Cpu, r: Cpu, pc: int, brk: bool, nmi: bool, env: Env)
    requires 0 <= pc < 0x1_0000 && PushedFits(c.regs.status as int, brk)
    requires r.wram == Framed(c.wram, c.regs.sp as int, pc, Pushed(c.regs.status as int, brk))
    requires r.regs.sp as int == (c.regs.sp as int - 3) % 0x100
    requires r.regs.status as int == Disabled(c.regs.status as int)
    requires r.regs.pc == CpuRuns.Target(env, if nmi then NMI_VECTOR else IRQ_VECTOR)
    ensures Entered(c, r, pc, brk, nmi, env)
  {
    hide Framed, Pushed, Disabled, CpuRuns.Target;
    TargetIs(env);
  }

  lemma Counted(c0: Cpu, r: Cpu, env: Env, v: nat, nmi: bool)
    requires CpuRuns.Interrupted(c0, r, env, v, nmi)
    ensures CpuRuns.Vectors(r.ints.marks) == if nmi then v + 1 else v
    ensures r.regs.pc == CpuRuns.Target(env, if nmi then NMI_VECTOR else IRQ_VECTOR)
  {
    hide CpuRuns.Sound, CpuRuns.Target, CpuRuns.Vectors;
    CpuRuns.SoundIsHealthy(c0, r, env, if nmi then v + 1 else v);
  }

  lemma IrqStores(c: Cpu, env: Env)
    ensures PushedFits(c.regs.status as int, false)
    ensures
      var r := Irq(c, env);
      && r.wram == Framed(c.wram, c.regs.sp as int, c.regs.pc as int, Pushed(c.regs.status as int, false))
      && r.regs.sp as int == (c.regs.sp as int - 3) % 0x100
      && r.regs.status as int == Disabled(c.regs.status as int)
  {
    hide Read, PushWord, Vectored, Framed, Pushed, Disabled, Plain;
    var a := Read(c, c.regs.pc, env).cpu;
    ReadStores(c, c.regs.pc, env);
    ReadStores(a, c.regs.pc, env);
    PushesFlags(c.regs.status);
    SequenceStores(Read(a, c.regs.pc, env).cpu, c.regs.pc, (c.regs.status | UNUSED) & !BREAK, false, env);
  }

  lemma NextOfWord(hi: bv8, lo: bv8)
    ensures NextAddr(Word(hi, lo)) == if lo == 0xFF then Word(hi + 1, 0) else Word(hi, lo + 1)
  {
  }

  lemma NextAddrIs(pc: bv16, hi: bv8, lo: bv8)
    requires pc == Word(hi, lo)
    ensures NextAddr(pc) as int == (pc as int + 1) % 0x1_0000
  {
    hide Word, NextAddr;
    NextOfWord(hi, lo);
    WordIs(hi, lo);
    if lo == 0xFF {
      WordIs(hi + 1, 0);
      PointerRises(hi);
      Carry(hi as int, lo as int, (hi + 1) as int, 0);
    } else {
      WordIs(hi, lo + 1);
      PointerRises(lo);
      assert lo as int != 0xFF;
      Carry(hi as int, lo as int, hi as int, (lo + 1) as int);
    }
  }

  lemma Carry(hi: int, lo: int, hi': int, lo': int)
    requires 0 <= hi < 0x100 && 0 <= lo < 0x100
    requires if lo == 0xFF then hi' == (if hi == 0xFF then 0 else hi + 1) && lo' == 0 else hi' == hi && lo' == lo + 1
    ensures 0x100 * hi' + lo' == (0x100 * hi + lo + 1) % 0x1_0000
  {
  }

  /** The address behind this one, around the end of memory. */
  function Behind(pc: int): (r: int)
    ensures 0 <= r < 0x1_0000
  {
    (pc + 1) % 0x1_0000
  }

  lemma NextPc(pc: bv16)
    ensures NextAddr(pc) as int == Behind(pc as int)
  {
    hide Word, NextAddr;
    WordApart(pc);
    NextAddrIs(pc, (pc >> 8) as bv8, (pc & 0xFF) as bv8);
  }

  /** BRK pushes the address two behind its opcode, one behind the program counter that it finds, and the
    status with the break bit. */
  lemma BrkEnters(c0: Cpu, acts: seq<Act>, env: Env)
    requires CpuRuns.PowerOn(c0)
    ensures
      var c := Run(c0, acts, env);
      var r := Brk(c, env);
      var used := CpuRuns.Vectors(r.ints.marks) - CpuRuns.Vectors(c.ints.marks);
      && 0 <= used <= 1 && (c.ints.nmi ==> used == 1)
      && Entered(c, r, Behind(c.regs.pc as int), true, used == 1, env)
  {
    hide Run, Brk, Behind, Entered, Framed, Pushed, PushedFits, Disabled, CpuRuns.Interrupted, CpuRuns.Sound, NextAddr,
      CpuRuns.Target, CpuRuns.Vectors, CpuRuns.PrevSeen, Lockstep.Good;
    var c := Run(c0, acts, env);
    CpuRuns.RunHealthy(c0, acts, env);
    var v := CpuRuns.Vectors(c.ints.marks);
    CpuRuns.BrkSound(c0, c, env, v);
    BrkStores(c, env);
    NextPc(c.regs.pc);
    var nmi :| CpuRuns.Interrupted(c0, Brk(c, env), env, v, nmi);
    Counted(c0, Brk(c, env), env, v, nmi);
    Assembled(c, Brk(c, env), Behind(c.regs.pc as int), true, nmi, env);
    if c.ints.nmi {
      BrkUses(c0, c, env, v);
    }
  }

  lemma BrkUses(c0: Cpu, c: Cpu, env: Env, v: nat)
    requires CpuRuns.Sound(c0, c, env, v, false) && c.ints.nmi
    ensures CpuRuns.Vectors(Brk(c, env).ints.marks) == v + 1
  {
    hide Brk, CpuRuns.Sound, CpuRuns.Target, CpuRuns.Vectors;
    CpuRuns.Release(c0, c, env, v, false);
    CpuRuns.BrkTakes(c0, c, env, v);
    CpuRuns.SoundIsHealthy(c0, Brk(c, env), env, v + 1);
  }

  lemma BrkStores(c: Cpu, env: Env)
    ensures PushedFits(c.regs.status as int, true)
    ensures
      var r := Brk(c, env);
      && r.wram == Framed(c.wram, c.regs.sp as int, NextAddr(c.regs.pc) as int, Pushed(c.regs.status as int, true))
      && r.regs.sp as int == (c.regs.sp as int - 3) % 0x100
      && r.regs.status as int == Disabled(c.regs.status as int)
  {
    hide Read, PushWord, Vectored, Framed, Pushed, Disabled, Plain, NextAddr;
    var pc := NextAddr(c.regs.pc);
    var m := c.(regs := c.regs.(pc := pc));
    ReadStores(m, c.regs.pc, env);
    PushesFlags(c.regs.status);
    SequenceStores(Read(m, c.regs.pc, env).cpu, pc, (c.regs.status | UNUSED) | BREAK, true, env);
  }

  // ----- the way back

  function Above(sp: int): int {
    (sp + 1) % 0x100
  }

  lemma PopReads(c: Cpu, env: Env)
    ensures
      var f, sp := Pop(c, env), Above(c.regs.sp as int);
      && f.cpu.wram == c.wram && f.cpu.regs == c.regs.(sp := f.cpu.regs.sp) && f.cpu.regs.sp as int == sp
      && f.val == c.wram[Slot(sp)]
  {
    hide Read, Slot, Plain;
    PointerMoves(c.regs.sp);
    var sp := c.regs.sp + 1;
    StackAddr(sp);
    var m := c.(regs := c.regs.(sp := sp));
    ReadStores(m, 0x0100 | (sp as bv16), env);
    PlainStack(m, sp, env);
  }

  lemma PlainStack(c: Cpu, sp: bv8, env: Env)
    ensures Peek(c.wram, 0x0100 | (sp as bv16), env) == c.wram[Slot(sp as int)]
  {
    hide Slot;
    StackAddr(sp);
  }

  lemma ClearsFlags(s: bv8)
    ensures ((s & !UNUSED) & !BREAK) as int == s as int - s as int / 32 % 2 * 32 - s as int / 16 % 2 * 16
  {
    BitsAre(s);
  }

  /** The three bytes that a sequence has pushed from c are still there, and the stack pointer is below
    them. */
  ghost predicate OnTop(c: Cpu, r: Cpu, pc: int, status: int)
    requires 0 <= pc < 0x1_0000 && 0 <= status < 0x100
  {
    var sp := c.regs.sp as int;
    && r.regs.sp as int == (sp - 3) % 0x100
    && r.wram[Slot(sp)] == Byte(pc / 0x100) && r.wram[Slot(sp - 1)] == Byte(pc % 0x100)
    && r.wram[Slot(sp - 2)] == Byte(status)
  }

  lemma FramedOnTop(c: Cpu, r: Cpu, pc: int, status: int)
    requires 0 <= pc < 0x1_0000 && 0 <= status < 0x100
    requires r.wram == Framed(c.wram, c.regs.sp as int, pc, status)
    requires r.regs.sp as int == (c.regs.sp as int - 3) % 0x100
    ensures OnTop(c, r, pc, status)
  {
    hide Byte;
    Distinct(c.regs.sp as int);
  }

  lemma Distinct(sp: int)
    ensures Slot(sp) != Slot(sp - 1) && Slot(sp) != Slot(sp - 2) && Slot(sp - 1) != Slot(sp - 2)
  {
  }

  /** RTI finds what the sequence has pushed: it goes back to that program counter with that status, less
    bits 4 and 5, and leaves the stack pointer where it was; over any DMA between its reads. */
  lemma RtiReturns(c: Cpu, r: Cpu, pc: int, status: int, env: Env)
    requires 0 <= pc < 0x1_0000 && 0 <= status < 0x100 && OnTop(c, r, pc, status)
    ensures
      var q := Rti(r, env);
      && q.regs.pc as int == pc && q.regs.sp as int == c.regs.sp as int && q.wram == r.wram
      && q.regs.status as int == WithoutBreak(status)
  {
    hide Rti, Slot, Byte, OnTop, WithoutBreak;
    RtiReads(r, env);
    TopStatus(c, r, pc, status);
    TopPc(c, r, pc, status);
  }

  /** The status without the bits that the register does not have. */
  function WithoutBreak(status: int): int {
    status - status / 32 % 2 * 32 - status / 16 % 2 * 16
  }

  lemma RtiReads(r: Cpu, env: Env)
    ensures
      var q, a := Rti(r, env), Above(r.regs.sp as int);
      var b := Above(a);
      && q.wram == r.wram && q.regs.sp as int == Above(b)
      && q.regs.pc as int == 0x100 * r.wram[Slot(Above(b))] as int + r.wram[Slot(b)] as int
      && q.regs.status as int == WithoutBreak(r.wram[Slot(a)] as int)
  {
    hide Read, PopStatus, PopPc, Slot, Plain, Peek, Above, WithoutBreak, Word;
    var d := Read(r, 0x0100 | (r.regs.sp as bv16), env).cpu;
    ReadStores(r, 0x0100 | (r.regs.sp as bv16), env);
    PopStatusReads(d, env);
    var s := PopStatus(d, env);
    PopPcReads(s, env);
    var sp := Above(s.regs.sp as int);
    WordIs(s.wram[Slot(Above(sp))], s.wram[Slot(sp)]);
  }

  lemma TopStatus(c: Cpu, r: Cpu, pc: int, status: int)
    requires 0 <= pc < 0x1_0000 && 0 <= status < 0x100 && OnTop(c, r, pc, status)
    ensures r.wram[Slot(Above(r.regs.sp as int))] as int == status
  {
    hide Slot, Byte;
    BytesBack(pc, status);
    PlacesBack(c.regs.sp as int, r.regs.sp as int);
  }

  lemma TopPc(c: Cpu, r: Cpu, pc: int, status: int)
    requires 0 <= pc < 0x1_0000 && 0 <= status < 0x100 && OnTop(c, r, pc, status)
    ensures
      var b := Above(Above(r.regs.sp as int));
      && Above(b) == c.regs.sp as int
      && 0x100 * r.wram[Slot(Above(b))] as int + r.wram[Slot(b)] as int == pc
  {
    hide Slot, Byte;
    BytesBack(pc, status);
    PlacesBack(c.regs.sp as int, r.regs.sp as int);
  }

  lemma BytesBack(pc: int, status: int)
    requires 0 <= pc < 0x1_0000 && 0 <= status < 0x100
    ensures Byte(status) as int == status && 0x100 * Byte(pc / 0x100) as int + Byte(pc % 0x100) as int == pc
  {
    hide Byte;
  }

  lemma PlacesBack(sp: int, low: int)
    requires 0 <= sp < 0x100 && low == (sp - 3) % 0x100
    ensures
      var a := Above(low);
      Slot(a) == Slot(sp - 2) && Slot(Above(a)) == Slot(sp - 1) && Above(Above(a)) == sp
  {
    hide Slot;
    PointersReturn(sp);
    SlotsReturn(sp);
  }

  lemma PopStatusReads(c: Cpu, env: Env)
    ensures
      var r, sp := PopStatus(c, env), Above(c.regs.sp as int);
      && r.wram == c.wram && r.regs.pc == c.regs.pc && r.regs.sp as int == sp
      && r.regs.status as int == WithoutBreak(c.wram[Slot(sp)] as int)
  {
    hide Pop, Slot;
    PopReads(c, env);
    ClearsFlags(c.wram[Slot(Above(c.regs.sp as int))]);
  }

  lemma PopPcReads(c: Cpu, env: Env)
    ensures
      var r, sp := PopPc(c, env), Above(c.regs.sp as int);
      && r.wram == c.wram && r.regs.status == c.regs.status && r.regs.sp as int == Above(sp)
      && r.regs.pc == Word(c.wram[Slot(Above(sp))], c.wram[Slot(sp)])
  {
    hide Pop, Slot, Word, Above;
    PopReads(c, env);
    PopReads(Pop(c, env).cpu, env);
  }

  lemma PointersReturn(sp: int)
    requires 0 <= sp < 0x100
    ensures ((sp - 3) % 0x100 + 1) % 0x100 == (sp - 2) % 0x100 && ((sp - 2) % 0x100 + 1) % 0x100 == (sp - 1) % 0x100
    ensures ((sp - 1) % 0x100 + 1) % 0x100 == sp
  {
  }

  lemma SlotsReturn(sp: int)
    ensures Slot((sp - 2) % 0x100) == Slot(sp - 2) && Slot((sp - 1) % 0x100) == Slot(sp - 1)
  {
  }
}
