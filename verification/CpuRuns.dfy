/** Every run of the CPU: it stays in lockstep with the PPU, and NMI is edge-triggered, never lost
  and never taken twice for one edge. The invariant `Sound` is carried through bus cycles, DMA,
  interrupt sequences and instructions. */
module CpuRuns {
  import opened Words
  import opened CpuSpec
  import opened Lockstep
  import P = PpuSpec

  // ----- the interrupt latch

  /** Every fetch of the NMI vector directly follows a sampled edge. */
  predicate EdgeTriggered(marks: seq<Mark>) {
    forall i :: 0 <= i < |marks| && marks[i] == Vector ==> i > 0 && marks[i - 1] == Edge
  }

  function Vectors(marks: seq<Mark>): nat {
    if marks == [] then 0 else Vectors(marks[..|marks| - 1]) + if marks[|marks| - 1] == Vector then 1 else 0
  }

  /** NMI is latched exactly while the last mark is an edge; v vectors have been fetched. */
  predicate Latched(i: Interrupts, v: nat) {
    && EdgeTriggered(i.marks) && i.nmi == (i.marks != [] && i.marks[|i.marks| - 1] == Edge) && Vectors(i.marks) == v
  }

  lemma EdgeMarks(marks: seq<Mark>, v: nat)
    requires EdgeTriggered(marks) && Vectors(marks) == v
    ensures EdgeTriggered(marks + [Edge]) && Vectors(marks + [Edge]) == v
  {
    assert (marks + [Edge])[..|marks|] == marks;
  }

  lemma VectorMarks(marks: seq<Mark>, v: nat)
    requires EdgeTriggered(marks) && Vectors(marks) == v && marks != [] && marks[|marks| - 1] == Edge
    ensures EdgeTriggered(marks + [Vector]) && Vectors(marks + [Vector]) == v + 1
  {
    assert (marks + [Vector])[..|marks|] == marks;
  }

  lemma SampleLatches(i: Interrupts, pending: bool, irq: bool, v: nat)
    requires Latched(i, v)
    ensures Latched(Sampled(i, pending, irq), v) && (i.nmi ==> Sampled(i, pending, irq).nmi)
    ensures Sampled(i, pending, irq).prevNmi ==> Sampled(i, pending, irq).nmi
  {
    hide EdgeTriggered, Vectors;
    EdgeMarks(i.marks, v);
  }

  lemma TakeLatches(i: Interrupts, v: nat)
    requires Latched(i, v) && i.nmi
    ensures Latched(Take(i), v + 1)
  {
    hide EdgeTriggered, Vectors;
    VectorMarks(i.marks, v);
  }

  // ----- the invariant

  /** In lockstep since c0, with v NMI vectors fetched; if `held`, NMI is latched. */
  ghost predicate Sound(c0: Cpu, c: Cpu, env: Env, v: nat, held: bool) {
    Good(c0, c, env) && Latched(c.ints, v) && (held ==> c.ints.nmi)
  }

  /** The previous sample does not see more than the latch. */
  predicate PrevSeen(c: Cpu) {
    c.ints.prevNmi ==> c.ints.nmi
  }

  lemma EndLatches(c: Cpu, read: bool, env: Env, v: nat)
    requires Latched(c.ints, v)
    ensures
      var r := EndCycle(c, read, env);
      Latched(r.ints, v) && (c.ints.nmi ==> r.ints.nmi) && PrevSeen(r)
  {
    hide CatchUp, EndClock, Sampled, Latched, Requested;
    var clock := EndClock(c.masterClock, read, env.ppu.region);
    var p := if env.accurate then CatchUp(c.ppu, clock, env) else c.ppu;
    SampleLatches(c.ints, p.nmiPending, env.irqs(c.polls) && c.regs.status & IRQ_DISABLE == 0, v);
  }

  lemma ReadSound(c0: Cpu, c: Cpu, addr: bv16, env: Env, v: nat, held: bool)
    requires Sound(c0, c, env, v, held)
    ensures Sound(c0, ReadCycle(c, addr, env).cpu, env, v, held) && PrevSeen(ReadCycle(c, addr, env).cpu)
  {
    hide StartCycle, EndCycle, BusRead, Good, Latched, Peek, Plain, PrevSeen;
    ReadInStep(c0, c, addr, env);
    StartKeeps(c, true, env);
    var s := StartCycle(c, true, env);
    BusReadKeeps(s, addr, env);
    EndLatches(BusRead(s, addr, env).cpu, true, env, v);
  }

  lemma IdleSound(c0: Cpu, c: Cpu, env: Env, v: nat, held: bool)
    requires Sound(c0, c, env, v, held)
    ensures Sound(c0, IdleCycle(c, env), env, v, held) && PrevSeen(IdleCycle(c, env))
  {
    hide StartCycle, EndCycle, Good, Latched, PrevSeen;
    IdleInStep(c0, c, env);
    StartKeeps(c, true, env);
    EndLatches(StartCycle(c, true, env), true, env, v);
  }

  lemma WriteSound(c0: Cpu, c: Cpu, addr: bv16, val: bv8, read: bool, env: Env, v: nat, held: bool)
    requires Sound(c0, c, env, v, held)
    ensures
      var r := EndCycle(BusWrite(StartCycle(c, read, env), addr, val, env), read, env);
      Sound(c0, r, env, v, held) && PrevSeen(r)
  {
    hide StartCycle, EndCycle, BusWrite, Good, Latched, PrevSeen;
    WriteInStep(c0, c, addr, val, read, env);
    StartKeeps(c, read, env);
    var s := StartCycle(c, read, env);
    BusWriteInts(s, addr, val, env);
    EndLatches(BusWrite(s, addr, val, env), read, env, v);
  }

  lemma BusWriteInts(c: Cpu, addr: bv16, val: bv8, env: Env)
    ensures BusWrite(c, addr, val, env).ints == c.ints
  {
    hide PortWrite;
  }

  /** DMA lines, registers and logs are of no account. */
  lemma Elsewhere(c0: Cpu, c: Cpu, r: Cpu, env: Env, v: nat, held: bool)
    requires Sound(c0, c, env, v, held)
    requires r.cycle == c.cycle && r.masterClock == c.masterClock && r.ppu == c.ppu && r.ints == c.ints
    ensures Sound(c0, r, env, v, held)
  {
    hide Latched;
  }

  // ----- DMA

  lemma WaitSound(c0: Cpu, c: Cpu, addr: bv16, env: Env, v: nat, held: bool)
    requires Sound(c0, c, env, v, held)
    ensures Sound(c0, DmaWait(c, addr, env), env, v, held)
  {
    hide StartCycle, EndCycle, ReadCycle, Settled, Sound;
    Elsewhere(c0, c, Settle(c), env, v, held);
    ReadSound(c0, Settle(c), addr, env, v, held);
    IdleSound(c0, Settle(c), env, v, held);
  }

  lemma LoadDmcSound(c0: Cpu, c: Cpu, d: Dma, env: Env, v: nat, held: bool)
    requires Sound(c0, c, env, v, held)
    ensures Sound(c0, LoadDmc(c, d, env).cpu, env, v, held)
  {
    hide ReadCycle, Settled, Sound;
    Elsewhere(c0, c, Settle(c), env, v, held);
    ReadSound(c0, Settle(c), env.dmcAddr(c.polls), env, v, held);
    Elsewhere(c0, ReadCycle(Settle(c), env.dmcAddr(c.polls), env).cpu, LoadDmc(c, d, env).cpu, env, v, held);
  }

  lemma ReadOamSound(c0: Cpu, c: Cpu, d: Dma, env: Env, v: nat, held: bool)
    requires Sound(c0, c, env, v, held)
    ensures Sound(c0, ReadOam(c, d, env).cpu, env, v, held)
  {
    hide ReadCycle, Settled, Sound, PageAddr;
    Elsewhere(c0, c, Settle(c), env, v, held);
    ReadSound(c0, Settle(c), PageAddr(c.lines.oamAddr, d.offset), env, v, held);
  }

  lemma WriteOamSound(c0: Cpu, c: Cpu, d: Dma, env: Env, v: nat, held: bool)
    requires Sound(c0, c, env, v, held)
    ensures Sound(c0, WriteOam(c, d, env).cpu, env, v, held)
  {
    hide StartCycle, EndCycle, BusWrite, Settled, Sound;
    Elsewhere(c0, c, Settle(c), env, v, held);
    WriteSound(c0, Settle(c), 0x2004, d.val, true, env, v, held);
    Elsewhere(c0, EndCycle(BusWrite(StartCycle(Settle(c), true, env), 0x2004, d.val, env), true, env),
        WriteOam(c, d, env).cpu, env, v, held);
  }

  lemma TurnSound(c0: Cpu, c: Cpu, d: Dma, addr: bv16, env: Env, v: nat, held: bool)
    requires Sound(c0, c, env, v, held)
    ensures Sound(c0, DmaTurn(c, d, addr, env).cpu, env, v, held)
  {
    hide Sound, LoadDmc, ReadOam, WriteOam, DmaWait;
    WaitSound(c0, c, addr, env, v, held);
    LoadDmcSound(c0, c, d, env, v, held);
    ReadOamSound(c0, c, d, env, v, held);
    WriteOamSound(c0, c, d, env, v, held);
  }

  lemma {:induction false} LoopSound(c0: Cpu, c: Cpu, d: Dma, addr: bv16, env: Env, v: nat, held: bool)
    requires Sound(c0, c, env, v, held) && Busy(c, d)
    ensures Sound(c0, DmaLoop(c, d, addr, env), env, v, held)
    decreases PollsLeft(c, env), WorkLeft(c, d)
  {
    hide Sound, DmaTurn;
    if c.lines.oam || c.lines.dmc {
      TurnProgresses(c, d, addr, env);
      TurnSound(c0, c, d, addr, env, v, held);
      var t := DmaTurn(c, d, addr, env);
      LoopSound(c0, t.cpu, t.dma, addr, env, v, held);
    }
  }

  lemma HandleDmaSound(c0: Cpu, c: Cpu, addr: bv16, env: Env, v: nat, held: bool)
    requires Sound(c0, c, env, v, held)
    ensures Sound(c0, HandleDma(c, addr, env), env, v, held)
  {
    hide Sound, DmaLoop, ReadCycle;
    ReadSound(c0, c, addr, env, v, held);
    Elsewhere(c0, ReadCycle(c, addr, env).cpu, Halted(c, addr, env), env, v, held);
    LoopSound(c0, Halted(c, addr, env), CpuSpec.Dma(0, 0, 0), addr, env, v, held);
  }

  lemma ReadsSound(c0: Cpu, c: Cpu, addr: bv16, env: Env, v: nat, held: bool)
    requires Sound(c0, c, env, v, held)
    ensures Sound(c0, Read(c, addr, env).cpu, env, v, held) && PrevSeen(Read(c, addr, env).cpu)
    ensures Plain(addr) && 0x2000 <= addr ==> Read(c, addr, env).val == env.rom(addr)
  {
    hide Sound, HandleDma, ReadCycle, PrevSeen;
    HandleDmaSound(c0, c, addr, env, v, held);
    var d := if c.lines.halt || c.lines.oam then HandleDma(c, addr, env) else c;
    ReadSound(c0, d, addr, env, v, held);
    ReadPasses(d, addr, env);
  }

  // ----- interrupt sequences

  lemma PushSound(c0: Cpu, c: Cpu, val: bv8, env: Env, v: nat, held: bool)
    requires Sound(c0, c, env, v, held)
    ensures Sound(c0, Push(c, val, env), env, v, held)
  {
    hide Sound, StartCycle, EndCycle, BusWrite, PrevSeen;
    var addr := 0x0100 | (c.regs.sp as bv16);
    WriteSound(c0, c, addr, val, false, env, v, held);
    Elsewhere(c0, WriteCycle(c, addr, val, env), Push(c, val, env), env, v, held);
  }

  lemma PushWordSound(c0: Cpu, c: Cpu, val: bv16, env: Env, v: nat, held: bool)
    requires Sound(c0, c, env, v, held)
    ensures Sound(c0, PushWord(c, val, env), env, v, held)
  {
    hide Sound, Push;
    PushSound(c0, c, (val >> 8) as bv8, env, v, held);
    PushSound(c0, Push(c, (val >> 8) as bv8, env), (val & 0xFF) as bv8, env, v, held);
  }

  function Target(env: Env, vector: bv16): bv16 {
    Word(env.rom(NextAddr(vector)), env.rom(vector))
  }

  lemma VectorsPlain(vector: bv16)
    requires vector == NMI_VECTOR || vector == IRQ_VECTOR
    ensures Plain(vector) && 0x2000 <= vector && Plain(NextAddr(vector)) && 0x2000 <= NextAddr(vector)
  {
  }

  lemma JumpSound(c0: Cpu, c: Cpu, vector: bv16, env: Env, v: nat, held: bool)
    requires Sound(c0, c, env, v, held) && (vector == NMI_VECTOR || vector == IRQ_VECTOR)
    ensures
      var r := JumpThrough(c, vector, env);
      Sound(c0, r, env, v, held) && PrevSeen(r) && r.regs.pc == Target(env, vector)
  {
    VectorsPlain(vector);
    hide Sound, Read, Word, NextAddr, Plain;
    ReadsSound(c0, c, vector, env, v, held);
    var lo := Read(c, vector, env);
    ReadsSound(c0, lo.cpu, NextAddr(vector), env, v, held);
    Elsewhere(c0, Read(lo.cpu, NextAddr(vector), env).cpu, JumpThrough(c, vector, env), env, v, held);
  }

  lemma PushStatusSound(c0: Cpu, c: Cpu, status: bv8, env: Env, v: nat, held: bool)
    requires Sound(c0, c, env, v, held)
    ensures Sound(c0, PushStatus(c, status, env), env, v, held)
  {
    hide Sound, Push;
    PushSound(c0, c, status, env, v, held);
    Elsewhere(c0, Push(c, status, env), PushStatus(c, status, env), env, v, held);
  }

  /** What an interrupt sequence comes to: NMI's vector and one edge used up, or IRQ's. */
  ghost predicate Interrupted(c0: Cpu, r: Cpu, env: Env, v: nat, nmi: bool) {
    && Sound(c0, r, env, if nmi then v + 1 else v, false) && PrevSeen(r)
    && r.regs.pc == Target(env, if nmi then NMI_VECTOR else IRQ_VECTOR)
  }

  lemma VectoredSound(c0: Cpu, c: Cpu, status: bv8, env: Env, v: nat)
    requires Sound(c0, c, env, v, false)
    ensures Interrupted(c0, Vectored(c, status, env), env, v, c.ints.nmi)
  {
    hide PushStatus, JumpThrough, Target, PrevSeen, Good, Latched;
    if c.ints.nmi {
      TakeLatches(c.ints, v);
      var t := c.(ints := Take(c.ints));
      GoodElsewhere(c0, c, t, env);
      PushStatusSound(c0, t, status, env, v + 1, false);
      JumpSound(c0, PushStatus(t, status, env), NMI_VECTOR, env, v + 1, false);
    } else {
      PushStatusSound(c0, c, status, env, v, false);
      JumpSound(c0, PushStatus(c, status, env), IRQ_VECTOR, env, v, false);
    }
  }

  lemma GoodElsewhere(c0: Cpu, c: Cpu, r: Cpu, env: Env)
    requires Good(c0, c, env) && r.cycle == c.cycle && r.masterClock == c.masterClock && r.ppu == c.ppu
    ensures Good(c0, r, env)
  {
  }

  lemma Release(c0: Cpu, c: Cpu, env: Env, v: nat, held: bool)
    requires Sound(c0, c, env, v, held)
    ensures Sound(c0, c, env, v, false) && (held ==> c.ints.nmi) && (c.ints.nmi ==> Sound(c0, c, env, v, true))
  {
  }

  /** An NMI that is latched when the sequence begins is the one that is taken. */
  lemma IrqSound(c0: Cpu, c: Cpu, env: Env, v: nat)
    requires Sound(c0, c, env, v, false)
    ensures exists nmi :: Interrupted(c0, Irq(c, env), env, v, nmi)
    ensures c.ints.nmi ==> Interrupted(c0, Irq(c, env), env, v, true)
  {
    hide Sound, Read, PushWord, Vectored, Interrupted;
    var held := c.ints.nmi;
    Release(c0, c, env, v, false);
    var a := Read(c, c.regs.pc, env).cpu;
    ReadsSound(c0, c, c.regs.pc, env, v, held);
    var d := Read(a, c.regs.pc, env).cpu;
    ReadsSound(c0, a, c.regs.pc, env, v, held);
    var p := PushWord(d, c.regs.pc, env);
    PushWordSound(c0, d, c.regs.pc, env, v, held);
    Release(c0, p, env, v, held);
    VectoredSound(c0, p, (c.regs.status | UNUSED) & !BREAK, env, v);
    assert Interrupted(c0, Irq(c, env), env, v, p.ints.nmi);
  }

  lemma BrkSound(c0: Cpu, c: Cpu, env: Env, v: nat)
    requires Sound(c0, c, env, v, false)
    ensures PrevSeen(Brk(c, env)) && (Sound(c0, Brk(c, env), env, v, false)
        || Sound(c0, Brk(c, env), env, v + 1, false))
    ensures exists nmi :: Interrupted(c0, Brk(c, env), env, v, nmi)
  {
    hide Sound, Target, Read, PushWord, Vectored, NextAddr;
    var pc := NextAddr(c.regs.pc);
    var m := c.(regs := c.regs.(pc := pc));
    Elsewhere(c0, c, m, env, v, false);
    var d := Read(m, c.regs.pc, env).cpu;
    ReadsSound(c0, m, c.regs.pc, env, v, false);
    var p := PushWord(d, pc, env);
    PushWordSound(c0, d, pc, env, v, false);
    var w := Vectored(p, (c.regs.status | UNUSED) | BREAK, env);
    VectoredSound(c0, p, (c.regs.status | UNUSED) | BREAK, env, v);
    Unseen(c0, w, Brk(c, env), env, if p.ints.nmi then v + 1 else v);
    assert Interrupted(c0, Brk(c, env), env, v, p.ints.nmi);
  }

  lemma Unseen(c0: Cpu, c: Cpu, r: Cpu, env: Env, v: nat)
    requires Sound(c0, c, env, v, false) && r.ints == c.ints.(prevNmi := false)
    requires r.cycle == c.cycle && r.masterClock == c.masterClock && r.ppu == c.ppu
    ensures Sound(c0, r, env, v, false) && PrevSeen(r)
  {
    GoodElsewhere(c0, c, r, env);
    hide Good;
  }

  // ----- instructions

  lemma BatchSound(c0: Cpu, c: Cpu, env: Env, v: nat)
    requires Sound(c0, c, env, v, false)
    ensures
      var r := HandleInterrupts(c.(ppu := CatchUp(c.ppu, c.masterClock, env)), env);
      Sound(c0, r, env, v, false) && PrevSeen(r) && (c.cycle > 0 ==> Exact(r, env)) && r.cycle == c.cycle
  {
    hide CatchUp, Sampled, Latched, Requested;
    var p := CatchUp(c.ppu, c.masterClock, env);
    SampleLatches(c.ints, p.nmiPending, env.irqs(c.polls) && c.regs.status & IRQ_DISABLE == 0, v);
    if c.cycle > 0 {
      BatchDots(c0, c, env);
    } else {
      NoDots(c.ppu, env);
    }
  }

  lemma BatchDots(c0: Cpu, c: Cpu, env: Env)
    requires Good(c0, c, env) && c.cycle > 0
    ensures
      var p := CatchUp(c.ppu, c.masterClock, env);
      && DotsFrom(c0.ppu, p, env.ppu.region) && p.masterClock <= c.masterClock - PPU_OFFSET
      && CaughtUp(p, c.masterClock - PPU_OFFSET, env.ppu.region)
  {
    hide CatchUp;
    BoundaryClock(c, env);
    CatchUpDots(c0.ppu, c.ppu, c.masterClock, env);
  }

  /** At a boundary the PPU is never in the last clock. */
  lemma BoundaryClock(c: Cpu, env: Env)
    requires c.cycle > 0 && c.masterClock == CycleClocks(env.ppu.region) * c.cycle
    ensures c.masterClock >= CycleClocks(env.ppu.region) > PPU_OFFSET
  {
  }

  lemma NoDots(p: P.Ppu, env: Env)
    ensures CatchUp(p, 0, env) == p
  {
  }

  lemma FinishSound(c0: Cpu, c: Cpu, env: Env, v: nat)
    requires Sound(c0, c, env, v, false) && PrevSeen(c)
    ensures
      var r := Finish(c, env);
      && (Sound(c0, r, env, v, false) || Sound(c0, r, env, v + 1, false)) && PrevSeen(r)
      && (r.cycle > 0 ==> Exact(r, env))
      && (c.ints.prevNmi ==> Sound(c0, r, env, v + 1, false) && r.regs.pc == Target(env, NMI_VECTOR))
  {
    hide Irq, Target, Sound, HandleInterrupts, Exact;
    if c.ints.prevRunIrq || c.ints.prevNmi {
      IrqSound(c0, c, env, v);
      var i := Irq(c, env);
      var nmi :| Interrupted(c0, i, env, v, nmi);
      FinishFrom(c0, i, env, if nmi then v + 1 else v);
      if c.ints.prevNmi {
        FinishFrom(c0, i, env, v + 1);
      }
    } else {
      FinishFrom(c0, c, env, v);
    }
  }

  lemma FinishFrom(c0: Cpu, i: Cpu, env: Env, v: nat)
    requires Sound(c0, i, env, v, false) && PrevSeen(i)
    ensures
      var r := if env.accurate then i else HandleInterrupts(i.(ppu := CatchUp(i.ppu, i.masterClock, env)), env);
      Sound(c0, r, env, v, false) && PrevSeen(r) && (r.cycle > 0 ==> Exact(r, env)) && r.regs == i.regs
  {
    hide CatchUp, Latched, Exact, Sampled, Requested;
    BatchSound(c0, i, env, v);
  }

  // ----- runs

  /** The engine as a reset leaves it, before its first cycle. */
  predicate PowerOn(c: Cpu) {
    c.cycle == 0 && c.masterClock == 0 && c.ppu.masterClock == 0
        && c.ints == Interrupts(false, false, false, false, false, [])
  }

  ghost predicate Healthy(c0: Cpu, c: Cpu, env: Env) {
    Sound(c0, c, env, Vectors(c.ints.marks), false) && PrevSeen(c)
  }

  lemma SoundIsHealthy(c0: Cpu, c: Cpu, env: Env, v: nat)
    requires Sound(c0, c, env, v, false)
    ensures v == Vectors(c.ints.marks)
  {
  }

  lemma StepHealthy(c0: Cpu, c: Cpu, a: Act, env: Env)
    requires Healthy(c0, c, env)
    ensures Healthy(c0, Step(c, a, env), env)
  {
    hide Sound, Read, WriteCycle, IdleCycle, Brk, Finish, Vectors, PrevSeen;
    var v := Vectors(c.ints.marks);
    var r := Step(c, a, env);
    match a
    case Rd(addr) =>
      ReadsSound(c0, c, addr, env, v, false);
      SoundIsHealthy(c0, r, env, v);
    case Wr(addr, val) =>
      WriteStep(c0, c, addr, val, env, v);
      SoundIsHealthy(c0, r, env, v);
    case Idle =>
      IdleSound(c0, c, env, v, false);
      SoundIsHealthy(c0, r, env, v);
    case Set(regs) =>
      Elsewhere(c0, c, r, env, v, false);
      SameSeen(c, r);
    case Break =>
      BrkSound(c0, c, env, v);
      SoundIsHealthy(c0, r, env, if Sound(c0, r, env, v, false) then v else v + 1);
    case End =>
      FinishSound(c0, c, env, v);
      SoundIsHealthy(c0, r, env, if Sound(c0, r, env, v, false) then v else v + 1);
  }

  lemma SameSeen(c: Cpu, r: Cpu)
    requires PrevSeen(c) && r.ints == c.ints
    ensures PrevSeen(r)
  {
  }

  lemma WriteStep(c0: Cpu, c: Cpu, addr: bv16, val: bv8, env: Env, v: nat)
    requires Sound(c0, c, env, v, false)
    ensures Sound(c0, WriteCycle(c, addr, val, env), env, v, false) && PrevSeen(WriteCycle(c, addr, val, env))
  {
    hide Sound, StartCycle, EndCycle, BusWrite, PrevSeen;
    WriteSound(c0, c, addr, val, false, env, v, false);
  }

  lemma {:induction false} RunHealthy(c: Cpu, acts: seq<Act>, env: Env)
    requires PowerOn(c)
    ensures Healthy(c, Run(c, acts, env), env)
  {
    hide Step;
    if acts != [] {
      RunHealthy(c, acts[..|acts| - 1], env);
      StepHealthy(c, Run(c, acts[..|acts| - 1], env), acts[|acts| - 1], env);
    }
  }

  /** An instruction has just ended, or the PPU is kept up to date all along. */
  predicate InSync(acts: seq<Act>, env: Env) {
    env.accurate || (acts != [] && acts[|acts| - 1] == End)
  }

  lemma InSyncExact(c: Cpu, acts: seq<Act>, env: Env)
    requires PowerOn(c) && InSync(acts, env) && Run(c, acts, env).cycle > 0
    ensures Exact(Run(c, acts, env), env)
  {
    hide Step, Finish, Exact, PowerOn, PrevSeen;
    RunHealthy(c, acts, env);
    if !env.accurate {
      var q := Run(c, acts[..|acts| - 1], env);
      RunHealthy(c, acts[..|acts| - 1], env);
      EndIsFinish(q, env);
      FinishSound(c, q, env, Vectors(q.ints.marks));
    }
  }

  lemma EndIsFinish(c: Cpu, env: Env)
    ensures Step(c, End, env) == Finish(c, env)
  {
    hide Finish;
  }

  /** The dots that fit into the master clocks of n CPU cycles, less the offset. */
  function Dots(n: nat, r: Region): int {
    (CycleClocks(r) * n - PPU_OFFSET) / P.ClockDivider(r)
  }

  /** After any n CPU cycles, in any mix of reads, writes, DMA and interrupts, the PPU has run exactly
    the dots that fit: at every cycle in cycle-accurate mode, and at the end of every instruction
    in batches. */
  lemma InLockstep(c: Cpu, acts: seq<Act>, env: Env)
    requires PowerOn(c) && InSync(acts, env) && Run(c, acts, env).cycle > 0
    ensures
      var r := Run(c, acts, env);
      && r.masterClock == CycleClocks(env.ppu.region) * r.cycle
      && r.ppu.clocks - c.ppu.clocks == Dots(r.cycle, env.ppu.region)
  {
    hide Run, Latched, PrevSeen;
    RunHealthy(c, acts, env);
    InSyncExact(c, acts, env);
    var r := Run(c, acts, env);
    match env.ppu.region
    case Ntsc =>
    case Pal =>
    case Dendy =>
  }

  lemma DotsPerRegion(n: nat)
    requires n > 0
    ensures Dots(n, Ntsc) == 3 * n - 1 && Dots(n, Dendy) == 3 * n - 1 && Dots(n, Pal) == (16 * n - 1) / 5
  {
  }

  /** So both modes agree on the number of dots wherever they agree on the number of cycles. */
  lemma ModesAgree(c: Cpu, fine: seq<Act>, env: Env, d: Cpu, batch: seq<Act>, env': Env)
    requires PowerOn(c) && PowerOn(d) && env.accurate && !env'.accurate && env'.ppu.region == env.ppu.region
    requires batch != [] && batch[|batch| - 1] == End
    requires Run(c, fine, env).cycle == Run(d, batch, env').cycle > 0
    ensures Run(c, fine, env).ppu.clocks - c.ppu.clocks == Run(d, batch, env').ppu.clocks - d.ppu.clocks
  {
    hide Run, Dots, PowerOn;
    InLockstep(c, fine, env);
    InLockstep(d, batch, env');
  }

  /** Between any two fetches of the NMI vector lies a sampled rising edge of its own. */
  lemma NmiNeedsEdge(c: Cpu, acts: seq<Act>, env: Env, i: nat, j: nat)
    requires PowerOn(c)
    requires
      var m := Run(c, acts, env).ints.marks;
      i < j < |m| && m[i] == Vector && m[j] == Vector
    ensures
      var m := Run(c, acts, env).ints.marks;
      exists k :: i < k < j && m[k] == Edge
  {
    hide Run, Good, Vectors;
    RunHealthy(c, acts, env);
    assert Run(c, acts, env).ints.marks[j - 1] == Edge;
  }

  /** An instruction that ends with the request seen goes through the vector of NMI, even if an IRQ
    is waiting too. */
  lemma NmiIsServed(c: Cpu, acts: seq<Act>, env: Env)
    requires PowerOn(c) && Run(c, acts, env).ints.prevNmi
    ensures
      var q := Run(c, acts, env);
      var r := Finish(q, env);
      && Vectors(r.ints.marks) == Vectors(q.ints.marks) + 1
      && r.regs.pc == Target(env, NMI_VECTOR)
  {
    hide Run, Finish, PrevSeen, Target, Vectors, Good;
    var q := Run(c, acts, env);
    RunHealthy(c, acts, env);
    FinishSound(c, q, env, Vectors(q.ints.marks));
    SoundIsHealthy(c, Finish(q, env), env, Vectors(q.ints.marks) + 1);
  }

  /** The acts that leave a latched NMI to the end of the instruction. */
  predicate Leaves(a: Act) {
    !a.Break? && !a.End?
  }

  predicate OnTheBus(a: Act) {
    a.Rd? || a.Wr? || a.Idle?
  }

  lemma EndSees(c: Cpu, read: bool, env: Env)
    requires c.ints.nmi
    ensures EndCycle(c, read, env).ints.prevNmi && EndCycle(c, read, env).ints.nmi
  {
    hide CatchUp, EndClock, Requested;
  }

  lemma ReadSees(c0: Cpu, c: Cpu, addr: bv16, env: Env, v: nat)
    requires Sound(c0, c, env, v, true)
    ensures Read(c, addr, env).cpu.ints.prevNmi
  {
    hide Good, Latched, HandleDma, StartCycle, BusRead, EndCycle;
    HandleDmaSound(c0, c, addr, env, v, true);
    var d := if c.lines.halt || c.lines.oam then HandleDma(c, addr, env) else c;
    StartKeeps(d, true, env);
    BusReadKeeps(StartCycle(d, true, env), addr, env);
    EndSees(BusRead(StartCycle(d, true, env), addr, env).cpu, true, env);
  }

  lemma IdleSees(c: Cpu, env: Env)
    requires c.ints.nmi
    ensures IdleCycle(c, env).ints.prevNmi
  {
    hide StartCycle, EndCycle;
    StartKeeps(c, true, env);
    EndSees(StartCycle(c, true, env), true, env);
  }

  lemma WriteSees(c: Cpu, addr: bv16, val: bv8, env: Env)
    requires c.ints.nmi
    ensures WriteCycle(c, addr, val, env).ints.prevNmi
  {
    hide StartCycle, EndCycle, BusWrite;
    StartKeeps(c, false, env);
    BusWriteInts(StartCycle(c, false, env), addr, val, env);
    EndSees(BusWrite(StartCycle(c, false, env), addr, val, env), false, env);
  }

  lemma ActHolds(c0: Cpu, c: Cpu, a: Act, env: Env, v: nat)
    requires Sound(c0, c, env, v, true) && PrevSeen(c) && Leaves(a)
    ensures
      var r := Step(c, a, env);
      Sound(c0, r, env, v, true) && PrevSeen(r) && (c.ints.prevNmi || OnTheBus(a) ==> r.ints.prevNmi)
  {
    hide Good, Latched, Read, WriteCycle, IdleCycle, Brk, Finish;
    match a
    case Rd(addr) =>
      ReadsSound(c0, c, addr, env, v, true);
      ReadSees(c0, c, addr, env, v);
    case Wr(addr, val) =>
      WriteHolds(c0, c, addr, val, env, v);
      WriteSees(c, addr, val, env);
    case Idle =>
      IdleSound(c0, c, env, v, true);
      IdleSees(c, env);
    case Set(regs) =>
      Elsewhere(c0, c, Step(c, a, env), env, v, true);
  }

  lemma WriteHolds(c0: Cpu, c: Cpu, addr: bv16, val: bv8, env: Env, v: nat)
    requires Sound(c0, c, env, v, true)
    ensures Sound(c0, WriteCycle(c, addr, val, env), env, v, true) && PrevSeen(WriteCycle(c, addr, val, env))
  {
    hide Sound, PrevSeen, StartCycle, EndCycle, BusWrite;
    WriteSound(c0, c, addr, val, false, env, v, true);
  }

  lemma {:induction false} ActsHold(c0: Cpu, c: Cpu, acts: seq<Act>, env: Env, v: nat)
    requires Sound(c0, c, env, v, true) && PrevSeen(c)
    requires forall i :: 0 <= i < |acts| ==> Leaves(acts[i])
    ensures
      var r := Run(c, acts, env);
      && Sound(c0, r, env, v, true) && PrevSeen(r)
      && ((exists i :: 0 <= i < |acts| && OnTheBus(acts[i])) ==> r.ints.prevNmi)
  {
    hide Sound, PrevSeen, Step, Leaves, OnTheBus;
    if acts != [] {
      var k := |acts| - 1;
      ActsHold(c0, c, acts[..k], env, v);
      ActHolds(c0, Run(c, acts[..k], env), acts[k], env, v);
      if !OnTheBus(acts[k]) && exists i :: 0 <= i < |acts| && OnTheBus(acts[i]) {
        var i :| 0 <= i < |acts| && OnTheBus(acts[i]);
        assert OnTheBus(acts[..k][i]);
      }
    }
  }

  /** No edge is lost. Once NMI is latched, an instruction that takes at least one more bus cycle ends
    in its vector, whatever DMA comes between; and a BRK on the way takes the vector itself. */
  lemma LatchedIsServed(c: Cpu, before: seq<Act>, acts: seq<Act>, env: Env)
    requires PowerOn(c) && Run(c, before, env).ints.nmi
    requires forall i :: 0 <= i < |acts| ==> Leaves(acts[i])
    ensures
      var q := Run(c, before, env);
      var r := Run(q, acts, env);
      && r.ints.nmi
      && ((exists i :: 0 <= i < |acts| && OnTheBus(acts[i])) ==>
            Vectors(Finish(r, env).ints.marks) == Vectors(q.ints.marks) + 1
                && Finish(r, env).regs.pc == Target(env, NMI_VECTOR))
      && Vectors(Brk(r, env).ints.marks) == Vectors(q.ints.marks) + 1 && Brk(r, env).regs.pc == Target(env, NMI_VECTOR)
  {
    hide Run, Finish, Brk, PrevSeen, Target, Vectors, Good, Latched, Leaves, OnTheBus;
    RunHealthy(c, before, env);
    var q := Run(c, before, env);
    var v := Vectors(q.ints.marks);
    ActsHold(c, q, acts, env, v);
    var r := Run(q, acts, env);
    Release(c, r, env, v, true);
    if r.ints.prevNmi {
      FinishSound(c, r, env, v);
      SoundIsHealthy(c, Finish(r, env), env, v + 1);
    }
    BrkTakes(c, r, env, v);
    SoundIsHealthy(c, Brk(r, env), env, v + 1);
  }

  lemma BrkTakes(c0: Cpu, c: Cpu, env: Env, v: nat)
    requires Sound(c0, c, env, v, true)
    ensures Sound(c0, Brk(c, env), env, v + 1, false) && Brk(c, env).regs.pc == Target(env, NMI_VECTOR)
  {
    hide Sound, Read, PushWord, Vectored, NextAddr, Target;
    var pc := NextAddr(c.regs.pc);
    var m := c.(regs := c.regs.(pc := pc));
    Elsewhere(c0, c, m, env, v, true);
    var d := Read(m, c.regs.pc, env).cpu;
    ReadsSound(c0, m, c.regs.pc, env, v, true);
    var p := PushWord(d, pc, env);
    PushWordSound(c0, d, pc, env, v, true);
    Release(c0, p, env, v, true);
    var w := Vectored(p, (c.regs.status | UNUSED) | BREAK, env);
    VectoredSound(c0, p, (c.regs.status | UNUSED) | BREAK, env, v);
    Unseen(c0, w, Brk(c, env), env, v + 1);
  }
}
