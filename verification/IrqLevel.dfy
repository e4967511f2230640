/** IRQ is a level: it is taken at the end of an instruction exactly if the line was low, and not kept
  out by bit 2 of the status, in the second-to-last cycle. NMI is an edge: it is taken there exactly if the
  request rose in that cycle or before. */
module IrqLevel {
  import opened CpuSpec
  import opened StackFrame
  import opened ByteBits

  predicate Asked(c: Cpu, env: Env) {
    env.irqs(c.polls) && c.regs.status as int / 4 % 2 == 0
  }

  lemma MaskedBit(status: bv8)
    ensures (status & IRQ_DISABLE == 0) == (status as int / 4 % 2 == 0)
  {
    BitsAre(status);
  }

  /** A bus cycle sees the line as it is, and keeps what the cycle before it saw. */
  lemma CycleSees(c: Cpu, addr: bv16, env: Env)
    ensures
      var r := ReadCycle(c, addr, env).cpu;
      && r.ints.runIrq == Asked(c, env) && r.ints.prevRunIrq == c.ints.runIrq
      && r.polls == c.polls + 1 && r.regs == c.regs
  {
    hide StartCycle, BusRead, CatchUp, EndClock, Requested, Peek, Plain;
    MaskedBit(c.regs.status);
    StartKeeps(c, true, env);
    BusReadKeeps(StartCycle(c, true, env), addr, env);
  }

  /** The last two cycles of an instruction, without DMA. */
  function LastCycles(c: Cpu, a: bv16, b: bv16, env: Env): Cpu {
    ReadCycle(ReadCycle(c, a, env).cpu, b, env).cpu
  }

  lemma LastCyclesSee(c: Cpu, a: bv16, b: bv16, env: Env)
    ensures LastCycles(c, a, b, env).ints.prevRunIrq == Asked(c, env) && LastCycles(c, a, b, env).regs == c.regs
  {
    hide ReadCycle, Asked;
    CycleSees(c, a, env);
    CycleSees(ReadCycle(c, a, env).cpu, b, env);
  }

  lemma FinishTakes(c: Cpu, env: Env)
    ensures
      var r := Finish(c, env);
      var i := if c.ints.prevRunIrq || c.ints.prevNmi then Irq(c, env) else c;
      r.regs == i.regs && r.wram == i.wram
  {
    hide Irq, CatchUp, HandleInterrupts;
    HandlesLines(if c.ints.prevRunIrq || c.ints.prevNmi then Irq(c, env) else c, env);
  }

  lemma HandlesLines(c: Cpu, env: Env)
    ensures
      var r := HandleInterrupts(c.(ppu := CatchUp(c.ppu, c.masterClock, env)), env);
      r.regs == c.regs && r.wram == c.wram
  {
    hide CatchUp, Sampled, Requested;
  }

  /** At the end of an instruction without NMI: if the line asked in its second-to-last cycle, the
    sequence is entered, and otherwise nothing happens. */
  lemma IrqIsTaken(c: Cpu, a: bv16, b: bv16, env: Env)
    requires !LastCycles(c, a, b, env).ints.prevNmi
    ensures PushedFits(c.regs.status as int, false)
    ensures
      var q := LastCycles(c, a, b, env);
      var r := Finish(q, env);
      if Asked(c, env) then
        && r.wram == Framed(q.wram, c.regs.sp as int, c.regs.pc as int, Pushed(c.regs.status as int, false))
        && r.regs.sp as int == (c.regs.sp as int - 3) % 0x100
        && r.regs.status as int == Disabled(c.regs.status as int)
      else r.regs == c.regs && r.wram == q.wram
  {
    hide LastCycles, Finish, Irq, Asked, Framed, Pushed, Disabled, PushedFits;
    LastCyclesSee(c, a, b, env);
    var q := LastCycles(c, a, b, env);
    FinishTakes(q, env);
    IrqStores(q, env);
  }

  /** The request rises in a cycle: it was not there at the end of the one before. */
  predicate Rises(c: Cpu, r: Cpu) {
    !c.ints.prevNmiPending && r.ppu.nmiPending
  }

  lemma CycleLatches(c: Cpu, addr: bv16, env: Env)
    ensures
      var r := ReadCycle(c, addr, env).cpu;
      && r.ints.nmi == (c.ints.nmi || Rises(c, r)) && r.ints.prevNmi == c.ints.nmi
      && r.ints.prevNmiPending == r.ppu.nmiPending
  {
    hide StartCycle, BusRead, CatchUp, EndClock, Requested, Peek, Plain;
    StartKeeps(c, true, env);
    BusReadKeeps(StartCycle(c, true, env), addr, env);
  }

  /** A request that rises in the last cycle of an instruction waits for the next. */
  lemma NmiIsSeen(c: Cpu, a: bv16, b: bv16, env: Env)
    ensures
      LastCycles(c, a, b, env).ints.prevNmi <==> c.ints.nmi || Rises(c, ReadCycle(c, a, env).cpu)
  {
    hide ReadCycle, Rises;
    CycleLatches(c, a, env);
    CycleLatches(ReadCycle(c, a, env).cpu, b, env);
  }

  /** BRK puts an NMI off: unless an IRQ asks, nothing happens at its end. */
  lemma BrkPutsOff(c: Cpu, env: Env)
    requires !Brk(c, env).ints.prevRunIrq
    ensures Finish(Brk(c, env), env).regs == Brk(c, env).regs && Finish(Brk(c, env), env).wram == Brk(c, env).wram
  {
    hide Finish, Irq, Read, PushWord, Vectored;
    FinishTakes(Brk(c, env), env);
  }
}
