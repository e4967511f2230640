/** What the CPU engine does, taken apart: every act, with the DMA and the interrupt sequences in it,
  is a sequence of bus cycles with a little bookkeeping between them. What holds after every beat
  therefore holds in every run. */
module Beats {
  import opened CpuSpec

  datatype Beat =
    | ReadBeat(addr: bv16)
    | WriteBeat(addr: bv16, val: bv8, read: bool)
    | IdleBeat
    | SampleBeat
    | SettleBeat
    | UnhaltBeat
    | OamDoneBeat
    | RegsBeat(regs: Registers)
    | TakeBeat
    | UnseeBeat
    | BatchBeat

  /** The cycle that hands over a byte of a sample, while one is asked for. */
  function SampleCycle(c: Cpu, env: Env): Cpu {
    if !c.lines.dmc then c
    else
      var f := ReadCycle(c, env.dmcAddr(c.polls), env);
      f.cpu.(lines := f.cpu.lines.(dmc := false), loaded := f.cpu.loaded + [Sample(c.polls, f.val)])
  }

  function Bus(c: Cpu, addr: bv16, val: bv8, read: bool, env: Env): Cpu {
    EndCycle(BusWrite(StartCycle(c, read, env), addr, val, env), read, env)
  }

  /** Without cycle accuracy, the end of an instruction. */
  function Batch(c: Cpu, env: Env): Cpu {
    if env.accurate then c else HandleInterrupts(c.(ppu := CatchUp(c.ppu, c.masterClock, env)), env)
  }

  function Do(c: Cpu, b: Beat, env: Env): Cpu {
    match b
    case ReadBeat(addr) => ReadCycle(c, addr, env).cpu
    case WriteBeat(addr, val, read) => Bus(c, addr, val, read, env)
    case IdleBeat => IdleCycle(c, env)
    case SampleBeat => SampleCycle(c, env)
    case SettleBeat => Settle(c)
    case UnhaltBeat => c.(lines := c.lines.(halt := false))
    case OamDoneBeat => c.(lines := c.lines.(oam := false))
    case RegsBeat(regs) => c.(regs := regs)
    case TakeBeat => if c.ints.nmi then c.(ints := Take(c.ints)) else c
    case UnseeBeat => c.(ints := c.ints.(prevNmi := false))
    case BatchBeat => Batch(c, env)
  }

  function After(c: Cpu, bs: seq<Beat>, env: Env): Cpu {
    if bs == [] then c else Do(After(c, bs[..|bs| - 1], env), bs[|bs| - 1], env)
  }

  lemma {:induction false} AfterConcat(c: Cpu, a: seq<Beat>, b: seq<Beat>, env: Env)
    ensures After(c, a + b, env) == After(After(c, a, env), b, env)
  {
    hide Do;
    if b == [] {
      assert a + b == a;
    } else {
      assert (a + b)[..|a + b| - 1] == a + b[..|b| - 1];
      AfterConcat(c, a, b[..|b| - 1], env);
    }
  }

  /** One more beat. */
  lemma Then(c: Cpu, a: seq<Beat>, b: Beat, env: Env)
    ensures After(c, a + [b], env) == Do(After(c, a, env), b, env)
  {
    hide Do;
    assert (a + [b])[..|a|] == a;
  }

  lemma Nothing(c: Cpu, env: Env)
    ensures After(c, [], env) == c
  {
  }

  // ----- DMA

  lemma WaitBeats(c: Cpu, addr: bv16, env: Env) returns (bs: seq<Beat>)
    ensures After(c, bs, env) == DmaWait(c, addr, env)
  {
    hide Settle, ReadCycle, StartCycle, EndCycle;
    var b := if SkipsDummies(addr) then IdleBeat else ReadBeat(addr);
    Nothing(c, env);
    Then(c, [], SettleBeat, env);
    Then(c, [] + [SettleBeat], b, env);
    bs := [] + [SettleBeat] + [b];
  }

  lemma LoadBeats(c: Cpu, d: Dma, env: Env) returns (bs: seq<Beat>)
    requires c.lines.dmc
    ensures After(c, bs, env) == LoadDmc(c, d, env).cpu
  {
    hide ReadCycle;
    Nothing(c, env);
    Then(c, [], SettleBeat, env);
    Then(c, [] + [SettleBeat], SampleBeat, env);
    bs := [] + [SettleBeat] + [SampleBeat];
  }

  lemma ReadOamBeats(c: Cpu, d: Dma, env: Env) returns (bs: seq<Beat>)
    ensures After(c, bs, env) == ReadOam(c, d, env).cpu
  {
    hide ReadCycle, Settle, PageAddr;
    var b := ReadBeat(PageAddr(c.lines.oamAddr, d.offset));
    Nothing(c, env);
    Then(c, [], SettleBeat, env);
    Then(c, [] + [SettleBeat], b, env);
    bs := [] + [SettleBeat] + [b];
  }

  lemma WriteOamBeats(c: Cpu, d: Dma, env: Env) returns (bs: seq<Beat>)
    ensures After(c, bs, env) == WriteOam(c, d, env).cpu
  {
    hide Settle, StartCycle, EndCycle, BusWrite;
    var b := WriteBeat(0x2004, d.val, true);
    Nothing(c, env);
    Then(c, [], SettleBeat, env);
    Then(c, [] + [SettleBeat], b, env);
    bs := [] + [SettleBeat] + [b];
    if d.count + 1 == 0x200 {
      Then(c, bs, OamDoneBeat, env);
      bs := bs + [OamDoneBeat];
    }
  }

  lemma TurnBeats(c: Cpu, d: Dma, addr: bv16, env: Env) returns (bs: seq<Beat>)
    ensures After(c, bs, env) == DmaTurn(c, d, addr, env).cpu
  {
    hide LoadDmc, ReadOam, WriteOam, DmaWait, After;
    if c.cycle % 2 == 0 && c.lines.dmc && !c.lines.halt && !c.lines.dummy {
      bs := LoadBeats(c, d, env);
    } else if c.cycle % 2 == 0 && c.lines.oam {
      bs := ReadOamBeats(c, d, env);
    } else if c.cycle % 2 == 1 && c.lines.oam && d.count % 2 == 1 {
      bs := WriteOamBeats(c, d, env);
    } else {
      bs := WaitBeats(c, addr, env);
    }
  }

  lemma {:induction false} LoopBeats(c: Cpu, d: Dma, addr: bv16, env: Env) returns (bs: seq<Beat>)
    requires Busy(c, d)
    ensures After(c, bs, env) == DmaLoop(c, d, addr, env)
    decreases PollsLeft(c, env), WorkLeft(c, d)
  {
    hide DmaTurn, After;
    if c.lines.oam || c.lines.dmc {
      TurnProgresses(c, d, addr, env);
      var turn := TurnBeats(c, d, addr, env);
      var t := DmaTurn(c, d, addr, env);
      var rest := LoopBeats(t.cpu, t.dma, addr, env);
      AfterConcat(c, turn, rest, env);
      bs := turn + rest;
    } else {
      Nothing(c, env);
      bs := [];
    }
  }

  lemma DmaBeats(c: Cpu, addr: bv16, env: Env) returns (bs: seq<Beat>)
    ensures After(c, bs, env) == HandleDma(c, addr, env)
  {
    hide DmaLoop, ReadCycle;
    Nothing(c, env);
    Then(c, [], ReadBeat(addr), env);
    Then(c, [] + [ReadBeat(addr)], UnhaltBeat, env);
    var halt := [] + [ReadBeat(addr)] + [UnhaltBeat];
    var rest := LoopBeats(Halted(c, addr, env), CpuSpec.Dma(0, 0, 0), addr, env);
    AfterConcat(c, halt, rest, env);
    bs := halt + rest;
  }

  lemma ReadBeats(c: Cpu, addr: bv16, env: Env) returns (bs: seq<Beat>)
    ensures After(c, bs, env) == Read(c, addr, env).cpu
  {
    hide HandleDma, ReadCycle;
    if c.lines.halt || c.lines.oam {
      bs := DmaBeats(c, addr, env);
    } else {
      Nothing(c, env);
      bs := [];
    }
    Then(c, bs, ReadBeat(addr), env);
    bs := bs + [ReadBeat(addr)];
  }

  // ----- interrupt sequences

  lemma BusWrites(c: Cpu, addr: bv16, val: bv8, env: Env)
    ensures Bus(c, addr, val, false, env) == WriteCycle(c, addr, val, env)
  {
    hide StartCycle, EndCycle, BusWrite;
  }

  lemma PushBeats(c: Cpu, val: bv8, env: Env) returns (bs: seq<Beat>)
    ensures After(c, bs, env) == Push(c, val, env)
  {
    hide Bus, WriteCycle, After;
    var b := WriteBeat(0x0100 | (c.regs.sp as bv16), val, false);
    BusWrites(c, b.addr, val, env);
    var w := WriteCycle(c, b.addr, val, env);
    var r := RegsBeat(w.regs.(sp := c.regs.sp - 1));
    Nothing(c, env);
    Then(c, [], b, env);
    Then(c, [] + [b], r, env);
    bs := [] + [b] + [r];
  }

  lemma PushWordBeats(c: Cpu, val: bv16, env: Env) returns (bs: seq<Beat>)
    ensures After(c, bs, env) == PushWord(c, val, env)
  {
    hide Push, After;
    var hi := PushBeats(c, (val >> 8) as bv8, env);
    var lo := PushBeats(Push(c, (val >> 8) as bv8, env), (val & 0xFF) as bv8, env);
    AfterConcat(c, hi, lo, env);
    bs := hi + lo;
  }

  lemma JumpBeats(c: Cpu, vector: bv16, env: Env) returns (bs: seq<Beat>)
    ensures After(c, bs, env) == JumpThrough(c, vector, env)
  {
    hide Read, After, NextAddr, Word;
    var lo := ReadBeats(c, vector, env);
    var l := Read(c, vector, env);
    var hi := ReadBeats(l.cpu, NextAddr(vector), env);
    var h := Read(l.cpu, NextAddr(vector), env);
    AfterConcat(c, lo, hi, env);
    var r := RegsBeat(h.cpu.regs.(pc := Word(h.val, l.val)));
    Then(c, lo + hi, r, env);
    bs := lo + hi + [r];
  }

  lemma PushStatusBeats(c: Cpu, status: bv8, env: Env) returns (bs: seq<Beat>)
    ensures After(c, bs, env) == PushStatus(c, status, env)
  {
    hide Push, After;
    bs := PushBeats(c, status, env);
    var p := Push(c, status, env);
    var r := RegsBeat(p.regs.(status := p.regs.status | IRQ_DISABLE));
    Then(c, bs, r, env);
    bs := bs + [r];
  }

  lemma VectoredBeats(c: Cpu, status: bv8, env: Env) returns (bs: seq<Beat>)
    ensures After(c, bs, env) == Vectored(c, status, env)
  {
    hide PushStatus, JumpThrough, After;
    var t := if c.ints.nmi then c.(ints := Take(c.ints)) else c;
    Nothing(c, env);
    Then(c, [], TakeBeat, env);
    var take := if c.ints.nmi then [] + [TakeBeat] else [];
    var push := PushStatusBeats(t, status, env);
    var jump := JumpBeats(PushStatus(t, status, env), if c.ints.nmi then NMI_VECTOR else IRQ_VECTOR, env);
    AfterConcat(c, take, push, env);
    AfterConcat(c, take + push, jump, env);
    bs := take + push + jump;
  }

  lemma IrqBeats(c: Cpu, env: Env) returns (bs: seq<Beat>)
    ensures After(c, bs, env) == Irq(c, env)
  {
    hide Read, PushWord, Vectored, After;
    var a := Read(c, c.regs.pc, env).cpu;
    var d := Read(a, c.regs.pc, env).cpu;
    var first := ReadBeats(c, c.regs.pc, env);
    var second := ReadBeats(a, c.regs.pc, env);
    var push := PushWordBeats(d, c.regs.pc, env);
    var rest := VectoredBeats(PushWord(d, c.regs.pc, env), (c.regs.status | UNUSED) & !BREAK, env);
    AfterConcat(c, first, second, env);
    AfterConcat(c, first + second, push, env);
    AfterConcat(c, first + second + push, rest, env);
    bs := first + second + push + rest;
  }

  lemma BrkBeats(c: Cpu, env: Env) returns (bs: seq<Beat>)
    ensures After(c, bs, env) == Brk(c, env)
  {
    hide Read, PushWord, Vectored, After, NextAddr;
    var pc := NextAddr(c.regs.pc);
    var r := RegsBeat(c.regs.(pc := pc));
    var m := c.(regs := r.regs);
    var d := Read(m, c.regs.pc, env).cpu;
    Nothing(c, env);
    Then(c, [], r, env);
    var first := ReadBeats(m, c.regs.pc, env);
    var push := PushWordBeats(d, pc, env);
    var rest := VectoredBeats(PushWord(d, pc, env), (c.regs.status | UNUSED) | BREAK, env);
    AfterConcat(c, [] + [r], first, env);
    AfterConcat(c, [] + [r] + first, push, env);
    AfterConcat(c, [] + [r] + first + push, rest, env);
    Then(c, [] + [r] + first + push + rest, UnseeBeat, env);
    bs := [] + [r] + first + push + rest + [UnseeBeat];
  }

  lemma FinishBeats(c: Cpu, env: Env) returns (bs: seq<Beat>)
    ensures After(c, bs, env) == Finish(c, env)
  {
    hide Irq, After, CatchUp, HandleInterrupts;
    if c.ints.prevRunIrq || c.ints.prevNmi {
      bs := IrqBeats(c, env);
    } else {
      Nothing(c, env);
      bs := [];
    }
    Then(c, bs, BatchBeat, env);
    bs := bs + [BatchBeat];
  }

  lemma ActBeats(c: Cpu, a: Act, env: Env) returns (bs: seq<Beat>)
    ensures After(c, bs, env) == Step(c, a, env)
  {
    hide Read, StartCycle, EndCycle, BusWrite, IdleCycle, Brk, Finish, After;
    match a
    case Rd(addr) => bs := ReadBeats(c, addr, env);
    case Break => bs := BrkBeats(c, env);
    case End => bs := FinishBeats(c, env);
    case Wr(addr, val) => bs := OneBeat(c, WriteBeat(addr, val, false), env);
    case Idle => bs := OneBeat(c, IdleBeat, env);
    case Set(regs) => bs := OneBeat(c, RegsBeat(regs), env);
  }

  lemma OneBeat(c: Cpu, b: Beat, env: Env) returns (bs: seq<Beat>)
    ensures After(c, bs, env) == Do(c, b, env)
  {
    hide Do;
    Nothing(c, env);
    Then(c, [], b, env);
    bs := [] + [b];
  }

  /** Every run is a sequence of beats. */
  lemma {:induction false} RunBeats(c: Cpu, acts: seq<Act>, env: Env) returns (bs: seq<Beat>)
    ensures After(c, bs, env) == Run(c, acts, env)
  {
    hide Step, After;
    if acts == [] {
      Nothing(c, env);
      bs := [];
    } else {
      var before := RunBeats(c, acts[..|acts| - 1], env);
      var last := ActBeats(Run(c, acts[..|acts| - 1], env), acts[|acts| - 1], env);
      AfterConcat(c, before, last, env);
      bs := before + last;
    }
  }
}
