/** The CPU's cycle engine as an object: clocks, interrupt latches and DMA requests changed in place,
  around the PPU and work RAM. Every method is tied to the step that `CpuSpec` gives for it. */
module CpuDevice {
  import PpuDevice
  import P = PpuSpec
  import S = CpuSpec

  class Cpu {
    const ppu: PpuDevice.Ppu
    const wram: array<bv8>
    /** The cartridge, and what the parts that are not modelled answer. */
    const env: S.Env

    var cycle: nat
    var masterClock: nat
    var openBus: bv8
    var panicked: bool
    var pc: bv16
    var sp: bv8
    var status: bv8
    var nmi: bool
    var prevNmi: bool
    var prevNmiPending: bool
    var runIrq: bool
    var prevRunIrq: bool
    var polls: nat
    var oamDma: bool
    var oamDmaAddr: bv16
    var dmcDma: bool
    var halt: bool
    var dummyRead: bool

    /** Logs for the specification. */
    ghost var marks: seq<S.Mark>
    ghost var written: seq<bv8>
    ghost var loaded: seq<S.Sample>
    ghost var acks: nat

    ghost predicate Valid()
      reads ppu, ppu.Parts()
    {
      && ppu.Valid() && ppu.Env() == env.ppu && wram.Length == 2048
      && (wram as object) !in ppu.Parts() && (this as object) !in ppu.Parts()
    }

    ghost function Interrupts(): S.Interrupts
      reads `nmi, `prevNmi, `prevNmiPending, `runIrq, `prevRunIrq, `marks
    {
      S.Interrupts(nmi, prevNmi, prevNmiPending, runIrq, prevRunIrq, marks)
    }

    ghost function Lines(): S.DmaLines
      reads `oamDma, `oamDmaAddr, `dmcDma, `halt, `dummyRead
    {
      S.DmaLines(oamDma, oamDmaAddr, dmcDma, halt, dummyRead)
    }

    ghost function State(): S.Cpu
      requires Valid()
      reads this, wram, ppu, ppu.Parts()
    {
      S.Cpu(cycle, masterClock, ppu.State(), wram[..], openBus, panicked, S.Registers(pc, sp, status), Interrupts(),
            Lines(), polls, written, loaded, acks)
    }

    constructor (env: S.Env)
      ensures Valid() && this.env == env && fresh(ppu) && fresh(ppu.Parts()) && fresh(wram)
      ensures S.Interrupts(false, false, false, false, false, []) == Interrupts()
      ensures cycle == 0 && masterClock == 0 && ppu.masterClock == 0
    {
      hide PpuDevice.Ppu.Valid, PpuDevice.Ppu.State;
      this.env := env;
      ppu := new PpuDevice.Ppu(env.ppu.region, env.ppu.mem);
      wram := new bv8[2048](_ => 0);
      cycle, masterClock, openBus, panicked := 0, 0, 0, false;
      pc, sp, status := 0, 0, 0x24;
      nmi, prevNmi, prevNmiPending, runIrq, prevRunIrq, polls := false, false, false, false, false, 0;
      oamDma, oamDmaAddr, dmcDma, halt, dummyRead := false, 0, false, false, false;
      marks, written, loaded, acks := [], [], [], 0;
    }

    // ----- clocks and interrupts

    method CatchUp()
      requires Valid()
      modifies ppu, ppu.Parts()
      ensures Valid() && State() == old(State()).(ppu := S.CatchUp(old(State()).ppu, masterClock, env))
    {
      hide PpuDevice.Ppu.Valid, PpuDevice.Ppu.State, P.ClockTo;
      if S.PPU_OFFSET <= masterClock {
        ppu.ClockTo(masterClock - S.PPU_OFFSET);
      }
    }

    method StartCycle(read: bool)
      requires Valid()
      modifies this, ppu, ppu.Parts()
      ensures Valid() && State() == S.StartCycle(old(State()), read, env)
    {
      hide PpuDevice.Ppu.Valid, PpuDevice.Ppu.State, S.CatchUp;
      var start := S.StartClocks(env.ppu.region);
      masterClock := masterClock + (if read then start - 1 else start + 1);
      cycle := cycle + 1;
      if env.accurate {
        CatchUp();
      }
    }

    method EndCycle(read: bool)
      requires Valid()
      modifies this, ppu, ppu.Parts()
      ensures Valid() && State() == S.EndCycle(old(State()), read, env)
    {
      hide PpuDevice.Ppu.Valid, PpuDevice.Ppu.State, S.CatchUp, S.HandleInterrupts;
      var end := S.EndClocks(env.ppu.region);
      masterClock := masterClock + (if read then end + 1 else end - 1);
      if env.accurate {
        CatchUp();
      }
      HandleInterrupts();
    }

    /** Samples the NMI edge, the IRQ level and the DMC request of this cycle. */
    method HandleInterrupts()
      requires Valid()
      modifies this
      ensures Valid() && State() == S.HandleInterrupts(old(State()), env)
    {
      hide PpuDevice.Ppu.Valid, PpuDevice.Ppu.State, S.Sampled, S.Requested, S.DmcRequest;
      var pending := ppu.NmiPending();
      var unmasked := status & S.IRQ_DISABLE == 0;
      SampleLines(pending, env.irqs(polls) && unmasked);
      PollDmc();
    }

    method SampleLines(pending: bool, irq: bool)
      requires Valid()
      modifies `nmi, `prevNmi, `prevNmiPending, `runIrq, `prevRunIrq, `marks
      ensures Valid() && State() == old(State()).(ints := S.Sampled(old(State()).ints, pending, irq))
    {
      hide PpuDevice.Ppu.Valid, PpuDevice.Ppu.State, S.Sampled;
      SampleLatches(pending, irq);
    }

    method SampleLatches(pending: bool, irq: bool)
      modifies `nmi, `prevNmi, `prevNmiPending, `runIrq, `prevRunIrq, `marks
      ensures Interrupts() == S.Sampled(old(Interrupts()), pending, irq)
    {
      prevNmi := nmi;
      if !prevNmiPending && pending {
        nmi := true;
        marks := marks + [S.Edge];
      }
      prevNmiPending := pending;
      prevRunIrq := runIrq;
      runIrq := irq;
    }

    method PollDmc()
      requires Valid()
      modifies `dmcDma, `halt, `dummyRead, `polls
      ensures Valid()
      ensures State() == old(State()).(lines := S.Requested(old(State()).lines, S.DmcRequest(env, old(polls))),
          polls := old(polls) + 1)
    {
      hide PpuDevice.Ppu.Valid, PpuDevice.Ppu.State, S.Requested, S.DmcRequest;
      RequestDmc(polls);
      polls := polls + 1;
    }

    /** A request halts the CPU and asks for a dummy read before it is served. */
    method RequestDmc(poll: nat)
      modifies `dmcDma, `halt, `dummyRead
      ensures Lines() == S.Requested(old(Lines()), S.DmcRequest(env, poll))
    {
      if poll < |env.dmc| && env.dmc[poll] {
        dmcDma, halt, dummyRead := true, true, true;
      }
    }

    // ----- the bus

    /** What answers outside the ports of the picture unit. */
    function Elsewhere(addr: bv16): (val: bv8)
      requires Valid() && (addr < 0x2000 || 0x4000 <= addr)
      reads this, ppu, ppu.Parts(), wram
      ensures S.BusRead(State(), addr, env) == S.OnBus(State(), val)
    {
      hide PpuDevice.Ppu.Valid, PpuDevice.Ppu.State, S.PortRead, S.Listens, S.OnBus;
      if addr < 0x2000 then wram[(addr & 0x07FF) as int]
      else if addr >= 0x4020 then env.rom(addr)
      else if S.Listens(addr) then env.data(polls)
      else openBus
    }

    method BusRead(addr: bv16) returns (val: bv8)
      requires Valid()
      modifies this, ppu, ppu.Parts()
      ensures Valid() && S.Fetch(State(), val) == S.BusRead(old(State()), addr, env)
    {
      hide PpuDevice.Ppu.Valid, PpuDevice.Ppu.State, S.PortRead, S.Listens;
      if 0x2000 <= addr < 0x4000 {
        val := PortRead(addr & 0x0007);
      } else {
        val := Elsewhere(addr);
        DriveBus(val);
      }
    }

    method DriveBus(val: bv8)
      requires Valid()
      modifies `openBus
      ensures Valid() && State() == old(State()).(openBus := val)
    {
      hide PpuDevice.Ppu.Valid, PpuDevice.Ppu.State;
      openBus := val;
    }

    method PortRead(port: bv16) returns (val: bv8)
      requires Valid()
      modifies this, ppu, ppu.Parts()
      ensures Valid() && S.Fetch(State(), val) == S.PortRead(old(State()), port, env)
    {
      hide PpuDevice.Ppu.Valid, PpuDevice.Ppu.State, P.ReadStatus, P.StatusBits, P.PeekOamData, P.AccessPort, P.Drive;
      if port == 2 {
        val := ppu.ReadStatus();
        acks := acks + 1;
      } else if port == 4 {
        val := ReadOamData();
      } else if port == 7 {
        val := env.data(polls);
        ppu.AccessPort(val);
      } else {
        val := ppu.OpenBus();
      }
      DriveBus(val);
    }

    /** A read past the end of secondary OAM stops the program. */
    method ReadOamData() returns (val: bv8)
      requires Valid()
      modifies this, ppu, ppu.Parts()
      ensures Valid()
      ensures
        match P.PeekOamData(old(State()).ppu)
        case OamByte(v) => val == v && State() == old(State()).(ppu := P.Drive(old(State()).ppu, v))
        case PastTheEnd => val == 0 && State() == old(State()).(panicked := true)
    {
      hide PpuDevice.Ppu.Valid, PpuDevice.Ppu.State, P.PeekOamData, P.Drive;
      var r := ppu.PeekOamData();
      match r
      case OamByte(v) =>
        val := v;
        ppu.Drive(v);
      case PastTheEnd =>
        val := 0;
        panicked := true;
    }

    method BusWrite(addr: bv16, val: bv8)
      requires Valid()
      modifies this, wram, ppu, ppu.Parts()
      ensures Valid() && State() == S.BusWrite(old(State()), addr, val, env)
    {
      hide PpuDevice.Ppu.Valid, PpuDevice.Ppu.State, S.PortWrite;
      Deliver(addr, val);
      DriveBus(val);
    }

    /** Where a written byte goes, apart from the open bus. */
    method Deliver(addr: bv16, val: bv8)
      requires Valid()
      modifies this, wram, ppu, ppu.Parts()
      ensures Valid() && State() == S.BusWrite(old(State()), addr, val, env).(openBus := old(openBus))
    {
      hide PpuDevice.Ppu.Valid, PpuDevice.Ppu.State, S.PortWrite, S.ToPort;
      if addr < 0x2000 {
        StoreByte((addr & 0x07FF) as int, val);
      } else if addr < 0x4000 {
        PortWrite(addr & 0x0007, val);
      } else if addr == 0x4014 {
        RequestOam(val);
      }
    }

    /** Writing a page number starts OAM DMA. */
    method RequestOam(page: bv8)
      requires Valid()
      modifies `oamDma, `oamDmaAddr
      ensures Valid() && State() == old(State()).(lines := old(Lines()).(oam := true, oamAddr := (page as bv16) << 8))
    {
      hide PpuDevice.Ppu.Valid, PpuDevice.Ppu.State;
      oamDma, oamDmaAddr := true, (page as bv16) << 8;
    }

    method StoreByte(i: nat, val: bv8)
      requires Valid() && i < 2048
      modifies wram
      ensures Valid() && State() == old(State()).(wram := old(State()).wram[i := val])
    {
      hide PpuDevice.Ppu.Valid, PpuDevice.Ppu.State;
      wram[i] := val;
    }

    method PortWrite(port: bv16, val: bv8)
      requires Valid()
      modifies `written, `acks, ppu, ppu.Parts()
      ensures Valid()
      ensures State() == S.ToPort(old(State()), port, val, env)
    {
      hide PpuDevice.Ppu.Valid, PpuDevice.Ppu.State, P.WriteCtrl, P.WriteMask, P.Drive, P.WriteOamAddr, P.WriteOamData,
          P.WriteScroll, P.WriteAddr, P.AccessPort;
      if port == 0 {
        ppu.WriteCtrl(val);
        acks := acks + 1;
      } else if port == 1 {
        ppu.WriteMask(val);
      } else if port == 2 {
        ppu.Drive(val);
      } else if port == 3 {
        ppu.WriteOamAddr(val);
      } else if port == 4 {
        ppu.WriteOamData(val);
        written := written + [val];
      } else if port == 5 {
        ppu.WriteScroll(val);
      } else if port == 6 {
        ppu.WriteAddr(val);
      } else {
        ppu.AccessPort(val);
      }
    }

    /** A read cycle that DMA does not interrupt. */
    method ReadCycle(addr: bv16) returns (val: bv8)
      requires Valid()
      modifies this, ppu, ppu.Parts()
      ensures Valid() && S.Fetch(State(), val) == S.ReadCycle(old(State()), addr, env)
    {
      hide PpuDevice.Ppu.Valid, PpuDevice.Ppu.State, S.StartCycle, S.BusRead, S.EndCycle;
      StartCycle(true);
      val := BusRead(addr);
      EndCycle(true);
    }

    // ----- DMA

    /** A cycle without the bus, as a reset takes seven of. */
    method IdleCycle()
      requires Valid()
      modifies this, ppu, ppu.Parts()
      ensures Valid() && State() == S.IdleCycle(old(State()), env)
    {
      hide PpuDevice.Ppu.Valid, PpuDevice.Ppu.State, S.StartCycle, S.EndCycle;
      StartCycle(true);
      EndCycle(true);
    }

    method ProcessDmaCycle()
      requires Valid()
      modifies this, ppu, ppu.Parts()
      ensures Valid() && State() == S.StartCycle(S.Settle(old(State())), true, env)
    {
      hide PpuDevice.Ppu.Valid, PpuDevice.Ppu.State, S.StartCycle, S.Settled;
      Settle();
      StartCycle(true);
    }

    method Settle()
      requires Valid()
      modifies `halt, `dummyRead
      ensures Valid() && State() == S.Settle(old(State()))
    {
      hide PpuDevice.Ppu.Valid, PpuDevice.Ppu.State, S.Settled;
      SettleLines();
    }

    method SettleLines()
      modifies `halt, `dummyRead
      ensures Lines() == S.Settled(old(Lines()))
    {
      if halt {
        halt := false;
      } else if dummyRead {
        dummyRead := false;
      }
    }

    method DmaRead(addr: bv16) returns (val: bv8)
      requires Valid()
      modifies this, ppu, ppu.Parts()
      ensures Valid() && S.Fetch(State(), val) == S.DmaRead(old(State()), addr, env)
    {
      hide PpuDevice.Ppu.Valid, PpuDevice.Ppu.State, S.StartCycle, S.BusRead, S.EndCycle, S.Settle;
      ProcessDmaCycle();
      val := BusRead(addr);
      EndCycle(true);
    }

    method DmaWait(addr: bv16)
      requires Valid()
      modifies this, ppu, ppu.Parts()
      ensures Valid() && State() == S.DmaWait(old(State()), addr, env)
    {
      hide PpuDevice.Ppu.Valid, PpuDevice.Ppu.State, S.StartCycle, S.BusRead, S.EndCycle, S.Settle;
      ProcessDmaCycle();
      if addr != 0x4016 && addr != 0x4017 {
        var _ := BusRead(addr);
      }
      EndCycle(true);
    }

    method LoadDmc(ghost d: S.Dma) returns (val: bv8)
      requires Valid()
      modifies this, ppu, ppu.Parts()
      ensures Valid() && S.Turn(State(), d.(val := val)) == S.LoadDmc(old(State()), d, env)
    {
      hide PpuDevice.Ppu.Valid, PpuDevice.Ppu.State, S.DmaRead;
      ghost var poll := polls;
      val := DmaRead(env.dmcAddr(polls));
      DmcLoaded(poll, val);
    }

    method DmcLoaded(ghost poll: nat, val: bv8)
      requires Valid()
      modifies `dmcDma, `loaded
      ensures Valid()
      ensures State() == old(State()).(lines := old(State()).lines.(dmc := false),
          loaded := old(State()).loaded + [S.Sample(poll, val)])
    {
      hide PpuDevice.Ppu.Valid, PpuDevice.Ppu.State;
      loaded := loaded + [S.Sample(poll, val)];
      dmcDma := false;
    }

    method WriteOam(ghost d: S.Dma, val: bv8, count: nat)
      requires Valid() && d.val == val && d.count == count
      modifies this, wram, ppu, ppu.Parts()
      ensures Valid() && S.Turn(State(), d.(count := count + 1)) == S.WriteOam(old(State()), d, env)
    {
      hide PpuDevice.Ppu.Valid, PpuDevice.Ppu.State, S.StartCycle, S.BusWrite, S.EndCycle, S.Settle;
      ProcessDmaCycle();
      BusWrite(0x2004, val);
      EndCycle(true);
      if count + 1 == 0x200 {
        OamDmaFinish();
      }
    }

    method OamDmaFinish()
      requires Valid()
      modifies `oamDma
      ensures Valid() && State() == old(State()).(lines := old(State()).lines.(oam := false))
    {
      hide PpuDevice.Ppu.Valid, PpuDevice.Ppu.State;
      oamDma := false;
    }

    method Unhalt()
      requires Valid()
      modifies `halt
      ensures Valid() && State() == old(State()).(lines := old(State()).lines.(halt := false))
    {
      hide PpuDevice.Ppu.Valid, PpuDevice.Ppu.State;
      halt := false;
    }

    /** Arbitrates the two DMA units until both are done. */
    method HandleDma(addr: bv16)
      requires Valid()
      modifies this, wram, ppu, ppu.Parts()
      ensures Valid() && State() == S.HandleDma(old(State()), addr, env)
    {
      hide PpuDevice.Ppu.Valid, PpuDevice.Ppu.State, S.ReadCycle, S.DmaTurn;
      var _ := ReadCycle(addr);
      Unhalt();
      var oamOffset, oamDmaCount, readVal := 0, 0, 0;
      while oamDma || dmcDma
        invariant Valid() && S.Busy(State(), S.Dma(oamOffset, oamDmaCount, readVal))
        invariant S.DmaLoop(State(), S.Dma(oamOffset, oamDmaCount, readVal), addr, env) ==
            S.HandleDma(old(State()), addr, env)
        decreases S.PollsLeft(State(), env), S.WorkLeft(State(), S.Dma(oamOffset, oamDmaCount, readVal))
      {
        S.TurnProgresses(State(), S.Dma(oamOffset, oamDmaCount, readVal), addr, env);
        oamOffset, oamDmaCount, readVal := DmaTurn(addr, oamOffset, oamDmaCount, readVal);
      }
    }

    /** One turn: reads on even cycles, OAM writes on odd ones, and waiting until either fits. */
    method DmaTurn(addr: bv16, offset: nat, count: nat, val: bv8)
        returns (oamOffset: nat, oamDmaCount: nat, readVal: bv8)
      requires Valid()
      modifies this, wram, ppu, ppu.Parts()
      ensures Valid()
      ensures S.Turn(State(), S.Dma(oamOffset, oamDmaCount, readVal)) ==
          S.DmaTurn(old(State()), S.Dma(offset, count, val), addr, env)
    {
      hide PpuDevice.Ppu.Valid, PpuDevice.Ppu.State, S.LoadDmc, S.DmaRead, S.WriteOam, S.DmaWait, S.PageAddr;
      oamOffset, oamDmaCount, readVal := offset, count, val;
      ghost var d := S.Dma(offset, count, val);
      if cycle % 2 == 0 {
        if dmcDma && !halt && !dummyRead {
          readVal := LoadDmc(d);
        } else if oamDma {
          readVal := DmaRead(S.PageAddr(oamDmaAddr, oamOffset));
          oamOffset := oamOffset + 1;
          oamDmaCount := oamDmaCount + 1;
        } else {
          DmaWait(addr);
        }
      } else if oamDma && oamDmaCount % 2 == 1 {
        WriteOam(d, readVal, oamDmaCount);
        oamDmaCount := oamDmaCount + 1;
      } else {
        DmaWait(addr);
      }
    }

    method Read(addr: bv16) returns (val: bv8)
      requires Valid()
      modifies this, wram, ppu, ppu.Parts()
      ensures Valid() && S.Fetch(State(), val) == S.Read(old(State()), addr, env)
    {
      hide PpuDevice.Ppu.Valid, PpuDevice.Ppu.State, S.ReadCycle, S.HandleDma;
      if halt || oamDma {
        HandleDma(addr);
      }
      val := ReadCycle(addr);
    }

    method Write(addr: bv16, val: bv8)
      requires Valid()
      modifies this, wram, ppu, ppu.Parts()
      ensures Valid() && State() == S.WriteCycle(old(State()), addr, val, env)
    {
      hide PpuDevice.Ppu.Valid, PpuDevice.Ppu.State, S.StartCycle, S.BusWrite, S.EndCycle;
      StartCycle(false);
      BusWrite(addr, val);
      EndCycle(false);
    }

    // ----- interrupts and instructions

    method Push(val: bv8)
      requires Valid()
      modifies this, wram, ppu, ppu.Parts()
      ensures Valid() && State() == S.Push(old(State()), val, env)
    {
      hide PpuDevice.Ppu.Valid, PpuDevice.Ppu.State, S.WriteCycle;
      var top := sp;
      Write(0x0100 | (top as bv16), val);
      SetSp(top - 1);
    }

    method SetSp(val: bv8)
      requires Valid()
      modifies `sp
      ensures Valid() && State() == old(State()).(regs := old(State()).regs.(sp := val))
    {
      hide PpuDevice.Ppu.Valid, PpuDevice.Ppu.State;
      sp := val;
    }

    method PushWord(val: bv16)
      requires Valid()
      modifies this, wram, ppu, ppu.Parts()
      ensures Valid() && State() == S.PushWord(old(State()), val, env)
    {
      hide PpuDevice.Ppu.Valid, PpuDevice.Ppu.State, S.Push;
      Push((val >> 8) as bv8);
      Push((val & 0xFF) as bv8);
    }

    method JumpThrough(vector: bv16)
      requires Valid()
      modifies this, wram, ppu, ppu.Parts()
      ensures Valid() && State() == S.JumpThrough(old(State()), vector, env)
    {
      hide PpuDevice.Ppu.Valid, PpuDevice.Ppu.State, S.Read, S.NextAddr, S.Word;
      var lo := Read(vector);
      var hi := Read(S.NextAddr(vector));
      SetPc(S.Word(hi, lo));
    }

    method SetPc(val: bv16)
      requires Valid()
      modifies `pc
      ensures Valid() && State() == old(State()).(regs := old(State()).regs.(pc := val))
    {
      hide PpuDevice.Ppu.Valid, PpuDevice.Ppu.State;
      pc := val;
    }

    method PushStatus(val: bv8)
      requires Valid()
      modifies this, wram, ppu, ppu.Parts()
      ensures Valid() && State() == S.PushStatus(old(State()), val, env)
    {
      hide PpuDevice.Ppu.Valid, PpuDevice.Ppu.State, S.Push;
      Push(val);
      DisableIrq();
    }

    method DisableIrq()
      requires Valid()
      modifies `status
      ensures Valid() && State() == old(State()).(regs := old(State()).regs.(status := old(status) | S.IRQ_DISABLE))
    {
      hide PpuDevice.Ppu.Valid, PpuDevice.Ppu.State;
      status := status | S.IRQ_DISABLE;
    }

    method TakeNmi()
      requires Valid()
      modifies `nmi, `marks
      ensures Valid() && State() == old(State()).(ints := S.Take(old(State()).ints))
    {
      hide PpuDevice.Ppu.Valid, PpuDevice.Ppu.State;
      nmi := false;
      marks := marks + [S.Vector];
    }

    /** The end of an interrupt sequence: a latched NMI takes over any of them. */
    method Vectored(pushed: bv8)
      requires Valid()
      modifies this, wram, ppu, ppu.Parts()
      ensures Valid() && State() == S.Vectored(old(State()), pushed, env)
    {
      hide PpuDevice.Ppu.Valid, PpuDevice.Ppu.State, S.PushStatus, S.JumpThrough, S.Take;
      if nmi {
        TakeNmi();
        PushStatus(pushed);
        JumpThrough(S.NMI_VECTOR);
      } else {
        PushStatus(pushed);
        JumpThrough(S.IRQ_VECTOR);
      }
    }

    method Irq()
      requires Valid()
      modifies this, wram, ppu, ppu.Parts()
      ensures Valid() && State() == S.Irq(old(State()), env)
    {
      hide PpuDevice.Ppu.Valid, PpuDevice.Ppu.State, S.Read, S.PushWord, S.Vectored;
      var at, flags := pc, status;
      var _ := Read(at);
      var _ := Read(at);
      PushWord(at);
      Vectored((flags | S.UNUSED) & !S.BREAK);
    }

    method Brk()
      requires Valid()
      modifies this, wram, ppu, ppu.Parts()
      ensures Valid() && State() == S.Brk(old(State()), env)
    {
      hide PpuDevice.Ppu.Valid, PpuDevice.Ppu.State, S.Read, S.PushWord, S.Vectored, S.NextAddr;
      var at, flags := pc, status;
      SetPc(S.NextAddr(at));
      var _ := Read(at);
      PushWord(S.NextAddr(at));
      Vectored((flags | S.UNUSED) | S.BREAK);
      ForgetNmi();
    }

    method Pop() returns (val: bv8)
      requires Valid()
      modifies this, wram, ppu, ppu.Parts()
      ensures Valid() && S.Fetch(State(), val) == S.Pop(old(State()), env)
    {
      hide PpuDevice.Ppu.Valid, PpuDevice.Ppu.State, S.Read;
      var top := sp + 1;
      SetSp(top);
      val := Read(0x0100 | (top as bv16));
    }

    method SetStatus(val: bv8)
      requires Valid()
      modifies `status
      ensures Valid() && State() == old(State()).(regs := old(State()).regs.(status := val))
    {
      hide PpuDevice.Ppu.Valid, PpuDevice.Ppu.State;
      status := val;
    }

    /** Return from interrupt. */
    method Rti()
      requires Valid()
      modifies this, wram, ppu, ppu.Parts()
      ensures Valid() && State() == S.Rti(old(State()), env)
    {
      hide PpuDevice.Ppu.Valid, PpuDevice.Ppu.State, S.Read, S.PopStatus, S.PopPc;
      var _ := Read(0x0100 | (sp as bv16));
      PopStatus();
      PopPc();
    }

    method PopStatus()
      requires Valid()
      modifies this, wram, ppu, ppu.Parts()
      ensures Valid() && State() == S.PopStatus(old(State()), env)
    {
      hide PpuDevice.Ppu.Valid, PpuDevice.Ppu.State, S.Pop;
      var flags := Pop();
      SetStatus((flags & !S.UNUSED) & !S.BREAK);
    }

    method PopPc()
      requires Valid()
      modifies this, wram, ppu, ppu.Parts()
      ensures Valid() && State() == S.PopPc(old(State()), env)
    {
      hide PpuDevice.Ppu.Valid, PpuDevice.Ppu.State, S.Pop, S.Word;
      var lo := Pop();
      var hi := Pop();
      SetPc(S.Word(hi, lo));
    }

    /** After BRK an NMI waits for the next instruction. */
    method ForgetNmi()
      requires Valid()
      modifies `prevNmi
      ensures Valid() && State() == old(State()).(ints := old(State()).ints.(prevNmi := false))
    {
      hide PpuDevice.Ppu.Valid, PpuDevice.Ppu.State;
      prevNmi := false;
    }

    /** The end of an instruction. */
    method Finish()
      requires Valid()
      modifies this, wram, ppu, ppu.Parts()
      ensures Valid() && State() == S.Finish(old(State()), env)
    {
      hide PpuDevice.Ppu.Valid, PpuDevice.Ppu.State, S.Irq, S.CatchUp, S.HandleInterrupts;
      if prevRunIrq || prevNmi {
        Irq();
      }
      if !env.accurate {
        CatchUp();
        HandleInterrupts();
      }
    }
  }
}
