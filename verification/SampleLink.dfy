/** The sample channel and the CPU's flag that a byte is due, as one machine: the bytes handed over
  are played in order, and none is overwritten before it is. */
module SampleLink {
  import opened Words
  import opened ApuSpec
  import opened ApuRuns

  /** What happens to the two of them. A delivery is the cycle in which DMA hands a byte over: it polls
    like any other, and then settles the account. */
  datatype Act = Sound(event: Event) | Poll | Deliver(val: u8)

  /** `due` is the CPU's flag; the logs are of bytes that have reached the buffer and of bytes that the
    output unit has taken from it, both since the last reset. */
  datatype Link = Link(apu: Apu, due: bool, given: seq<u8>, taken: seq<u8>)

  /** What the CPU's DMA does to the channel is not left to chance. */
  predicate OnItsOwn(event: Event) {
    !event.TakeDma? && !event.LoadDmc?
  }

  /** The byte that the output unit has taken on the way from d to e. */
  function Taken(d: Dmc, e: Dmc): seq<u8> {
    if !d.bufferEmpty && e.bufferEmpty then [d.buffer] else []
  }

  function Polled(l: Link): (r: Link)
    requires Ok(l.apu)
    ensures Ok(r.apu)
  {
    StepKeeps(l.apu, TakeDma);
    l.(apu := Step(l.apu, TakeDma), due := l.due || l.apu.dmc.dmaPending)
  }

  function Delivered(l: Link, val: u8): (r: Link)
    requires Ok(l.apu)
    ensures Ok(r.apu)
  {
    var p := Polled(l);
    StepKeeps(p.apu, LoadDmc(val));
    p.(apu := Step(p.apu, LoadDmc(val)), due := false,
       given := if p.apu.dmc.length > 0 then p.given + [val] else p.given)
  }

  function Sounded(l: Link, event: Event): (r: Link)
    requires Ok(l.apu)
    ensures Ok(r.apu)
  {
    StepKeeps(l.apu, event);
    var a := Step(l.apu, event);
    if event.Restart? then l.(apu := a, given := [], taken := [])
    else l.(apu := a, taken := l.taken + Taken(l.apu.dmc, a.dmc))
  }

  function LinkStep(l: Link, act: Act): (r: Link)
    requires Ok(l.apu)
    ensures Ok(r.apu)
  {
    match act
    case Sound(event) => if OnItsOwn(event) then Sounded(l, event) else l
    case Poll => Polled(l)
    case Deliver(val) => if l.due then Delivered(l, val) else l
  }

  function LinkRun(acts: seq<Act>): (l: Link)
    ensures Ok(l.apu)
  {
    if acts == [] then NewOk(); Link(NewApu(), false, [], [])
    else LinkStep(LinkRun(acts[..|acts| - 1]), acts[|acts| - 1])
  }

  // ----- what the channel does to its buffer

  /** The buffer is left alone, or its byte goes to the output unit. */
  predicate Passes(d: Dmc, e: Dmc) {
    && e.buffer == d.buffer
    && (d.bufferEmpty ==> e.bufferEmpty)
    && (!d.bufferEmpty && e.bufferEmpty ==> e.outputShift == d.buffer && e.outputBits == 8 && !e.outputSilent)
  }

  lemma ClockPasses(d: Dmc)
    requires DmcOk(d)
    ensures Passes(d, ClockDmc(CheckPendingDma(d))) && Passes(d, CheckPendingDma(d))
  {
    DmcChecks(d);
    var c := CheckPendingDma(d);
    if c.freqCounter < 2 {
      OutputPasses(c.(freqCounter := c.freqTimer));
    }
  }

  lemma OutputPasses(d: Dmc)
    requires d.output < 128
    ensures Passes(d, OutputCycle(d))
  {
    hide Moved;
  }

  lemma FrameLeavesDmc(a: Apu)
    requires Counting(a.frame)
    ensures ClockFrameCounter(a).dmc == a.dmc
  {
    hide ClockFrame, Update, PulseQuarter, PulseHalf, TriangleQuarter, TriangleHalf, NoiseQuarter, NoiseHalf;
  }

  lemma CyclePasses(a: Apu)
    requires Ok(a)
    ensures Passes(a.dmc, Clock(a).dmc)
  {
    ChannelsKeep(a);
    hide ClockPulse, ClockTriangle, ClockNoise, ClockDmc, CheckPendingDma, Passes, ClockFrameCounter, PulseOk,
        TriangleOk,
      NoiseOk, DmcOk, Counting;
    ClockPasses(a.dmc);
    FrameLeavesDmc(ClockChannels(a));
  }

  lemma SamePasses(d: Dmc, e: Dmc)
    requires e.buffer == d.buffer && e.bufferEmpty == d.bufferEmpty
    ensures Passes(d, e)
  {
  }

  lemma DmcWritePasses(d: Dmc, register: nat, val: u8)
    requires register < 4
    ensures Passes(d, WriteDmc(d, register, val))
  {
    hide DmcTimer, SevenBits, Passes;
    SamePasses(d, WriteDmc(d, register, val));
  }

  lemma EnablePasses(d: Dmc, enabled: bool, cycle: nat)
    ensures Passes(d, EnableDmc(d, enabled, cycle))
  {
    hide Passes;
    SamePasses(d, EnableDmc(d, enabled, cycle));
  }

  lemma WritePasses(a: Apu, addr: u16, val: u8)
    ensures Passes(a.dmc, Write(a, addr, val).dmc)
  {
    hide WritePulse, WriteTriangle, WriteNoise, WriteDmc, EnablePulse, EnableTriangle, EnableNoise, EnableDmc;
    EnablePasses(a.dmc, val / 16 % 2 == 1, a.cycle);
    if 0x4010 <= addr < 0x4014 {
      DmcWritePasses(a.dmc, addr - 0x4010, val);
    }
  }

  lemma SoundPasses(a: Apu, event: Event)
    requires Ok(a) && OnItsOwn(event) && !event.Restart?
    ensures Passes(a.dmc, Step(a, event).dmc)
  {
    hide Clock, Write, Toggle, SetRegion, Passes, Ok;
    match event
    case Cycle => CyclePasses(a);
    case Store(addr, val) => WritePasses(a, addr, val);
    case ReadStatus => SamePasses(a.dmc, a.dmc);
    case ToggleChannel(channel) => TogglePasses(a, channel);
    case ChangeRegion(region) => RegionPasses(a, region);
  }

  lemma TogglePasses(a: Apu, channel: Channel)
    ensures Passes(a.dmc, Toggle(a, channel).dmc)
  {
    hide Passes;
    SamePasses(a.dmc, Toggle(a, channel).dmc);
  }

  lemma RegionPasses(a: Apu, region: Region)
    ensures Passes(a.dmc, SetRegion(a, region).dmc)
  {
    hide Passes, DmcTimer;
    SamePasses(a.dmc, SetRegion(a, region).dmc);
  }

  // ----- the account

  function Held(d: Dmc): seq<u8> {
    if d.bufferEmpty then [] else [d.buffer]
  }

  /** Every byte given has been taken, in order, or is the one in the buffer; and a byte is due only
    while the buffer is empty. */
  predicate Conserved(l: Link) {
    l.given == l.taken + Held(l.apu.dmc) && (l.due ==> l.apu.dmc.bufferEmpty)
  }

  lemma PollConserves(l: Link)
    requires Ok(l.apu) && Conserved(l)
    ensures Conserved(Polled(l))
  {
    hide PulseOk, TriangleOk, NoiseOk, Counting;
  }

  lemma DeliveryConserves(l: Link, val: u8)
    requires Ok(l.apu) && Conserved(l) && l.due
    ensures Conserved(Delivered(l, val))
  {
    PollConserves(l);
    hide PulseOk, TriangleOk, NoiseOk, Counting, Polled;
  }

  lemma SoundConserves(l: Link, event: Event)
    requires Ok(l.apu) && Conserved(l) && OnItsOwn(event)
    ensures Conserved(Sounded(l, event))
  {
    if event.Restart? {
      ResetIsEmpty(l.apu, event.kind);
    } else {
      SoundPasses(l.apu, event);
      hide Step, Ok;
    }
  }

  lemma ResetIsEmpty(a: Apu, kind: ResetKind)
    ensures Reset(a, kind).dmc.bufferEmpty
  {
    hide NewPulse, ResetFrame, DmcTimer;
  }

  /** Whatever is written, however polls and deliveries fall and whenever the region changes: no byte is
    lost, played twice, or overwritten before it has been played. */
  lemma {:induction false} BytesAreConserved(acts: seq<Act>)
    ensures Conserved(LinkRun(acts))
  {
    hide Conserved, Polled, Delivered, Sounded, Ok;
    if acts == [] {
      NothingGiven();
    } else {
      var l, act := LinkRun(acts[..|acts| - 1]), acts[|acts| - 1];
      BytesAreConserved(acts[..|acts| - 1]);
      match act
      case Sound(event) =>
        if OnItsOwn(event) {
          SoundConserves(l, event);
        }
      case Poll => PollConserves(l);
      case Deliver(val) =>
        if l.due {
          DeliveryConserves(l, val);
        }
    }
  }

  lemma NothingGiven()
    ensures Conserved(LinkRun([]))
  {
  }

  /** The byte that leaves the buffer is the one whose bits the output unit goes on with. */
  lemma TakenIsPlayed(acts: seq<Act>, event: Event)
    requires OnItsOwn(event) && !event.Restart?
    ensures
      var d := LinkRun(acts).apu.dmc;
      var e := Step(LinkRun(acts).apu, event).dmc;
      !d.bufferEmpty && e.bufferEmpty ==> e.outputShift == d.buffer && e.outputBits == 8 && !e.outputSilent
  {
    hide Step, LinkRun;
    SoundPasses(LinkRun(acts).apu, event);
  }
}
