/** What DMA does, for every pattern of DMC requests: OAM DMA delivers its page byte for byte, and
  both kinds take the number of cycles that the parity of the first one decides. */
module Dma {
  import opened CpuSpec

  // ----- the page arrives

  /** The first k bytes of a page. */
  function PageBytes(wram: Wram, base: bv16, k: nat, env: Env): seq<bv8> {
    seq(k, i requires 0 <= i < k => Peek(wram, PageAddr(base, i), env))
  }

  /** No byte of the page is a port. */
  ghost predicate PlainPage(base: bv16) {
    forall i: nat :: Plain(PageAddr(base, i))
  }

  /** The pages that writing `val` to $4014 can name are plain, except those with ports in them. */
  lemma PlainPages(val: bv8)
    ensures PlainPage((val as bv16) << 8) <==> val < 0x20 || 0x41 <= val
  {
    var base := (val as bv16) << 8;
    if val < 0x20 || 0x41 <= val {
      forall i: nat ensures Plain(PageAddr(base, i)) {
        InPage(val, (i % 0x100) as bv16);
      }
    } else {
      assert i0: PageAddr(base, 0) == base;
      assert !Plain(PageAddr(base, 0)) by {
        InPage(val, 0);
      }
    }
  }

  lemma InPage(val: bv8, low: bv16)
    requires low < 0x100
    ensures Plain(((val as bv16) << 8) + low) <==> val < 0x20 || (val == 0x40 && 0x20 <= low) || 0x41 <= val
  {
  }

  /** Where a transfer that began at c0 stands: half the bus cycles of `count` have been writes, and
    an odd count leaves a byte in transit. */
  ghost predicate Transit(c0: Cpu, c: Cpu, d: Dma, env: Env) {
    var base := c0.lines.oamAddr;
    && Busy(c, d) && c.wram == c0.wram && c.lines.oamAddr == base
    && (if c.lines.oam then
          && d.offset == (d.count + 1) / 2
          && c.written == c0.written + PageBytes(c0.wram, base, d.count / 2, env)
          && (d.count % 2 == 1 ==> d.val == Peek(c0.wram, PageAddr(base, d.offset - 1), env))
        else c.written == c0.written + PageBytes(c0.wram, base, 0x100, env))
  }

  lemma WaitTransits(c0: Cpu, c: Cpu, d: Dma, addr: bv16, env: Env)
    requires Transit(c0, c, d, env) && (c.cycle % 2 == 0 ==> !c.lines.oam) && (c.lines.oam ==> d.count % 2 == 0)
    ensures Transit(c0, DmaWait(c, addr, env), d, env)
  {
    hide DmaWait, PageBytes, Peek;
    WaitPasses(c, addr, env);
  }

  lemma LoadDmcTransits(c0: Cpu, c: Cpu, d: Dma, env: Env)
    requires Transit(c0, c, d, env) && c.cycle % 2 == 0
    ensures
      var t := LoadDmc(c, d, env);
      Transit(c0, t.cpu, t.dma, env)
  {
    hide ReadCycle, PageBytes, Peek, Plain;
    ReadPasses(Settle(c), env.dmcAddr(c.polls), env);
  }

  lemma ReadOamTransits(c0: Cpu, c: Cpu, d: Dma, env: Env)
    requires Transit(c0, c, d, env) && c.cycle % 2 == 0 && c.lines.oam && PlainPage(c0.lines.oamAddr)
    ensures
      var t := ReadOam(c, d, env);
      Transit(c0, t.cpu, t.dma, env)
  {
    hide ReadCycle, PageBytes, Peek, Plain, PageAddr;
    ReadPasses(Settle(c), PageAddr(c.lines.oamAddr, d.offset), env);
  }

  lemma WriteOamTransits(c0: Cpu, c: Cpu, d: Dma, env: Env)
    requires Transit(c0, c, d, env) && c.cycle % 2 == 1 && c.lines.oam && d.count % 2 == 1
    ensures
      var t := WriteOam(c, d, env);
      Transit(c0, t.cpu, t.dma, env)
  {
    hide StartCycle, EndCycle, BusWrite, Peek, PageAddr;
    WritePasses(Settle(c), d.val, env);
    var base, k := c0.lines.oamAddr, d.count / 2;
    assert PageBytes(c0.wram, base, k + 1, env) == PageBytes(c0.wram, base, k, env) +
        [Peek(c0.wram, PageAddr(base, k), env)];
  }

  lemma TurnTransits(c0: Cpu, c: Cpu, d: Dma, addr: bv16, env: Env)
    requires Transit(c0, c, d, env) && PlainPage(c0.lines.oamAddr)
    ensures
      var t := DmaTurn(c, d, addr, env);
      Transit(c0, t.cpu, t.dma, env)
  {
    hide LoadDmc, ReadOam, WriteOam, DmaWait, PageBytes, Peek, PlainPage;
    if c.cycle % 2 == 0 && c.lines.dmc && !c.lines.halt && !c.lines.dummy {
      LoadDmcTransits(c0, c, d, env);
    } else if c.cycle % 2 == 0 && c.lines.oam {
      ReadOamTransits(c0, c, d, env);
    } else if c.cycle % 2 == 1 && c.lines.oam && d.count % 2 == 1 {
      WriteOamTransits(c0, c, d, env);
    } else {
      WaitTransits(c0, c, d, addr, env);
    }
  }

  lemma {:induction false} LoopDelivers(c0: Cpu, c: Cpu, d: Dma, addr: bv16, env: Env)
    requires Transit(c0, c, d, env) && PlainPage(c0.lines.oamAddr)
    ensures
      var r := DmaLoop(c, d, addr, env);
      && !r.lines.oam && !r.lines.dmc
      && r.written == c0.written + PageBytes(c0.wram, c0.lines.oamAddr, 0x100, env)
    decreases PollsLeft(c, env), WorkLeft(c, d)
  {
    hide DmaTurn, PageBytes, PlainPage;
    if c.lines.oam || c.lines.dmc {
      TurnProgresses(c, d, addr, env);
      TurnTransits(c0, c, d, addr, env);
      var t := DmaTurn(c, d, addr, env);
      LoopDelivers(c0, t.cpu, t.dma, addr, env);
    }
  }

  /** Whenever DMC requests come in, the writes to $2004 are the 256 bytes of the page, in order. */
  lemma OamDmaDelivers(c: Cpu, addr: bv16, env: Env)
    requires c.lines.oam && PlainPage(c.lines.oamAddr)
    ensures
      var r := HandleDma(c, addr, env);
      && !r.lines.oam && !r.lines.dmc
      && r.written == c.written + PageBytes(c.wram, c.lines.oamAddr, 0x100, env)
  {
    hide ReadCycle, DmaLoop, PlainPage, Peek, Plain;
    ReadPasses(c, addr, env);
    var d := Dma(0, 0, 0);
    assert c.written == c.written + PageBytes(c.wram, c.lines.oamAddr, d.count / 2, env);
    LoopDelivers(c, Halted(c, addr, env), d, addr, env);
  }

  // ----- the samples arrive

  /** Since c0 only bytes have been handed over that lie at their own address. */
  ghost predicate OwnBytes(c0: Cpu, c: Cpu, env: Env) {
    && c.wram == c0.wram && |c.loaded| >= |c0.loaded| && c.loaded[..|c0.loaded|] == c0.loaded
    && forall i :: |c0.loaded| <= i < |c.loaded| && Plain(env.dmcAddr(c.loaded[i].poll)) ==>
         c.loaded[i].val == Peek(c0.wram, env.dmcAddr(c.loaded[i].poll), env)
  }

  lemma SameLoads(c0: Cpu, c: Cpu, r: Cpu, env: Env)
    requires OwnBytes(c0, c, env) && r.wram == c.wram && r.loaded == c.loaded
    ensures OwnBytes(c0, r, env)
  {
    hide Peek, Plain;
  }

  lemma LoadDmcLoads(c0: Cpu, c: Cpu, d: Dma, env: Env)
    requires OwnBytes(c0, c, env)
    ensures OwnBytes(c0, LoadDmc(c, d, env).cpu, env)
  {
    hide ReadCycle, Peek, Plain;
    ReadPasses(Settle(c), env.dmcAddr(c.polls), env);
  }

  lemma TurnLoads(c0: Cpu, c: Cpu, d: Dma, addr: bv16, env: Env)
    requires OwnBytes(c0, c, env)
    ensures OwnBytes(c0, DmaTurn(c, d, addr, env).cpu, env)
  {
    hide StartCycle, EndCycle, ReadCycle, BusWrite, DmaWait, LoadDmc, PageAddr, OwnBytes, Peek, Plain;
    var s := Settle(c);
    var r := DmaTurn(c, d, addr, env).cpu;
    if c.cycle % 2 == 0 && c.lines.dmc && !c.lines.halt && !c.lines.dummy {
      LoadDmcLoads(c0, c, d, env);
    } else {
      WaitPasses(c, addr, env);
      ReadPasses(s, PageAddr(c.lines.oamAddr, d.offset), env);
      WritePasses(s, d.val, env);
      SameLoads(c0, c, r, env);
    }
  }

  lemma {:induction false} LoopLoads(c0: Cpu, c: Cpu, d: Dma, addr: bv16, env: Env)
    requires OwnBytes(c0, c, env) && Busy(c, d)
    ensures OwnBytes(c0, DmaLoop(c, d, addr, env), env)
    decreases PollsLeft(c, env), WorkLeft(c, d)
  {
    hide DmaTurn, OwnBytes;
    if c.lines.oam || c.lines.dmc {
      TurnProgresses(c, d, addr, env);
      TurnLoads(c0, c, d, addr, env);
      var t := DmaTurn(c, d, addr, env);
      LoopLoads(c0, t.cpu, t.dma, addr, env);
    }
  }

  /** However the two kinds of DMA interleave, every DMC request that is served gets the byte at its
    own address, although the byte in transit is shared with OAM DMA. */
  lemma DmcDmaDelivers(c: Cpu, addr: bv16, env: Env)
    ensures OwnBytes(c, HandleDma(c, addr, env), env) && !HandleDma(c, addr, env).lines.dmc
  {
    hide ReadCycle, DmaTurn, Peek, Plain;
    ReadPasses(c, addr, env);
    var h := Halted(c, addr, env);
    LoopLoads(c, h, Dma(0, 0, 0), addr, env);
    LoopEnds(h, Dma(0, 0, 0), addr, env);
  }

  lemma {:induction false} LoopEnds(c: Cpu, d: Dma, addr: bv16, env: Env)
    requires Busy(c, d)
    ensures var r := DmaLoop(c, d, addr, env); !r.lines.oam && !r.lines.dmc
    decreases PollsLeft(c, env), WorkLeft(c, d)
  {
    hide DmaTurn;
    if c.lines.oam || c.lines.dmc {
      TurnProgresses(c, d, addr, env);
      var t := DmaTurn(c, d, addr, env);
      LoopEnds(t.cpu, t.dma, addr, env);
    }
  }

  // ----- what it costs

  ghost predicate NoRequests(c: Cpu, env: Env) {
    forall i :: c.polls <= i ==> !DmcRequest(env, i)
  }

  /** Cycles that OAM DMA alone still needs, given that it may have to wait for an even cycle. */
  function OamCycles(c: Cpu, d: Dma): int {
    0x200 - d.count + if c.cycle % 2 != d.count % 2 then 1 else 0
  }

  predicate OamAlone(c: Cpu) {
    c.lines.oam && !c.lines.dmc && !c.lines.halt && !c.lines.dummy
  }

  lemma OamTurn(c: Cpu, d: Dma, addr: bv16, env: Env)
    requires OamAlone(c) && Busy(c, d) && NoRequests(c, env)
    ensures
      var t := DmaTurn(c, d, addr, env);
      && t.cpu.cycle == c.cycle + 1 && NoRequests(t.cpu, env) && !t.cpu.lines.dmc
      && (if OamCycles(c, d) == 1 then !t.cpu.lines.oam
          else OamAlone(t.cpu) && Busy(t.cpu, t.dma) && OamCycles(t.cpu, t.dma) == OamCycles(c, d) - 1)
  {
    hide StartCycle, EndCycle, ReadCycle, BusWrite, DmaWait, PageAddr, SameCore, Peek, Plain;
    var s := Settle(c);
    WaitPasses(c, addr, env);
    ReadPasses(s, PageAddr(c.lines.oamAddr, d.offset), env);
    WritePasses(s, d.val, env);
  }

  lemma {:induction false} OamLoopCost(c: Cpu, d: Dma, addr: bv16, env: Env)
    requires OamAlone(c) && Busy(c, d) && NoRequests(c, env)
    ensures DmaLoop(c, d, addr, env).cycle == c.cycle + OamCycles(c, d)
    decreases PollsLeft(c, env), WorkLeft(c, d)
  {
    hide DmaTurn;
    TurnProgresses(c, d, addr, env);
    OamTurn(c, d, addr, env);
    var t := DmaTurn(c, d, addr, env);
    if t.cpu.lines.oam {
      OamLoopCost(t.cpu, t.dma, addr, env);
    }
  }

  /** OAM DMA alone takes 513 cycles when it finds an odd count of cycles, and 514 otherwise. */
  lemma OamDmaCost(c: Cpu, addr: bv16, env: Env)
    requires OamAlone(c) && NoRequests(c, env)
    ensures HandleDma(c, addr, env).cycle == c.cycle + if c.cycle % 2 == 1 then 513 else 514
  {
    hide ReadCycle, DmaLoop, SameCore, Peek, Plain;
    ReadPasses(c, addr, env);
    OamLoopCost(Halted(c, addr, env), Dma(0, 0, 0), addr, env);
  }

  /** DMC DMA alone takes 3 cycles from an even count, 4 from an odd one, and loads the byte at the
    address of its request as it stands in the last of them. */
  lemma DmcDmaCost(c: Cpu, addr: bv16, env: Env)
    requires !c.lines.oam && c.lines.dmc && c.lines.halt && c.lines.dummy && NoRequests(c, env)
    ensures
      var r := HandleDma(c, addr, env);
      var cycles := if c.cycle % 2 == 0 then 3 else 4;
      && r.cycle == c.cycle + cycles
      && !r.lines.dmc && r.written == c.written
      && LoadsOne(c, r, c.polls + cycles - 1, env)
  {
    hide ReadCycle, DmaLoop, Peek, Plain;
    var d := Dma(0, 0, 0);
    ReadPasses(c, addr, env);
    var h := Halted(c, addr, env);
    DmcWait(h, d, addr, env, if h.cycle % 2 == 0 then 2 else 1);
  }

  /** One more byte has been handed over, that at the address which the given poll names. */
  predicate LoadsOne(c: Cpu, r: Cpu, poll: nat, env: Env) {
    && |r.loaded| == |c.loaded| + 1 && r.loaded[..|c.loaded|] == c.loaded
    && r.loaded[|c.loaded|].poll == poll
    && (Plain(env.dmcAddr(poll)) ==> r.loaded[|c.loaded|].val == Peek(c.wram, env.dmcAddr(poll), env))
  }

  /** With the CPU halted: waiting cycles until the next even one that has the dummy read behind it. */
  lemma {:induction false} DmcWait(c: Cpu, d: Dma, addr: bv16, env: Env, waits: nat)
    requires !c.lines.oam && c.lines.dmc && !c.lines.halt && NoRequests(c, env)
    requires waits == (if c.cycle % 2 == 1 then 1 else if c.lines.dummy then 2 else 0)
    ensures
      var r := DmaLoop(c, d, addr, env);
      && r.cycle == c.cycle + waits + 1
      && !r.lines.dmc && r.written == c.written
      && LoadsOne(c, r, c.polls + waits, env)
    decreases waits
  {
    hide ReadCycle, DmaWait, Peek, Plain;
    TurnProgresses(c, d, addr, env);
    if waits == 0 {
      ReadPasses(Settle(c), env.dmcAddr(c.polls), env);
    } else {
      WaitPasses(c, addr, env);
      DmcWait(DmaWait(c, addr, env), d, addr, env, waits - 1);
    }
  }
}
