/** Which requests of the sample channel DMC DMA serves, over every run of the CPU. A request that is
  polled in the cycle that hands over a byte is dropped; every other one is served once. */
module DmcRequests {
  import opened CpuSpec
  import opened Beats

  /** One of the polls in the range found a request. */
  ghost predicate Asked(env: Env, from: nat, to: nat) {
    exists k :: from <= k < to && DmcRequest(env, k)
  }

  lemma AskedNext(env: Env, from: nat, to: nat)
    requires from <= to
    ensures Asked(env, from, to + 1) == (Asked(env, from, to) || DmcRequest(env, to))
  {
    hide DmcRequest;
    if DmcRequest(env, to) {
      assert from <= to < to + 1;
    }
  }

  /** The first poll that byte number i answers to: the one after that of the byte before it. */
  function FirstPoll(loaded: seq<Sample>, i: nat): nat
    requires i <= |loaded|
  {
    if i == 0 then 0 else loaded[i - 1].poll + 1
  }

  ghost predicate Answers(loaded: seq<Sample>, env: Env) {
    forall i :: 0 <= i < |loaded| ==> Asked(env, FirstPoll(loaded, i), loaded[i].poll)
  }

  /** Every byte answers a request of its own, and one is due exactly if there has been a request since
    the poll of the last byte. */
  ghost predicate Accounted(c: Cpu, env: Env) {
    && Answers(c.loaded, env)
    && FirstPoll(c.loaded, |c.loaded|) <= c.polls
    && c.lines.dmc == Asked(env, FirstPoll(c.loaded, |c.loaded|), c.polls)
  }

  lemma PollAccounts(c: Cpu, r: Cpu, env: Env)
    requires Accounted(c, env) && r.loaded == c.loaded && r.polls == c.polls + 1
    requires r.lines.dmc == (c.lines.dmc || DmcRequest(env, c.polls))
    ensures Accounted(r, env)
  {
    hide Asked, DmcRequest;
    AskedNext(env, FirstPoll(c.loaded, |c.loaded|), c.polls);
  }

  lemma AnswersSnoc(loaded: seq<Sample>, last: Sample, env: Env)
    requires Answers(loaded, env) && Asked(env, FirstPoll(loaded, |loaded|), last.poll)
    ensures Answers(loaded + [last], env) && FirstPoll(loaded + [last], |loaded| + 1) == last.poll + 1
  {
    hide Asked;
    var longer := loaded + [last];
    forall i | 0 <= i < |longer| ensures Asked(env, FirstPoll(longer, i), longer[i].poll) {
      assert FirstPoll(longer, i) == FirstPoll(loaded, i);
    }
  }

  lemma LoadAccounts(c: Cpu, r: Cpu, val: bv8, env: Env)
    requires Accounted(c, env) && c.lines.dmc && r.polls == c.polls + 1 && !r.lines.dmc
    requires r.loaded == c.loaded + [Sample(c.polls, val)]
    ensures Accounted(r, env)
  {
    hide Answers, DmcRequest, FirstPoll;
    AnswersSnoc(c.loaded, Sample(c.polls, val), env);
  }

  lemma SameAccounts(c: Cpu, r: Cpu, env: Env)
    requires Accounted(c, env) && r.loaded == c.loaded && r.polls == c.polls && r.lines.dmc == c.lines.dmc
    ensures Accounted(r, env)
  {
    hide Asked;
  }

  lemma BusPolls(c: Cpu, addr: bv16, val: bv8, read: bool, env: Env)
    ensures
      var r := Bus(c, addr, val, read, env);
      && r.loaded == c.loaded && r.polls == c.polls + 1
      && r.lines.dmc == (c.lines.dmc || DmcRequest(env, c.polls))
  {
    hide StartCycle, EndCycle, BusWrite, DmcRequest;
    StartKeeps(c, read, env);
    BusWriteKeeps(StartCycle(c, read, env), addr, val, env);
    EndKeeps(BusWrite(StartCycle(c, read, env), addr, val, env), read, env);
  }

  lemma BusWriteKeeps(c: Cpu, addr: bv16, val: bv8, env: Env)
    ensures
      var r := BusWrite(c, addr, val, env);
      r.loaded == c.loaded && r.polls == c.polls && r.lines.dmc == c.lines.dmc
  {
    hide PortWrite;
  }

  lemma SampleAccounts(c: Cpu, env: Env)
    requires Accounted(c, env)
    ensures Accounted(SampleCycle(c, env), env)
  {
    hide ReadCycle, Accounted, Peek, Plain;
    if c.lines.dmc {
      ReadPasses(c, env.dmcAddr(c.polls), env);
      LoadAccounts(c, SampleCycle(c, env), ReadCycle(c, env.dmcAddr(c.polls), env).val, env);
    }
  }

  lemma BatchAccounts(c: Cpu, env: Env)
    requires Accounted(c, env)
    ensures Accounted(Batch(c, env), env)
  {
    hide Accounted, CatchUp, Sampled, DmcRequest;
    if !env.accurate {
      PollAccounts(c, Batch(c, env), env);
    }
  }

  lemma BeatAccounts(c: Cpu, b: Beat, env: Env)
    requires Accounted(c, env)
    ensures Accounted(Do(c, b, env), env)
  {
    hide ReadCycle, IdleCycle, Bus, SampleCycle, Batch, Accounted, Peek, Plain, DmcRequest;
    match b
    case ReadBeat(addr) =>
      ReadPasses(c, addr, env);
      PollAccounts(c, Do(c, b, env), env);
    case WriteBeat(addr, val, read) =>
      BusPolls(c, addr, val, read, env);
      PollAccounts(c, Do(c, b, env), env);
    case IdleBeat =>
      IdlePolls(c, env);
      PollAccounts(c, Do(c, b, env), env);
    case SampleBeat => SampleAccounts(c, env);
    case BatchBeat => BatchAccounts(c, env);
    case SettleBeat => SameAccounts(c, Do(c, b, env), env);
    case UnhaltBeat => SameAccounts(c, Do(c, b, env), env);
    case OamDoneBeat => SameAccounts(c, Do(c, b, env), env);
    case RegsBeat(regs) => SameAccounts(c, Do(c, b, env), env);
    case TakeBeat => SameAccounts(c, Do(c, b, env), env);
    case UnseeBeat => SameAccounts(c, Do(c, b, env), env);
  }

  lemma IdlePolls(c: Cpu, env: Env)
    ensures
      var r := IdleCycle(c, env);
      && r.loaded == c.loaded && r.polls == c.polls + 1
      && r.lines.dmc == (c.lines.dmc || DmcRequest(env, c.polls))
  {
    hide StartCycle, EndCycle, DmcRequest;
    IdlePasses(c, env);
  }

  lemma {:induction false} BeatsAccount(c: Cpu, bs: seq<Beat>, env: Env)
    requires Accounted(c, env)
    ensures Accounted(After(c, bs, env), env)
  {
    hide Do, Accounted;
    if bs != [] {
      BeatsAccount(c, bs[..|bs| - 1], env);
      BeatAccounts(After(c, bs[..|bs| - 1], env), bs[|bs| - 1], env);
    }
  }

  /** In every state of every run each byte handed over answers a request polled after the byte before
    it, and DMA is due exactly if a request has been polled since the cycle of the last byte. */
  lemma RequestsAccounted(c: Cpu, acts: seq<Act>, env: Env)
    requires c.polls == 0 && c.loaded == [] && !c.lines.dmc
    ensures Accounted(Run(c, acts, env), env)
  {
    hide Run, After;
    var bs := RunBeats(c, acts, env);
    BeatsAccount(c, bs, env);
  }

  /** So a request is dropped, served by a later byte, or still waiting; and it is dropped exactly if
    it was polled in the cycle that handed over a byte. */
  lemma NoRequestIsLost(c: Cpu, acts: seq<Act>, env: Env, k: nat)
    requires c.polls == 0 && c.loaded == [] && !c.lines.dmc
    requires k < Run(c, acts, env).polls && DmcRequest(env, k)
    ensures
      var r := Run(c, acts, env);
      || r.lines.dmc
      || exists i :: 0 <= i < |r.loaded| && r.loaded[i].poll >= k && FirstPoll(r.loaded, i) <= k
  {
    hide Run, DmcRequest;
    RequestsAccounted(c, acts, env);
    var r := Run(c, acts, env);
    if !r.lines.dmc {
      assert k < FirstPoll(r.loaded, |r.loaded|);
      var i := Answer(r.loaded, k, |r.loaded|);
    }
  }

  lemma {:induction false} Answer(loaded: seq<Sample>, k: nat, n: nat) returns (i: nat)
    requires n <= |loaded| && k < FirstPoll(loaded, n)
    ensures i < n && FirstPoll(loaded, i) <= k <= loaded[i].poll
  {
    if k < FirstPoll(loaded, n - 1) {
      i := Answer(loaded, k, n - 1);
    } else {
      i := n - 1;
    }
  }

  /** A request in the cycle that hands over a byte is dropped: right after it, DMA is not due. */
  lemma RequestIsDropped(c: Cpu, d: Dma, env: Env)
    ensures
      var r := LoadDmc(c, d, env).cpu;
      !r.lines.dmc && (DmcRequest(env, c.polls) ==> r.lines.halt && r.lines.dummy)
  {
    hide ReadCycle, Peek, Plain;
    ReadPasses(Settle(c), env.dmcAddr(c.polls), env);
  }
}
