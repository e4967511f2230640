/** The MMC1 serial port over every run: which writes it takes, what it holds, where the bits go. */
module Mmc1Port {
  import opened Words
  import opened Bits
  import opened MemBanks
  import opened Mmc1Spec

  function BitOf(val: u8): (bit: nat)
    ensures bit <= 1
  {
    val % 2
  }

  /** The number whose bit i is the i-th of the bits. */
  function Number(bits: seq<nat>): nat {
    if bits == [] then 0
    else Number(bits[..|bits| - 1]) + bits[|bits| - 1] * Pow2(|bits| - 1)
  }

  /** The bits lie above a mark, and below the mark are zeros: the lowest bit that is set tells how
    many bits are held. */
  predicate Holds(register: nat, bits: seq<nat>) {
    && |bits| <= 4
    && (forall i :: 0 <= i < |bits| ==> bits[i] <= 1)
    && register == (1 + 2 * Number(bits)) * Pow2(4 - |bits|)
  }

  lemma ShiftedIs(register: nat, val: u8)
    requires register < 0x20
    ensures Shifted(register, val) == register / 2 + 16 * BitOf(val)
    ensures And(register, 1) == register % 2
  {
    Powers();
    hide And, Or, ShiftLeft, Pow2;
    AndMask(val, 1);
    AndMask(register, 1);
    ShiftLeftIsTimes(BitOf(val), 4);
    OrCommutes(register / 2, 16 * BitOf(val));
    OrAdds(BitOf(val), register / 2, 4);
    assert And(val, 1) == BitOf(val);
    assert ShiftLeft(BitOf(val), 4) == BitOf(val) * Pow2(4) == 16 * BitOf(val);
    assert ShiftRight(register, 1) == register / 2;
  }

  lemma {:induction false} NumberBelow(bits: seq<nat>)
    requires forall i :: 0 <= i < |bits| ==> bits[i] <= 1
    ensures Number(bits) < Pow2(|bits|)
  {
    if bits != [] {
      NumberBelow(bits[..|bits| - 1]);
    }
  }

  lemma NumberPush(bits: seq<nat>, bit: nat)
    ensures Number(bits + [bit]) == Number(bits) + bit * Pow2(|bits|)
  {
    assert (bits + [bit])[..|bits|] == bits;
  }

  lemma Powers()
    ensures Pow2(0) == 1 && Pow2(1) == 2 && Pow2(2) == 4 && Pow2(3) == 8 && Pow2(4) == 16
  {
  }

  /** Pushing a bit into a port that has room adds it; pushing into a full one leaves the number. */
  lemma PushIs(register: nat, bits: seq<nat>, val: u8)
    requires Holds(register, bits)
    ensures 1 <= register <= 31 && |bits| <= 4
    ensures And(register, 1) == 1 <==> |bits| == 4
    ensures |bits| < 4 ==> Holds(Shifted(register, val), bits + [BitOf(val)])
    ensures |bits| == 4 ==> Shifted(register, val) as nat == Number(bits + [BitOf(val)]) < 32
  {
    hide Number, BitOf, Shifted, Pow2, And;
    NumberPush(bits, BitOf(val));
    NumberBelow(bits);
    PushArithmetic(|bits|, Number(bits), BitOf(val));
    ShiftedIs(register, val);
  }

  lemma PushArithmetic(k: nat, n: nat, bit: nat)
    requires k <= 4 && bit <= 1 && n < Pow2(k)
    ensures var register := (1 + 2 * n) * Pow2(4 - k);
      && 1 <= register <= 31
      && (register % 2 == 1 <==> k == 4)
      && (k < 4 ==> register / 2 + 16 * bit == (1 + 2 * (n + bit * Pow2(k))) * Pow2(4 - (k + 1)))
      && (k == 4 ==> register / 2 + 16 * bit == n + bit * Pow2(k) < 32)
  {
    Powers();
    hide Pow2;
    if k == 0 {
    } else if k == 1 {
    } else if k == 2 {
    } else if k == 3 {
    }
  }

  /** The clocks since the last accepted write; `gap` are those before the events. */
  function Gap(gap: nat, events: seq<Event>): nat {
    if events == [] then gap
    else
      var g := Gap(gap, events[..|events| - 1]);
      match events[|events| - 1]
      case Cycle => g + 1
      case Store(addr, _) => if addr >= 0x8000 && g >= 2 then 0 else g
      case Restart(kind) => if kind == Hard then Max(g, 2) else g
  }

  /** The bits of the accepted writes since the port was last empty. */
  function Pending(gap: nat, events: seq<Event>): seq<nat> {
    if events == [] then []
    else
      var before := events[..|events| - 1];
      match events[|events| - 1]
      case Cycle => Pending(gap, before)
      case Restart(_) => []
      case Store(addr, val) =>
        if addr < 0x8000 || Gap(gap, before) < 2 then Pending(gap, before)
        else if And(val, 0x80) > 0 || |Pending(gap, before)| == 4 then []
        else Pending(gap, before) + [BitOf(val)]
  }

  /** A board with an empty port that took its last write `gap` clocks ago. */
  predicate Starts(b: Board, gap: nat) {
    b.Fits() && b.shiftRegister == EMPTY && b.writeJustOccurred == Max(0, 2 - gap)
  }

  /** In every reachable state the port holds the bits written since it was last empty, and a write
    is taken exactly if two clocks have passed since the last one that was. */
  lemma {:induction false} PortHolds(b: Board, gap: nat, events: seq<Event>)
    requires Starts(b, gap)
    ensures Holds(Run(b, events).shiftRegister, Pending(gap, events))
    ensures 1 <= Run(b, events).shiftRegister <= 31
    ensures Run(b, events).writeJustOccurred == Max(0, 2 - Gap(gap, events))
  {
    hide UpdateBanks, Shifted, BitOf, Number, Pow2, And, Or, Holds, Write, Reset;
    if events == [] {
      EmptyHolds();
      PushIs(EMPTY, [], 0);
    } else {
      var before := events[..|events| - 1];
      PortHolds(b, gap, before);
      EmptyHolds();
      PushIs(EMPTY, [], 0);
      match events[|events| - 1]
      case Cycle =>
      case Restart(_) => ResetEmpties(Run(b, before), events[|events| - 1].kind);
      case Store(addr, val) => StorePends(Run(b, before), gap, before, addr, val);
    }
  }

  lemma EmptyHolds()
    ensures Holds(EMPTY, [])
  {
    assert Pow2(4) == 16;
  }

  lemma ResetEmpties(b: Board, kind: ResetKind)
    requires b.Fits()
    ensures Reset(b, kind).shiftRegister == EMPTY
    ensures Reset(b, kind).writeJustOccurred == if kind == Hard then 0 else b.writeJustOccurred
  {
  }

  lemma LoadKeeps(b: Board, addr: u16, val: u8)
    requires b.Fits()
    ensures var r := UpdateBanks(Load(b, addr, val).(shiftRegister := EMPTY), addr);
      r.shiftRegister == EMPTY && r.writeJustOccurred == b.writeJustOccurred
  {
  }

  lemma StorePends(s: Board, gap: nat, before: seq<Event>, addr: u16, val: u8)
    requires s.Fits() && Holds(s.shiftRegister, Pending(gap, before))
    requires s.writeJustOccurred == Max(0, 2 - Gap(gap, before))
    ensures Holds(Write(s, addr, val).shiftRegister, Pending(gap, before + [Store(addr, val)]))
    ensures 1 <= Write(s, addr, val).shiftRegister <= 31
    ensures Write(s, addr, val).writeJustOccurred == Max(0, 2 - Gap(gap, before + [Store(addr, val)]))
  {
    hide UpdateBanks, Load, Shifted, BitOf, Number, Pow2, And, Or, Holds;
    assert (before + [Store(addr, val)])[..|before|] == before;
    var bits := Pending(gap, before);
    PushIs(s.shiftRegister, bits, val);
    EmptyHolds();
    PushIs(EMPTY, [], 0);
    if |bits| < 4 {
      PushIs(Shifted(s.shiftRegister, val), bits + [BitOf(val)], 0);
    }
    LoadKeeps(s.(writeJustOccurred := 2), addr, Shifted(s.shiftRegister, val));
  }

  /** A write that comes too early changes nothing. */
  lemma EarlyWrite(b: Board, gap: nat, events: seq<Event>, addr: u16, val: u8)
    requires Starts(b, gap) && addr >= 0x8000 && Gap(gap, events) < 2
    ensures Write(Run(b, events), addr, val) == Run(b, events)
  {
    hide Run, Gap, Holds;
    PortHolds(b, gap, events);
  }

  /** A write with bit 7 empties the port and fixes the last program bank in the control register,
    but leaves the bank tables as they are. */
  lemma ResetWrite(b: Board, gap: nat, events: seq<Event>, addr: u16, val: u8)
    requires Starts(b, gap) && addr >= 0x8000 && Gap(gap, events) >= 2 && And(val, 0x80) > 0
    ensures var s := Run(b, events);
      Write(s, addr, val) == Taken(s).(control := Or(s.control, 0x0C))
  {
    hide Run, Gap, Holds, And, Or;
    PortHolds(b, gap, events);
  }

  /** Any other accepted write adds a bit while there are fewer than five. */
  lemma NextBit(b: Board, gap: nat, events: seq<Event>, addr: u16, val: u8)
    requires Starts(b, gap) && addr >= 0x8000 && Gap(gap, events) >= 2 && And(val, 0x80) == 0
    requires |Pending(gap, events)| < 4
    ensures var s := Run(b, events);
      var r := Write(s, addr, val);
      r == Taken(s).(shiftRegister := r.shiftRegister) && Holds(r.shiftRegister, Pending(gap, events) + [BitOf(val)])
  {
    hide Run, Gap, Holds, And, Or, Shifted, BitOf, Pending;
    PortHolds(b, gap, events);
    PushIs(Run(b, events).shiftRegister, Pending(gap, events), val);
  }

  /** The fifth bit loads the number into the register of its own address, empties the port and
    rebuilds the bank tables. */
  lemma FifthBit(b: Board, gap: nat, events: seq<Event>, addr: u16, val: u8)
    requires Starts(b, gap) && addr >= 0x8000 && Gap(gap, events) >= 2 && And(val, 0x80) == 0
    requires |Pending(gap, events)| >= 4
    ensures var s, bits := Run(b, events), Pending(gap, events) + [BitOf(val)];
      && |bits| == 5
      && Write(s, addr, val) == UpdateBanks(Load(Taken(s), addr, Number(bits)), addr)
  {
    hide Run, Gap, And, Or, Shifted, BitOf, Pending, UpdateBanks, Number;
    PortHolds(b, gap, events);
    PushIs(Run(b, events).shiftRegister, Pending(gap, events), val);
    hide Holds;
  }

  /** An accepted write starts the pause and, before a bit is added, the port is empty. */
  function Taken(b: Board): (r: Board)
    ensures b.Fits() ==> r.Fits()
  {
    b.(writeJustOccurred := 2, shiftRegister := EMPTY)
  }

  function Idle(clocks: nat): (events: seq<Event>)
    ensures |events| == clocks
    ensures forall i :: 0 <= i < clocks ==> events[i] == Cycle
  {
    seq(clocks, _ => Cycle)
  }

  lemma {:induction false} IdleIs(b: Board, clocks: nat)
    requires b.Fits()
    ensures Run(b, Idle(clocks)) == b.(writeJustOccurred := Max(0, b.writeJustOccurred - clocks))
  {
    if clocks > 0 {
      assert Idle(clocks)[..clocks - 1] == Idle(clocks - 1);
      IdleIs(b, clocks - 1);
    }
  }

  /** Writes to the port, each followed by clocks. */
  function Deposits(b: Board, writes: seq<(u16, u8)>, clocks: seq<nat>): (r: Board)
    requires b.Fits() && |writes| == |clocks|
    ensures r.Fits()
  {
    if writes == [] then b
    else
      var k := |writes| - 1;
      Run(Write(Deposits(b, writes[..k], clocks[..k]), writes[k].0, writes[k].1), Idle(clocks[k]))
  }

  function BitsOf(writes: seq<(u16, u8)>): (bits: seq<nat>)
    ensures |bits| == |writes|
  {
    if writes == [] then [] else BitsOf(writes[..|writes| - 1]) + [BitOf(writes[|writes| - 1].1)]
  }

  /** The writes are spaced by two clocks or more and do not reset the port. */
  predicate Spaced(writes: seq<(u16, u8)>, clocks: seq<nat>) {
    && |writes| == |clocks|
    && forall i :: 0 <= i < |writes| ==> writes[i].0 >= 0x8000 && And(writes[i].1, 0x80) == 0 && clocks[i] >= 2
  }

  lemma {:induction false} DepositsPush(b: Board, writes: seq<(u16, u8)>, clocks: seq<nat>)
    requires b.Fits() && b.shiftRegister == EMPTY && b.writeJustOccurred == 0
    requires Spaced(writes, clocks) && |writes| < 5
    ensures var r := Deposits(b, writes, clocks);
      r == b.(shiftRegister := r.shiftRegister) && Holds(r.shiftRegister, BitsOf(writes))
  {
    hide UpdateBanks, Load, Shifted, BitOf, Number, Pow2, And, Or, Holds, Run;
    EmptyHolds();
    if writes != [] {
      var k := |writes| - 1;
      DepositsPush(b, writes[..k], clocks[..k]);
      var s := Deposits(b, writes[..k], clocks[..k]);
      PushIs(s.shiftRegister, BitsOf(writes[..k]), writes[k].1);
      IdleIs(Write(s, writes[k].0, writes[k].1), clocks[k]);
    }
  }

  /** Five writes, each followed by at least two clocks, load their bits, first bit lowest, into the
    register that the fifth address selects, whatever the first four addresses are. */
  lemma FiveWrites(b: Board, writes: seq<(u16, u8)>, clocks: seq<nat>)
    requires b.Fits() && b.shiftRegister == EMPTY && b.writeJustOccurred == 0
    requires Spaced(writes, clocks) && |writes| == 5
    ensures Deposits(b, writes, clocks) == UpdateBanks(Load(b, writes[4].0, Number(BitsOf(writes))), writes[4].0)
  {
    hide UpdateBanks, Shifted, BitOf, Number, Pow2, And, Or, Holds, Run;
    DepositsPush(b, writes[..4], clocks[..4]);
    var s := Deposits(b, writes[..4], clocks[..4]);
    PushIs(s.shiftRegister, BitsOf(writes[..4]), writes[4].1);
    IdleIs(Write(s, writes[4].0, writes[4].1), clocks[4]);
    LoadCommutes(b, writes[4].0, Number(BitsOf(writes)), clocks[4]);
  }

  lemma LoadCommutes(b: Board, addr: u16, val: nat, clocks: nat)
    requires b.Fits() && b.writeJustOccurred == 0 && b.shiftRegister == EMPTY && clocks >= 2
    ensures var r := UpdateBanks(Load(b.(writeJustOccurred := 2), addr, val).(shiftRegister := EMPTY), addr);
      r.(writeJustOccurred := Max(0, r.writeJustOccurred - clocks)) == UpdateBanks(Load(b, addr, val), addr)
  {
    hide PageOf, And, Or;
  }

  /** The five bits as a number. */
  lemma FiveBits(writes: seq<(u16, u8)>)
    requires |writes| == 5
    ensures Number(BitsOf(writes)) == BitOf(writes[0].1) + 2 * BitOf(writes[1].1) + 4 * BitOf(writes[2].1)
      + 8 * BitOf(writes[3].1) + 16 * BitOf(writes[4].1)
  {
    hide BitOf, Number, Pow2;
    Powers();
    NumberPush([], BitOf(writes[0].1));
    NumberPush(BitsOf(writes[..1]), BitOf(writes[1].1));
    NumberPush(BitsOf(writes[..2]), BitOf(writes[2].1));
    NumberPush(BitsOf(writes[..3]), BitOf(writes[3].1));
    NumberPush(BitsOf(writes[..4]), BitOf(writes[4].1));
    assert writes[..4][..3] == writes[..3] && writes[..3][..2] == writes[..2] && writes[..2][..1] == writes[..1];
    assert BitsOf(writes[..1]) == [] + [BitOf(writes[0].1)] by {
      assert writes[..1][..0] == [];
    }
    NumberOfNone();
  }

  lemma NumberOfNone()
    ensures Number([]) == 0
  {
  }
}
