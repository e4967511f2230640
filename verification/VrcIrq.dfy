/** The interrupt counter of the VRC boards. In scanline mode a prescaler divides the clock by
  341/3; it must not drift. */
module VrcIrq {
  import opened Words
  import Bits

  const SCANLINE := 341

  datatype Irq = Irq(
    reload: u8,
    counter: u8,
    prescaler: int,
    enabled: bool,
    enabledAfterAck: bool,
    cycleMode: bool,
    pending: bool
  )

  function Tick(s: Irq): Irq {
    if s.counter == 0xFF then s.(counter := s.reload, pending := true) else s.(counter := s.counter + 1)
  }

  function Clocked(s: Irq): Irq {
    if !s.enabled then s
    else
      var counted := s.(prescaler := s.prescaler - 3);
      if s.cycleMode || counted.prescaler <= 0 then Tick(counted).(prescaler := counted.prescaler + SCANLINE)
      else counted
  }

  function Controlled(s: Irq, val: u8): Irq {
    var written := s.(enabledAfterAck := val % 2 == 1, enabled := val / 2 % 2 == 1, cycleMode := val / 4 % 2 == 1,
                  pending := false);
    if written.enabled then written.(counter := s.reload, prescaler := SCANLINE) else written
  }

  function Acknowledged(s: Irq): Irq {
    s.(enabled := s.enabledAfterAck, pending := false)
  }

  class VrcIrq {
    var reload: u8
    var counter: u8
    var prescalerCounter: int
    var enabled: bool
    var enabledAfterAck: bool
    var cycleMode: bool
    var pending: bool

    ghost function State(): Irq
      reads this
    {
      Irq(reload, counter, prescalerCounter, enabled, enabledAfterAck, cycleMode, pending)
    }

    constructor ()
      ensures State() == Irq(0, 0, 0, false, false, false, false)
    {
      reload, counter, prescalerCounter := 0, 0, 0;
      enabled, enabledAfterAck, cycleMode, pending := false, false, false, false;
    }

    method WriteReload(val: u8)
      modifies this
      ensures State() == old(State()).(reload := val)
    {
      reload := val;
    }

    method WriteControl(val: u8)
      modifies this
      ensures State() == Controlled(old(State()), val)
    {
      ControlBits(val);
      enabledAfterAck := Bits.And(val, 0x01) == 0x01;
      enabled := Bits.And(val, 0x02) == 0x02;
      cycleMode := Bits.And(val, 0x04) == 0x04;
      if enabled {
        counter := reload;
        prescalerCounter := 341;
      }
      pending := false;
    }

    method Acknowledge()
      modifies this
      ensures State() == Acknowledged(old(State()))
    {
      enabled := enabledAfterAck;
      pending := false;
    }

    /** Returns the number of cycles that the board took. */
    method Clock() returns (cycles: nat)
      modifies this
      ensures State() == Clocked(old(State()))
      ensures cycles == if old(enabled) then 1 else 0
    {
      if !enabled {
        return 0;
      }
      prescalerCounter := prescalerCounter - 3;
      if cycleMode || prescalerCounter <= 0 {
        if counter == 0xFF {
          counter := reload;
          pending := true;
        } else {
          counter := counter + 1;
        }
        prescalerCounter := prescalerCounter + 341;
      }
      cycles := 1;
    }

    method Reset()
      modifies this
      ensures State() == Irq(0, 0, 0, false, false, false, old(pending))
    {
      reload, counter, prescalerCounter := 0, 0, 0;
      enabled, enabledAfterAck, cycleMode := false, false, false;
    }
  }

  lemma ControlBits(val: u8)
    ensures Bits.And(val, 0x01) == 0x01 <==> val % 2 == 1
    ensures Bits.And(val, 0x02) == 0x02 <==> val / 2 % 2 == 1
    ensures Bits.And(val, 0x04) == 0x04 <==> val / 4 % 2 == 1
  {
    assert Bits.And(val / 4, 1) == val / 4 % 2;
    assert Bits.And(val / 2, 2) == 2 * Bits.And(val / 4, 1);
  }

  /** What happens to the counter while it runs: a clock, or the program's acknowledgement. */
  datatype Event = Cycle | Acknowledge

  function Step(s: Irq, event: Event): Irq {
    if event == Cycle then Clocked(s) else Acknowledged(s)
  }

  function Run(s: Irq, events: seq<Event>): Irq {
    if events == [] then s else Step(Run(s, events[..|events| - 1]), events[|events| - 1])
  }

  function Clocks(events: seq<Event>): nat {
    if events == [] then 0
    else Clocks(events[..|events| - 1]) + if events[|events| - 1] == Cycle then 1 else 0
  }

  /** The scanlines that end within the clocks: three dots a clock, 341 dots a scanline. */
  function Lines(clocks: nat): nat {
    3 * clocks / SCANLINE
  }

  /** A counter that has just been switched on in scanline mode. */
  predicate SwitchedOn(s: Irq) {
    s.enabled && !s.cycleMode && s.counter == s.reload && s.prescaler == SCANLINE && !s.pending
  }

  /** Bit 1 switches the counter on and bit 2 chooses the mode; bit 0 only matters when the interrupt
    is acknowledged. */
  lemma ControlSwitchesOn(s: Irq, val: u8)
    ensures val / 2 % 4 == 1 <==> SwitchedOn(Controlled(s, val))
    ensures Controlled(s, val).enabledAfterAck == (val % 2 == 1)
  {
  }

  /** No acknowledgement has switched the counter off. */
  predicate Counting(s: Irq, events: seq<Event>) {
    s.enabledAfterAck || Acknowledge !in events
  }

  /** The clocks that the counter gets: all of them, or those before the first acknowledgement. */
  function Counted(s: Irq, events: seq<Event>): nat {
    if events == [] then 0
    else
      var before := events[..|events| - 1];
      Counted(s, before) + if Counting(s, before) && events[|events| - 1] == Cycle then 1 else 0
  }

  lemma {:induction false} CountsAll(s: Irq, events: seq<Event>)
    requires Counting(s, events)
    ensures Counted(s, events) == Clocks(events)
  {
    if events != [] {
      CountsAll(s, events[..|events| - 1]);
    }
  }

  /** With bit 0 clear the counter stands still from the first acknowledgement on. */
  lemma {:induction false} StopsAtAcknowledge(s: Irq, before: seq<Event>, after: seq<Event>)
    requires !s.enabledAfterAck && Acknowledge !in before
    ensures Counted(s, before + [Acknowledge] + after) == Clocks(before)
  {
    var events := before + [Acknowledge] + after;
    var shorter := events[..|events| - 1];
    if after == [] {
      assert shorter == before;
      CountsAll(s, before);
    } else {
      assert shorter == before + [Acknowledge] + after[..|after| - 1];
      assert shorter[|before|] == Acknowledge;
      StopsAtAcknowledge(s, before, after[..|after| - 1]);
    }
  }

  lemma NextLine(n: nat)
    ensures var left := 3 * n - SCANLINE * Lines(n);
      && 0 <= left < SCANLINE
      && Lines(n + 1) == if left + 3 >= SCANLINE then Lines(n) + 1 else Lines(n)
  {
  }

  /** The state after n counted clocks; `on` says whether the counter is still on. */
  predicate CountIs(s: Irq, r: Irq, n: nat, on: bool) {
    && r.enabled == on && r.enabledAfterAck == s.enabledAfterAck
    && !r.cycleMode && r.reload == s.reload
    && r.prescaler == SCANLINE - (3 * n - SCANLINE * Lines(n))
    && 1 <= r.prescaler <= SCANLINE
    && r.counter == s.reload + Bits.Rest(Lines(n), 0x100 - s.reload)
  }

  lemma CountStep(s: Irq, r: Irq, n: nat)
    requires CountIs(s, r, n, true)
    ensures CountIs(s, Clocked(r), n + 1, true)
  {
    hide Bits.Rest, Lines;
    NextLine(n);
    Bits.RestStep(Lines(n), 0x100 - s.reload);
  }

  /** However the acknowledgements fall, after n clocks the counter has counted exactly the scanlines
    in 3n dots, modulo its period, and the prescaler is what is left of the current scanline. */
  lemma {:induction false} NoDrift(s: Irq, events: seq<Event>)
    requires SwitchedOn(s)
    ensures CountIs(s, Run(s, events), Counted(s, events), Counting(s, events))
  {
    hide Bits.Rest, Clocked;
    if events == [] {
      Bits.RestStep(0, 0x100 - s.reload);
    } else {
      var before, event := events[..|events| - 1], events[|events| - 1];
      NoDrift(s, before);
      assert events == before + [event];
      hide CountIs;
      if event == Acknowledge {
        AcknowledgeCounts(s, Run(s, before), Counted(s, before), Counting(s, before));
      } else if Counting(s, before) {
        CountStep(s, Run(s, before), Counted(s, before));
      } else {
        StandsStill(s, Run(s, before), Counted(s, before));
      }
    }
  }

  lemma AcknowledgeCounts(s: Irq, r: Irq, n: nat, on: bool)
    requires CountIs(s, r, n, on)
    ensures CountIs(s, Acknowledged(r), n, s.enabledAfterAck)
  {
    hide Bits.Rest, Lines;
  }

  lemma StandsStill(s: Irq, r: Irq, n: nat)
    requires CountIs(s, r, n, false)
    ensures Clocked(r) == r
  {
    hide Bits.Rest, Lines;
  }

  /** A clock raises the interrupt exactly if the counter is on and the clock ends a scanline whose
    number is a multiple of what the counter has to go from the reload value. */
  lemma RaisesExactly(s: Irq, events: seq<Event>)
    requires SwitchedOn(s)
    ensures var n := Counted(s, events);
      Clocked(Run(s, events).(pending := false)).pending <==>
        Counting(s, events) && Lines(n + 1) == Lines(n) + 1 && Bits.Rest(Lines(n + 1), 0x100 - s.reload) == 0
  {
    hide Bits.Rest, Bits.Periods, Lines, Run, Counted, Counting;
    var n := Counted(s, events);
    NoDrift(s, events);
    NextLine(n);
    Bits.RestStep(Lines(n), 0x100 - s.reload);
  }

  /** Left alone, the interrupt is pending from clock number 341 * (256 - reload) / 3, rounded up. */
  lemma {:induction false} FirstFires(s: Irq, events: seq<Event>)
    requires SwitchedOn(s) && forall i :: 0 <= i < |events| ==> events[i] == Cycle
    ensures Clocks(events) == |events|
    ensures Run(s, events).pending <==> |events| >= (SCANLINE * (0x100 - s.reload) + 2) / 3
  {
    if events != [] {
      var before := events[..|events| - 1];
      var n := |before|;
      FirstFires(s, before);
      CountsAll(s, before);
      NoDrift(s, before);
      var period := 0x100 - s.reload;
      LinesReach(n, period);
      LinesReach(n + 1, period);
      hide Bits.Rest, Lines;
      NextLine(n);
      if Lines(n) < period {
        Bits.RestStep(Lines(n), period);
      }
    }
  }

  lemma LinesReach(n: nat, lines: nat)
    ensures Lines(n) >= lines <==> n >= (SCANLINE * lines + 2) / 3
  {
  }

  /** In cycle mode the prescaler is fed and never drained: it fits 16 bits for 95 clocks only. */
  lemma {:induction false} CycleModeGrows(s: Irq, events: seq<Event>)
    requires s.enabled && s.cycleMode && s.prescaler == SCANLINE
    requires forall i :: 0 <= i < |events| ==> events[i] == Cycle
    ensures Run(s, events).enabled && Run(s, events).cycleMode
    ensures Run(s, events).prescaler == SCANLINE + 338 * |events|
    ensures Run(s, events).prescaler < 0x8000 <==> |events| <= 95
  {
    if events != [] {
      CycleModeGrows(s, events[..|events| - 1]);
    }
  }

  /** In cycle mode every clock counts: the interrupt is pending from clock number 256 - reload on. */
  lemma {:induction false} CycleModeFires(s: Irq, events: seq<Event>)
    requires s.enabled && s.cycleMode && s.prescaler == SCANLINE && s.counter == s.reload && !s.pending
    requires forall i :: 0 <= i < |events| ==> events[i] == Cycle
    ensures
      var r := Run(s, events);
      && r.reload == s.reload && r.counter == s.reload + Bits.Rest(|events|, 0x100 - s.reload)
      && (r.pending <==> |events| >= 0x100 - s.reload)
  {
    hide Bits.Rest;
    var period := 0x100 - s.reload;
    if events == [] {
      Bits.RestStep(0, period);
    } else {
      var before := events[..|events| - 1];
      CycleModeFires(s, before);
      CycleModeGrows(s, before);
      Bits.RestStep(|before|, period);
    }
  }
}
