/** The MMC3 interrupt: with an unchanged latch it has a fixed period in edges of address line 12. */
module Mmc3Irq {
  import opened Words
  import Bits
  import opened Mmc3Spec

  /** The event neither writes the latch, nor asks for a reload, nor resets the board. */
  predicate LeavesLatch(event: Event) {
    match event
    case Access(_) => true
    case Store(addr, _) => addr >= 0x8000 ==> RegisterOf(addr) != 0xC000 && RegisterOf(addr) != 0xC001
    case Restart => false
  }

  /** The level of address line 12 at the last pattern table access. */
  function LevelAfter(level: u16, events: seq<Event>): u16 {
    if events == [] then level
    else
      var last := events[|events| - 1];
      if last.Access? && last.addr < 0x2000 then Line12(last.addr)
      else LevelAfter(level, events[..|events| - 1])
  }

  /** The number of accesses that change the level in the direction of the revision. */
  function Edges(revision: Revision, level: u16, events: seq<Event>): nat {
    if events == [] then 0
    else
      var before, last := events[..|events| - 1], events[|events| - 1];
      Edges(revision, level, before)
      + if last.Access? && IsEdge(revision, LevelAfter(level, before), last.addr) then 1 else 0
  }

  /** The counter after `edges` edges that follow a reload request. */
  ghost predicate CounterIs(b: Board, start: Board, edges: nat) {
    && b.revision == start.revision && b.irqLatch == start.irqLatch
    && if edges == 0 then b.irqReload
       else !b.irqReload && b.irqCounter == b.irqLatch - Bits.Rest(edges - 1, b.irqLatch + 1)
  }

  lemma OtherEventsKeep(b: Board, event: Event)
    requires b.Fits() && LeavesLatch(event) && !event.Access?
    ensures var r := Step(b, event);
      && r.revision == b.revision && r.irqLatch == b.irqLatch && r.irqReload == b.irqReload
      && r.irqCounter == b.irqCounter && r.lastClock == b.lastClock
  {
    hide PrgPage, ChrPage, RegisterOf;
  }

  lemma EdgeRaises(b: Board, addr: u16)
    requires IsEdge(b.revision, b.lastClock, addr)
    ensures ClockIrq(b.(irqPending := false), addr).irqPending == Raises(b)
  {
    hide Line12;
  }

  lemma EdgeCounts(b: Board, start: Board, edges: nat)
    requires CounterIs(b, start, edges)
    ensures NextCounter(b) == b.irqLatch - Bits.Rest(edges, b.irqLatch + 1)
    ensures Raises(b) <==>
      && b.irqEnabled
      && Bits.Rest(edges + 1, b.irqLatch + 1) == 0
      && (b.revision == BC || b.irqLatch > 0 || edges == 0)
  {
    hide Bits.Rest;
    Bits.RestStep(edges, b.irqLatch + 1);
    if edges > 0 {
      Bits.RestStep(edges - 1, b.irqLatch + 1);
    }
  }

  /** The counter depends on the number of edges only, whatever else is read and written. */
  lemma {:induction false} CounterAfter(b: Board, events: seq<Event>)
    requires b.Fits() && b.irqReload
    requires forall i :: 0 <= i < |events| ==> LeavesLatch(events[i])
    ensures CounterIs(Run(b, events), b, Edges(b.revision, b.lastClock, events))
    ensures Run(b, events).lastClock == LevelAfter(b.lastClock, events)
  {
    hide Write, Reset, LeavesLatch, Line12, Bits.Rest, NextCounter, Raises;
    if events != [] {
      var before, last := events[..|events| - 1], events[|events| - 1];
      CounterAfter(b, before);
      var s := Run(b, before);
      if last.Access? {
        EdgeCounts(s, b, Edges(b.revision, b.lastClock, before));
      } else {
        OtherEventsKeep(s, last);
      }
    }
  }

  /** With interrupts enabled, latch L and a requested reload, the edge that follows e edges raises
    the interrupt exactly if its number e + 1 is a multiple of L + 1. Revision A and the clone do so
    only for a latch above zero; with latch zero they raise it on the first edge alone. */
  lemma PeriodIsExact(b: Board, events: seq<Event>, addr: u16)
    requires b.Fits() && b.irqReload
    requires forall i :: 0 <= i < |events| ==> LeavesLatch(events[i])
    requires IsEdge(b.revision, LevelAfter(b.lastClock, events), addr)
    ensures var edge := Edges(b.revision, b.lastClock, events) + 1;
      var s := Run(b, events);
      ClockIrq(s.(irqPending := false), addr).irqPending <==>
        && s.irqEnabled
        && Bits.Rest(edge, b.irqLatch + 1) == 0
        && (b.revision == BC || b.irqLatch > 0 || edge == 1)
  {
    hide Line12, Run, NextCounter, Raises, Bits.Rest, ClockIrq, Edges, LevelAfter, IsEdge;
    CounterAfter(b, events);
    EdgeRaises(Run(b, events), addr);
    EdgeCounts(Run(b, events), b, Edges(b.revision, b.lastClock, events));
  }

  /** Accesses alone: the interrupt is pending from edge number L + 1 on, and not before. */
  lemma {:induction false} FirstInterrupt(b: Board, events: seq<Event>)
    requires b.Fits() && b.irqReload && b.irqEnabled && !b.irqPending
    requires forall i :: 0 <= i < |events| ==> events[i].Access?
    ensures Run(b, events).irqPending <==> Edges(b.revision, b.lastClock, events) > b.irqLatch
    ensures Run(b, events).irqEnabled
  {
    hide Line12, Bits.Rest, NextCounter, Raises;
    if events != [] {
      var before, last := events[..|events| - 1], events[|events| - 1];
      FirstInterrupt(b, before);
      CounterAfter(b, before);
      var s, edges := Run(b, before), Edges(b.revision, b.lastClock, before);
      EdgeCounts(s, b, edges);
      if edges <= b.irqLatch {
        Bits.RestStep(edges, b.irqLatch + 1);
      }
    }
  }
}
