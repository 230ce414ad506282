/**
  The toggle-switch latches of the throttle firmware. A toggle switch is
  reported as a button that is pressed for a fixed number of timer ticks
  whenever the switch is flipped. Each latch is the pair
  (toggleStatus[i], toggleTimeout[i]) of unsigned bytes; the foreground loop
  arms it on an edge of its pin and the timer overflow handler counts it down.

  This module is the value-level specification: the class in firmware.dfy
  is proved to follow it step by step.
*/
module Toggle {
  import opened Bytes

  /** Number of timer overflows a pulse lasts. */
  const PulseTicks: byte := 16

  /** One latch: the status flag and the ticks left before it clears. */
  datatype Latch = Latch(status: byte, timeout: byte)

  /** The state at power-up: both bytes zero. */
  const Idle := Latch(0, 0)

  /** The state right after an edge: flag set, a full pulse to go. */
  const Armed := Latch(1, PulseTicks)

  /** The latch invariant: the flag is 1 exactly while ticks remain, 0 otherwise,
      and no more than a full pulse remains. */
  predicate LatchValid(l: Latch) {
    l.timeout <= PulseTicks && l.status == (if l.timeout > 0 then 1 else 0)
  }

  /** One timer overflow seen by one latch. */
  function TickLatch(l: Latch): (r: Latch)
    ensures l.timeout == 0 ==> r == l
    ensures l.timeout > 0 ==> r.timeout == l.timeout - 1
    ensures l.timeout > 0 ==> r.status == (if r.timeout == 0 then 0 else l.status)
    ensures LatchValid(l) ==> LatchValid(r)
  {
    if l.timeout > 0 then
      var t := l.timeout - 1;
      Latch(if t == 0 then 0 else l.status, t)
    else
      l
  }

  /** The latch after n timer overflows and no edge. */
  function Ticks(l: Latch, n: nat): Latch
    decreases n
  {
    if n == 0 then l else Ticks(TickLatch(l), n - 1)
  }

  lemma {:induction false} TicksValid(l: Latch, n: nat)
    requires LatchValid(l)
    ensures LatchValid(Ticks(l, n))
    decreases n
  {
    if n > 0 {
      TicksValid(TickLatch(l), n - 1);
    }
  }

  /** One more tick at the end of a run of ticks. */
  lemma {:induction false} TicksSucc(l: Latch, n: nat)
    ensures Ticks(l, n + 1) == TickLatch(Ticks(l, n))
    decreases n
  {
    if n > 0 {
      TicksSucc(TickLatch(l), n - 1);
    }
  }

  /** An idle latch stays idle however many ticks pass. */
  lemma {:induction false} IdleStays(n: nat)
    ensures Ticks(Idle, n) == Idle
    decreases n
  {
    if n > 0 {
      IdleStays(n - 1);
    }
  }

  /** A set latch with k ticks to go stays set for k - 1 more ticks and clears on the k-th. */
  lemma {:induction false} CountDown(k: byte, n: nat)
    requires 1 <= k <= PulseTicks
    ensures Ticks(Latch(1, k), n) == if n < k then Latch(1, k - n) else Idle
    decreases n
  {
    if n > 0 {
      if k == 1 {
        assert TickLatch(Latch(1, k)) == Idle;
        IdleStays(n - 1);
      } else {
        CountDown(k - 1, n - 1);
      }
    }
  }

  /** Pulse shape: after an edge, the flag is 1 for ticks 0 to 15 and 0 from the 16th on. */
  lemma PulseShape(n: nat)
    ensures Ticks(Armed, n).status == (if n < PulseTicks then 1 else 0)
    ensures Ticks(Armed, n).timeout as int == (if n < PulseTicks then PulseTicks - n else 0)
  {
    CountDown(PulseTicks, n);
  }

  /** The two toggle inputs, PC0 and PC1, wired active low: bit 0 of the result
      is set while PC0 reads low, bit 1 while PC1 reads low. */
  function ToggleBits(pins: bv8): (r: bv8)
    ensures r <= 3
    ensures (r & 1 == 1) <==> (pins & 1 == 0)
    ensures (r & 2 == 2) <==> (pins & 2 == 0)
  {
    !pins & 0x03
  }

  /** Edge detection by XOR: true exactly when the masked bits differ. */
  function Changed(newBits: bv8, oldBits: bv8, mask: bv8): (r: bool)
    ensures r <==> newBits & mask != oldBits & mask
  {
    (newBits ^ oldBits) & mask != 0
  }

  /** The bit of ToggleBits that drives latch i: latch 0 follows bit 1 (PC1),
      latch 1 follows bit 0 (PC0). */
  function Mask(i: nat): (m: bv8)
    requires i < 2
    ensures m == 1 || m == 2
    ensures (i == 0) == (m == 2)
  {
    if i == 0 then 2 else 1
  }

  /** The debouncer: both latches and the toggle bits seen on the previous loop iteration. */
  datatype Debouncer = Debouncer(latch0: Latch, latch1: Latch, oldBits: bv8) {
    function At(i: nat): Latch
      requires i < 2
    {
      if i == 0 then latch0 else latch1
    }
  }

  /** Power-up state: both latches zero, and oldToggleStatus starts at 0. */
  const Reset := Debouncer(Idle, Idle, 0)

  predicate DebouncerValid(d: Debouncer) {
    LatchValid(d.latch0) && LatchValid(d.latch1) && d.oldBits <= 3
  }

  /** The edge-detection part of one loop iteration. An edge arms its latch
      afresh (restart, never added to); without an edge the latch is untouched;
      the new toggle bits are remembered for the next iteration. */
  function EdgeStep(d: Debouncer, pins: bv8): (r: Debouncer)
    ensures r.oldBits == ToggleBits(pins) && r.oldBits <= 3
    ensures forall i :: 0 <= i < 2 ==>
      r.At(i) == if ToggleBits(pins) & Mask(i) != d.oldBits & Mask(i) then Armed else d.At(i)
    ensures ToggleBits(pins) == d.oldBits ==> r.latch0 == d.latch0 && r.latch1 == d.latch1
    ensures DebouncerValid(d) ==> DebouncerValid(r)
  {
    var newBits := ToggleBits(pins);
    Debouncer(
      if Changed(newBits, d.oldBits, 0x2) then Armed else d.latch0,
      if Changed(newBits, d.oldBits, 0x1) then Armed else d.latch1,
      newBits)
  }

  /** One timer overflow: each latch counts down on its own. */
  function TickStep(d: Debouncer): (r: Debouncer)
    ensures forall i :: 0 <= i < 2 ==> r.At(i) == TickLatch(d.At(i))
    ensures r.oldBits == d.oldBits
    ensures DebouncerValid(d) ==> DebouncerValid(r)
  {
    Debouncer(TickLatch(d.latch0), TickLatch(d.latch1), d.oldBits)
  }

  /** What can happen between two observations: a timer overflow, or one
      whole loop iteration reading the given port C value. */
  datatype Event = TimerTick | LoopIteration(pins: bv8)

  function Step(d: Debouncer, e: Event): Debouncer {
    match e
    case TimerTick => TickStep(d)
    case LoopIteration(pins) => EdgeStep(d, pins)
  }

  /** The debouncer after a sequence of events, first event first. */
  function Run(d: Debouncer, evs: seq<Event>): Debouncer
    decreases |evs|
  {
    if evs == [] then d else Run(Step(d, evs[0]), evs[1..])
  }

  function CountTicks(evs: seq<Event>): nat
    decreases |evs|
  {
    if evs == [] then 0 else (if evs[0].TimerTick? then 1 else 0) + CountTicks(evs[1..])
  }

  /** Every loop iteration in evs sees the same level on latch i's toggle bit. */
  predicate Holds(evs: seq<Event>, i: nat, level: bv8)
    requires i < 2
  {
    forall k :: 0 <= k < |evs| && evs[k].LoopIteration? ==> ToggleBits(evs[k].pins) & Mask(i) == level
  }

  lemma {:induction false} RunAppend(d: Debouncer, a: seq<Event>, b: seq<Event>)
    ensures Run(d, a + b) == Run(Run(d, a), b)
    decreases |a|
  {
    if a != [] {
      assert (a + b)[0] == a[0] && (a + b)[1..] == a[1..] + b;
      RunAppend(Step(d, a[0]), a[1..], b);
    } else {
      assert a + b == b;
    }
  }

  /** Every interleaving of ticks and loop iterations keeps the latch invariant. */
  lemma {:induction false} RunPreservesValid(d: Debouncer, evs: seq<Event>)
    requires DebouncerValid(d)
    ensures DebouncerValid(Run(d, evs))
    decreases |evs|
  {
    if evs != [] {
      RunPreservesValid(Step(d, evs[0]), evs[1..]);
    }
  }

  /** From power-up, every sequence of ticks and loop iterations reaches only valid states. */
  lemma ReachableValid(evs: seq<Event>)
    ensures DebouncerValid(Run(Reset, evs))
  {
    RunPreservesValid(Reset, evs);
  }

  /** While latch i's toggle bit holds still, loop iterations do not touch the
      latch (whatever the other toggle does) and it evolves by the ticks alone. */
  lemma {:induction false} Steady(d: Debouncer, evs: seq<Event>, i: nat)
    requires i < 2
    requires Holds(evs, i, d.oldBits & Mask(i))
    ensures Run(d, evs).At(i) == Ticks(d.At(i), CountTicks(evs))
    ensures Run(d, evs).oldBits & Mask(i) == d.oldBits & Mask(i)
    decreases |evs|
  {
    if evs != [] {
      var next := Step(d, evs[0]);
      assert next.oldBits & Mask(i) == d.oldBits & Mask(i);
      assert next.At(i) == if evs[0].TimerTick? then TickLatch(d.At(i)) else d.At(i);
      assert Holds(evs[1..], i, next.oldBits & Mask(i)) by {
        forall k | 0 <= k < |evs[1..]| && evs[1..][k].LoopIteration?
          ensures ToggleBits(evs[1..][k].pins) & Mask(i) == next.oldBits & Mask(i)
        {
          assert evs[1..][k] == evs[k + 1];
        }
      }
      Steady(next, evs[1..], i);
    }
  }

  /** Pulse after an edge: once a loop iteration sees latch i's toggle bit
      change, the latch's flag is 1 until the 16th following tick and 0 from
      then on, if the bit does not change again. */
  lemma PulseAfterEdge(d: Debouncer, pins: bv8, evs: seq<Event>, i: nat)
    requires i < 2
    requires Changed(ToggleBits(pins), d.oldBits, Mask(i))
    requires Holds(evs, i, ToggleBits(pins) & Mask(i))
    ensures Run(d, [LoopIteration(pins)] + evs).At(i) == Ticks(Armed, CountTicks(evs))
    ensures Run(d, [LoopIteration(pins)] + evs).At(i).status == (if CountTicks(evs) < PulseTicks then 1 else 0)
  {
    var armed := EdgeStep(d, pins);
    assert ([LoopIteration(pins)] + evs)[1..] == evs;
    Steady(armed, evs, i);
    PulseShape(CountTicks(evs));
  }

  /** Re-trigger: an edge during a pulse restarts it, so the new pulse lasts a
      full 16 ticks from that edge whatever happened before. */
  lemma Retrigger(d: Debouncer, before: seq<Event>, pins: bv8, after: seq<Event>, i: nat)
    requires i < 2
    requires Changed(ToggleBits(pins), Run(d, before).oldBits, Mask(i))
    requires Holds(after, i, ToggleBits(pins) & Mask(i))
    ensures Run(d, before + [LoopIteration(pins)] + after).At(i) == Ticks(Armed, CountTicks(after))
  {
    assert before + [LoopIteration(pins)] + after == before + ([LoopIteration(pins)] + after);
    RunAppend(d, before, [LoopIteration(pins)] + after);
    PulseAfterEdge(Run(d, before), pins, after, i);
  }
}
