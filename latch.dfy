/** The motion latch of main.h: the edge interrupt `stateChange` counts
    falling edges on the motion input, the 1000 ms timer callback `Handle`
    latches motion when more than one edge arrived in the period, and each
    pass of `loop` consumes the latch, turning the LED off and showing a "+".
    Each callback is one atomic step; their preemption of each other is not
    modelled. */
module MotionLatch {

  /** The Arduino levels `LOW` and `HIGH`. */
  datatype Level = Low | High

  /** The three pieces of shared state: the edge counter `number`, the flag
      `state`, and the level last written to the LED pin. */
  datatype Latch = Latch(number: nat, state: Level, led: Level)

  /** What can happen to the latch: a falling edge on the motion input, a
      timer tick, or a pass of the main loop. */
  datatype Event = Edge | Tick | Pass

  /** State at power-up: no edges counted, the flag `LOW`, the LED pin low. */
  const Initial: Latch := Latch(0, Low, Low)

  /** The number of edges a period must exceed to count as motion. */
  const Threshold: nat := 1

  /** One atomic step of the latch. */
  function Step(s: Latch, e: Event): (t: Latch)
  {
    match e
    case Edge => s.(number := s.number + 1)
    case Tick => if s.number > Threshold then Latch(0, High, High) else s.(number := 0)
    case Pass => if s.state == High then s.(state := Low, led := Low) else s
  }

  /** Whether the step shows the "+" marker on the display. */
  function Marker(s: Latch, e: Event): (shown: bool)
  {
    e == Pass && s.state == High
  }

  /** The state after a sequence of events, taken in order. */
  function Run(s: Latch, es: seq<Event>): (t: Latch)
    decreases |es|
  {
    if es == [] then s else Run(Step(s, es[0]), es[1..])
  }

  /** The number of edges among the events. */
  function Edges(es: seq<Event>): (n: nat)
    decreases |es|
  {
    if es == [] then 0 else (if es[0] == Edge then 1 else 0) + Edges(es[1..])
  }

  /** The LED shows the flag: it is high exactly when motion is latched. */
  predicate LedShowsFlag(s: Latch)
  {
    s.led == s.state
  }

  /** Each step on its own: an edge adds one to the counter and changes
      nothing else; a tick always clears the counter, and sets the flag and
      the LED high exactly when more than one edge was counted, otherwise
      leaving them as they were; a pass always leaves the flag low, lowering
      the LED and showing the marker exactly when the flag was high. */
  lemma StepEffects(s: Latch)
    ensures Step(s, Edge) == Latch(s.number + 1, s.state, s.led)
    ensures Step(s, Tick).number == 0
    ensures s.number > Threshold ==> Step(s, Tick).state == High && Step(s, Tick).led == High
    ensures s.number <= Threshold ==> Step(s, Tick).state == s.state && Step(s, Tick).led == s.led
    ensures Step(s, Pass).state == Low && Step(s, Pass).number == s.number
    ensures Marker(s, Pass) <==> s.state == High
    ensures s.state == Low ==> Step(s, Pass) == s
    ensures s.state == High ==> Step(s, Pass).led == Low
  {
  }

  /** Running two sequences one after the other is running their
      concatenation. */
  lemma {:induction false} RunAppend(s: Latch, a: seq<Event>, b: seq<Event>)
    ensures Run(s, a + b) == Run(Run(s, a), b)
    decreases |a|
  {
    if a == [] {
      assert a + b == b;
    } else {
      assert (a + b)[1..] == a[1..] + b;
      RunAppend(Step(s, a[0]), a[1..], b);
    }
  }

  /** The LED shows the flag from power-up on, whatever the events. */
  lemma {:induction false} RunKeepsLedShowingFlag(s: Latch, es: seq<Event>)
    requires LedShowsFlag(s)
    ensures LedShowsFlag(Run(s, es))
    decreases |es|
  {
    if es != [] {
      RunKeepsLedShowingFlag(Step(s, es[0]), es[1..]);
    }
  }

  /** Between two ticks the counter grows by the number of edges, and the
      flag can only be lowered. */
  lemma {:induction false} RunWithinPeriod(s: Latch, es: seq<Event>)
    requires Tick !in es
    ensures Run(s, es).number == s.number + Edges(es)
    ensures Run(s, es).state == High ==> s.state == High
    decreases |es|
  {
    if es != [] {
      assert Tick !in es[1..] by { assert forall i :: 0 <= i < |es[1..]| ==> es[1..][i] == es[i + 1]; }
      RunWithinPeriod(Step(s, es[0]), es[1..]);
    }
  }

  /** One timer period that starts with a cleared counter (as every period
      after a tick does): at its tick the counter is cleared again, and the
      flag is high afterwards exactly when more than one edge arrived or an
      earlier latch is still unconsumed. */
  lemma PeriodLatchesMotion(s: Latch, es: seq<Event>)
    requires s.number == 0 && Tick !in es
    ensures Run(s, es + [Tick]).number == 0
    ensures Run(s, es + [Tick]).state == High <==> (Edges(es) > Threshold || Run(s, es).state == High)
  {
    RunAppend(s, es, [Tick]);
    RunWithinPeriod(s, es);
  }

  /** From a quiet start, a period latches motion exactly when at least two
      edges arrive before its tick: two edges set the flag, zero or one never
      does. */
  lemma QuietPeriodLatchesIff(s: Latch, es: seq<Event>)
    requires s.number == 0 && s.state == Low && Tick !in es
    ensures Run(s, es + [Tick]).state == High <==> Edges(es) >= 2
  {
    PeriodLatchesMotion(s, es);
    RunWithinPeriod(s, es);
  }

  /** Three edges in one period: the tick sets the flag and lights the LED
      and clears the counter, and the next loop pass shows the marker and
      turns the LED off again. */
  lemma ThreeEdgesThenPass()
    ensures var t := Run(Initial, [Edge, Edge, Edge, Tick]);
      t == Latch(0, High, High) && Marker(t, Pass) && Step(t, Pass) == Latch(0, Low, Low)
  {
  }

  /** The latch as the sketch holds it: three global variables that the two
      callbacks and the main loop update in place. */
  class Sketch {
    var number: nat
    var state: Level
    var led: Level

    /** The current values of the three variables. */
    function Snapshot(): (s: Latch)
      reads this
    {
      Latch(number, state, led)
    }

    /** The initialisers `number = 0`, `state = LOW`, and the LED pin low
        at reset. */
    constructor ()
      ensures Snapshot() == Initial
      ensures LedShowsFlag(Snapshot())
    {
      number, state, led := 0, Low, Low;
    }

    /** `stateChange`: the interrupt service routine counts one more edge. */
    method StateChange()
      modifies this`number
      ensures number == old(number) + 1
      ensures state == old(state) && led == old(led)
      ensures Snapshot() == Step(old(Snapshot()), Edge)
    {
      number := number + 1;
    }

    /** `Handle`: the timer service routine latches motion when more than one
        edge was counted, lighting the LED, and clears the counter in
        either case. */
    method Handle()
      modifies this
      ensures number == 0
      ensures old(number) > Threshold ==> state == High && led == High
      ensures old(number) <= Threshold ==> state == old(state) && led == old(led)
      ensures Snapshot() == Step(old(Snapshot()), Tick)
      ensures old(LedShowsFlag(Snapshot())) ==> LedShowsFlag(Snapshot())
    {
      if number > Threshold {
        state := High;
        led := state;
        number := 0;
      } else {
        number := 0;
      }
    }

    /** The consume step of `loop`: a latched flag is cleared, the LED is
        written low and the "+" marker is shown; an unlatched flag leaves
        everything as it is. */
    method ConsumeMotion() returns (marker: bool)
      modifies this`state, this`led
      ensures marker == (old(state) == High)
      ensures state == Low
      ensures led == if old(state) == High then Low else old(led)
      ensures number == old(number)
      ensures Snapshot() == Step(old(Snapshot()), Pass)
      ensures marker == Marker(old(Snapshot()), Pass)
      ensures old(LedShowsFlag(Snapshot())) ==> LedShowsFlag(Snapshot())
    {
      marker := state == High;
      if state == High {
        state := Low;
        led := state;
      }
    }
  }
}
