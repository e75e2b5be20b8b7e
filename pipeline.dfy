/** The ultrasonic distance pipeline as an atomic-step state machine.  The state is what
    the interrupt handler and the three tasks share: the rising-edge timestamp kept by
    the handler, the interval queue, the distance queue and the trigger semaphore.
    Each handler call and each task loop iteration is one step. */
module Pipeline {
  import opened Uint32
  import opened Rtos

  /** Edge masks the GPIO interrupt reports: falling edge and rising edge. */
  const EDGE_FALL: u32 := 0x4
  const EDGE_RISE: u32 := 0x8

  /** Both queues are created with room for 32 items. */
  const QUEUE_LENGTH: nat := 32

  /** Speed of sound, in metres per second, used by the distance formula. */
  const SPEED_OF_SOUND_M_PER_S: real := 340.0

  /** The shared state: `timeInit` is the handler's static rising-edge timestamp,
      `timeQueue` holds echo intervals in microseconds, `distQueue` distances in
      centimetres, and `trigger` is whether the binary semaphore is available. */
  datatype State = State(timeInit: u32, timeQueue: seq<u32>, distQueue: seq<real>, trigger: bool)

  /** What one iteration of the display task decides to show. */
  datatype Decision = Idle | Reading(distance: real) | Failure

  /** The state when the scheduler starts: the static timestamp is zero, both queues and
      the semaphore (created empty) hold nothing. */
  function Initial(): State
  {
    State(0, [], [], false)
  }

  /** Distance in centimetres for an echo interval of `dt` microseconds: seconds times
      the speed of sound, halved for the round trip, in centimetres.  That is 0.017 cm
      per microsecond of echo. */
  function DistanceCm(dt: u32): (d: real)
    ensures d == dt as real * 17.0 / 1000.0
    ensures 0.0 <= d
  {
    ((dt as real / 1000000.0) * SPEED_OF_SOUND_M_PER_S / 2.0) * 100.0
  }

  /** One call of the GPIO interrupt handler with edge mask `events` at time `now`
      (microseconds on the 32-bit free-running timer).  A rising edge records the start
      time; a falling edge replaces whatever interval is queued by the wrapped
      difference; every other mask, the combined one included, does nothing. */
  function OnEdge(s: State, events: u32, now: u32): (r: State)
    ensures events == EDGE_RISE ==> r == s.(timeInit := now)
    ensures events == EDGE_FALL ==> r == s.(timeQueue := [Sub(now, s.timeInit)])
    ensures events == EDGE_FALL ==> (r.timeInit + r.timeQueue[0]) % MODULUS == now
    ensures events != EDGE_FALL && events != EDGE_RISE ==> r == s
  {
    if events == EDGE_FALL then
      var dt := Sub(now, s.timeInit);
      s.(timeQueue := Overwrite(s.timeQueue, dt, QUEUE_LENGTH))
    else if events == EDGE_RISE then
      s.(timeInit := now)
    else
      s
  }

  /** One iteration of the trigger task: after the pulse it gives the semaphore, so the
      trigger is pending afterwards however many earlier gives nobody took. */
  function OnTrigger(s: State): (r: State)
    ensures r.trigger
    ensures r.timeInit == s.timeInit && r.timeQueue == s.timeQueue && r.distQueue == s.distQueue
  {
    s.(trigger := Give(s.trigger))
  }

  /** Whether the echo task can leave its blocking receive. */
  predicate EchoEnabled(s: State)
  {
    s.timeQueue != []
  }

  /** One iteration of the echo task.  While no interval is queued the task stays
      blocked and nothing changes; otherwise it takes the interval and replaces whatever
      distance is queued by the one computed from it. */
  function OnEcho(s: State): (r: State)
    ensures !EchoEnabled(s) ==> r == s
    ensures EchoEnabled(s) ==>
              r == s.(timeQueue := s.timeQueue[1..], distQueue := [DistanceCm(s.timeQueue[0])])
  {
    var got := Receive(s.timeQueue);
    match got.item
    case None => s
    case Some(dt) =>
      s.(timeQueue := got.queue, distQueue := Overwrite(s.distQueue, DistanceCm(dt), QUEUE_LENGTH))
  }

  /** Outcome of one iteration of the display task: the decision and the state after it. */
  datatype Presented = Presented(decision: Decision, state: State)

  /** One iteration of the display task: without a pending trigger it idles; with one it
      consumes the trigger and then shows the queued distance, consuming it, or the
      sensor failure message when no distance is queued. */
  function OnPresent(s: State): (r: Presented)
    ensures !s.trigger ==> r == Presented(Idle, s)
    ensures s.trigger && s.distQueue != [] ==>
              r == Presented(Reading(s.distQueue[0]), s.(trigger := false, distQueue := s.distQueue[1..]))
    ensures s.trigger && s.distQueue == [] ==> r == Presented(Failure, s.(trigger := false))
  {
    var t := Take(s.trigger);
    if !t.taken then
      Presented(Idle, s)
    else
      var got := Receive(s.distQueue);
      match got.item
      case Some(d) => Presented(Reading(d), s.(trigger := t.available, distQueue := got.queue))
      case None => Presented(Failure, s.(trigger := t.available))
  }

  /** The invariant the overwrite idiom buys: neither queue ever holds more than one
      value, so consumers never see a backlog. */
  ghost predicate AtMostOnePending(s: State)
  {
    |s.timeQueue| <= 1 && |s.distQueue| <= 1
  }

  /** An atomic step of the whole system: a handler call or one iteration of a task. */
  datatype Step = Edge(events: u32, now: u32) | Trigger | Echo | Present

  function Apply(s: State, a: Step): State
  {
    match a
    case Edge(events, now) => OnEdge(s, events, now)
    case Trigger => OnTrigger(s)
    case Echo => OnEcho(s)
    case Present => OnPresent(s).state
  }

  /** Final state and the decisions of the display task along one interleaving of steps. */
  datatype Trace = Trace(final: State, shown: seq<Decision>)

  /** Run the steps in order from `s`, recording every decision the display task makes. */
  function Run(s: State, steps: seq<Step>): Trace
    decreases |steps|
  {
    if steps == [] then
      Trace(s, [])
    else
      var rest := Run(Apply(s, steps[0]), steps[1..]);
      if steps[0].Present? then Trace(rest.final, [OnPresent(s).decision] + rest.shown) else rest
  }

  /** Every single step keeps at most one value in each queue. */
  lemma StepKeepsAtMostOnePending(s: State, a: Step)
    requires AtMostOnePending(s)
    ensures AtMostOnePending(Apply(s, a))
  {
  }

  /** Every interleaving of steps keeps at most one value in each queue. */
  lemma {:induction false} RunKeepsAtMostOnePending(s: State, steps: seq<Step>)
    requires AtMostOnePending(s)
    ensures AtMostOnePending(Run(s, steps).final)
    decreases |steps|
  {
    if steps != [] {
      StepKeepsAtMostOnePending(s, steps[0]);
      RunKeepsAtMostOnePending(Apply(s, steps[0]), steps[1..]);
    }
  }

  /** Hence in every reachable state the queues hold at most one value each, far below
      their capacity of 32, so no send in the system is ever refused. */
  lemma ReachableAtMostOnePending(steps: seq<Step>)
    ensures AtMostOnePending(Run(Initial(), steps).final)
    ensures |Run(Initial(), steps).final.timeQueue| < QUEUE_LENGTH
    ensures |Run(Initial(), steps).final.distQueue| < QUEUE_LENGTH
  {
    RunKeepsAtMostOnePending(Initial(), steps);
  }

  /** A falling edge with no rising edge before it is not guarded against: on the first
      cycle it measures from the zero-initialised timestamp, so it queues `now` itself. */
  lemma FallingEdgeBeforeAnyRisingEdge(now: u32)
    ensures OnEdge(Initial(), EDGE_FALL, now).timeQueue == [now]
  {
  }

  /** An echo step in a reachable state empties the interval queue. */
  lemma EchoDrainsIntervals(s: State)
    requires AtMostOnePending(s)
    requires EchoEnabled(s)
    ensures OnEcho(s).timeQueue == []
    ensures OnEcho(s).distQueue == [DistanceCm(s.timeQueue[0])]
  {
  }

  /** The running example: a 588 microsecond echo is 9.996 cm. */
  lemma EchoOf588Microseconds()
    ensures DistanceCm(588) == 9.996
  {
  }

  /** A longer echo means a farther object. */
  lemma DistanceIsMonotonic(a: u32, b: u32)
    requires a <= b
    ensures DistanceCm(a) <= DistanceCm(b)
  {
  }

  /** One full measurement cycle from any reachable state: rising edge at `t0`, falling
      edge at `t1`, the echo task, a trigger pulse and the display task.  The display
      shows the distance of the wrapped interval `t1 - t0`. */
  lemma {:induction false} OneCycleShowsReading(s: State, t0: u32, t1: u32)
    ensures Run(s, [Edge(EDGE_RISE, t0), Edge(EDGE_FALL, t1), Echo, Trigger, Present]).shown
         == [Reading(DistanceCm(Sub(t1, t0)))]
  {
    var steps := [Edge(EDGE_RISE, t0), Edge(EDGE_FALL, t1), Echo, Trigger, Present];
    var s1 := OnEdge(s, EDGE_RISE, t0);
    var s2 := OnEdge(s1, EDGE_FALL, t1);
    var s3 := OnEcho(s2);
    var s4 := OnTrigger(s3);
    assert Run(s4, steps[4..]).shown == [Reading(DistanceCm(Sub(t1, t0)))];
    assert Run(s3, steps[3..]).shown == Run(s4, steps[4..]).shown;
    assert Run(s2, steps[2..]).shown == Run(s3, steps[3..]).shown;
    assert Run(s1, steps[1..]).shown == Run(s2, steps[2..]).shown;
  }

  /** A trigger with no interval ever produced: from the initial state the display
      shows the failure message on its first poll. */
  lemma TriggerWithoutEchoShowsFailure()
    ensures Run(Initial(), [Trigger, Present]).shown == [Failure]
  {
    var steps := [Trigger, Present];
    assert Run(OnTrigger(Initial()), steps[1..]).shown == [Failure];
  }

  /** Two complete edge pairs before the echo task and the display task run: the first
      interval is superseded and only the second one's distance is shown. */
  lemma {:induction false} LatestPairWins(s: State, t0: u32, t1: u32, t2: u32, t3: u32)
    ensures Run(s, [Edge(EDGE_RISE, t0), Edge(EDGE_FALL, t1), Edge(EDGE_RISE, t2), Edge(EDGE_FALL, t3),
                    Echo, Trigger, Present]).shown
         == [Reading(DistanceCm(Sub(t3, t2)))]
  {
    var steps := [Edge(EDGE_RISE, t0), Edge(EDGE_FALL, t1), Edge(EDGE_RISE, t2), Edge(EDGE_FALL, t3),
                  Echo, Trigger, Present];
    var s1 := OnEdge(s, EDGE_RISE, t0);
    var s2 := OnEdge(s1, EDGE_FALL, t1);
    var s3 := OnEdge(s2, EDGE_RISE, t2);
    var s4 := OnEdge(s3, EDGE_FALL, t3);
    var s5 := OnEcho(s4);
    var s6 := OnTrigger(s5);
    assert Run(s6, steps[6..]).shown == [Reading(DistanceCm(Sub(t3, t2)))];
    assert Run(s5, steps[5..]).shown == Run(s6, steps[6..]).shown;
    assert Run(s4, steps[4..]).shown == Run(s5, steps[5..]).shown;
    assert Run(s3, steps[3..]).shown == Run(s4, steps[4..]).shown;
    assert Run(s2, steps[2..]).shown == Run(s3, steps[3..]).shown;
    assert Run(s1, steps[1..]).shown == Run(s2, steps[2..]).shown;
  }

  /** A measurement across the wrap of the microsecond timer: rising edge 0x200 ticks
      before the counter overflows, falling edge 0x48 ticks after, a 584 us echo. */
  lemma WrappedCycleShowsReading()
    ensures Run(Initial(), [Edge(EDGE_RISE, 0xFFFF_FE00), Edge(EDGE_FALL, 0x48), Echo, Trigger, Present]).shown
         == [Reading(9.928)]
  {
    OneCycleShowsReading(Initial(), 0xFFFF_FE00, 0x48);
  }

  /** The shared state held in place, with one method per atomic step. */
  class Pipeline {
    var timeInit: u32
    var timeQueue: seq<u32>
    var distQueue: seq<real>
    var trigger: bool

    /** The shared state as a value. */
    function Snapshot(): State
      reads this
    {
      State(timeInit, timeQueue, distQueue, trigger)
    }

    ghost predicate Valid()
      reads this
    {
      AtMostOnePending(Snapshot())
    }

    /** The state `main` sets up before starting the scheduler. */
    constructor ()
      ensures Valid()
      ensures Snapshot() == Initial()
    {
      timeInit := 0;
      trigger := false;
      timeQueue := [];
      distQueue := [];
    }

    /** The GPIO interrupt handler, with the timer reading passed in as `now`. */
    method PinCallback(events: u32, now: u32)
      requires Valid()
      modifies this
      ensures Valid()
      ensures Snapshot() == OnEdge(old(Snapshot()), events, now)
    {
      if events == EDGE_FALL {
        var timeEnd := now;
        var dt := Sub(timeEnd, timeInit);
        timeQueue := Reset(timeQueue);
        var sent := Send(timeQueue, dt, QUEUE_LENGTH);
        timeQueue := sent.queue;
      } else if events == EDGE_RISE {
        timeInit := now;
      }
    }

    /** One iteration of the trigger task, without the pin writes and the 10 us wait. */
    method TriggerStep()
      requires Valid()
      modifies this
      ensures Valid()
      ensures Snapshot() == OnTrigger(old(Snapshot()))
    {
      trigger := Give(trigger);
    }

    /** One iteration of the echo task; `received` is false when it is still blocked. */
    method EchoStep() returns (received: bool)
      requires Valid()
      modifies this
      ensures Valid()
      ensures received == EchoEnabled(old(Snapshot()))
      ensures Snapshot() == OnEcho(old(Snapshot()))
    {
      var got := Receive(timeQueue);
      received := got.item.Some?;
      if received {
        var dt := got.item.value;
        timeQueue := got.queue;
        var distance := DistanceCm(dt);
        distQueue := Reset(distQueue);
        var sent := Send(distQueue, distance, QUEUE_LENGTH);
        distQueue := sent.queue;
      }
    }

    /** One iteration of the display task, returning what it would draw. */
    method PresentStep() returns (decision: Decision)
      requires Valid()
      modifies this
      ensures Valid()
      ensures Presented(decision, Snapshot()) == OnPresent(old(Snapshot()))
    {
      var t := Take(trigger);
      if !t.taken {
        decision := Idle;
      } else {
        trigger := t.available;
        var got := Receive(distQueue);
        if got.item.Some? {
          distQueue := got.queue;
          decision := Reading(got.item.value);
        } else {
          decision := Failure;
        }
      }
    }
  }
}
