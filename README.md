# Ultrasonic distance pipeline: an atomic-step model

The firmware in `main/main.c` measures distance with an ultrasonic sensor on a
FreeRTOS microcontroller. Four pieces of code share a little state:

- the GPIO interrupt handler `pin_callback` keeps the time of the echo's rising edge in
  a function-local static (`time_init`), and on the falling edge queues the 32-bit
  wrapped interval on `xQueueTime`;
- `trigger_task` pulses the trigger pin and gives the binary semaphore
  `xSemaphoreTrigger`;
- `echo_task` waits for an interval, converts it to centimetres and queues the distance
  on `xQueueDistance`;
- `oled_task` polls the semaphore and then the distance queue, and draws either the
  reading or a sensor-failure message.

Both queues are always reset before a send. That makes each of them a single slot
that keeps only the newest item.

The model treats each handler call and each task loop iteration as one atomic step on
that shared state:

- `uint32.dfy` (module `Uint32`) has the `uint32_t` value type and its wrapping
  subtraction.
- `rtos.dfy` (module `Rtos`) has the effect of the FreeRTOS calls used here on the
  queued items. The queue calls are reset, send without waiting on a bounded queue and
  receive without waiting. The semaphore calls are give and take on a binary semaphore.
- `pipeline.dfy` (module `Pipeline`) has four parts:
  - the shared `State`;
  - one step function per handler or task iteration (`OnEdge`, `OnTrigger`, `OnEcho`,
    `OnPresent`), with the display's decision `Idle | Reading(d) | Failure` in place
    of the drawing;
  - `Run`, which executes any interleaving of steps;
  - the class `Pipeline`, which holds the same state in fields and has one method per
    step. Each method ensures that its new state is the step function applied to the
    old one, and it keeps the invariant that neither queue holds more than one value.

Each step has its own inputs. The timer reading `time_us_32()` is the parameter `now`
of the edge step. The echo task's blocking receive becomes a step that does nothing
while the interval queue is empty.

## Model

| member | source | states |
|---|---|---|
| `Uint32.Sub` | main/main.c:26 | the `uint32_t` difference is the unique 32-bit value that added to the start time with wrap-around gives the end time; it is the plain difference when no wrap happened and 2^32 plus it otherwise |
| `Uint32.SubRecoversElapsed` | main/main.c:25-26 | if the microsecond counter advanced by fewer than 2^32 ticks from `start`, even past its wrap, the wrapped difference of the two readings is exactly the elapsed time |
| `Rtos.Receive` | main/main.c:66 | a non-blocking receive yields nothing exactly when the queue is empty (the queue then stays as it is), and otherwise yields the front item and leaves the rest |
| `Rtos.Overwrite` | main/main.c:27-28 | reset followed by send leaves exactly the new item queued on a queue with room for one, whatever was queued before |
| `Rtos.OverwriteSendSucceeds` | main/main.c:27-28 | the send that follows a reset is never refused, so the queue's capacity is never reached |
| `Rtos.SendThenReceiveIsFifo` | main/main.c:97-98 | a send onto a queue with room appends at the back: a receive afterwards still returns the old front item, or the new item when the queue was empty |
| `Rtos.OverwriteAllKeepsLatest` | main/main.c:48-49 | after any number N >= 1 of overwriting sends with no receive between them, the queue holds exactly the last value and a receiver gets that value and then nothing |
| `Rtos.Take` | main/main.c:65 | a non-blocking take succeeds exactly when the binary semaphore is available and leaves it unavailable |
| `Rtos.GivesCollapseToOne` | main/main.c:39 | after any positive number of gives the semaphore is available, one take succeeds and the next take fails: pending pulses do not accumulate |
| `Pipeline.DistanceCm` | main/main.c:47 | the distance formula (seconds times 340 m/s, halved, in centimetres) is 0.017 cm per microsecond of echo and never negative |
| `Pipeline.OnEdge` | main/main.c:20-32 | mask 0x8 sets the start time to `now` and changes nothing else; mask 0x4 keeps the start time and leaves the interval queue holding exactly `now - timeInit` mod 2^32, and that value added to the start time with wrap-around gives `now`; every other mask, 0xC included, changes nothing |
| `Pipeline.OnTrigger` | main/main.c:34-40 | a trigger iteration leaves the trigger pending whether or not it already was, and changes neither queue nor the start time |
| `Pipeline.OnEcho` | main/main.c:43-52 | with no queued interval the echo task stays blocked and nothing changes; otherwise it removes the front interval and the distance queue holds exactly that interval's distance |
| `Pipeline.OnPresent` | main/main.c:64-81 | without a pending trigger the decision is `Idle` and nothing changes; with one the trigger is consumed and the decision is `Reading` of the front distance, which is removed, or `Failure` when the distance queue is empty, which stays empty |
| `Pipeline.StepKeepsAtMostOnePending` | main/main.c:24-49 | every single step keeps at most one value in each queue |
| `Pipeline.RunKeepsAtMostOnePending` | main/main.c:20-82 | every interleaving of handler calls and task iterations keeps at most one value in each queue |
| `Pipeline.ReachableAtMostOnePending` | main/main.c:94-98 | from the state `main` creates, every reachable state holds at most one value per queue, below the queues' capacity of 32 |
| `Pipeline.FallingEdgeBeforeAnyRisingEdge` | main/main.c:22-26 | a falling edge before any rising edge is not rejected: it measures from the zero-initialised static and queues `now` itself |
| `Pipeline.EchoDrainsIntervals` | main/main.c:46-49 | in a reachable state an echo iteration that receives an interval leaves the interval queue empty and the distance queue holding exactly that interval's distance |
| `Pipeline.EchoOf588Microseconds` | main/main.c:47 | a 588 us echo is 9.996 cm |
| `Pipeline.DistanceIsMonotonic` | main/main.c:47 | a longer echo never gives a shorter distance |
| `Pipeline.OneCycleShowsReading` | main/main.c:20-73 | from any state, a rising edge, a falling edge, an echo iteration, a trigger and a display iteration show exactly the distance of the wrapped interval between the two edges |
| `Pipeline.TriggerWithoutEchoShowsFailure` | main/main.c:75-78 | a trigger with no interval ever produced makes the display's first poll show the failure message |
| `Pipeline.LatestPairWins` | main/main.c:27-28 | two complete edge pairs before the echo and display tasks run: only the second interval's distance is shown |
| `Pipeline.WrappedCycleShowsReading` | main/main.c:26 | a rising edge 0x200 us before the timer wraps and a falling edge 0x48 us after it show 584 us, that is 9.928 cm |
| `Pipeline.Pipeline.constructor` | main/main.c:94-98 | the initial state has no queued interval or distance, no pending trigger and a zero start time, and satisfies the at-most-one invariant |
| `Pipeline.Pipeline.PinCallback` | main/main.c:20-32 | the interrupt handler updates the fields exactly as `OnEdge` prescribes and keeps the at-most-one invariant |
| `Pipeline.Pipeline.TriggerStep` | main/main.c:35-40 | a trigger iteration updates the fields exactly as `OnTrigger` prescribes and keeps the invariant |
| `Pipeline.Pipeline.EchoStep` | main/main.c:44-51 | `received` is true exactly when an interval was queued, and the fields change exactly as `OnEcho` prescribes, keeping the invariant |
| `Pipeline.Pipeline.PresentStep` | main/main.c:64-81 | the returned decision and the new fields are exactly those of `OnPresent`, keeping the invariant |

## Left out

- Scheduling, preemption and blocking are left out. Each handler call and each task
  iteration is one atomic step, and `Run` covers every order of such steps. Races inside
  a step and timeouts are outside the model.
- A single `EchoStep` has no counterpart for the blocking receive with `portMAX_DELAY` at
  main/main.c:46. A call with an empty interval queue models the task still waiting: it
  returns `received == false` and changes nothing.
- `time_us_32()` is the parameter `now`. The pin writes and the 10 us busy wait of the
  trigger task are left out: they are hardware output with no effect on the shared state.
- The distance is a `real`, so IEEE-754 single-precision rounding in the formula at
  main/main.c:47 is not modelled.
- The queue item types do not match in the source. The handler sends a `uint32_t`, but
  `echo_task` receives it into an `int` (main/main.c:28, 45). An interval of 2^31 us or
  more would be read back as a negative number. The model carries the interval as an
  unsigned 32-bit value throughout.
- Drawing is left out: `sprintf` with `%.2f`, the text, the bar of
  `gfx_draw_line` with its float-to-int conversion, the 50 ms `vTaskDelay` and
  `gfx_show`. The display and GPIO drivers are foreign code, so the display task
  returns a `Decision` instead.
- `main` is modelled only for the initial state it creates (main/main.c:94-98). Pin
  setup, stdio, IRQ registration, task creation and starting the scheduler are bootstrap
  plumbing.
- The handler's `gpio` argument is not a parameter: the source ignores it.
- A falling edge with no preceding rising edge in the same cycle is not validated. The
  model keeps the source's behaviour, as `FallingEdgeBeforeAnyRisingEdge` states.
