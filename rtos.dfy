/** The two FreeRTOS primitives the pipeline uses, reduced to their effect on the
    queued items: a bounded FIFO queue (`xQueueReset`, `xQueueSend` with a zero wait,
    `xQueueReceive` with a zero wait) and a binary semaphore (`xSemaphoreGive`,
    `xSemaphoreTake` with a zero wait). */
module Rtos {

  datatype Option<T> = None | Some(value: T)

  /** Outcome of a send: the queue afterwards, and whether the item went in. */
  datatype Sent<T> = Sent(queue: seq<T>, ok: bool)

  /** Outcome of a non-blocking receive: the item taken, if any, and the queue afterwards. */
  datatype Received<T> = Received(item: Option<T>, queue: seq<T>)

  /** `xQueueReset`: discard every queued item. */
  function Reset<T>(q: seq<T>): seq<T>
  {
    []
  }

  /** `xQueueSend` without waiting on a queue that holds at most `capacity` items:
      appends at the back when there is room and otherwise fails, leaving the queue alone. */
  function Send<T>(q: seq<T>, x: T, capacity: nat): Sent<T>
  {
    if |q| < capacity then Sent(q + [x], true) else Sent(q, false)
  }

  /** `xQueueReceive` without waiting: takes the item at the front, if there is one. */
  function Receive<T>(q: seq<T>): (r: Received<T>)
    ensures r.item.None? <==> q == []
    ensures r.item.Some? ==> q == [r.item.value] + r.queue
    ensures r.item.None? ==> r.queue == q
  {
    if q == [] then Received(None, q) else Received(Some(q[0]), q[1..])
  }

  /** Reset followed by send: the idiom the pipeline uses to keep only the newest item.
      Any capacity of at least one leaves exactly the new item queued. */
  function Overwrite<T>(q: seq<T>, x: T, capacity: nat): (r: seq<T>)
    ensures capacity > 0 ==> r == [x]
    ensures capacity == 0 ==> r == []
  {
    Send(Reset(q), x, capacity).queue
  }

  /** The send inside an overwrite never fails when the queue has room for one item,
      whatever was queued before, because the reset empties it first. */
  lemma OverwriteSendSucceeds<T>(q: seq<T>, x: T, capacity: nat)
    requires capacity > 0
    ensures Send(Reset(q), x, capacity).ok
  {
  }

  /** Sending onto a queue with room keeps first-in first-out order: the front item is
      still what a receive returns, and the new item ends up at the back. */
  lemma SendThenReceiveIsFifo<T>(q: seq<T>, x: T, capacity: nat)
    requires |q| < capacity
    ensures Receive(Send(q, x, capacity).queue)
         == if q == [] then Received(Some(x), [])
            else Received(Some(q[0]), q[1..] + [x])
  {
  }

  /** Overwrite every item of `xs` into `q`, in order, with no receive in between. */
  function OverwriteAll<T>(q: seq<T>, xs: seq<T>, capacity: nat): seq<T>
    decreases |xs|
  {
    if xs == [] then q else OverwriteAll(Overwrite(q, xs[0], capacity), xs[1..], capacity)
  }

  /** Whatever number N >= 1 of items is overwritten into a queue before anyone receives,
      a receiver then observes exactly the last one and nothing after it. */
  lemma {:induction false} OverwriteAllKeepsLatest<T>(q: seq<T>, xs: seq<T>, capacity: nat)
    requires capacity > 0
    requires xs != []
    ensures OverwriteAll(q, xs, capacity) == [xs[|xs| - 1]]
    ensures Receive(OverwriteAll(q, xs, capacity)) == Received(Some(xs[|xs| - 1]), [])
    decreases |xs|
  {
    if |xs| > 1 {
      OverwriteAllKeepsLatest(Overwrite(q, xs[0], capacity), xs[1..], capacity);
    }
  }

  /** `xSemaphoreGive` on a binary semaphore: it becomes available; giving one that is
      already available changes nothing (the give is refused, and callers ignore that). */
  function Give(available: bool): bool
  {
    true
  }

  /** Outcome of `xSemaphoreTake`: whether it was taken, and whether it is still available. */
  datatype Taken = Taken(taken: bool, available: bool)

  /** `xSemaphoreTake` without waiting: succeeds exactly when the semaphore is available,
      and leaves it unavailable. */
  function Take(available: bool): (r: Taken)
    ensures r.taken == available
    ensures !r.available
  {
    Taken(available, false)
  }

  /** `n` gives in a row. */
  function GiveTimes(available: bool, n: nat): bool
    decreases n
  {
    if n == 0 then available else GiveTimes(Give(available), n - 1)
  }

  /** Pulses collapse: after any positive number of gives exactly one take succeeds,
      and the next take finds nothing. */
  lemma {:induction false} GivesCollapseToOne(available: bool, n: nat)
    requires n > 0
    ensures GiveTimes(available, n)
    ensures Take(GiveTimes(available, n)).taken
    ensures !Take(Take(GiveTimes(available, n)).available).taken
    decreases n
  {
    if n > 1 {
      GivesCollapseToOne(Give(available), n - 1);
    }
  }
}
