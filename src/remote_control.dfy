/** The backend's input-event pipeline (`backend/src/services/remote-control/index.ts`):
    a queue of the last 1000 input events, dropping the oldest, and a
    pending batch that is sent as soon as it holds 50 events or when the
    10 ms batch timer fires. The timer is a flag here; its firing is the
    explicit step `TimerFired`. The clock is a parameter. */
module RemoteControl {
  import opened Seqs

  const MAX_QUEUE_SIZE := 1000
  const BATCH_INTERVAL := 10
  const MAX_BATCH_SIZE := 50

  /** An input event: its timestamp and the rest of it, opaque here. */
  datatype InputEvent = InputEvent(timestamp: int, payload: string)

  /** What the service emits. */
  datatype Emitted =
    | EventDropped
    | EventQueued(event: InputEvent)
    | BatchSent(batch: seq<InputEvent>)
    | QueueCleared
    | EventsReplayed(events: seq<InputEvent>)

  /** `getQueueStatus()` */
  datatype QueueStatus = QueueStatus(queueLength: nat, oldestEventAge: int, averageLatency: real)

  /** The queue after one event: appended, the oldest dropped at the limit. */
  function Enqueued(queue: seq<InputEvent>, e: InputEvent): (q: seq<InputEvent>)
    requires |queue| <= MAX_QUEUE_SIZE
    ensures 0 < |q| <= MAX_QUEUE_SIZE && q[|q| - 1] == e
    ensures |queue| < MAX_QUEUE_SIZE ==> q == queue + [e]
    ensures |queue| == MAX_QUEUE_SIZE ==> q == queue[1..] + [e]
  {
    if |queue| >= MAX_QUEUE_SIZE then queue[1..] + [e] else queue + [e]
  }

  /** The queue keeps the newest 1000 events. */
  lemma EnqueuedKeepsNewest1000(queue: seq<InputEvent>, e: InputEvent)
    requires |queue| <= MAX_QUEUE_SIZE
    ensures Enqueued(queue, e) == LastN(queue + [e], MAX_QUEUE_SIZE)
  {
    if |queue| == MAX_QUEUE_SIZE {
      assert queue[1..] + [e] == (queue + [e])[1..];
    }
  }

  /** The status of a queue at time `now`: all zeros when it is empty;
      otherwise the age of its oldest event and that age spread over its
      length. */
  function StatusOf(queue: seq<InputEvent>, now: int): (st: QueueStatus)
    ensures st.queueLength == |queue|
    ensures queue == [] ==> st == QueueStatus(0, 0, 0.0)
    ensures queue != [] ==> st.oldestEventAge == now - queue[0].timestamp
                            && st.averageLatency * (|queue| as real) == st.oldestEventAge as real
  {
    if queue == [] then QueueStatus(0, 0, 0.0)
    else
      var age := now - queue[0].timestamp;
      QueueStatus(|queue|, age, (age as real) / (|queue| as real))
  }

  /** Keeping the newest 1000 one event at a time is keeping the newest
      1000 of everything. */
  lemma NewestStep(start: seq<InputEvent>, es: seq<InputEvent>, i: nat)
    requires i < |es|
    ensures LastN(LastN(start + es[..i], MAX_QUEUE_SIZE) + [es[i]], MAX_QUEUE_SIZE)
            == LastN(start + es[..i + 1], MAX_QUEUE_SIZE)
  {
    LastNOfLastN(start + es[..i], [es[i]], MAX_QUEUE_SIZE);
    assert start + es[..i + 1] == (start + es[..i]) + [es[i]];
  }

  /** Every batch sent holds between 1 and 50 events. */
  ghost predicate BatchesBounded(emitted: seq<Emitted>)
  {
    forall i :: 0 <= i < |emitted| && emitted[i].BatchSent? ==> 0 < |emitted[i].batch| <= MAX_BATCH_SIZE
  }

  lemma BatchesBoundedSnoc(emitted: seq<Emitted>, x: Emitted)
    requires BatchesBounded(emitted)
    requires x.BatchSent? ==> 0 < |x.batch| <= MAX_BATCH_SIZE
    ensures BatchesBounded(emitted + [x])
  {
    var es := emitted + [x];
    forall i | 0 <= i < |es| && es[i].BatchSent?
      ensures 0 < |es[i].batch| <= MAX_BATCH_SIZE
    {
      if i < |emitted| {
        assert es[i] == emitted[i];
      }
    }
  }

  /** The pending batch is the newest `|pending|` events of the queue. */
  predicate NewestOf(pending: seq<InputEvent>, queue: seq<InputEvent>)
  {
    |pending| <= |queue| && pending == queue[|queue| - |pending|..]
  }

  /** Queueing an event and adding it to a short pending batch keeps the
      batch the newest events of the queue. */
  lemma EnqueuedKeepsNewest(queue: seq<InputEvent>, pending: seq<InputEvent>, e: InputEvent)
    requires |queue| <= MAX_QUEUE_SIZE && |pending| < MAX_BATCH_SIZE && NewestOf(pending, queue)
    ensures NewestOf(pending + [e], Enqueued(queue, e))
  {
    var q := Enqueued(queue, e);
    var k := |queue| - |pending|;
    if |queue| == MAX_QUEUE_SIZE {
      assert q[|q| - |pending| - 1..] == queue[1..][k - 1..] + [e];
    } else {
      assert q[|q| - |pending| - 1..] == queue[k..] + [e];
    }
  }

  class RemoteControlService {
    var eventQueue: seq<InputEvent>
    var pendingBatch: seq<InputEvent>
    /** Whether the batch timer is scheduled */
    var batchTimer: bool
    var emitted: seq<Emitted>

    /** The queue is bounded; the pending batch is shorter than a full
        batch, consists of the newest queued events, and has a timer
        exactly when it is non-empty. */
    ghost predicate Valid()
      reads this
    {
      |eventQueue| <= MAX_QUEUE_SIZE
      && |pendingBatch| < MAX_BATCH_SIZE
      && NewestOf(pendingBatch, eventQueue)
      && (batchTimer <==> pendingBatch != [])
      && BatchesBounded(emitted)
    }

    constructor ()
      ensures Valid() && eventQueue == [] && pendingBatch == [] && !batchTimer && emitted == []
    {
      eventQueue, pendingBatch := [], [];
      batchTimer := false;
      emitted := [];
    }

    /** `sendInputEvent(event)`: queued (the oldest dropped at 1000) and
        added to the pending batch, which is sent once it reaches 50
        events; otherwise the batch timer is started if it is not running. */
    method SendInputEvent(e: InputEvent)
      requires Valid()
      modifies this
      ensures Valid()
      ensures eventQueue == Enqueued(old(eventQueue), e)
      ensures var batch := old(pendingBatch) + [e];
        var dropped := if |old(eventQueue)| >= MAX_QUEUE_SIZE then [EventDropped] else [];
        if |batch| >= MAX_BATCH_SIZE then
          pendingBatch == [] && !batchTimer && emitted == old(emitted) + dropped + [BatchSent(batch), EventQueued(e)]
        else
          pendingBatch == batch && batchTimer && emitted == old(emitted) + dropped + [EventQueued(e)]
    {
      QueueEvent(e);
      if |pendingBatch| >= MAX_BATCH_SIZE {
        FlushBatch();
      } else if !batchTimer {
        batchTimer := true;
      }
      BatchesBoundedSnoc(emitted, EventQueued(e));
      emitted := emitted + [EventQueued(e)];
    }

    /** The first half of `sendInputEvent`: at the limit the oldest event
        is dropped; the event joins the queue and the pending batch. */
    method QueueEvent(e: InputEvent)
      requires Valid()
      modifies this`eventQueue, this`pendingBatch, this`emitted
      ensures |eventQueue| <= MAX_QUEUE_SIZE && |pendingBatch| <= MAX_BATCH_SIZE
      ensures NewestOf(pendingBatch, eventQueue) && BatchesBounded(emitted)
      ensures eventQueue == Enqueued(old(eventQueue), e) && pendingBatch == old(pendingBatch) + [e]
      ensures emitted == old(emitted) + (if |old(eventQueue)| >= MAX_QUEUE_SIZE then [EventDropped] else [])
    {
      EnqueuedKeepsNewest(eventQueue, pendingBatch, e);
      if |eventQueue| >= MAX_QUEUE_SIZE {
        eventQueue := eventQueue[1..];
        BatchesBoundedSnoc(emitted, EventDropped);
        emitted := emitted + [EventDropped];
      }
      eventQueue := eventQueue + [e];
      pendingBatch := pendingBatch + [e];
    }

    /** `batchSendEvents(events)`: the events sent one by one, so the
        queue ends as the newest 1000 of the old queue and the events. */
    method BatchSendEvents(es: seq<InputEvent>)
      requires Valid()
      modifies this
      ensures Valid()
      ensures eventQueue == LastN(old(eventQueue) + es, MAX_QUEUE_SIZE)
    {
      ghost var start := eventQueue;
      for i := 0 to |es|
        invariant Valid()
        invariant eventQueue == LastN(start + es[..i], MAX_QUEUE_SIZE)
      {
        EnqueuedKeepsNewest1000(eventQueue, es[i]);
        SendInputEvent(es[i]);
        NewestStep(start, es, i);
      }
      assert es[..|es|] == es;
    }

    /** `getQueueStatus()` at time `now`. */
    function GetQueueStatus(now: int): (st: QueueStatus)
      reads this
      ensures st == StatusOf(eventQueue, now)
      ensures st.queueLength == |eventQueue|
    {
      StatusOf(eventQueue, now)
    }

    /** `clearQueue()` */
    method ClearQueue()
      requires Valid()
      modifies this
      ensures Valid()
      ensures eventQueue == [] && pendingBatch == [] && !batchTimer && emitted == old(emitted) + [QueueCleared]
    {
      BatchesBoundedSnoc(emitted, QueueCleared);
      eventQueue := [];
      pendingBatch := [];
      batchTimer := false;
      emitted := emitted + [QueueCleared];
    }

    /** `flushBatch()`: the timer is stopped, and only a non-empty batch is
        sent, after which it is empty. */
    method FlushBatch()
      requires |eventQueue| <= MAX_QUEUE_SIZE && |pendingBatch| <= MAX_BATCH_SIZE
      requires NewestOf(pendingBatch, eventQueue) && BatchesBounded(emitted)
      modifies this`batchTimer, this`pendingBatch, this`emitted
      ensures Valid()
      ensures !batchTimer && pendingBatch == []
      ensures emitted == old(emitted) + (if old(pendingBatch) != [] then [BatchSent(old(pendingBatch))] else [])
    {
      batchTimer := false;
      if |pendingBatch| > 0 {
        BatchesBoundedSnoc(emitted, BatchSent(pendingBatch));
        emitted := emitted + [BatchSent(pendingBatch)];
        pendingBatch := [];
      }
    }

    /** The batch timer firing: the pending batch is flushed. */
    method TimerFired()
      requires Valid() && batchTimer
      modifies this`batchTimer, this`pendingBatch, this`emitted
      ensures Valid()
      ensures !batchTimer && pendingBatch == [] && emitted == old(emitted) + [BatchSent(old(pendingBatch))]
    {
      FlushBatch();
    }

    /** `getQueuedEvents()`: a copy of the queue. */
    function GetQueuedEvents(): (es: seq<InputEvent>)
      reads this
      ensures es == eventQueue
    {
      eventQueue
    }

    /** `replayQueuedEvents()`: the queue is announced and kept. */
    method ReplayQueuedEvents()
      requires Valid()
      modifies this`emitted
      ensures Valid()
      ensures emitted == old(emitted) + [EventsReplayed(eventQueue)]
    {
      BatchesBoundedSnoc(emitted, EventsReplayed(eventQueue));
      emitted := emitted + [EventsReplayed(eventQueue)];
    }
  }
}
