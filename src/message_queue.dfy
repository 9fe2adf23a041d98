/** The backend's priority message queue (`backend/src/utils/message-queue.js`):
    one bounded FIFO per priority, drained in batches from CRITICAL to LOW,
    with processed, dropped and error counters. The clock is an input, and
    how each handler call ends is given by `run`; the timer-driven
    processing loop is one `ProcessLoopStep` per cycle. */
module MessageQueue {
  import opened Wrappers
  import opened Seqs

  /** `PRIORITY` */
  const CRITICAL := 0
  const HIGH := 1
  const NORMAL := 2
  const LOW := 3

  /** How many priorities there are: they are 0 to 3, and
      `Object.values(PRIORITY).sort()` visits them in that order. */
  const PRIORITY_COUNT := 4

  /** A key of the source's queue map. */
  predicate IsPriority(p: int) { 0 <= p < PRIORITY_COUNT }

  /** A queued message with its handler, if one was given, and when it
      was queued. */
  datatype Item<M, H> = Item(message: M, handler: Option<H>, timestamp: int)

  datatype Stats = Stats(processed: nat, dropped: nat, errors: nat)

  /** `getStats()` */
  datatype QueueStats = QueueStats(stats: Stats, queueSizes: map<int, nat>, totalQueued: nat)

  /** `x || d` for a numeric option: absent and 0 give the default. */
  function OrDefault(x: Option<nat>, d: nat): nat
  {
    if x.Some? && x.value != 0 then x.value else d
  }

  /** The priority `enqueue` uses: the one given when it is one of the
      four, NORMAL otherwise (also when none is given). */
  function EffectivePriority(priority: Option<int>): (p: int)
    ensures IsPriority(p)
    ensures priority.Some? && IsPriority(priority.value) ==> p == priority.value
    ensures !(priority.Some? && IsPriority(priority.value)) ==> p == NORMAL
  {
    if priority.Some? && IsPriority(priority.value) then priority.value else NORMAL
  }

  /** How a handler call ends: it returns (or its promise resolves); it
      throws (or rejects) with a value that has a `message`; or it throws
      (or rejects) with `null` or `undefined`, when reading `error.message`
      in the catch throws again and `Promise.allSettled` swallows that. */
  datatype HandlerResult = Returns | Throws | ThrowsNullish

  /** How `processMessage` ends for the item: a missing handler throws a
      `TypeError` when called. */
  function Outcome<M, H>(item: Item<M, H>, run: (H, M) -> HandlerResult): HandlerResult
  {
    if item.handler.Some? then run(item.handler.value, item.message) else Throws
  }

  /** How many of `items` end with `r`. */
  function CountOf<M, H>(items: seq<Item<M, H>>, run: (H, M) -> HandlerResult, r: HandlerResult): (n: nat)
    ensures n <= |items|
  {
    if items == [] then 0
    else CountOf(items[..|items| - 1], run, r) + if Outcome(items[|items| - 1], run) == r then 1 else 0
  }

  /** Counts add up over concatenation. */
  lemma {:induction false} CountOfConcat<M, H>(a: seq<Item<M, H>>, b: seq<Item<M, H>>, run: (H, M) -> HandlerResult, r: HandlerResult)
    ensures CountOf(a + b, run, r) == CountOf(a, run, r) + CountOf(b, run, r)
  {
    if b != [] {
      var init := b[..|b| - 1];
      CountOfConcat(a, init, run, r);
      assert (a + b)[..|a + b| - 1] == a + init;
      assert (a + b)[|a + b| - 1] == b[|b| - 1];
    } else {
      assert a + b == a;
    }
  }

  /** Every item ends in exactly one of the three ways. */
  lemma {:induction false} CountsPartition<M, H>(items: seq<Item<M, H>>, run: (H, M) -> HandlerResult)
    ensures CountOf(items, run, Returns) + CountOf(items, run, Throws) + CountOf(items, run, ThrowsNullish) == |items|
  {
    if items != [] {
      CountsPartition(items[..|items| - 1], run);
    }
  }

  /** The counters after the handlers of `items` ran: one processed per
      handler that returned, one error per handler that threw a value
      with a `message`, and nothing for the rest. */
  function Tallied<M, H>(st: Stats, items: seq<Item<M, H>>, run: (H, M) -> HandlerResult): (r: Stats)
    ensures r.dropped == st.dropped
    ensures st.processed <= r.processed && st.errors <= r.errors
    ensures r.processed + r.errors <= st.processed + st.errors + |items|
  {
    CountsPartition(items, run);
    st.(processed := st.processed + CountOf(items, run, Returns), errors := st.errors + CountOf(items, run, Throws))
  }

  /** Tallying two batches in turn is tallying them together. */
  lemma TalliedConcat<M, H>(st: Stats, a: seq<Item<M, H>>, b: seq<Item<M, H>>, run: (H, M) -> HandlerResult)
    ensures Tallied(Tallied(st, a, run), b, run) == Tallied(st, a + b, run)
  {
    CountOfConcat(a, b, run, Returns);
    CountOfConcat(a, b, run, Throws);
  }

  /** A queue map with one queue per priority. */
  ghost predicate HasAllPriorities<M, H>(queues: map<int, seq<Item<M, H>>>)
  {
    forall p :: IsPriority(p) ==> p in queues
  }

  /** The items the first `n` priorities give up to one batch: at most
      `batchSize` from the front of each, in priority order. */
  function Taken<M, H>(queues: map<int, seq<Item<M, H>>>, batchSize: nat, n: nat): seq<Item<M, H>>
    requires HasAllPriorities(queues) && n <= PRIORITY_COUNT
  {
    if n == 0 then []
    else Taken(queues, batchSize, n - 1) + Take(queues[n - 1], batchSize)
  }

  /** The queues once the first `n` priorities gave up their batch. */
  function Spliced<M, H>(queues: map<int, seq<Item<M, H>>>, batchSize: nat, n: nat): (r: map<int, seq<Item<M, H>>>)
    requires HasAllPriorities(queues) && n <= PRIORITY_COUNT
    ensures r.Keys == queues.Keys
  {
    if n == 0 then queues
    else
      var p := n - 1;
      Spliced(queues, batchSize, n - 1)[p := queues[p][Min(batchSize, |queues[p]|)..]]
  }

  /** `getStats().totalQueued`: the sum of the four queue lengths. */
  function TotalQueued<M, H>(queues: map<int, seq<Item<M, H>>>): nat
    requires HasAllPriorities(queues)
  {
    |queues[CRITICAL]| + |queues[HIGH]| + |queues[NORMAL]| + |queues[LOW]|
  }

  /** After the first `n` priorities: each of them kept what was behind
      its first `batchSize` items, and the others are untouched. */
  lemma {:induction false} SplicedQueues<M, H>(queues: map<int, seq<Item<M, H>>>, batchSize: nat, n: nat)
    requires HasAllPriorities(queues) && n <= PRIORITY_COUNT
    ensures var r := Spliced(queues, batchSize, n);
      forall p :: IsPriority(p) ==>
        r[p] == if p < n then queues[p][Min(batchSize, |queues[p]|)..] else queues[p]
  {
    if n > 0 {
      SplicedQueues(queues, batchSize, n - 1);
    }
  }

  /** A batch hands out the CRITICAL items first, then HIGH, NORMAL and LOW,
      at most `batchSize` from the front of each queue. */
  lemma BatchOrder<M, H>(queues: map<int, seq<Item<M, H>>>, batchSize: nat)
    requires HasAllPriorities(queues)
    ensures Taken(queues, batchSize, PRIORITY_COUNT)
            == Take(queues[CRITICAL], batchSize) + Take(queues[HIGH], batchSize)
               + Take(queues[NORMAL], batchSize) + Take(queues[LOW], batchSize)
  {
    assert Taken(queues, batchSize, 1) == Take(queues[CRITICAL], batchSize);
    assert Taken(queues, batchSize, 2) == Take(queues[CRITICAL], batchSize) + Take(queues[HIGH], batchSize);
  }

  /** One batch takes at most `batchSize` items per priority, empties every
      queue that had at most that many, and moves exactly the items it
      takes out of the queues. */
  lemma BatchAccounting<M, H>(queues: map<int, seq<Item<M, H>>>, batchSize: nat)
    requires HasAllPriorities(queues)
    ensures var r := Spliced(queues, batchSize, PRIORITY_COUNT);
      HasAllPriorities(r)
      && TotalQueued(r) + |Taken(queues, batchSize, PRIORITY_COUNT)| == TotalQueued(queues)
      && |Taken(queues, batchSize, PRIORITY_COUNT)| <= PRIORITY_COUNT * batchSize
      && (forall p :: IsPriority(p) && |queues[p]| <= batchSize ==> r[p] == [])
  {
    SplicedQueues(queues, batchSize, PRIORITY_COUNT);
    BatchOrder(queues, batchSize);
  }

  class PriorityMessageQueue<M, H> {
    var queues: map<int, seq<Item<M, H>>>
    var processing: bool
    var batchSize: nat
    var processInterval: nat
    var maxQueueSize: nat
    var stats: Stats

    /** There is a queue for each priority, and none is longer than
        `maxQueueSize`. */
    ghost predicate Valid()
      reads this
    {
      (forall p :: p in queues <==> IsPriority(p))
      && forall p :: p in queues ==> |queues[p]| <= maxQueueSize
    }

    /** `new MessageQueue(options)`: batches of 10, a 10 ms cycle and
        queues of 1000 unless the options say otherwise; processing
        starts at once. */
    constructor (batchSizeOption: Option<nat>, processIntervalOption: Option<nat>, maxQueueSizeOption: Option<nat>)
      ensures Valid() && processing && stats == Stats(0, 0, 0)
      ensures forall p :: p in queues ==> queues[p] == []
      ensures batchSize == OrDefault(batchSizeOption, 10) && processInterval == OrDefault(processIntervalOption, 10)
      ensures maxQueueSize == OrDefault(maxQueueSizeOption, 1000)
    {
      queues := map[CRITICAL := [], HIGH := [], NORMAL := [], LOW := []];
      processing := false;
      batchSize := OrDefault(batchSizeOption, 10);
      processInterval := OrDefault(processIntervalOption, 10);
      maxQueueSize := OrDefault(maxQueueSizeOption, 1000);
      stats := Stats(0, 0, 0);
      new;
      StartProcessing();
    }

    /** `enqueue(message, priority, handler)`: appended to its priority's
        queue unless that queue is full, in which case it is dropped and
        counted. */
    method Enqueue(message: M, priority: Option<int>, handler: Option<H>, now: int) returns (ok: bool)
      requires Valid()
      modifies this`queues, this`stats
      ensures Valid()
      ensures var p := EffectivePriority(priority);
        (ok <==> |old(queues)[p]| < maxQueueSize)
        && (ok ==> queues == old(queues)[p := old(queues)[p] + [Item(message, handler, now)]] && stats == old(stats))
        && (!ok ==> queues == old(queues) && stats == old(stats).(dropped := old(stats).dropped + 1))
    {
      var p := EffectivePriority(priority);
      var queue := queues[p];
      if |queue| >= maxQueueSize {
        stats := stats.(dropped := stats.dropped + 1);
        return false;
      }
      queues := queues[p := queue + [Item(message, handler, now)]];
      return true;
    }

    /** `startProcessing()`: no effect when already processing. */
    method StartProcessing()
      modifies this`processing
      ensures processing
    {
      if processing {
        return;
      }
      processing := true;
    }

    /** `stopProcessing()` */
    method StopProcessing()
      modifies this`processing
      ensures !processing
    {
      processing := false;
    }

    /** One cycle of `processLoop()`: a batch while processing, nothing
        once stopped. */
    method ProcessLoopStep(run: (H, M) -> HandlerResult) returns (handled: seq<Item<M, H>>)
      requires Valid()
      modifies this`queues, this`stats
      ensures Valid()
      ensures !old(processing) ==> handled == [] && queues == old(queues) && stats == old(stats)
      ensures old(processing) ==> handled == Taken(old(queues), batchSize, PRIORITY_COUNT)
                                  && queues == Spliced(old(queues), batchSize, PRIORITY_COUNT)
                                  && stats == Tallied(old(stats), handled, run)
    {
      if !processing {
        return [];
      }
      handled := ProcessBatch(run);
    }

    /** `processBatch()`: from CRITICAL to LOW, each non-empty queue gives up
        at most `batchSize` items from its front, whose handlers run; the
        items are returned in the order their handlers were called. */
    method ProcessBatch(run: (H, M) -> HandlerResult) returns (handled: seq<Item<M, H>>)
      requires Valid()
      modifies this`queues, this`stats
      ensures Valid()
      ensures handled == Taken(old(queues), batchSize, PRIORITY_COUNT)
      ensures queues == Spliced(old(queues), batchSize, PRIORITY_COUNT)
      ensures stats == Tallied(old(stats), handled, run)
    {
      ghost var q0 := queues;
      handled := [];
      for priority := 0 to PRIORITY_COUNT
        invariant Valid() && HasAllPriorities(q0)
        invariant queues == Spliced(q0, batchSize, priority)
        invariant handled == Taken(q0, batchSize, priority)
        invariant stats == Tallied(old(stats), handled, run)
      {
        assert queues[priority] == q0[priority] by {
          SplicedQueues(q0, batchSize, priority);
        }
        var batch := ProcessPriority(priority, run);
        TalliedConcat(old(stats), handled, batch, run);
        handled := handled + batch;
      }
    }

    /** One priority of `processBatch()`: an empty queue is skipped;
        otherwise at most `batchSize` items leave its front and their
        handlers run. */
    method ProcessPriority(priority: int, run: (H, M) -> HandlerResult) returns (batch: seq<Item<M, H>>)
      requires Valid() && IsPriority(priority)
      modifies this`queues, this`stats
      ensures Valid()
      ensures batch == Take(old(queues)[priority], batchSize)
      ensures queues == old(queues)[priority := old(queues)[priority][Min(batchSize, |old(queues)[priority]|)..]]
      ensures stats == Tallied(old(stats), batch, run)
    {
      var queue := queues[priority];
      if |queue| == 0 {
        assert queues == queues[priority := queue[0..]];
        return [];
      }
      var k := Min(batchSize, |queue|);
      batch := queue[..k];
      queues := queues[priority := queue[k..]];
      ProcessAll(batch, run);
    }

    /** The handlers of one batch. */
    method ProcessAll(batch: seq<Item<M, H>>, run: (H, M) -> HandlerResult)
      modifies this`stats
      ensures stats == Tallied(old(stats), batch, run)
    {
      for i := 0 to |batch|
        invariant stats == Tallied(old(stats), batch[..i], run)
      {
        assert batch[..i + 1][..i] == batch[..i];
        ProcessMessage(batch[i], run);
      }
      assert batch[..|batch|] == batch;
    }

    /** `processMessage(item)`: a handler that returns counts as
        processed; one that throws a value with a `message`, or a missing
        one, counts as an error; one that throws `null` or `undefined`
        moves neither counter. */
    method ProcessMessage(item: Item<M, H>, run: (H, M) -> HandlerResult)
      modifies this`stats
      ensures Outcome(item, run) == Returns ==> stats == old(stats).(processed := old(stats).processed + 1)
      ensures Outcome(item, run) == Throws ==> stats == old(stats).(errors := old(stats).errors + 1)
      ensures Outcome(item, run) == ThrowsNullish ==> stats == old(stats)
    {
      if item.handler.None? {
        stats := stats.(errors := stats.errors + 1);
        return;
      }
      match run(item.handler.value, item.message)
      case Returns => stats := stats.(processed := stats.processed + 1);
      case Throws => stats := stats.(errors := stats.errors + 1);
      case ThrowsNullish =>
    }

    /** `getStats()`: the counters, each queue's length and their sum. */
    function GetStats(): (r: QueueStats)
      requires Valid()
      reads this
      ensures r.stats == stats && r.queueSizes.Keys == queues.Keys
      ensures forall p :: p in r.queueSizes ==> r.queueSizes[p] == |queues[p]|
      ensures r.totalQueued == TotalQueued(queues)
    {
      var sizes := map p | p in queues :: |queues[p]|;
      QueueStats(stats, sizes, sizes[CRITICAL] + sizes[HIGH] + sizes[NORMAL] + sizes[LOW])
    }

    /** `clear()`: all queues emptied, counters kept. */
    method Clear()
      requires Valid()
      modifies this`queues
      ensures Valid() && queues.Keys == old(queues.Keys)
      ensures forall p :: p in queues ==> queues[p] == []
    {
      queues := map p | p in queues :: [];
    }

    /** `destroy()` */
    method Destroy()
      requires Valid()
      modifies this`queues, this`processing
      ensures Valid() && !processing
      ensures forall p :: p in queues ==> queues[p] == []
    {
      StopProcessing();
      Clear();
    }
  }
}
