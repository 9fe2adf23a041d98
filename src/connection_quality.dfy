/** Connection quality monitoring (`ConnectionQualityMonitor.kt`): a bounded
    history of ping outcomes, the pings still waiting for their pong, the
    metrics computed from the history and the strength table. The clock is a
    parameter (`now`), the ping callback and the listeners are identified by
    numbers, and one pass of the monitoring coroutine is an explicit tick. */
module ConnectionQuality {
  import opened Wrappers
  import Seqs
  import Arith

  /** The monitoring coroutine waits this long between ticks. */
  const PING_INTERVAL := 5000
  /** The history keeps the newest this many results. */
  const HISTORY_SIZE := 20
  /** A ping pending for longer than this has timed out. */
  const TIMEOUT_THRESHOLD := 10000

  datatype Strength = Excellent | Good | Fair | Poor | Disconnected

  /** Position of a strength in the table, best first. */
  function Rank(s: Strength): nat {
    match s
    case Excellent => 0
    case Good => 1
    case Fair => 2
    case Poor => 3
    case Disconnected => 4
  }

  /** `QualityMetrics`; the loss rate is an exact percentage. */
  datatype Metrics = Metrics(latencyMs: int, averageLatencyMs: int, minLatencyMs: int,
                             maxLatencyMs: int, packetLossRate: real, jitterMs: int,
                             connectionStrength: Strength, timestamp: int)

  datatype PingResult = PingResult(latencyMs: int, success: bool, timestamp: int)

  // ---------------------------------------------------------------------
  // determineConnectionStrength

  /** The first matching row of the table wins; the leading "loss >= 50"
      row is subsumed by the last, so a link is disconnected exactly when
      its latency reaches 500 or its loss reaches 20%. */
  function Determine(latencyMs: int, packetLossRate: real): (r: Strength)
    ensures r == Excellent <==> latencyMs < 50 && packetLossRate < 1.0
    ensures r == Disconnected <==> latencyMs >= 500 || packetLossRate >= 20.0
    ensures packetLossRate >= 50.0 ==> r == Disconnected
  {
    if packetLossRate >= 50.0 then Disconnected
    else if latencyMs < 50 && packetLossRate < 1.0 then Excellent
    else if latencyMs < 100 && packetLossRate < 5.0 then Good
    else if latencyMs < 200 && packetLossRate < 10.0 then Fair
    else if latencyMs < 500 && packetLossRate < 20.0 then Poor
    else Disconnected
  }

  /** Higher latency or loss never gives a better strength. */
  lemma StrengthMonotone(l1: int, p1: real, l2: int, p2: real)
    requires l1 <= l2 && p1 <= p2
    ensures Rank(Determine(l1, p1)) <= Rank(Determine(l2, p2))
  {
  }

  // ---------------------------------------------------------------------
  // calculateMetrics

  /** Number of failed pings in the history. */
  function Failures(h: seq<PingResult>): (n: nat)
    ensures n <= |h|
  {
    if h == [] then 0 else (if h[0].success then 0 else 1) + Failures(h[1..])
  }

  /** The latencies of the successful pings, in history order. */
  function Latencies(h: seq<PingResult>): (l: seq<int>)
    ensures |l| + Failures(h) == |h|
  {
    if h == [] then [] else (if h[0].success then [h[0].latencyMs] else []) + Latencies(h[1..])
  }

  /** The percentage of failed pings, `failures / size * 100`. */
  function LossRate(h: seq<PingResult>): real
    requires h != []
  {
    ((Failures(h) as real) / (|h| as real)) * 100.0
  }

  /** The loss rate is a percentage: 0 exactly when no ping failed, 100
      exactly when all failed, and at least 50 exactly when half failed. */
  lemma LossRateRange(h: seq<PingResult>)
    requires h != []
    ensures var r := LossRate(h);
            0.0 <= r <= 100.0 &&
            (r == 0.0 <==> Failures(h) == 0) &&
            (r == 100.0 <==> Failures(h) == |h|) &&
            (r >= 50.0 <==> 2 * Failures(h) >= |h|)
  {
    Percent(Failures(h) as real, |h| as real);
  }

  /** `f / n · 100` for `0 <= f <= n`, `n > 0`. */
  lemma Percent(f: real, n: real)
    requires 0.0 <= f <= n && n > 0.0
    ensures 0.0 <= (f / n) * 100.0 <= 100.0
    ensures (f / n) * 100.0 == 0.0 <==> f == 0.0
    ensures (f / n) * 100.0 == 100.0 <==> f == n
    ensures (f / n) * 100.0 >= 50.0 <==> 2.0 * f >= n
  {
    var r := (f / n) * 100.0;
    Compare(r, f, n, 0.0);
    Compare(r, f, n, 50.0);
    Compare(r, f, n, 100.0);
  }

  /** When `r · n = 100 · f` with `n > 0`, comparing `r` with `c` is
      comparing `100 · f` with `c · n`. */
  lemma Compare(r: real, f: real, n: real, c: real)
    requires n > 0.0 && r * n == 100.0 * f
    ensures r >= c <==> 100.0 * f >= c * n
    ensures r <= c <==> 100.0 * f <= c * n
    ensures r == c <==> 100.0 * f == c * n
  {
    assert r * n - c * n == (r - c) * n;
  }

  function Total(l: seq<int>): int {
    if l == [] then 0 else l[0] + Total(l[1..])
  }

  function MinOf(l: seq<int>): (m: int)
    requires l != []
    ensures m in l && forall i :: 0 <= i < |l| ==> m <= l[i]
  {
    if |l| == 1 then l[0]
    else
      var rest := MinOf(l[1..]);
      assert rest in l;
      Seqs.Min(l[0], rest)
  }

  function MaxOf(l: seq<int>): (m: int)
    requires l != []
    ensures m in l && forall i :: 0 <= i < |l| ==> l[i] <= m
  {
    if |l| == 1 then l[0]
    else
      var rest := MaxOf(l[1..]);
      assert rest in l;
      Seqs.Max(l[0], rest)
  }

  /** Kotlin's `toLong()` of an exact quotient: truncation toward zero. */
  function TruncDiv(a: int, n: nat): (q: int)
    requires n > 0
    ensures a >= 0 ==> 0 <= q && n * q <= a < n * (q + 1)
    ensures a < 0 ==> n * (q - 1) < a <= n * q
  {
    if a >= 0 then
      DivFloor(a, n);
      a / n
    else
      DivFloor(-a, n);
      -((-a) / n)
  }

  /** The quotient of a natural number lies below it within one step of `n`. */
  lemma DivFloor(b: int, n: nat)
    requires n > 0 && b >= 0
    ensures 0 <= b / n && n * (b / n) <= b < n * (b / n + 1)
    ensures n * (-(b / n) - 1) == -(n * (b / n)) - n
  {
    var q := b / n;
    assert b == n * q + b % n;
    assert n * (q + 1) == n * q + n;
    assert n * (-q - 1) == -(n * q) - n;
  }

  /** A value between `n·lo` and `n·hi` has its quotient by `n` between `lo` and `hi`. */
  lemma DivBetween(a: int, n: nat, lo: int, hi: int)
    requires n > 0 && n * lo <= a <= n * hi
    ensures lo <= a / n <= hi
  {
    var q := a / n;
    assert a == n * q + a % n;
    if q < lo {
      Arith.MulMonotoneInt(n, q + 1, lo);
    }
    if q > hi {
      Arith.MulMonotoneInt(n, hi + 1, q);
    }
  }

  lemma TruncDivBetween(a: int, n: nat, lo: int, hi: int)
    requires n > 0 && n * lo <= a <= n * hi
    ensures lo <= TruncDiv(a, n) <= hi
  {
    if a < 0 {
      DivBetween(-a, n, -hi, -lo);
    } else {
      DivBetween(a, n, lo, hi);
    }
  }

  /** The sum of values between `lo` and `hi` lies between `|l|·lo` and `|l|·hi`. */
  lemma {:induction false} TotalBetween(l: seq<int>, lo: int, hi: int)
    requires forall i :: 0 <= i < |l| ==> lo <= l[i] <= hi
    ensures |l| * lo <= Total(l) <= |l| * hi
  {
    if l != [] {
      TotalBetween(l[1..], lo, hi);
      assert |l| * lo == (|l| - 1) * lo + lo;
      assert |l| * hi == (|l| - 1) * hi + hi;
    }
  }

  lemma {:induction false} TotalNonNegative(l: seq<int>)
    requires forall i :: 0 <= i < |l| ==> 0 <= l[i]
    ensures 0 <= Total(l)
  {
    if l != [] {
      TotalNonNegative(l[1..]);
    }
  }

  /** `latencies.average().toLong()`: the mean truncated toward zero, which
      lies between the smallest and the largest latency. */
  function Mean(l: seq<int>): (r: int)
    requires l != []
    ensures MinOf(l) <= r <= MaxOf(l)
  {
    TotalBetween(l, MinOf(l), MaxOf(l));
    TruncDivBetween(Total(l), |l|, MinOf(l), MaxOf(l));
    TruncDiv(Total(l), |l|)
  }

  function Abs(x: int): nat { if x < 0 then -x else x }

  /** `latencies.zipWithNext { a, b -> abs(b - a) }`. */
  function AbsDiffs(l: seq<int>): (d: seq<int>)
    ensures |l| >= 1 ==> |d| == |l| - 1
    ensures |l| == 0 ==> d == []
    ensures forall i :: 0 <= i < |d| ==> d[i] == Abs(l[i + 1] - l[i]) && d[i] >= 0
  {
    if |l| < 2 then [] else [Abs(l[1] - l[0])] + AbsDiffs(l[1..])
  }

  /** The jitter: the mean absolute difference of consecutive successful
      latencies, rounded down, and 0 with fewer than two of them. */
  function Jitter(l: seq<int>): (j: int)
    ensures |l| < 2 ==> j == 0
    ensures |l| >= 2 ==> (|l| - 1) * j <= Total(AbsDiffs(l)) < (|l| - 1) * (j + 1)
    ensures 0 <= j
  {
    if |l| >= 2 then
      var d := AbsDiffs(l);
      TotalNonNegative(d);
      TruncDiv(Total(d), |d|)
    else 0
  }

  /** The jitter never exceeds the spread of the latencies. */
  lemma JitterBounded(l: seq<int>)
    requires l != []
    ensures Jitter(l) <= MaxOf(l) - MinOf(l)
  {
    if |l| >= 2 {
      var d := AbsDiffs(l);
      var lo, hi := MinOf(l), MaxOf(l);
      forall i | 0 <= i < |d|
        ensures 0 <= d[i] <= hi - lo
      {
        assert lo <= l[i] <= hi && lo <= l[i + 1] <= hi;
      }
      TotalBetween(d, 0, hi - lo);
      TruncDivBetween(Total(d), |d|, 0, hi - lo);
    }
  }

  /** `calculateMetrics()` over the history at time `now`. */
  function MetricsOf(h: seq<PingResult>, now: int): Metrics
  {
    if h == [] then Metrics(0, 0, 0, 0, 0.0, 0, Disconnected, now)
    else
      var l := Latencies(h);
      var average := if l != [] then Mean(l) else 0;
      var loss := LossRate(h);
      Metrics(if l != [] then l[|l| - 1] else 0, average,
              if l != [] then MinOf(l) else 0, if l != [] then MaxOf(l) else 0,
              loss, Jitter(l), Determine(average, loss), now)
  }

  /** An empty history gives zero metrics and DISCONNECTED; otherwise the
      strength is looked up from the average latency and the loss rate. */
  lemma MetricsCases(h: seq<PingResult>, now: int)
    ensures var m := MetricsOf(h, now);
            (h == [] ==> m == Metrics(0, 0, 0, 0, 0.0, 0, Disconnected, now)) &&
            (h != [] ==> m.packetLossRate == LossRate(h) &&
                         m.connectionStrength == Determine(m.averageLatencyMs, m.packetLossRate)) &&
            m.timestamp == now
  {
  }

  /** When every ping failed, the loss is 100% and the link disconnected. */
  lemma AllFailedDisconnected(h: seq<PingResult>, now: int)
    requires h != [] && Latencies(h) == []
    ensures MetricsOf(h, now).packetLossRate == 100.0
    ensures MetricsOf(h, now).connectionStrength == Disconnected
  {
    LossRateRange(h);
  }

  /** With at least one success, the current and average latencies lie
      between the minimum and the maximum, and the jitter within the spread. */
  lemma MetricsBounds(h: seq<PingResult>, now: int)
    requires Latencies(h) != []
    ensures var m := MetricsOf(h, now);
            m.minLatencyMs <= m.averageLatencyMs <= m.maxLatencyMs &&
            m.minLatencyMs <= m.latencyMs <= m.maxLatencyMs &&
            0 <= m.jitterMs <= m.maxLatencyMs - m.minLatencyMs
  {
    JitterBounded(Latencies(h));
  }

  /** The latency recorded for a failed ping plays no part in the metrics. */
  lemma FailedLatencyIrrelevant(h: seq<PingResult>, i: nat, v: int, now: int)
    requires i < |h| && !h[i].success
    ensures MetricsOf(h[i := h[i].(latencyMs := v)], now) == MetricsOf(h, now)
  {
    SameOutcomes(h, i, v);
  }

  lemma {:induction false} SameOutcomes(h: seq<PingResult>, i: nat, v: int)
    requires i < |h| && !h[i].success
    ensures Latencies(h[i := h[i].(latencyMs := v)]) == Latencies(h)
    ensures Failures(h[i := h[i].(latencyMs := v)]) == Failures(h)
  {
    var h' := h[i := h[i].(latencyMs := v)];
    if i > 0 {
      SameOutcomes(h[1..], i - 1, v);
      assert h'[1..] == h[1..][i - 1 := h[i].(latencyMs := v)];
    } else {
      assert h'[1..] == h[1..];
    }
  }

  /** With at least half of the pings lost, the link counts as disconnected. */
  lemma HalfLostDisconnected(h: seq<PingResult>, now: int)
    requires h != [] && 2 * Failures(h) >= |h|
    ensures MetricsOf(h, now).connectionStrength == Disconnected
  {
    LossRateRange(h);
  }

  // ---------------------------------------------------------------------
  // The monitor's state

  /** The JSON `{type: "ping", pingId, timestamp}` handed to the callback. */
  datatype PingMessage = PingMessage(callback: nat, pingId: int, timestamp: int)

  /** One `notifyListeners` call: the listeners called and the history
      whose metrics, taken at time `at`, they received. */
  datatype Notice = Notice(listeners: seq<nat>, snapshot: seq<PingResult>, at: int) {
    function Delivered(): Metrics {
      MetricsOf(snapshot, at)
    }
  }

  /** The ping history and the metrics published after each change to it. */
  datatype History = History(results: seq<PingResult>, notices: seq<Notice>)

  /** The monitor's fields; `scopeActive` is false once the coroutine scope
      is cancelled, after which no monitoring job runs. */
  datatype Monitor = Monitor(history: History, pending: map<int, int>, counter: int,
                             monitoring: bool, scopeActive: bool, callback: Option<nat>,
                             listeners: seq<nat>, sent: seq<PingMessage>)

  function Initial(): Monitor {
    Monitor(History([], []), map[], 0, false, true, None, [], [])
  }

  /** The history stays within its size, and every pending ping id has been
      issued (ids count up from 1). */
  predicate Valid(s: Monitor) {
    |s.history.results| <= HISTORY_SIZE && s.counter >= 0 &&
    forall id :: id in s.pending ==> 1 <= id <= s.counter
  }

  /** `add` then `removeAt(0)` while too long: the newest `HISTORY_SIZE` entries. */
  function Keep(h: seq<PingResult>, r: PingResult): seq<PingResult> {
    Seqs.LastN(h + [r], HISTORY_SIZE)
  }

  /** The kept history ends with the new result, holds at most
      `HISTORY_SIZE` entries, and drops the oldest one only when full. */
  lemma KeepShape(h: seq<PingResult>, r: PingResult)
    ensures var k := Keep(h, r);
            |k| == Seqs.Min(HISTORY_SIZE, |h| + 1) && k[|k| - 1] == r &&
            k == (h + [r])[|h| + 1 - |k|..] &&
            (|h| < HISTORY_SIZE ==> k == h + [r]) &&
            (|h| == HISTORY_SIZE ==> k == h[1..] + [r])
  {
  }

  /** `recordPingResult(latencyMs, success)`: keep the result, then notify
      the listeners of the new metrics. */
  function Record(h: History, listeners: seq<nat>, latencyMs: int, success: bool, now: int): History {
    var results := Keep(h.results, PingResult(latencyMs, success, now));
    History(results, h.notices + [Notice(listeners, results, now)])
  }

  /** `startMonitoring(sendPing)`: ignored while already monitoring. */
  function Started(s: Monitor, callback: nat): Monitor {
    if s.monitoring then s else s.(monitoring := true, callback := Some(callback))
  }

  /** `stopMonitoring()`. */
  function Stopped(s: Monitor): Monitor {
    s.(monitoring := false, pending := map[])
  }

  /** `sendPingMessage()`: issue the next id and remember when it was sent. */
  function Sent(s: Monitor, now: int): Monitor {
    var id := s.counter + 1;
    s.(counter := id, pending := s.pending[id := now],
       sent := if s.callback.Some? then s.sent + [PingMessage(s.callback.value, id, now)] else s.sent)
  }

  /** `onPongReceived(pingId)`. */
  function Pong(s: Monitor, pingId: int, now: int): Monitor {
    if pingId in s.pending then
      s.(pending := s.pending - {pingId},
         history := Record(s.history, s.listeners, now - s.pending[pingId], true, now))
    else s
  }

  /** The pending pings sent more than `TIMEOUT_THRESHOLD` ago. */
  function Expired(pending: map<int, int>, now: int): set<int> {
    set id | id in pending && now - pending[id] > TIMEOUT_THRESHOLD
  }

  /** `n` failures with the timeout as latency, recorded one after another. */
  function RecordFailures(h: History, listeners: seq<nat>, n: nat, now: int): History {
    if n == 0 then h else Record(RecordFailures(h, listeners, n - 1, now), listeners, TIMEOUT_THRESHOLD, false, now)
  }

  /** Part way through `checkTimeouts()`: the ids in `gone` forgotten and `n` failures recorded. */
  function Expiring(s: Monitor, gone: set<int>, n: nat, now: int): Monitor {
    s.(pending := s.pending - gone, history := RecordFailures(s.history, s.listeners, n, now))
  }

  /** `checkTimeouts()`: drop every expired ping and record a failure for each. */
  function TimedOut(s: Monitor, now: int): Monitor {
    var e := Expired(s.pending, now);
    s.(pending := s.pending - e, history := RecordFailures(s.history, s.listeners, |e|, now))
  }

  /** One pass of the monitoring loop: a ping, then the timeout check; no
      pass runs once monitoring stopped or the scope was cancelled. */
  function Ticked(s: Monitor, now: int): Monitor {
    if s.monitoring && s.scopeActive then TimedOut(Sent(s, now), now) else s
  }

  function WithListener(s: Monitor, listener: nat): Monitor {
    s.(listeners := s.listeners + [listener])
  }

  /** `listeners.remove(listener)`: the first registration of it. */
  function WithoutListener(s: Monitor, listener: nat): Monitor {
    s.(listeners := Seqs.RemoveFirst(s.listeners, listener))
  }

  /** `clearHistory()`: the results go, the notices already sent stay. */
  function Cleared(s: Monitor): Monitor {
    s.(history := s.history.(results := []), pending := map[])
  }

  /** `cleanup()`: stop, forget the listeners, clear, cancel the scope. */
  function CleanedUp(s: Monitor): Monitor {
    Cleared(Stopped(s).(listeners := [])).(scopeActive := false)
  }

  datatype Event =
    | Start(callback: nat) | Stop | Tick(now: int) | PongReceived(pingId: int, now: int)
    | AddListener(listener: nat) | RemoveListener(listener: nat) | ClearHistory | Cleanup

  function Step(s: Monitor, e: Event): Monitor {
    match e
    case Start(cb) => Started(s, cb)
    case Stop => Stopped(s)
    case Tick(now) => Ticked(s, now)
    case PongReceived(id, now) => Pong(s, id, now)
    case AddListener(l) => WithListener(s, l)
    case RemoveListener(l) => WithoutListener(s, l)
    case ClearHistory => Cleared(s)
    case Cleanup => CleanedUp(s)
  }

  function Run(s: Monitor, events: seq<Event>): Monitor
    decreases |events|
  {
    if events == [] then s else Run(Step(s, events[0]), events[1..])
  }

  // ---------------------------------------------------------------------
  // Properties

  /** Fresh failures: `n` copies of a timed-out result. */
  function Fails(n: nat, now: int): (f: seq<PingResult>)
    ensures |f| == n && forall i :: 0 <= i < n ==> f[i] == PingResult(TIMEOUT_THRESHOLD, false, now)
  {
    if n == 0 then [] else Fails(n - 1, now) + [PingResult(TIMEOUT_THRESHOLD, false, now)]
  }

  /** Recording `n` failures keeps the newest entries of the history followed
      by the failures, and publishes one notice each. */
  lemma {:induction false} RecordFailuresEffect(h: History, listeners: seq<nat>, n: nat, now: int)
    requires |h.results| <= HISTORY_SIZE
    ensures RecordFailures(h, listeners, n, now).results == Seqs.LastN(h.results + Fails(n, now), HISTORY_SIZE)
    ensures |RecordFailures(h, listeners, n, now).notices| == |h.notices| + n
  {
    if n > 0 {
      RecordFailuresEffect(h, listeners, n - 1, now);
      var prev := RecordFailures(h, listeners, n - 1, now);
      assert RecordFailures(h, listeners, n, now) == Record(prev, listeners, TIMEOUT_THRESHOLD, false, now);
      FailureStep(prev.results, h.results, n, now);
    }
  }

  /** One more failure kept after the newest entries of `base` and `n - 1`
      failures gives the newest entries of `base` and `n` failures. */
  lemma FailureStep(prev: seq<PingResult>, base: seq<PingResult>, n: nat, now: int)
    requires n > 0 && prev == Seqs.LastN(base + Fails(n - 1, now), HISTORY_SIZE)
    ensures Keep(prev, PingResult(TIMEOUT_THRESHOLD, false, now)) == Seqs.LastN(base + Fails(n, now), HISTORY_SIZE)
  {
    var f := PingResult(TIMEOUT_THRESHOLD, false, now);
    var fs := Fails(n - 1, now);
    assert Fails(n, now) == fs + [f];
    Seqs.AppendAssoc(base, fs, [f]);
    Seqs.LastNOfLastN(base + fs, [f], HISTORY_SIZE);
  }

  /** A pong for an id that is not pending records nothing. */
  lemma PongUnknown(s: Monitor, pingId: int, now: int)
    requires pingId !in s.pending
    ensures Pong(s, pingId, now) == s
  {
  }

  /** A pong for a pending id resolves it and records a success whose
      latency is the time since the ping was sent, then publishes the
      metrics of the new history. */
  lemma PongKnown(s: Monitor, pingId: int, now: int)
    requires pingId in s.pending
    ensures var t := Pong(s, pingId, now);
            var r := t.history.results;
            t.pending == s.pending - {pingId} &&
            r[|r| - 1] == PingResult(now - s.pending[pingId], true, now) &&
            t.history.notices == s.history.notices + [Notice(s.listeners, r, now)] &&
            t.history.notices[|t.history.notices| - 1].Delivered() == MetricsOf(r, now)
  {
  }

  /** A second pong for the same id records nothing. */
  lemma PongOnce(s: Monitor, pingId: int, now1: int, now2: int)
    ensures Pong(Pong(s, pingId, now1), pingId, now2) == Pong(s, pingId, now1)
  {
  }

  /** After the timeout check, every ping older than the threshold is gone,
      the others are kept as they were, and one failure with the timeout as
      latency was recorded for each ping dropped. */
  lemma TimeoutsRecorded(s: Monitor, now: int)
    requires Valid(s)
    ensures var t := TimedOut(s, now);
            var e := Expired(s.pending, now);
            (forall id :: id in t.pending <==> id in s.pending && now - s.pending[id] <= TIMEOUT_THRESHOLD) &&
            (forall id :: id in t.pending ==> t.pending[id] == s.pending[id]) &&
            t.history.results == Seqs.LastN(s.history.results + Fails(|e|, now), HISTORY_SIZE) &&
            |t.history.notices| == |s.history.notices| + |e|
  {
    RecordFailuresEffect(s.history, s.listeners, |Expired(s.pending, now)|, now);
  }

  /** A new ping gets an id that was not pending. */
  lemma SentFresh(s: Monitor, now: int)
    requires Valid(s)
    ensures var t := Sent(s, now);
            s.counter + 1 !in s.pending && t.pending[s.counter + 1] == now &&
            |t.pending| == |s.pending| + 1 && Valid(t)
  {
  }

  /** The ping sent by a tick survives that tick's timeout check. */
  lemma TickKeepsNewPing(s: Monitor, now: int)
    requires s.monitoring && s.scopeActive
    ensures var t := Ticked(s, now);
            s.counter + 1 in t.pending && t.counter == s.counter + 1
  {
    var s1 := Sent(s, now);
    assert s1.counter + 1 - 1 !in Expired(s1.pending, now);
  }

  lemma RecordBounded(h: History, listeners: seq<nat>, latencyMs: int, success: bool, now: int)
    ensures |Record(h, listeners, latencyMs, success, now).results| <= HISTORY_SIZE
  {
  }

  /** Every operation keeps the history within 20 entries and the pending
      ids among those issued. */
  lemma StepValid(s: Monitor, e: Event)
    requires Valid(s)
    ensures Valid(Step(s, e))
  {
    match e
    case Tick(now) =>
      if s.monitoring && s.scopeActive {
        SentFresh(s, now);
        var s1 := Sent(s, now);
        var n := |Expired(s1.pending, now)|;
        RecordFailuresEffect(s1.history, s1.listeners, n, now);
      }
    case PongReceived(id, now) =>
      if id in s.pending {
        RecordBounded(s.history, s.listeners, now - s.pending[id], true, now);
      }
    case _ =>
  }

  /** No sequence of events lets the history grow beyond `HISTORY_SIZE`. */
  lemma {:induction false} RunValid(s: Monitor, events: seq<Event>)
    requires Valid(s)
    ensures Valid(Run(s, events))
    decreases |events|
  {
    if events != [] {
      StepValid(s, events[0]);
      RunValid(Step(s, events[0]), events[1..]);
    }
  }

  lemma HistoryBounded(events: seq<Event>)
    ensures |Run(Initial(), events).history.results| <= HISTORY_SIZE
  {
    RunValid(Initial(), events);
  }

  // ---------------------------------------------------------------------
  // ConnectionQualityMonitor

  /** Some element of a non-empty set (the ids of the timed-out pings are
      all handled alike, so the order does not matter). */
  method Choose(s: set<int>) returns (x: int)
    requires s != {}
    ensures x in s
  {
    EmptyOrInhabited(s);
    x :| x in s;
  }

  lemma EmptyOrInhabited(s: set<int>)
    ensures s == {} || exists y :: y in s
  {
    if forall y :: y !in s {
      assert s == {};
    }
  }

  class QualityMonitor {
    var pingHistory: seq<PingResult>
    /** The `notifyListeners` calls made so far. */
    var notices: seq<Notice>
    /** Ping id to send time. */
    var pendingPings: map<int, int>
    var pingIdCounter: int
    var isMonitoring: bool
    var scopeActive: bool
    var sendPingCallback: Option<nat>
    var listeners: seq<nat>
    /** The messages handed to the ping callback. */
    var sent: seq<PingMessage>

    function Hist(): History
      reads this
    {
      History(pingHistory, notices)
    }

    function Current(): Monitor
      reads this
    {
      Monitor(Hist(), pendingPings, pingIdCounter, isMonitoring, scopeActive,
              sendPingCallback, listeners, sent)
    }

    constructor ()
      ensures Current() == Initial()
    {
      pingHistory, notices, pendingPings, pingIdCounter := [], [], map[], 0;
      isMonitoring, scopeActive, sendPingCallback := false, true, None;
      listeners, sent := [], [];
    }

    method StartMonitoring(sendPing: nat)
      modifies this
      ensures Current() == Started(old(Current()), sendPing)
    {
      if isMonitoring {
        return;
      }
      isMonitoring := true;
      sendPingCallback := Some(sendPing);
    }

    method StopMonitoring()
      modifies this
      ensures Current() == Stopped(old(Current()))
    {
      isMonitoring := false;
      pendingPings := map[];
    }

    method SendPingMessage(now: int)
      modifies this
      ensures Current() == Sent(old(Current()), now)
    {
      pingIdCounter := pingIdCounter + 1;
      var pingId := pingIdCounter;
      pendingPings := pendingPings[pingId := now];
      if sendPingCallback.Some? {
        sent := sent + [PingMessage(sendPingCallback.value, pingId, now)];
      }
    }

    method OnPongReceived(pingId: int, now: int)
      modifies this
      ensures Current() == Pong(old(Current()), pingId, now)
    {
      if pingId in pendingPings {
        var sendTime := pendingPings[pingId];
        pendingPings := pendingPings - {pingId};
        RecordPingResult(now - sendTime, true, now);
      }
    }

    method CheckTimeouts(now: int)
      modifies this
      ensures Current() == TimedOut(old(Current()), now)
    {
      ghost var s0 := Current();
      var expired := Expired(pendingPings, now);
      var todo := expired;
      ghost var done: nat := 0;
      while todo != {}
        invariant todo <= expired && done + |todo| == |expired|
        invariant Current() == Expiring(s0, expired - todo, done, now)
        decreases |todo|
      {
        var pingId := Choose(todo);
        var rest := todo - {pingId};
        assert |rest| == |todo| - 1;
        assert s0.pending - (expired - rest) == (s0.pending - (expired - todo)) - {pingId};
        ExpireOne(pingId, now);
        todo := rest;
        done := done + 1;
      }
      assert expired - todo == expired;
    }

    /** One turn of `checkTimeouts()`'s loop: forget the ping, record its failure. */
    method ExpireOne(pingId: int, now: int)
      modifies this
      ensures Current() == old(Current()).(pending := old(pendingPings) - {pingId},
        history := Record(old(Hist()), listeners, TIMEOUT_THRESHOLD, false, now))
    {
      pendingPings := pendingPings - {pingId};
      RecordPingResult(TIMEOUT_THRESHOLD, false, now);
    }

    method RecordPingResult(latencyMs: int, success: bool, now: int)
      modifies this
      ensures Hist() == Record(old(Hist()), listeners, latencyMs, success, now)
      ensures pendingPings == old(pendingPings) && pingIdCounter == old(pingIdCounter)
      ensures isMonitoring == old(isMonitoring) && scopeActive == old(scopeActive)
      ensures sendPingCallback == old(sendPingCallback) && listeners == old(listeners) && sent == old(sent)
    {
      var full := pingHistory + [PingResult(latencyMs, success, now)];
      var h := full;
      while |h| > HISTORY_SIZE
        modifies {}
        invariant Seqs.Min(HISTORY_SIZE, |full|) <= |h| <= |full|
        invariant h == full[|full| - |h|..]
      {
        h := h[1..];
      }
      assert h == Keep(old(pingHistory), PingResult(latencyMs, success, now));
      pingHistory := h;
      notices := notices + [Notice(listeners, pingHistory, now)];
    }

    method CalculateMetrics(now: int) returns (m: Metrics)
      ensures m == MetricsOf(pingHistory, now)
    {
      m := MetricsOf(pingHistory, now);
    }

    method GetMetrics(now: int) returns (m: Metrics)
      ensures m == MetricsOf(pingHistory, now)
    {
      m := CalculateMetrics(now);
    }

    /** One pass of the monitoring coroutine's loop. */
    method Tick(now: int)
      modifies this
      ensures Current() == Ticked(old(Current()), now)
    {
      if isMonitoring && scopeActive {
        SendPingMessage(now);
        CheckTimeouts(now);
      }
    }

    method AddListener(listener: nat)
      modifies this
      ensures Current() == WithListener(old(Current()), listener)
    {
      listeners := listeners + [listener];
    }

    method RemoveListener(listener: nat)
      modifies this
      ensures Current() == WithoutListener(old(Current()), listener)
    {
      listeners := Seqs.RemoveFirst(listeners, listener);
    }

    method ClearHistory()
      modifies this
      ensures Current() == Cleared(old(Current()))
    {
      pingHistory := [];
      pendingPings := map[];
    }

    method Cleanup()
      modifies this
      ensures Current() == CleanedUp(old(Current()))
    {
      StopMonitoring();
      listeners := [];
      ClearHistory();
      scopeActive := false;
    }
  }
}
