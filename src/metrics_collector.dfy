/** The backend's metrics collector (`backend/src/utils/metrics-collector.ts`):
    a bounded history of metric snapshots, its queries, and the statistics
    over a time window (current, average, minimum, maximum and linearly
    interpolated percentiles). Metric values are exact reals rather than
    IEEE doubles; the CPU, memory and clock readings the source samples
    from the operating system are parameters. */
module MetricsCollector {
  import opened Wrappers
  import opened Seqs

  datatype Snapshot = Snapshot(timestamp: int, cpu: real, memory: real, memoryPercent: real,
                               latency: real, bandwidth: real, connections: real,
                               activeTransfers: real, activeScreenMirrors: real)

  datatype Stats = Stats(current: real, average: real, min: real, max: real)

  datatype PercentileStats = PercentileStats(current: real, average: real, min: real, max: real,
                                             p50: real, p95: real, p99: real)

  datatype Aggregation = Aggregation(timestamp: int, cpu: Stats, memory: Stats, latency: PercentileStats,
                                     bandwidth: Stats)

  datatype CollectorStats = CollectorStats(snapshotCount: nat, maxSnapshots: nat,
                                           oldestSnapshot: Option<int>, newestSnapshot: Option<int>)

  datatype Emitted = SnapshotCollected(snapshot: Snapshot) | CollectorCleared

  // ---------------------------------------------------------------------------
  // The history

  /** `push` then one `shift` when above `max`. */
  function Collected(history: seq<Snapshot>, s: Snapshot, max: nat): (h: seq<Snapshot>)
    requires |history| <= max
    ensures |h| <= max
    ensures h == LastN(history + [s], max)
  {
    var pushed := history + [s];
    if |pushed| > max then pushed[1..] else pushed
  }

  /** `getSnapshots(limit)`: everything without a limit, else `slice(-limit)`. */
  function SnapshotsOf(history: seq<Snapshot>, limit: Option<int>): (r: seq<Snapshot>)
    ensures limit.None? ==> r == history
    ensures limit.Some? && limit.value > 0 ==> r == LastN(history, limit.value)
    ensures limit.Some? && limit.value == 0 ==> r == history
    ensures limit.Some? && limit.value < 0 ==> r == history[Min(-limit.value, |history|)..]
  {
    if limit.None? then history
    else
      SliceFromEnd(history, limit.value);
      JsSliceFrom(history, -limit.value)
  }

  // ---------------------------------------------------------------------------
  // Statistics over reals

  function SumR(v: seq<real>): real
  {
    if v == [] then 0.0 else v[0] + SumR(v[1..])
  }

  /** `Math.min(...v)` on a non-empty array. */
  function MinOf(v: seq<real>): (m: real)
    requires v != []
    ensures forall i :: 0 <= i < |v| ==> m <= v[i]
  {
    if |v| == 1 then v[0]
    else
      var rest := MinOf(v[1..]);
      if v[0] <= rest then v[0] else rest
  }

  /** `Math.max(...v)` on a non-empty array. */
  function MaxOf(v: seq<real>): (m: real)
    requires v != []
    ensures forall i :: 0 <= i < |v| ==> v[i] <= m
  {
    if |v| == 1 then v[0]
    else
      var rest := MaxOf(v[1..]);
      if v[0] >= rest then v[0] else rest
  }

  /** The minimum and the maximum are elements: at the indices returned. */
  lemma {:induction false} ExtremesOccur(v: seq<real>) returns (i: nat, j: nat)
    requires v != []
    ensures i < |v| && v[i] == MinOf(v)
    ensures j < |v| && v[j] == MaxOf(v)
  {
    if |v| == 1 {
      i, j := 0, 0;
    } else {
      var i', j' := ExtremesOccur(v[1..]);
      i := if v[0] <= MinOf(v[1..]) then 0 else i' + 1;
      j := if v[0] >= MaxOf(v[1..]) then 0 else j' + 1;
    }
  }

  /** `n` copies of the minimum fit under the sum. */
  lemma {:induction false} SumAboveMin(v: seq<real>)
    requires v != []
    ensures (|v| as real) * MinOf(v) <= SumR(v)
  {
    if |v| > 1 {
      var rest := v[1..];
      var k := |rest| as real;
      var lo, lo' := MinOf(v), MinOf(rest);
      assert lo <= v[0] && lo <= lo';
      assert SumR(v) == v[0] + SumR(rest);
      SumAboveMin(rest);
      assert k * lo <= k * lo' by { MulLeq(k, lo, lo'); }
      assert (k + 1.0) * lo == lo + k * lo;
    }
  }

  /** The sum fits under `n` copies of the maximum. */
  lemma {:induction false} SumBelowMax(v: seq<real>)
    requires v != []
    ensures SumR(v) <= (|v| as real) * MaxOf(v)
  {
    if |v| > 1 {
      var rest := v[1..];
      var k := |rest| as real;
      var hi, hi' := MaxOf(v), MaxOf(rest);
      assert v[0] <= hi && hi' <= hi;
      assert SumR(v) == v[0] + SumR(rest);
      SumBelowMax(rest);
      assert k * hi' <= k * hi by { MulLeq(k, hi', hi); }
      assert (k + 1.0) * hi == hi + k * hi;
    }
  }

  lemma MulLeq(k: real, a: real, b: real)
    requires 0.0 <= k && a <= b
    ensures k * a <= k * b && a * k <= b * k
  {
    assert k * b - k * a == k * (b - a);
  }

  /** The arithmetic mean: the sum spread over the count. */
  function Mean(v: seq<real>): (m: real)
    requires v != []
    ensures m * (|v| as real) == SumR(v)
  {
    var n := |v| as real;
    assert (SumR(v) / n) * n == SumR(v);
    SumR(v) / n
  }

  /** `calculateStats(values)`: all zeros for no values. */
  function CalculateStats(v: seq<real>): (st: Stats)
    ensures v == [] ==> st == Stats(0.0, 0.0, 0.0, 0.0)
    ensures v != [] ==> st.current == v[|v| - 1] && st.min == MinOf(v) && st.max == MaxOf(v)
                        && st.average * (|v| as real) == SumR(v)
  {
    if v == [] then Stats(0.0, 0.0, 0.0, 0.0)
    else Stats(v[|v| - 1], Mean(v), MinOf(v), MaxOf(v))
  }

  /** The average lies between the minimum and the maximum. */
  lemma AverageBetween(v: seq<real>)
    requires v != []
    ensures CalculateStats(v).min <= CalculateStats(v).average <= CalculateStats(v).max
  {
    SumAboveMin(v);
    SumBelowMax(v);
    QuotientAtLeast(SumR(v), |v| as real, MinOf(v));
    QuotientAtMost(SumR(v), |v| as real, MaxOf(v));
  }

  lemma QuotientAtLeast(s: real, n: real, a: real)
    requires n > 0.0 && n * a <= s
    ensures a <= s / n
  {
    assert s / n - a == (s - n * a) / n;
  }

  lemma QuotientAtMost(s: real, n: real, b: real)
    requires n > 0.0 && s <= n * b
    ensures s / n <= b
  {
    assert b - s / n == (n * b - s) / n;
  }

  // ---------------------------------------------------------------------------
  // Sorting and percentiles

  predicate Ascending(s: seq<real>)
  {
    forall i, j :: 0 <= i < j < |s| ==> s[i] <= s[j]
  }

  function InsertAscending(x: real, s: seq<real>): (r: seq<real>)
    requires Ascending(s)
    ensures Ascending(r) && multiset(r) == multiset(s) + multiset{x}
  {
    if s == [] then [x]
    else if x <= s[0] then [x] + s
    else
      var t := InsertAscending(x, s[1..]);
      assert s == [s[0]] + s[1..];
      BoundedBelow(t, s[1..], x, s[0]);
      [s[0]] + t
  }

  /** A lower bound of `u` and of `x` bounds everything with their elements. */
  lemma BoundedBelow(t: seq<real>, u: seq<real>, x: real, lo: real)
    requires multiset(t) == multiset(u) + multiset{x} && lo <= x
    requires forall i :: 0 <= i < |u| ==> lo <= u[i]
    ensures forall i :: 0 <= i < |t| ==> lo <= t[i]
  {
    forall i | 0 <= i < |t|
      ensures lo <= t[i]
    {
      assert t[i] in multiset(t);
      if t[i] != x {
        var j := IndexOf(t[i], u);
      }
    }
  }

  /** `[...values].sort((a, b) => a - b)` */
  function SortAscending(v: seq<real>): (r: seq<real>)
    ensures Ascending(r) && multiset(r) == multiset(v) && |r| == |v|
  {
    if v == [] then []
    else
      assert v == [v[0]] + v[1..];
      InsertAscending(v[0], SortAscending(v[1..]))
  }

  /** The sorted values start at the minimum and end at the maximum. */
  lemma SortedEnds(v: seq<real>)
    requires v != []
    ensures var s := SortAscending(v); s[0] == MinOf(v) && s[|s| - 1] == MaxOf(v)
  {
    var s := SortAscending(v);
    var first := IndexOf(s[0], v);
    var last := IndexOf(s[|s| - 1], v);
    var i, j := ExtremesOccur(v);
    var lo := IndexOf(v[i], s);
    var hi := IndexOf(v[j], s);
    AscendingEnds(s, lo);
    AscendingEnds(s, hi);
    var mn, mx := MinOf(v), MaxOf(v);
    assert mn <= v[first] && v[last] <= mx;
    assert s[0] == mn;
    assert s[|s| - 1] == mx;
  }

  lemma AscendingPair(s: seq<real>, i: nat, j: nat)
    requires Ascending(s) && i <= j < |s|
    ensures s[i] <= s[j]
  {
  }

  /** Sorted values lie between the first and the last. */
  lemma AscendingEnds(s: seq<real>, k: nat)
    requires Ascending(s) && k < |s|
    ensures s[0] <= s[k] <= s[|s| - 1]
  {
  }

  /** Where an element of a multiset sits in a sequence with that multiset. */
  lemma IndexOf(x: real, b: seq<real>) returns (j: nat)
    requires x in multiset(b)
    ensures j < |b| && b[j] == x
  {
    j :| 0 <= j < |b| && b[j] == x;
  }

  /** `Math.ceil` */
  function Ceil(x: real): (c: int)
    ensures x <= c as real < x + 1.0
    ensures c == x.Floor <==> x == x.Floor as real
  {
    if x == x.Floor as real then x.Floor else x.Floor + 1
  }

  /** The point a fraction `w` of the way from `a` to `b`. */
  function Lerp(a: real, b: real, w: real): real
  {
    a * (1.0 - w) + b * w
  }

  /** Between its ends the line stays between them. */
  lemma LerpBounds(a: real, b: real, w: real)
    requires a <= b && 0.0 <= w <= 1.0
    ensures a <= Lerp(a, b, w) <= b
  {
    assert Lerp(a, b, w) == a + (b - a) * w;
    MulLeq(w, 0.0, b - a);
    MulLeq(b - a, w, 1.0);
  }

  /** Along a rising line a larger fraction gives a larger point. */
  lemma LerpMonotone(a: real, b: real, w1: real, w2: real)
    requires a <= b && w1 <= w2
    ensures Lerp(a, b, w1) <= Lerp(a, b, w2)
  {
    assert Lerp(a, b, w1) == a + (b - a) * w1;
    assert Lerp(a, b, w2) == a + (b - a) * w2;
    MulLeq(b - a, w1, w2);
  }

  /** The value at real position `x` of a sequence: the element at an
      integral position, otherwise the line between its two neighbours. */
  function Interpolate(s: seq<real>, x: real): real
    requires s != [] && 0.0 <= x <= (|s| - 1) as real
  {
    var lower := x.Floor;
    var upper := Ceil(x);
    if lower == upper then s[lower] else Lerp(s[lower], s[upper], x - lower as real)
  }

  /** The position of the `p`-th percentile among `n` values. */
  function PercentileIndex(p: real, n: nat): (x: real)
    requires 0.0 <= p <= 100.0 && n > 0
    ensures 0.0 <= x <= (n - 1) as real
  {
    var k, r := (n - 1) as real, p / 100.0;
    assert 0.0 <= r <= 1.0;
    MulLeq(k, 0.0, r);
    MulLeq(k, r, 1.0);
    assert r * k <= 1.0 * k;
    assert 1.0 * k == k;
    r * k
  }

  /** `percentile(sorted, p)`: the interpolated value at position
      (p / 100) * (n - 1). */
  function Percentile(sorted: seq<real>, p: real): real
    requires sorted != [] && 0.0 <= p <= 100.0
  {
    Interpolate(sorted, PercentileIndex(p, |sorted|))
  }

  /** A percentile of sorted values lies between the least and the greatest. */
  lemma PercentileBounds(sorted: seq<real>, p: real)
    requires sorted != [] && 0.0 <= p <= 100.0 && Ascending(sorted)
    ensures sorted[0] <= Percentile(sorted, p) <= sorted[|sorted| - 1]
  {
    InterpolateBounds(sorted, PercentileIndex(p, |sorted|));
  }

  /** An interpolated value lies between the elements at the floor and at
      the ceiling of its position, so between the least and the greatest. */
  lemma InterpolateBounds(s: seq<real>, x: real)
    requires s != [] && 0.0 <= x <= (|s| - 1) as real && Ascending(s)
    ensures s[x.Floor] <= Interpolate(s, x) <= s[Ceil(x)]
    ensures s[0] <= Interpolate(s, x) <= s[|s| - 1]
  {
    var lower, upper := x.Floor, Ceil(x);
    AscendingEnds(s, lower);
    AscendingEnds(s, upper);
    if lower != upper {
      AscendingPair(s, lower, upper);
      LerpBounds(s[lower], s[upper], x - lower as real);
    }
  }

  /** Over sorted values the interpolation never decreases along the positions. */
  lemma InterpolateMonotone(s: seq<real>, x1: real, x2: real)
    requires s != [] && 0.0 <= x1 <= x2 <= (|s| - 1) as real && Ascending(s)
    ensures Interpolate(s, x1) <= Interpolate(s, x2)
  {
    InterpolateBounds(s, x1);
    InterpolateBounds(s, x2);
    var l1, l2 := x1.Floor, x2.Floor;
    if l1 == l2 && Ceil(x1) != l1 {
      assert Ceil(x2) == l1 + 1;
      AscendingPair(s, l1, l1 + 1);
      LerpMonotone(s[l1], s[l1 + 1], x1 - l1 as real, x2 - l2 as real);
    } else if l1 != l2 {
      AscendingPair(s, Ceil(x1), l2);
    }
  }

  /** A higher percentile sits at a later position. */
  lemma PercentileIndexMonotone(p: real, q: real, n: nat)
    requires 0.0 <= p <= q <= 100.0 && n > 0
    ensures PercentileIndex(p, n) <= PercentileIndex(q, n)
  {
    var k := (n - 1) as real;
    MulLeq(k, p / 100.0, q / 100.0);
    assert PercentileIndex(p, n) == (p / 100.0) * k;
    assert PercentileIndex(q, n) == (q / 100.0) * k;
  }

  /** A higher percentile of sorted values is never smaller. */
  lemma PercentileMonotone(sorted: seq<real>, p: real, q: real)
    requires sorted != [] && 0.0 <= p <= q <= 100.0 && Ascending(sorted)
    ensures Percentile(sorted, p) <= Percentile(sorted, q)
  {
    PercentileIndexMonotone(p, q, |sorted|);
    InterpolateMonotone(sorted, PercentileIndex(p, |sorted|), PercentileIndex(q, |sorted|));
  }

  /** `calculatePercentileStats(values)` */
  function CalculatePercentileStats(v: seq<real>): (st: PercentileStats)
    ensures v == [] ==> st == PercentileStats(0.0, 0.0, 0.0, 0.0, 0.0, 0.0, 0.0)
    ensures v != [] ==> st.min == MinOf(v) && st.max == MaxOf(v) && st.current == v[|v| - 1]
                        && st.average == Mean(v)
                        && st.min <= st.p50 <= st.p95 <= st.p99 <= st.max
  {
    if v == [] then PercentileStats(0.0, 0.0, 0.0, 0.0, 0.0, 0.0, 0.0)
    else
      var sorted := SortAscending(v);
      SortedEnds(v);
      var p50, p95, p99 := Percentile(sorted, 50.0), Percentile(sorted, 95.0), Percentile(sorted, 99.0);
      PercentilesInOrder(sorted);
      PercentileStats(v[|v| - 1], Mean(v), sorted[0], sorted[|sorted| - 1], p50, p95, p99)
  }

  /** Over sorted values the least, the three percentiles and the greatest
      are in order. */
  lemma PercentilesInOrder(sorted: seq<real>)
    requires sorted != [] && Ascending(sorted)
    ensures sorted[0] <= Percentile(sorted, 50.0) <= Percentile(sorted, 95.0)
            <= Percentile(sorted, 99.0) <= sorted[|sorted| - 1]
  {
    PercentileBounds(sorted, 50.0);
    PercentileBounds(sorted, 99.0);
    PercentileMonotone(sorted, 50.0, 95.0);
    PercentileMonotone(sorted, 95.0, 99.0);
  }

  // ---------------------------------------------------------------------------
  // Queries over the history

  function ProjectCpu(ss: seq<Snapshot>): (v: seq<real>)
    ensures |v| == |ss| && forall i :: 0 <= i < |ss| ==> v[i] == ss[i].cpu
  {
    if ss == [] then [] else [ss[0].cpu] + ProjectCpu(ss[1..])
  }

  function ProjectMemory(ss: seq<Snapshot>): (v: seq<real>)
    ensures |v| == |ss| && forall i :: 0 <= i < |ss| ==> v[i] == ss[i].memory
  {
    if ss == [] then [] else [ss[0].memory] + ProjectMemory(ss[1..])
  }

  function ProjectLatency(ss: seq<Snapshot>): (v: seq<real>)
    ensures |v| == |ss| && forall i :: 0 <= i < |ss| ==> v[i] == ss[i].latency
  {
    if ss == [] then [] else [ss[0].latency] + ProjectLatency(ss[1..])
  }

  function ProjectBandwidth(ss: seq<Snapshot>): (v: seq<real>)
    ensures |v| == |ss| && forall i :: 0 <= i < |ss| ==> v[i] == ss[i].bandwidth
  {
    if ss == [] then [] else [ss[0].bandwidth] + ProjectBandwidth(ss[1..])
  }

  function Since(windowStart: int): Snapshot -> bool
  {
    (s: Snapshot) => s.timestamp >= windowStart
  }

  function Between(startTime: int, endTime: int): Snapshot -> bool
  {
    (s: Snapshot) => s.timestamp >= startTime && s.timestamp <= endTime
  }

  /** `aggregateMetrics(windowMs)` at time `now`: nothing for an empty
      history or when no snapshot is at or after `now - windowMs`. */
  function Aggregate(history: seq<Snapshot>, windowMs: int, now: int): (r: Option<Aggregation>)
    ensures r.None? <==> forall i :: 0 <= i < |history| ==> history[i].timestamp < now - windowMs
    ensures r.Some? ==> r.value.timestamp == now
    ensures r.Some? ==> var w := Filter(history, Since(now - windowMs));
      r.value.cpu == CalculateStats(ProjectCpu(w)) && r.value.memory == CalculateStats(ProjectMemory(w))
      && r.value.latency == CalculatePercentileStats(ProjectLatency(w))
      && r.value.bandwidth == CalculateStats(ProjectBandwidth(w))
  {
    if |history| == 0 then None
    else
      var w := Filter(history, Since(now - windowMs));
      if |w| == 0 then
        assert forall i :: 0 <= i < |history| ==> !Since(now - windowMs)(history[i]);
        None
      else
        assert Since(now - windowMs)(w[0]);
        Some(Aggregation(now, CalculateStats(ProjectCpu(w)), CalculateStats(ProjectMemory(w)),
                         CalculatePercentileStats(ProjectLatency(w)), CalculateStats(ProjectBandwidth(w))))
  }

  class Collector {
    var snapshots: seq<Snapshot>
    const maxSnapshots: nat
    var emitted: seq<Emitted>

    ghost predicate Valid()
      reads this
    {
      |snapshots| <= maxSnapshots
    }

    /** `new MetricsCollector(maxSnapshots = 1000)` */
    constructor (maxOption: Option<nat>)
      ensures Valid() && snapshots == [] && maxSnapshots == maxOption.GetOr(1000) && emitted == []
    {
      maxSnapshots := maxOption.GetOr(1000);
      snapshots := [];
      emitted := [];
    }

    /** `collectSnapshot(...)` with the clock and the system readings as
        parameters; omitted counters default to 0. The new snapshot is
        kept, the oldest dropped beyond `maxSnapshots`. */
    method CollectSnapshot(now: int, cpu: real, memory: real, memoryPercent: real,
                           latency: Option<real>, bandwidth: Option<real>, connections: Option<real>,
                           activeTransfers: Option<real>, activeScreenMirrors: Option<real>)
      returns (s: Snapshot)
      requires Valid()
      modifies this`snapshots, this`emitted
      ensures Valid()
      ensures s == Snapshot(now, cpu, memory, memoryPercent, latency.GetOr(0.0), bandwidth.GetOr(0.0),
                            connections.GetOr(0.0), activeTransfers.GetOr(0.0), activeScreenMirrors.GetOr(0.0))
      ensures snapshots == LastN(old(snapshots) + [s], maxSnapshots)
      ensures emitted == old(emitted) + [SnapshotCollected(s)]
    {
      s := Snapshot(now, cpu, memory, memoryPercent, latency.GetOr(0.0), bandwidth.GetOr(0.0),
                    connections.GetOr(0.0), activeTransfers.GetOr(0.0), activeScreenMirrors.GetOr(0.0));
      ghost var after := Collected(snapshots, s, maxSnapshots);
      snapshots := snapshots + [s];
      if |snapshots| > maxSnapshots {
        snapshots := snapshots[1..];
      }
      assert snapshots == after;
      emitted := emitted + [SnapshotCollected(s)];
    }

    /** `getSnapshots(limit)` */
    function GetSnapshots(limit: Option<int>): (r: seq<Snapshot>)
      reads this
      ensures r == SnapshotsOf(snapshots, limit)
    {
      SnapshotsOf(snapshots, limit)
    }

    /** `getLatestSnapshot()` */
    function GetLatestSnapshot(): (r: Option<Snapshot>)
      reads this
      ensures r.None? <==> snapshots == []
      ensures r.Some? ==> r.value == snapshots[|snapshots| - 1]
    {
      if |snapshots| > 0 then Some(snapshots[|snapshots| - 1]) else None
    }

    /** `aggregateMetrics(windowMs = 60000)` at time `now`. */
    function AggregateMetrics(windowMs: Option<int>, now: int): (r: Option<Aggregation>)
      reads this
      ensures r == Aggregate(snapshots, windowMs.GetOr(60000), now)
    {
      Aggregate(snapshots, windowMs.GetOr(60000), now)
    }

    /** `getMetricsInRange(start, end)`: inclusive at both ends, in the
        order the snapshots were taken. */
    function GetMetricsInRange(startTime: int, endTime: int): (r: seq<Snapshot>)
      reads this
      ensures r == Filter(snapshots, Between(startTime, endTime))
      ensures forall i :: 0 <= i < |r| ==> r[i] in snapshots && startTime <= r[i].timestamp <= endTime
      ensures forall i :: 0 <= i < |snapshots| && startTime <= snapshots[i].timestamp <= endTime ==> snapshots[i] in r
    {
      var r := Filter(snapshots, Between(startTime, endTime));
      assert forall i :: 0 <= i < |r| ==> Between(startTime, endTime)(r[i]);
      r
    }

    /** `clear()` */
    method Clear()
      modifies this`snapshots, this`emitted
      ensures Valid() && snapshots == [] && emitted == old(emitted) + [CollectorCleared]
    {
      snapshots := [];
      emitted := emitted + [CollectorCleared];
    }

    /** `getStats()` */
    function GetStats(): (st: CollectorStats)
      reads this
      ensures st.snapshotCount == |snapshots| && st.maxSnapshots == maxSnapshots
      ensures st.oldestSnapshot.None? <==> snapshots == []
      ensures snapshots != [] ==> st.oldestSnapshot == Some(snapshots[0].timestamp)
                                  && st.newestSnapshot == Some(snapshots[|snapshots| - 1].timestamp)
      ensures snapshots == [] ==> st.newestSnapshot == None
    {
      if |snapshots| > 0 then
        CollectorStats(|snapshots|, maxSnapshots, Some(snapshots[0].timestamp), Some(snapshots[|snapshots| - 1].timestamp))
      else CollectorStats(0, maxSnapshots, None, None)
    }

    /** `destroy()`: cleared; the listeners are not modelled. */
    method Destroy()
      modifies this`snapshots, this`emitted
      ensures Valid() && snapshots == [] && emitted == old(emitted) + [CollectorCleared]
    {
      Clear();
    }
  }
}
