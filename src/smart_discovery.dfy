/** The backend's adaptive discovery broadcaster (`backend/src/utils/smart-discovery.js`):
    a cache of discovered devices with a time-to-live, success and failure
    counters that grade the network, and a broadcast interval that grows
    on a good network with devices around and shrinks on a poor one or
    with none. The clock and `Math.random()` are parameters; the per-device
    expiry timer is the explicit step `CacheExpiryFired`. Intervals are
    integers, which the source's final `Math.round` makes them after every
    adjustment. */
module SmartDiscovery {
  import opened Wrappers
  import opened Arith

  datatype Quality = Good | Fair | Poor

  /** A discovered device: its optional id, its address and the rest of it. */
  datatype Device = Device(deviceId: Option<string>, ip: string, info: string)

  /** A cache entry: the device with the times it was cached and last seen. */
  datatype Cached = Cached(device: Device, cachedAt: int, lastSeen: int)

  datatype DiscoveryStats = DiscoveryStats(totalBroadcasts: nat, cachedResponses: nat, intervalAdjustments: nat)

  /** `getStats()` */
  datatype Report = Report(stats: DiscoveryStats, currentInterval: int, networkQuality: Quality,
                           cachedDevices: nat, successfulBroadcasts: nat, failedBroadcasts: nat)

  /** `options.x || d`: absent and 0 give the default. */
  function OrDefault(x: Option<int>, d: int): (r: int)
    ensures x.Some? && x.value != 0 ==> r == x.value
    ensures x.None? || x.value == 0 ==> r == d
  {
    if x.Some? && x.value != 0 then x.value else d
  }

  /** `device.deviceId || device.ip` */
  function KeyOf(d: Device): (k: string)
    ensures d.deviceId.Some? && d.deviceId.value != "" ==> k == d.deviceId.value
    ensures d.deviceId.None? || d.deviceId.value == "" ==> k == d.ip
  {
    if d.deviceId.Some? && d.deviceId.value != "" then d.deviceId.value else d.ip
  }

  /** An entry still fresh for lookups at time `now`. */
  predicate Fresh(c: Cached, now: int, timeout: int)
  {
    now - c.cachedAt < timeout
  }

  /** The entries of a cache still fresh at `now`. */
  function FreshPart(cache: map<string, Cached>, now: int, timeout: int): (m: map<string, Cached>)
    ensures forall k :: k in m <==> k in cache && Fresh(cache[k], now, timeout)
    ensures forall k :: k in m ==> m[k] == cache[k]
  {
    map k | k in cache && Fresh(cache[k], now, timeout) :: cache[k]
  }

  /** The success and failure counts after one broadcast: the outcome's
      count goes up and the other down, never below 0. */
  function Counted(success: bool, successes: nat, failures: nat): (c: (nat, nat))
    ensures success ==> c.0 == successes + 1 && c.1 == if failures > 0 then failures - 1 else 0
    ensures !success ==> c.1 == failures + 1 && c.0 == if successes > 0 then successes - 1 else 0
  {
    if success then (successes + 1, if failures > 0 then failures - 1 else 0)
    else (if successes > 0 then successes - 1 else 0, failures + 1)
  }

  /** `updateNetworkQuality()`: graded by the success rate, above 0.8 good,
      above 0.5 fair, else poor; kept when there is no broadcast to count. */
  function QualityFor(successes: nat, failures: nat, current: Quality): (q: Quality)
  {
    var total := successes + failures;
    if total == 0 then current
    else
      var rate := (successes as real) / (total as real);
      if rate > 0.8 then Good else if rate > 0.5 then Fair else Poor
  }

  /** The grades in integer terms: good is more than four successes in
      five, fair more than one in two. */
  lemma QualityThresholds(successes: nat, failures: nat, current: Quality)
    ensures var q, total := QualityFor(successes, failures, current), successes + failures;
      (total == 0 ==> q == current)
      && (total > 0 ==>
            (q == Good <==> 5 * successes > 4 * total)
            && (q == Fair <==> 2 * successes > total && 5 * successes <= 4 * total)
            && (q == Poor <==> 2 * successes <= total))
  {
    var total := successes + failures;
    if total > 0 {
      var s, t := successes as real, total as real;
      RateAbove(s, t, 0.8, 4.0 / 5.0);
      RateAbove(s, t, 0.5, 1.0 / 2.0);
      assert (s / t > 0.8 <==> 5 * successes > 4 * total) by {
        assert s / t > 0.8 <==> s > 0.8 * t;
        assert 0.8 * t == (4.0 * t) / 5.0;
      }
      assert (s / t > 0.5 <==> 2 * successes > total) by {
        assert s / t > 0.5 <==> s > 0.5 * t;
      }
    }
  }

  /** A rate above a threshold is a part above that share of the whole. */
  lemma RateAbove(s: real, t: real, c: real, c': real)
    requires t > 0.0 && c == c'
    ensures s / t > c <==> s > c * t
  {
    assert (s / t) * t == s;
    if s / t > c {
      assert (s / t - c) * t > 0.0;
    } else {
      assert (c - s / t) * t >= 0.0;
    }
  }

  /** `adjustBroadcastInterval()`'s new interval: 1.2 times longer (at most
      `maxInterval`) on a good network with cached devices, 0.8 times (at
      least `minInterval`) on a poor one or with no devices, otherwise the
      same; then rounded. `x * 1.2` and `x * 0.8` are `6x / 5` and `4x / 5`,
      whose halves the rounding never meets. */
  function AdjustedInterval(current: int, quality: Quality, deviceCount: nat, minInterval: int, maxInterval: int): int
  {
    if quality == Good && deviceCount > 0 then
      if 6 * current >= 5 * maxInterval then maxInterval else RoundDiv(6 * current, 5)
    else if quality == Poor || deviceCount == 0 then
      if 4 * current <= 5 * minInterval then minInterval else RoundDiv(4 * current, 5)
    else current
  }

  /** An interval inside the bounds stays inside them. */
  lemma IntervalStaysInBounds(current: int, quality: Quality, deviceCount: nat, minInterval: int, maxInterval: int)
    requires 0 <= minInterval <= current <= maxInterval
    ensures minInterval <= AdjustedInterval(current, quality, deviceCount, minInterval, maxInterval) <= maxInterval
  {
    if quality == Good && deviceCount > 0 && 6 * current < 5 * maxInterval {
      RoundDivBounds(6 * current, 5, maxInterval);
      RoundAtLeast(6 * current, 5, current);
    } else if (quality == Poor || deviceCount == 0) && 4 * current > 5 * minInterval {
      RoundDivBounds(4 * current, 5, current);
      RoundAtLeast(4 * current, 5, minInterval);
    }
  }

  /** A good network with devices never shortens the interval; a poor one
      or an empty cache never lengthens it; a fair one with devices keeps it. */
  lemma IntervalDirection(current: int, quality: Quality, deviceCount: nat, minInterval: int, maxInterval: int)
    requires 0 <= minInterval <= current <= maxInterval
    ensures var r := AdjustedInterval(current, quality, deviceCount, minInterval, maxInterval);
      (quality == Good && deviceCount > 0 ==> current <= r)
      && (quality == Poor || deviceCount == 0 ==> r <= current)
      && (quality == Fair && deviceCount > 0 ==> r == current)
  {
    if quality == Good && deviceCount > 0 && 6 * current < 5 * maxInterval {
      RoundAtLeast(6 * current, 5, current);
    } else if (quality == Poor || deviceCount == 0) && 4 * current > 5 * minInterval {
      RoundDivBounds(4 * current, 5, current);
    }
  }

  /** A quotient of at least `m` rounds to at least `m`. */
  lemma RoundAtLeast(n: int, d: nat, m: int)
    requires d > 0 && m * d <= n
    ensures m <= RoundDiv(n, d)
  {
    var r := RoundDiv(n, d);
    if r < m {
      MulMonotoneInt(2 * d, r + 1, m);
    }
  }

  /** Part way through `getAllCachedDevices`: the keys still `todo`
      are untouched, the stale ones among the rest are gone, and the fresh
      ones are `kept`, listed by `order` with their entries in `devices`. */
  ghost predicate Scan(start: map<string, Cached>, now: int, timeout: int, todo: set<string>, kept: set<string>,
                       order: seq<string>, cache: map<string, Cached>, devices: seq<Cached>)
  {
    todo <= start.Keys && kept <= start.Keys && todo !! kept
    && (forall k :: k in kept ==> Fresh(start[k], now, timeout))
    && cache.Keys == todo + kept
    && (forall k :: k in cache ==> cache[k] == start[k])
    && (forall k :: k in start && k !in todo && Fresh(start[k], now, timeout) ==> k in kept)
    && |devices| == |order| == |kept|
    && (forall i :: 0 <= i < |order| ==> order[i] in kept && devices[i] == start[order[i]])
    && (forall k :: k in kept ==> start[k] in devices)
  }

  lemma ScanStart(start: map<string, Cached>, now: int, timeout: int)
    ensures Scan(start, now, timeout, start.Keys, {}, [], start, [])
  {
  }

  /** A fresh key joins the listing. */
  lemma ScanKeep(start: map<string, Cached>, now: int, timeout: int, todo: set<string>, kept: set<string>,
                 order: seq<string>, cache: map<string, Cached>, devices: seq<Cached>, k: string)
    requires Scan(start, now, timeout, todo, kept, order, cache, devices)
    requires k in todo && Fresh(start[k], now, timeout)
    ensures Scan(start, now, timeout, todo - {k}, kept + {k}, order + [k], cache, devices + [start[k]])
  {
    var order', devices' := order + [k], devices + [start[k]];
    forall i | 0 <= i < |order'|
      ensures order'[i] in kept + {k} && devices'[i] == start[order'[i]]
    {
      if i < |order| {
        assert order'[i] == order[i] && devices'[i] == devices[i];
      }
    }
    forall k' | k' in kept + {k}
      ensures start[k'] in devices'
    {
      if k' != k {
        assert start[k'] in devices;
      } else {
        assert devices'[|devices|] == start[k];
      }
    }
  }

  /** A stale key leaves the cache. */
  lemma ScanDrop(start: map<string, Cached>, now: int, timeout: int, todo: set<string>, kept: set<string>,
                 order: seq<string>, cache: map<string, Cached>, devices: seq<Cached>, k: string)
    requires Scan(start, now, timeout, todo, kept, order, cache, devices)
    requires k in todo && !Fresh(start[k], now, timeout)
    ensures Scan(start, now, timeout, todo - {k}, kept, order, cache - {k}, devices)
  {
  }

  /** With nothing left to do the cache is its fresh part, listed once each. */
  lemma ScanDone(start: map<string, Cached>, now: int, timeout: int, kept: set<string>,
                 order: seq<string>, cache: map<string, Cached>, devices: seq<Cached>)
    requires Scan(start, now, timeout, {}, kept, order, cache, devices)
    ensures cache == FreshPart(start, now, timeout)
    ensures |devices| == |cache.Keys|
    ensures forall i :: 0 <= i < |devices| ==> devices[i] in cache.Values
    ensures forall k :: k in cache ==> cache[k] in devices
  {
    assert cache.Keys == kept;
    forall i | 0 <= i < |devices|
      ensures devices[i] in cache.Values
    {
      assert cache[order[i]] == devices[i];
    }
  }

  /** `shouldBroadcast()` with `Math.random()` as `random`: with cached
      devices on a good network, only when the draw is above 0.3. */
  function ShouldBroadcast(cacheSize: nat, quality: Quality, random: real): (b: bool)
    ensures !b ==> cacheSize > 0 && quality == Good
    ensures cacheSize > 0 && quality == Good ==> (b <==> random > 0.3)
  {
    if cacheSize > 0 && quality == Good then random > 0.3 else true
  }

  class Discovery {
    const minInterval: int
    const maxInterval: int
    var currentInterval: int
    var deviceCache: map<string, Cached>
    const cacheTimeout: int
    var networkQuality: Quality
    var failedBroadcasts: nat
    var successfulBroadcasts: nat
    var stats: DiscoveryStats

    /** `new SmartDiscovery(options)`: 3 s to 30 s, starting at 5 s, with a
        one-minute cache; a good network and no counts. */
    constructor (minOption: Option<int>, maxOption: Option<int>, initialOption: Option<int>, timeoutOption: Option<int>)
      ensures minInterval == OrDefault(minOption, 3000) && maxInterval == OrDefault(maxOption, 30000)
      ensures currentInterval == OrDefault(initialOption, 5000) && cacheTimeout == OrDefault(timeoutOption, 60000)
      ensures deviceCache == map[] && networkQuality == Good && failedBroadcasts == 0 && successfulBroadcasts == 0
      ensures stats == DiscoveryStats(0, 0, 0)
    {
      minInterval := OrDefault(minOption, 3000);
      maxInterval := OrDefault(maxOption, 30000);
      currentInterval := OrDefault(initialOption, 5000);
      deviceCache := map[];
      cacheTimeout := OrDefault(timeoutOption, 60000);
      networkQuality := Good;
      failedBroadcasts, successfulBroadcasts := 0, 0;
      stats := DiscoveryStats(0, 0, 0);
    }

    /** `cacheDevice(device)` at time `now`: stored under its key, cached
        and seen now. */
    method CacheDevice(d: Device, now: int)
      modifies this`deviceCache
      ensures deviceCache == old(deviceCache)[KeyOf(d) := Cached(d, now, now)]
    {
      deviceCache := deviceCache[KeyOf(d) := Cached(d, now, now)];
    }

    /** The expiry timer `cacheDevice` sets, firing at `now`: the entry goes
        only if it has not been seen for longer than the timeout. */
    method CacheExpiryFired(key: string, now: int)
      modifies this`deviceCache
      ensures key in old(deviceCache) && now - old(deviceCache)[key].lastSeen > cacheTimeout ==>
                deviceCache == old(deviceCache) - {key}
      ensures key !in old(deviceCache) || now - old(deviceCache)[key].lastSeen <= cacheTimeout ==>
                deviceCache == old(deviceCache)
    {
      if key in deviceCache && now - deviceCache[key].lastSeen > cacheTimeout {
        deviceCache := deviceCache - {key};
      }
    }

    /** `getCachedDevice(deviceId)` at time `now`: a fresh entry, counted as
        a cached response; a stale one is removed and nothing returned. */
    method GetCachedDevice(id: string, now: int) returns (r: Option<Cached>)
      modifies this`deviceCache, this`stats
      ensures id in old(deviceCache) && Fresh(old(deviceCache)[id], now, cacheTimeout) ==>
                r == Some(old(deviceCache)[id]) && deviceCache == old(deviceCache)
                && stats == old(stats).(cachedResponses := old(stats).cachedResponses + 1)
      ensures id in old(deviceCache) && !Fresh(old(deviceCache)[id], now, cacheTimeout) ==>
                r == None && deviceCache == old(deviceCache) - {id} && stats == old(stats)
      ensures id !in old(deviceCache) ==> r == None && deviceCache == old(deviceCache) && stats == old(stats)
    {
      r := None;
      if id in deviceCache {
        var c := deviceCache[id];
        if now - c.cachedAt < cacheTimeout {
          stats := stats.(cachedResponses := stats.cachedResponses + 1);
          r := Some(c);
        } else {
          deviceCache := deviceCache - {id};
        }
      }
    }

    /** `getAllCachedDevices()` at time `now`: every fresh entry, once each,
        with the stale ones removed from the cache. */
    method GetAllCachedDevices(now: int) returns (devices: seq<Cached>)
      modifies this`deviceCache
      ensures deviceCache == FreshPart(old(deviceCache), now, cacheTimeout)
      ensures |devices| == |deviceCache.Keys|
      ensures forall i :: 0 <= i < |devices| ==> devices[i] in deviceCache.Values
      ensures forall k :: k in deviceCache ==> deviceCache[k] in devices
    {
      ghost var start := deviceCache;
      ghost var kept: set<string> := {};
      ghost var order: seq<string> := [];
      var todo := deviceCache.Keys;
      devices := [];
      ScanStart(start, now, cacheTimeout);
      while todo != {}
        invariant Scan(start, now, cacheTimeout, todo, kept, order, deviceCache, devices)
        decreases |todo|
      {
        var k :| k in todo;
        var c := deviceCache[k];
        if now - c.cachedAt < cacheTimeout {
          ScanKeep(start, now, cacheTimeout, todo, kept, order, deviceCache, devices, k);
          devices, order := devices + [c], order + [k];
          kept := kept + {k};
        } else {
          ScanDrop(start, now, cacheTimeout, todo, kept, order, deviceCache, devices, k);
          deviceCache := deviceCache - {k};
        }
        todo := todo - {k};
      }
      ScanDone(start, now, cacheTimeout, kept, order, deviceCache, devices);
    }

    /** `updateDeviceLastSeen(deviceId)` at time `now`. */
    method UpdateDeviceLastSeen(id: string, now: int)
      modifies this`deviceCache
      ensures id in old(deviceCache) ==> deviceCache == old(deviceCache)[id := old(deviceCache)[id].(lastSeen := now)]
      ensures id !in old(deviceCache) ==> deviceCache == old(deviceCache)
    {
      if id in deviceCache {
        deviceCache := deviceCache[id := deviceCache[id].(lastSeen := now)];
      }
    }

    /** `recordBroadcast(success)`: counted, the network regraded and the
        interval adjusted. */
    method RecordBroadcast(success: bool)
      modifies this`stats, this`successfulBroadcasts, this`failedBroadcasts, this`networkQuality, this`currentInterval
      ensures (successfulBroadcasts, failedBroadcasts) == Counted(success, old(successfulBroadcasts), old(failedBroadcasts))
      ensures networkQuality == QualityFor(successfulBroadcasts, failedBroadcasts, old(networkQuality))
      ensures currentInterval == AdjustedInterval(old(currentInterval), networkQuality, |deviceCache.Keys|, minInterval, maxInterval)
      ensures stats.totalBroadcasts == old(stats).totalBroadcasts + 1
      ensures stats.cachedResponses == old(stats).cachedResponses
      ensures stats.intervalAdjustments == old(stats).intervalAdjustments + if currentInterval != old(currentInterval) then 1 else 0
    {
      stats := stats.(totalBroadcasts := stats.totalBroadcasts + 1);
      if success {
        successfulBroadcasts := successfulBroadcasts + 1;
        failedBroadcasts := if failedBroadcasts > 0 then failedBroadcasts - 1 else 0;
      } else {
        failedBroadcasts := failedBroadcasts + 1;
        successfulBroadcasts := if successfulBroadcasts > 0 then successfulBroadcasts - 1 else 0;
      }
      UpdateNetworkQuality();
      AdjustBroadcastInterval();
    }

    /** `updateNetworkQuality()` */
    method UpdateNetworkQuality()
      modifies this`networkQuality
      ensures networkQuality == QualityFor(successfulBroadcasts, failedBroadcasts, old(networkQuality))
    {
      var total := successfulBroadcasts + failedBroadcasts;
      if total == 0 {
        return;
      }
      var rate := (successfulBroadcasts as real) / (total as real);
      if rate > 0.8 {
        networkQuality := Good;
      } else if rate > 0.5 {
        networkQuality := Fair;
      } else {
        networkQuality := Poor;
      }
    }

    /** `adjustBroadcastInterval()`: a change is counted. */
    method AdjustBroadcastInterval()
      modifies this`currentInterval, this`stats
      ensures currentInterval == AdjustedInterval(old(currentInterval), networkQuality, |deviceCache.Keys|, minInterval, maxInterval)
      ensures stats == old(stats).(intervalAdjustments := old(stats).intervalAdjustments + if currentInterval != old(currentInterval) then 1 else 0)
    {
      var oldInterval := currentInterval;
      var deviceCount := |deviceCache.Keys|;
      if networkQuality == Good && deviceCount > 0 {
        currentInterval := if 6 * currentInterval >= 5 * maxInterval then maxInterval else RoundDiv(6 * currentInterval, 5);
      } else if networkQuality == Poor || deviceCount == 0 {
        currentInterval := if 4 * currentInterval <= 5 * minInterval then minInterval else RoundDiv(4 * currentInterval, 5);
      }
      if oldInterval != currentInterval {
        stats := stats.(intervalAdjustments := stats.intervalAdjustments + 1);
      }
    }

    /** `getBroadcastInterval()` */
    function GetBroadcastInterval(): (i: int)
      reads this
      ensures i == currentInterval
    {
      currentInterval
    }

    /** `getStats()` */
    function GetStats(): (r: Report)
      reads this
      ensures r.stats == stats && r.currentInterval == currentInterval && r.networkQuality == networkQuality
      ensures r.cachedDevices == |deviceCache.Keys|
      ensures r.successfulBroadcasts == successfulBroadcasts && r.failedBroadcasts == failedBroadcasts
    {
      Report(stats, currentInterval, networkQuality, |deviceCache.Keys|, successfulBroadcasts, failedBroadcasts)
    }

    /** `clearCache()` */
    method ClearCache()
      modifies this`deviceCache
      ensures deviceCache == map[]
    {
      deviceCache := map[];
    }

    /** `resetStats()`: the counters only; the grade and the interval stay. */
    method ResetStats()
      modifies this`stats, this`successfulBroadcasts, this`failedBroadcasts
      ensures stats == DiscoveryStats(0, 0, 0) && successfulBroadcasts == 0 && failedBroadcasts == 0
    {
      stats := DiscoveryStats(0, 0, 0);
      successfulBroadcasts, failedBroadcasts := 0, 0;
    }
  }

  /** Broadcasting on keeps an interval inside its bounds: the class's
      interval after `recordBroadcast` from inside `[min, max]`. */
  lemma RecordKeepsBounds(success: bool, successes: nat, failures: nat, quality: Quality,
                          current: int, deviceCount: nat, minInterval: int, maxInterval: int)
    requires 0 <= minInterval <= current <= maxInterval
    ensures var c := Counted(success, successes, failures);
      var q := QualityFor(c.0, c.1, quality);
      minInterval <= AdjustedInterval(current, q, deviceCount, minInterval, maxInterval) <= maxInterval
  {
    var c := Counted(success, successes, failures);
    IntervalStaysInBounds(current, QualityFor(c.0, c.1, quality), deviceCount, minInterval, maxInterval);
  }
}
