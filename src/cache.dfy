/** The backend's in-memory cache (`backend/src/utils/cache-manager.js`):
    a map of entries with expiry times, an access-order list for
    least-recently-used eviction, and hit, miss, set and eviction counters.
    The clock is an input; the one-minute cleanup timer is a flag, with
    `CleanupExpired` the step it runs. */
module Cache {
  import opened Wrappers
  import opened Seqs

  datatype Entry<V> = Entry(value: V, expiresAt: int, createdAt: int)
  datatype Stats = Stats(hits: nat, misses: nat, sets: nat, evictions: nat)

  /** `getStats()`; the hit rate is the exact percentage (the source
      formats it with two decimals and a percent sign). */
  datatype StatsReport = StatsReport(stats: Stats, size: nat, maxSize: nat, hitRate: real)

  /** `x || d` for a numeric option: absent and 0 give the default. */
  function OrDefault(x: Option<nat>, d: nat): nat
  {
    if x.Some? && x.value != 0 then x.value else d
  }

  predicate Expired<V>(e: Entry<V>, now: int) { now > e.expiresAt }

  /** The hit rate in percent: 0 before any lookup. */
  function HitRate(hits: nat, misses: nat): (r: real)
    ensures 0.0 <= r <= 100.0
    ensures hits + misses == 0 ==> r == 0.0
    ensures misses == 0 && hits > 0 ==> r == 100.0
    ensures hits == 0 ==> r == 0.0
  {
    if hits + misses > 0 then
      var total := (hits + misses) as real;
      RatioBounds(hits as real, total);
      (hits as real) / total * 100.0
    else 0.0
  }

  /** A part of a positive whole is a fraction between 0 and 1. */
  lemma RatioBounds(part: real, whole: real)
    requires 0.0 <= part <= whole && whole > 0.0
    ensures 0.0 <= part / whole <= 1.0
    ensures part == whole ==> part / whole == 1.0
  {
    var q := part / whole;
    assert q * whole == part;
  }

  /** Removing the only occurrence of `x` from `a + [x] + b`. */
  lemma RemoveFirstAt<T>(a: seq<T>, x: T, b: seq<T>)
    requires x !in a
    ensures RemoveFirst(a + [x] + b, x) == a + b
  {
    var s := a + [x] + b;
    var k := Find(s, x);
    assert s[|a|] == x;
    assert s[..|a|] == a;
    assert k == |a|;
    assert s[k + 1..] == b;
  }

  /** `order` lists each of `keys` exactly once. */
  ghost predicate OrderOf<K>(order: seq<K>, keys: set<K>)
    decreases |order|
  {
    if order == [] then keys == {} else order[0] in keys && OrderOf(order[1..], keys - {order[0]})
  }

  /** Listing each key once is having no repeats and the same elements. */
  lemma {:induction false} OrderOfIff<K>(order: seq<K>, keys: set<K>)
    ensures OrderOf(order, keys) <==> Distinct(order) && keys == (set k | k in order)
    decreases |order|
  {
    if order != [] {
      var h, t := order[0], order[1..];
      OrderOfIff(t, keys - {h});
      assert (set k | k in order) == {h} + (set k | k in t) by {
        forall k ensures k in order <==> k == h || k in t {
          if k in order && k != h {
            var j :| 0 <= j < |order| && order[j] == k;
            assert t[j - 1] == k;
          }
        }
      }
      assert Distinct(order) <==> h !in t && Distinct(t) by {
        if Distinct(order) {
          forall i, j | 0 <= i < j < |t| ensures t[i] != t[j] {
            assert order[i + 1] != order[j + 1];
          }
          forall j | 0 <= j < |t| ensures t[j] != h {
            assert order[j + 1] != order[0];
          }
        }
        if h !in t && Distinct(t) {
          forall i, j | 0 <= i < j < |order| ensures order[i] != order[j] {
            if i == 0 {
              assert order[j] == t[j - 1];
            } else {
              assert order[i] == t[i - 1] && order[j] == t[j - 1];
            }
          }
        }
      }
    }
  }

  /** The access order lists each cached key exactly once, and there are
      at most `maxSize` entries. */
  ghost predicate Coherent<K(!new), V>(cache: map<K, Entry<V>>, order: seq<K>, maxSize: nat)
  {
    maxSize > 0 && |cache| <= maxSize && OrderOf(order, cache.Keys)
  }

  /** `Coherent` spelt out with quantifiers. */
  ghost predicate CoherentFlat<K(!new), V>(cache: map<K, Entry<V>>, order: seq<K>, maxSize: nat)
  {
    maxSize > 0 && Distinct(order)
    && cache.Keys == (set k | k in order)
    && |cache| <= maxSize
  }

  lemma CoherentIff<K(!new), V>(cache: map<K, Entry<V>>, order: seq<K>, maxSize: nat)
    ensures Coherent(cache, order, maxSize) <==> CoherentFlat(cache, order, maxSize)
  {
    OrderOfIff(order, cache.Keys);
  }

  /** Dropping a key from both keeps them coherent. */
  lemma RemoveKey<K(!new), V>(cache: map<K, Entry<V>>, order: seq<K>, maxSize: nat, key: K)
    requires Coherent(cache, order, maxSize)
    ensures Coherent(cache - {key}, RemoveFirst(order, key), maxSize)
    ensures key !in RemoveFirst(order, key)
  {
    CoherentIff(cache, order, maxSize);
    CoherentIff(cache - {key}, RemoveFirst(order, key), maxSize);
    RemoveFirstDistinct(order, key);
    assert (cache - {key}).Keys == cache.Keys - {key};
  }

  /** Removing a key that is not cached changes neither part. */
  lemma AbsentKey<K(!new), V>(cache: map<K, Entry<V>>, order: seq<K>, maxSize: nat, key: K)
    requires Coherent(cache, order, maxSize) && key !in cache
    ensures key !in order && cache - {key} == cache && RemoveFirst(order, key) == order
  {
    CoherentIff(cache, order, maxSize);
    assert key !in (set k | k in order);
  }

  /** Moving a cached key to the end keeps them coherent. */
  lemma TouchKey<K(!new), V>(cache: map<K, Entry<V>>, order: seq<K>, maxSize: nat, key: K)
    requires Coherent(cache, order, maxSize) && key in cache
    ensures Coherent(cache, RemoveFirst(order, key) + [key], maxSize)
  {
    var o' := RemoveFirst(order, key) + [key];
    CoherentIff(cache, order, maxSize);
    CoherentIff(cache, o', maxSize);
    RemoveFirstDistinct(order, key);
    SnocDistinct(RemoveFirst(order, key), key);
    assert (set k | k in o') == (set k | k in order);
  }

  /** Storing a key that is cached already, or into a cache with room,
      keeps them coherent when the key goes to the end of the order. */
  lemma PutKey<K(!new), V>(cache: map<K, Entry<V>>, order: seq<K>, maxSize: nat, key: K, e: Entry<V>)
    requires Coherent(cache, order, maxSize) && (key in cache || |cache| < maxSize)
    ensures Coherent(cache[key := e], RemoveFirst(order, key) + [key], maxSize)
  {
    var o' := RemoveFirst(order, key) + [key];
    CoherentIff(cache, order, maxSize);
    CoherentIff(cache[key := e], o', maxSize);
    RemoveFirstDistinct(order, key);
    SnocDistinct(RemoveFirst(order, key), key);
    assert cache[key := e].Keys == cache.Keys + {key};
    assert (set k | k in o') == (set k | k in order) + {key};
  }

  /** A full cache has a least recently used key, and evicting it frees
      one place. */
  lemma EvictFirst<K(!new), V>(cache: map<K, Entry<V>>, order: seq<K>, maxSize: nat)
    requires Coherent(cache, order, maxSize) && |cache| >= maxSize
    ensures order != []
    ensures Coherent(cache - {order[0]}, order[1..], maxSize)
    ensures |cache - {order[0]}| == |cache| - 1 < maxSize
  {
    assert cache.Keys != {} by {
      var k :| k in cache;
    }
    assert (cache - {order[0]}).Keys == cache.Keys - {order[0]};
  }

  /** Whether storing `key` evicts: a new key in a full cache, when
      there is a least recently used key to evict. */
  predicate Evicts<K(==), V>(cache: map<K, Entry<V>>, order: seq<K>, maxSize: nat, key: K)
  {
    |cache| >= maxSize && key !in cache && order != []
  }

  /** The structures after `set`'s eviction step. */
  function RoomFor<K(==), V>(cache: map<K, Entry<V>>, order: seq<K>, maxSize: nat, key: K)
    : (map<K, Entry<V>>, seq<K>)
  {
    if Evicts(cache, order, maxSize, key) then (cache - {order[0]}, order[1..]) else (cache, order)
  }

  /** `set`'s effect: evict the least recently used key if `Evicts`, store
      the entry, make the key the most recent. */
  function Put<K(==), V>(cache: map<K, Entry<V>>, order: seq<K>, maxSize: nat, key: K, e: Entry<V>)
    : (map<K, Entry<V>>, seq<K>)
  {
    var (c, o) := RoomFor(cache, order, maxSize, key);
    (c[key := e], RemoveFirst(o, key) + [key])
  }

  /** Storing keeps the structures coherent (the cache never grows past
      `maxSize`), makes the key the most recent and maps it to the new
      entry; other keys keep their entries, and only the least recently
      used one can leave, only when the cache was full. */
  lemma PutCoherent<K(!new), V>(cache: map<K, Entry<V>>, order: seq<K>, maxSize: nat, key: K, e: Entry<V>)
    requires Coherent(cache, order, maxSize)
    ensures var (c, o) := Put(cache, order, maxSize, key, e);
      Coherent(c, o, maxSize) && o[|o| - 1] == key && c[key] == e
      && (forall k :: k in c && k != key ==> k in cache && c[k] == cache[k])
      && (forall k :: k in cache && k !in c ==> Evicts(cache, order, maxSize, key) && k == order[0])
  {
    if Evicts(cache, order, maxSize, key) {
      EvictFirst(cache, order, maxSize);
      PutKey(cache - {order[0]}, order[1..], maxSize, key, e);
    } else {
      if |cache| >= maxSize && key !in cache {
        EvictFirst(cache, order, maxSize);
      }
      PutKey(cache, order, maxSize, key, e);
    }
  }

  /** One step of a sweep along a coherent access order: the next key is
      still cached with its original entry, and is deleted exactly when it
      has expired. */
  lemma SweepStep<K(!new), V>(cache: map<K, Entry<V>>, order: seq<K>, i: nat, now: int, maxSize: nat)
    requires Coherent(cache, order, maxSize) && i < |order|
    ensures order[i] in cache
    ensures var key, cur := order[i], Sweep(cache, order[..i], now);
      key in cur && cur[key] == cache[key]
      && Sweep(cache, order[..i + 1], now) == (if Expired(cache[key], now) then cur - {key} else cur)
  {
    CoherentIff(cache, order, maxSize);
    var key, cur := order[i], Sweep(cache, order[..i], now);
    assert order[..i + 1] == order[..i] + [key];
    assert key !in order[..i] by {
      forall m | 0 <= m < i ensures order[..i][m] != key {
        assert order[m] != order[i];
      }
    }
    assert key in cur && cur[key] == cache[key] by {
      assert key in (set k | k in order);
      SweepRemovesExpired(cache, order[..i], now);
    }
    assert order[..i + 1][..i] == order[..i];
  }

  /** The keys of `keys`, in order, that a sweep at `now` leaves. */
  function Survivors<K(==), V>(cache: map<K, Entry<V>>, keys: seq<K>, now: int): seq<K>
  {
    if keys == [] then []
    else
      var k := keys[|keys| - 1];
      Survivors(cache, keys[..|keys| - 1], now) + if k in cache && Expired(cache[k], now) then [] else [k]
  }

  /** Survivors are among the keys walked. */
  lemma {:induction false} SurvivorsIn<K, V>(cache: map<K, Entry<V>>, keys: seq<K>, now: int, x: K)
    requires x in Survivors(cache, keys, now)
    ensures x in keys
  {
    var init := keys[..|keys| - 1];
    if x in Survivors(cache, init, now) {
      SurvivorsIn(cache, init, now, x);
      assert x in init;
      assert init == keys[..|keys| - 1];
    }
  }

  /** The survivors are the access order filtered by `Survives`. */
  lemma {:induction false} SurvivorsFilter<K(!new), V>(cache: map<K, Entry<V>>, keys: seq<K>, now: int)
    ensures Survivors(cache, keys, now) == Filter(keys, Survives(cache, now))
  {
    if keys != [] {
      var init, k := keys[..|keys| - 1], keys[|keys| - 1];
      SurvivorsFilter(cache, init, now);
      assert keys == init + [k];
      FilterSnoc(init, k, Survives(cache, now));
    }
  }

  /** The same step on the order: a key that is kept stays where it is,
      one that is dropped is removed from the rest of the order. */
  lemma SurvivorsStep<K, V>(cache: map<K, Entry<V>>, order: seq<K>, i: nat, now: int)
    requires Distinct(order) && i < |order|
    ensures var key, done := order[i], Survivors(cache, order[..i], now);
      var dropped := key in cache && Expired(cache[key], now);
      Survivors(cache, order[..i + 1], now) + order[i + 1..]
        == (if dropped then RemoveFirst(done + order[i..], key) else done + order[i..])
      && |Survivors(cache, order[..i + 1], now)| == |done| + if dropped then 0 else 1
  {
    var key, done := order[i], Survivors(cache, order[..i], now);
    assert order[..i + 1][..i] == order[..i];
    assert Survivors(cache, order[..i + 1], now)
           == done + if key in cache && Expired(cache[key], now) then [] else [key];
    SplitAt(order, i);
    if key in cache && Expired(cache[key], now) {
      SurvivorsDropStep(cache, order, i, now);
    } else {
      AppendAssoc(done, [key], order[i + 1..]);
    }
  }

  /** The dropped case: the key is not among the earlier survivors. */
  lemma SurvivorsDropStep<K, V>(cache: map<K, Entry<V>>, order: seq<K>, i: nat, now: int)
    requires Distinct(order) && i < |order|
    ensures var done := Survivors(cache, order[..i], now);
      RemoveFirst(done + ([order[i]] + order[i + 1..]), order[i]) == done + order[i + 1..]
  {
    var key, done := order[i], Survivors(cache, order[..i], now);
    assert key !in done by {
      forall m | 0 <= m < i ensures order[..i][m] != key {
        assert order[m] != order[i];
      }
      if key in done {
        SurvivorsIn(cache, order[..i], now, key);
      }
    }
    RemoveFirstAt(done, key, order[i + 1..]);
    AppendAssoc(done, [key], order[i + 1..]);
  }

  /** The entries still alive at `now`. */
  function Live<K(!new), V>(cache: map<K, Entry<V>>, now: int): (r: map<K, Entry<V>>)
    ensures forall k :: k in r <==> k in cache && !Expired(cache[k], now)
    ensures forall k :: k in r ==> r[k] == cache[k]
  {
    map k | k in cache && !Expired(cache[k], now) :: cache[k]
  }

  /** Whether a key survives a sweep at `now`. */
  function Survives<K(!new), V>(cache: map<K, Entry<V>>, now: int): K -> bool
  {
    (k: K) => !(k in cache && Expired(cache[k], now))
  }

  /** Walking `keys` in order and deleting each that has expired. */
  function Sweep<K(!new), V>(cache: map<K, Entry<V>>, keys: seq<K>, now: int): map<K, Entry<V>>
  {
    if keys == [] then cache
    else
      var c := Sweep(cache, keys[..|keys| - 1], now);
      var k := keys[|keys| - 1];
      if k in c && Expired(c[k], now) then c - {k} else c
  }

  /** A sweep removes exactly the expired entries among the keys walked;
      walking every key leaves the live entries. */
  lemma {:induction false} SweepRemovesExpired<K(!new), V>(cache: map<K, Entry<V>>, keys: seq<K>, now: int)
    ensures var c := Sweep(cache, keys, now);
      forall k :: (k in c <==> k in cache && (k !in keys || !Expired(cache[k], now)))
                  && (k in c ==> c[k] == cache[k])
    ensures (forall k :: k in cache ==> k in keys) ==> Sweep(cache, keys, now) == Live(cache, now)
  {
    if keys != [] {
      var init := keys[..|keys| - 1];
      SweepRemovesExpired(cache, init, now);
      assert keys == init + [keys[|keys| - 1]];
    }
    var c := Sweep(cache, keys, now);
    if forall k :: k in cache ==> k in keys {
      assert c.Keys == Live(cache, now).Keys;
    }
  }

  /** The pair `(c, o)` is what sweeping the first `i` keys of `order` out
      of `start` leaves, and it is coherent. */
  ghost predicate SweptTo<K(!new), V>(start: map<K, Entry<V>>, order: seq<K>, i: nat, now: int, maxSize: nat,
                                      c: map<K, Entry<V>>, o: seq<K>)
  {
    i <= |order|
    && Coherent(c, o, maxSize)
    && o == Survivors(start, order[..i], now) + order[i..]
    && c == Sweep(start, order[..i], now)
  }

  /** One key of the sweep on plain values: dropping the `i`-th key from
      both parts when it has expired takes the state after `i` keys to the
      state after `i + 1`. */
  lemma CleanupStep<K(!new), V>(start: map<K, Entry<V>>, order: seq<K>, i: nat, now: int, maxSize: nat,
                                c: map<K, Entry<V>>, o: seq<K>)
    returns (c': map<K, Entry<V>>, o': seq<K>)
    requires Coherent(start, order, maxSize) && i < |order|
    requires SweptTo(start, order, i, now, maxSize, c, o)
    ensures order[i] in start
    ensures order[i] in c && c[order[i]] == start[order[i]]
    ensures c' == (if Expired(start[order[i]], now) then c - {order[i]} else c)
    ensures o' == (if Expired(start[order[i]], now) then RemoveFirst(o, order[i]) else o)
    ensures SweptTo(start, order, i + 1, now, maxSize, c', o')
    ensures |Survivors(start, order[..i + 1], now)|
            == |Survivors(start, order[..i], now)| + if Expired(start[order[i]], now) then 0 else 1
  {
    var key := order[i];
    CoherentIff(start, order, maxSize);
    SweepStep(start, order, i, now, maxSize);
    SurvivorsStep(start, order, i, now);
    RemoveKey(c, o, maxSize, key);
    c', o' := (if Expired(start[key], now) then c - {key} else c), (if Expired(start[key], now) then RemoveFirst(o, key) else o);
  }

  /** `cleanupExpired()`'s treatment of one key: an expired entry leaves
      both the map and the order. */
  function SweepKey<K(!new), V>(st: (map<K, Entry<V>>, seq<K>), key: K, now: int): (map<K, Entry<V>>, seq<K>)
  {
    if key in st.0 && Expired(st.0[key], now) then (st.0 - {key}, RemoveFirst(st.1, key)) else st
  }

  /** The map and order once `cleanupExpired()` has visited the first `i`
      keys of `order`. */
  function SweepState<K(!new), V>(start: map<K, Entry<V>>, order: seq<K>, i: nat, now: int): (map<K, Entry<V>>, seq<K>)
    requires i <= |order|
  {
    if i == 0 then (start, order) else SweepKey(SweepState(start, order, i - 1, now), order[i - 1], now)
  }

  /** Visiting keys one by one is sweeping them: the order keeps the
      survivors of the visited keys ahead of the unvisited ones. */
  lemma {:induction false} SweepStateIs<K(!new), V>(start: map<K, Entry<V>>, order: seq<K>, i: nat, now: int, maxSize: nat)
    requires Coherent(start, order, maxSize) && i <= |order|
    ensures SweptTo(start, order, i, now, maxSize, SweepState(start, order, i, now).0, SweepState(start, order, i, now).1)
  {
    if i == 0 {
      assert order[..0] == [];
    } else {
      SweepStateIs(start, order, i - 1, now, maxSize);
      var st := SweepState(start, order, i - 1, now);
      var c', o' := CleanupStep(start, order, i - 1, now, maxSize, st.0, st.1);
    }
  }

  /** The key visited next is still in the map and in the order. */
  lemma SweepKeyPresent<K(!new), V>(start: map<K, Entry<V>>, order: seq<K>, i: nat, now: int, maxSize: nat)
    requires Coherent(start, order, maxSize) && i < |order|
    ensures order[i] in SweepState(start, order, i, now).0 && order[i] in SweepState(start, order, i, now).1
  {
    CoherentIff(SweepState(start, order, i, now).0, SweepState(start, order, i, now).1, maxSize);
    var st := SweepState(start, order, i, now);
    SweepStateIs(start, order, i, now, maxSize);
    var c', o' := CleanupStep(start, order, i, now, maxSize, st.0, st.1);
    assert order[i] in st.0.Keys;
  }

  /** After every key: the live entries, the surviving keys in their old
      order, still coherent. */
  lemma SweepStateEnd<K(!new), V>(start: map<K, Entry<V>>, order: seq<K>, now: int, maxSize: nat)
    requires Coherent(start, order, maxSize)
    ensures var st := SweepState(start, order, |order|, now);
      Coherent(st.0, st.1, maxSize) && st.0 == Live(start, now) && st.1 == Filter(order, Survives(start, now))
  {
    CoherentIff(start, order, maxSize);
    SweepStateIs(start, order, |order|, now, maxSize);
    assert order[..|order|] == order;
    assert forall k :: k in start ==> k in (set k | k in order);
    SweepRemovesExpired(start, order, now);
    SurvivorsFilter(start, order, now);
  }

  class CacheManager<K(==, !new), V> {
    var maxSize: nat
    var defaultTTL: nat
    var cache: map<K, Entry<V>>
    /** Keys, least recently used first */
    var accessOrder: seq<K>
    var stats: Stats
    /** Whether the cleanup interval is set */
    var cleanupRunning: bool

    ghost predicate Valid()
      reads this
    {
      Coherent(cache, accessOrder, maxSize)
    }

    /** `new CacheManager(options)`: at most 1000 entries, 5 minutes to
        live, unless the options say otherwise. */
    constructor (maxSizeOption: Option<nat>, defaultTTLOption: Option<nat>)
      ensures Valid() && cache == map[] && accessOrder == [] && stats == Stats(0, 0, 0, 0) && cleanupRunning
      ensures maxSize == OrDefault(maxSizeOption, 1000) && defaultTTL == OrDefault(defaultTTLOption, 300000)
    {
      maxSize := OrDefault(maxSizeOption, 1000);
      defaultTTL := OrDefault(defaultTTLOption, 300000);
      cache, accessOrder := map[], [];
      stats := Stats(0, 0, 0, 0);
      cleanupRunning := true;
    }

    /** `set(key, value, ttl)`: `Put` on the two structures; an eviction
        is counted, one set always. */
    method Set(key: K, value: V, ttl: Option<int>, now: int)
      requires Valid()
      modifies this`cache, this`accessOrder, this`stats
      ensures Valid()
      ensures var e := Entry(value, now + ttl.GetOr(defaultTTL), now);
        cache == Put(old(cache), old(accessOrder), maxSize, key, e).0
        && accessOrder == Put(old(cache), old(accessOrder), maxSize, key, e).1
      ensures stats == old(stats).(sets := old(stats).sets + 1,
                                   evictions := old(stats).evictions
                                                + if Evicts(old(cache), old(accessOrder), maxSize, key) then 1 else 0)
    {
      var e := Entry(value, now + ttl.GetOr(defaultTTL), now);
      ghost var after := Put(cache, accessOrder, maxSize, key, e);
      assert Coherent(after.0, after.1, maxSize) by {
        PutCoherent(cache, accessOrder, maxSize, key, e);
      }
      MakeRoom(key);
      cache := cache[key := e];
      UpdateAccessOrder(key);
      stats := stats.(sets := stats.sets + 1);
      assert (cache, accessOrder) == after;
    }

    /** The eviction step at the start of `set`. */
    method MakeRoom(key: K)
      modifies this`cache, this`accessOrder, this`stats
      ensures (cache, accessOrder) == RoomFor(old(cache), old(accessOrder), maxSize, key)
      ensures stats == old(stats).(evictions := old(stats).evictions
                                                + if Evicts(old(cache), old(accessOrder), maxSize, key) then 1 else 0)
    {
      if |cache| >= maxSize && key !in cache {
        EvictLRU();
      }
    }

    /** `get(key)`: a miss or an expired entry (which is removed) counts a
        miss and gives nothing; a hit counts, makes the key the most
        recent, and gives the value. */
    method Get(key: K, now: int) returns (r: Option<V>)
      requires Valid()
      modifies this`cache, this`accessOrder, this`stats
      ensures Valid()
      ensures r.Some? <==> key in old(cache) && !Expired(old(cache)[key], now)
      ensures r.Some? ==> r.value == old(cache)[key].value && cache == old(cache)
                          && accessOrder == RemoveFirst(old(accessOrder), key) + [key]
                          && stats == old(stats).(hits := old(stats).hits + 1)
      ensures r.None? ==> cache == old(cache) - {key} && accessOrder == RemoveFirst(old(accessOrder), key)
                          && stats == old(stats).(misses := old(stats).misses + 1)
    {
      ghost var c, o := cache, accessOrder;
      if key !in cache {
        AbsentKey(c, o, maxSize, key);
        stats := stats.(misses := stats.misses + 1);
        return None;
      }
      var item := cache[key];
      if now > item.expiresAt {
        RemoveKey(c, o, maxSize, key);
        cache := cache - {key};
        RemoveFromAccessOrder(key);
        stats := stats.(misses := stats.misses + 1);
        return None;
      }
      TouchKey(c, o, maxSize, key);
      UpdateAccessOrder(key);
      stats := stats.(hits := stats.hits + 1);
      return Some(item.value);
    }

    /** `has(key)`: false for a missing key and for an expired one, which
        is removed; the access order is not touched otherwise. */
    method Has(key: K, now: int) returns (b: bool)
      requires Valid()
      modifies this`cache, this`accessOrder
      ensures Valid()
      ensures b <==> key in old(cache) && !Expired(old(cache)[key], now)
      ensures b ==> cache == old(cache) && accessOrder == old(accessOrder)
      ensures !b ==> cache == old(cache) - {key} && accessOrder == RemoveFirst(old(accessOrder), key)
    {
      ghost var c, o := cache, accessOrder;
      if key !in cache {
        AbsentKey(c, o, maxSize, key);
        return false;
      }
      if now > cache[key].expiresAt {
        RemoveKey(c, o, maxSize, key);
        cache := cache - {key};
        RemoveFromAccessOrder(key);
        return false;
      }
      return true;
    }

    /** `delete(key)`: removed from both structures; true when it was there. */
    method Delete(key: K) returns (deleted: bool)
      requires Valid()
      modifies this`cache, this`accessOrder
      ensures Valid()
      ensures deleted <==> key in old(cache)
      ensures cache == old(cache) - {key} && accessOrder == RemoveFirst(old(accessOrder), key)
      ensures key !in cache && key !in accessOrder
    {
      ghost var c, o := cache, accessOrder;
      deleted := key in cache;
      if deleted {
        RemoveKey(c, o, maxSize, key);
        cache := cache - {key};
        RemoveFromAccessOrder(key);
      } else {
        AbsentKey(c, o, maxSize, key);
      }
    }

    /** `clear()` */
    method Clear()
      requires Valid()
      modifies this`cache, this`accessOrder
      ensures Valid() && cache == map[] && accessOrder == []
    {
      cache := map[];
      accessOrder := [];
    }

    /** `updateAccessOrder(key)`: the key moves to the end. */
    method UpdateAccessOrder(key: K)
      modifies this`accessOrder
      ensures accessOrder == RemoveFirst(old(accessOrder), key) + [key]
    {
      RemoveFromAccessOrder(key);
      accessOrder := accessOrder + [key];
    }

    /** `removeFromAccessOrder(key)`: the first occurrence removed. */
    method RemoveFromAccessOrder(key: K)
      modifies this`accessOrder
      ensures accessOrder == RemoveFirst(old(accessOrder), key)
    {
      var index := Find(accessOrder, key);
      if index > -1 {
        accessOrder := accessOrder[..index] + accessOrder[index + 1..];
      }
    }

    /** `evictLRU()`: the least recently used key leaves both structures
        and the eviction is counted; nothing happens on an empty order. */
    method EvictLRU()
      modifies this`cache, this`accessOrder, this`stats
      ensures old(accessOrder) == [] ==> cache == old(cache) && accessOrder == [] && stats == old(stats)
      ensures old(accessOrder) != [] ==>
                cache == old(cache) - {old(accessOrder)[0]} && accessOrder == old(accessOrder)[1..]
                && stats == old(stats).(evictions := old(stats).evictions + 1)
    {
      if |accessOrder| == 0 {
        return;
      }
      var lruKey := accessOrder[0];
      cache := cache - {lruKey};
      accessOrder := accessOrder[1..];
      stats := stats.(evictions := stats.evictions + 1);
    }

    /** `startCleanup()` */
    method StartCleanup()
      modifies this`cleanupRunning
      ensures cleanupRunning
    {
      cleanupRunning := true;
    }

    /** `stopCleanup()` */
    method StopCleanup()
      modifies this`cleanupRunning
      ensures !cleanupRunning
    {
      cleanupRunning := false;
    }

    /** `cleanupExpired()`: exactly the entries expired at `now` leave both
        structures; returns how many. The source walks the map in its own
        order; the keys being those of the access order, this walks that
        order, which removes the same entries. */
    method CleanupExpired(now: int) returns (cleaned: nat)
      requires Valid()
      modifies this`cache, this`accessOrder
      ensures Valid()
      ensures cache == Live(old(cache), now)
      ensures accessOrder == Filter(old(accessOrder), Survives(old(cache), now))
      ensures cleaned == |old(accessOrder)| - |accessOrder|
    {
      ghost var c0 := cache;
      var snapshot := accessOrder;
      cleaned := 0;
      for i := 0 to |snapshot|
        invariant (cache, accessOrder) == SweepState(c0, snapshot, i, now)
        invariant cleaned + |accessOrder| == |snapshot|
      {
        var key := snapshot[i];
        assert key in cache && key in accessOrder by {
          SweepKeyPresent(c0, snapshot, i, now, maxSize);
        }
        var removed := CleanupEntry(key, now);
        if removed {
          cleaned := cleaned + 1;
        }
      }
      SweepStateEnd(c0, snapshot, now, maxSize);
    }

    /** The body of `cleanupExpired()`'s loop for one cached key: an expired
        entry leaves both structures. */
    method CleanupEntry(key: K, now: int) returns (removed: bool)
      requires key in cache
      modifies this`cache, this`accessOrder
      ensures removed == Expired(old(cache)[key], now)
      ensures cache == if removed then old(cache) - {key} else old(cache)
      ensures accessOrder == if removed then RemoveFirst(old(accessOrder), key) else old(accessOrder)
    {
      removed := now > cache[key].expiresAt;
      if removed {
        cache := cache - {key};
        RemoveFromAccessOrder(key);
      }
    }

    /** `getStats()` */
    function GetStats(): (r: StatsReport)
      reads this
      ensures r.stats == stats && r.size == |cache| && r.maxSize == maxSize
      ensures r.hitRate == HitRate(stats.hits, stats.misses) && 0.0 <= r.hitRate <= 100.0
    {
      StatsReport(stats, |cache|, maxSize, HitRate(stats.hits, stats.misses))
    }

    /** `resetStats()` */
    method ResetStats()
      modifies this`stats
      ensures stats == Stats(0, 0, 0, 0)
    {
      stats := Stats(0, 0, 0, 0);
    }

    /** `destroy()` */
    method Destroy()
      requires Valid()
      modifies this`cache, this`accessOrder, this`cleanupRunning
      ensures Valid() && cache == map[] && accessOrder == [] && !cleanupRunning
    {
      StopCleanup();
      Clear();
    }
  }
}
