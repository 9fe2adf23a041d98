/** The browser log service (`frontend/services/LogService.js`): level-gated
    records kept in an in-memory cache, events for every kept record, the
    `getLogs` query (filter, sort by time, paginate), error normalisation,
    performance tracking, statistics, and the start-up that restores stored
    logs and reads the network status. Clocks, what storage holds and the
    browser's online flag are inputs; storage writes, console output,
    timers and the listeners themselves are left out. */
module LogService {
  import opened Wrappers
  import opened Text
  import opened Seqs
  import opened Sorting

  // LOG_LEVELS
  const TRACE := 0
  const DEBUG := 1
  const INFO := 2
  const WARN := 3
  const ERROR := 4
  const FATAL := 5

  /** `LEVEL_NAMES[level]`, `undefined` outside 0..5. */
  function LevelName(level: int): (name: Option<string>)
    ensures name.Some? <==> TRACE <= level <= FATAL
  {
    if level == TRACE then Some("TRACE")
    else if level == DEBUG then Some("DEBUG")
    else if level == INFO then Some("INFO")
    else if level == WARN then Some("WARN")
    else if level == ERROR then Some("ERROR")
    else if level == FATAL then Some("FATAL")
    else None
  }

  /** The key of `LOG_LEVELS` equal to `name`, if any. */
  function LevelOfName(name: string): (level: Option<int>)
    ensures level.Some? ==> TRACE <= level.value <= FATAL && LevelName(level.value) == Some(name)
    ensures level.None? ==> forall l :: LevelName(l) != Some(name)
  {
    if name == "TRACE" then Some(TRACE)
    else if name == "DEBUG" then Some(DEBUG)
    else if name == "INFO" then Some(INFO)
    else if name == "WARN" then Some(WARN)
    else if name == "ERROR" then Some(ERROR)
    else if name == "FATAL" then Some(FATAL)
    else None
  }

  // LOG_CATEGORIES
  const SYSTEM := "system"
  const CATEGORIES: set<string> := {"system", "websocket", "device_discovery", "file_transfer",
                                    "remote_control", "screen_share", "ui", "network", "storage", "custom"}

  /** The values that appear in a record's `data` object. `ErrorObject` is an
      instance of `Error`; `ErrorInfo` is the plain `{message, stack, name}`
      object `error`/`fatal` put in its place. */
  datatype Value = Str(s: string) | Num(n: int)
                 | ErrorObject(message: string, stack: string, name: string)
                 | ErrorInfo(message: string, stack: string, name: string)

  type Data = map<string, Value>

  /** The `category` argument. Most calls pass a category name; `setLevel`
      and the constructor pass their data object in that position, so the
      record's category is that object. */
  datatype Category = Named(name: string) | Structured(fields: Data)

  /** A log object; `id`, `formattedTimestamp` and the browser `context` are
      left out. */
  datatype LogRecord = LogRecord(timestamp: int, level: int, levelName: Option<string>,
                                 category: Category, message: string, data: Data)

  function MakeRecord(now: int, level: int, category: Category, message: string, data: Data): (r: LogRecord)
    ensures r.timestamp == now && r.level == level && r.category == category
    ensures r.message == message && r.data == data
    ensures r.levelName.Some? <==> TRACE <= level <= FATAL
  {
    LogRecord(now, level, LevelName(level), category, message, data)
  }

  /** An `emit` call: 'log' or 'error' with a record, or
      'networkStatusChanged' with the new status. */
  datatype Event = LogEvent(record: LogRecord) | ErrorEvent(record: LogRecord)
                 | NetworkStatusChanged(status: string)

  /** The events `log` emits for a kept record: 'log', then 'error' from ERROR up. */
  function Emitted(r: LogRecord): (es: seq<Event>)
    ensures |es| >= 1 && es[0] == LogEvent(r)
    ensures |es| == 2 <==> r.level >= ERROR
    ensures |es| == 2 ==> es[1] == ErrorEvent(r)
  {
    [LogEvent(r)] + (if r.level >= ERROR then [ErrorEvent(r)] else [])
  }

  /** The data `error` and `fatal` log: an `Error` under `error` becomes the
      plain object of its message, stack and name; nothing else changes. */
  function NormalizeErrorData(data: Data): (r: Data)
    ensures r.Keys == data.Keys
    ensures forall k :: k in data && k != "error" ==> r[k] == data[k]
    ensures "error" in r ==> !r["error"].ErrorObject?
    ensures "error" in data && data["error"].ErrorObject? ==>
      r["error"] == ErrorInfo(data["error"].message, data["error"].stack, data["error"].name)
    ensures "error" in data && !data["error"].ErrorObject? ==> r["error"] == data["error"]
  {
    if "error" in data && data["error"].ErrorObject? then
      var e := data["error"];
      data["error" := ErrorInfo(e.message, e.stack, e.name)]
    else data
  }

  /** Normalising twice is normalising once. */
  lemma NormalizeIdempotent(data: Data)
    ensures NormalizeErrorData(NormalizeErrorData(data)) == NormalizeErrorData(data)
  {
  }

  /** The argument of `setLevel`: a string, a number, or any other value. */
  datatype LevelArg = LevelString(name: string) | LevelNumber(n: int) | LevelOther

  /** The level `setLevel` accepts: a name matched after upper-casing, or a
      number in 0..5; `None` means the argument is rejected. */
  function ParseLevel(arg: LevelArg): (r: Option<int>)
    ensures r.Some? ==> TRACE <= r.value <= FATAL
    ensures arg.LevelNumber? ==> (r.Some? <==> TRACE <= arg.n <= FATAL)
    ensures arg.LevelNumber? && r.Some? ==> r.value == arg.n
    ensures arg.LevelString? ==> r == LevelOfName(ToUpper(arg.name))
    ensures arg.LevelOther? ==> r.None?
  {
    match arg
    case LevelString(name) => LevelOfName(ToUpper(name))
    case LevelNumber(n) => if TRACE <= n <= FATAL then Some(n) else None
    case LevelOther => None
  }

  /** Level names are accepted in any letter case. */
  lemma ParseLevelCaseInsensitive(level: int)
    requires TRACE <= level <= FATAL
    ensures ParseLevel(LevelString(LevelName(level).value)) == Some(level)
    ensures ParseLevel(LevelString(ToLower(LevelName(level).value))) == Some(level)
  {
    var name := LevelName(level).value;
    LevelNameUpper(level);
    UpperOfLower(name);
    LevelNameRoundTrip(level);
  }

  /** Each level's name names that level. */
  lemma LevelNameRoundTrip(level: int)
    requires TRACE <= level <= FATAL
    ensures LevelOfName(LevelName(level).value) == Some(level)
  {
  }

  /** Level names are upper-case words. */
  lemma LevelNameUpper(level: int)
    requires TRACE <= level <= FATAL
    ensures IsUpperWord(LevelName(level).value)
  {
    var name := LevelName(level).value;
    if level == TRACE { assert name == "TRACE"; }
    else if level == DEBUG { assert name == "DEBUG"; }
    else if level == INFO { assert name == "INFO"; }
    else if level == WARN { assert name == "WARN"; }
    else if level == ERROR { assert name == "ERROR"; }
    else { assert name == "FATAL"; }
  }

  /** The value of `{ level }` in `setLevel`'s data object. */
  function ArgValue(arg: LevelArg): Value
  {
    match arg
    case LevelString(name) => Str(name)
    case LevelNumber(n) => Num(n)
    case LevelOther => Str("")
  }

  /** Of a run of records, those a service at `currentLevel` keeps. */
  function Kept(currentLevel: int, rs: seq<LogRecord>): (r: seq<LogRecord>)
    ensures forall i :: 0 <= i < |r| ==> r[i] in rs && r[i].level >= currentLevel
    ensures forall i :: 0 <= i < |rs| && rs[i].level >= currentLevel ==> rs[i] in r
  {
    if rs == [] then [] else (if rs[0].level >= currentLevel then [rs[0]] else []) + Kept(currentLevel, rs[1..])
  }

  lemma KeptSingle(currentLevel: int, r: LogRecord)
    ensures Kept(currentLevel, [r]) == if r.level >= currentLevel then [r] else []
  {
    assert [r][1..] == [];
  }

  lemma {:induction false} KeptConcat(currentLevel: int, a: seq<LogRecord>, b: seq<LogRecord>)
    ensures Kept(currentLevel, a + b) == Kept(currentLevel, a) + Kept(currentLevel, b)
  {
    if a == [] {
      assert a + b == b;
    } else {
      assert (a + b)[0] == a[0] && (a + b)[1..] == a[1..] + b;
      KeptConcat(currentLevel, a[1..], b);
    }
  }

  /** A run of records at or above the level is kept whole. */
  lemma {:induction false} AllKept(currentLevel: int, rs: seq<LogRecord>)
    requires forall i :: 0 <= i < |rs| ==> rs[i].level >= currentLevel
    ensures Kept(currentLevel, rs) == rs
  {
    if rs != [] {
      AllKept(currentLevel, rs[1..]);
    }
  }

  lemma EmittedOne(r: LogRecord)
    ensures EmittedAll([r]) == Emitted(r)
  {
    assert [r][1..] == [];
  }

  /** The filters `getLogs` understands. A falsy JavaScript value is written
      here as "" or 0: such a filter is not applied (so a start or end time
      of 0 is ignored), and an empty `sortBy` sorts by timestamp. */
  datatype Filters = Filters(level: Option<int>, category: string, search: string,
                             startTime: int, endTime: int, sortBy: string, sortOrder: string,
                             limit: nat, offset: nat)

  const NoFilters := Filters(None, "", "", 0, 0, "", "", 0, 0)

  /** The search filter: the lower-cased query occurs in the lower-cased
      message or in the lower-cased JSON text of the data. */
  predicate MatchesSearch(rec: LogRecord, search: string, json: Data -> string)
  {
    Contains(ToLower(rec.message), ToLower(search)) || Contains(ToLower(json(rec.data)), ToLower(search))
  }

  /** A record passes every filter that is applied. */
  predicate Passes(f: Filters, json: Data -> string, rec: LogRecord)
  {
    (f.level.None? || rec.level >= f.level.value)
    && (f.category == "" || rec.category == Named(f.category))
    && (f.search == "" || MatchesSearch(rec, f.search, json))
    && (f.startTime == 0 || rec.timestamp >= f.startTime)
    && (f.endTime == 0 || rec.timestamp <= f.endTime)
  }

  /** The records of `cache` that pass the filters, in cache order. */
  function Selected(cache: seq<LogRecord>, f: Filters, json: Data -> string): (r: seq<LogRecord>)
    ensures forall i :: 0 <= i < |r| ==> r[i] in cache && Passes(f, json, r[i])
    ensures forall i :: 0 <= i < |cache| && Passes(f, json, cache[i]) ==> cache[i] in r
  {
    Filter(cache, (rec: LogRecord) => Passes(f, json, rec))
  }

  predicate SortApplies(f: Filters)
  {
    f.sortBy == "timestamp" || f.sortBy == ""
  }

  /** The passing records in `getLogs`' order: sorted by timestamp (stably,
      descending unless 'asc') when sorting applies, cache order otherwise. */
  function OrderedSelection(cache: seq<LogRecord>, f: Filters, json: Data -> string): (r: seq<LogRecord>)
    ensures multiset(r) == multiset(Selected(cache, f, json))
    ensures SortApplies(f) ==> SortedBy(r, Timestamp, f.sortOrder != "asc")
    ensures !SortApplies(f) ==> r == Selected(cache, f, json)
  {
    if SortApplies(f) then SortBy(Selected(cache, f, json), Timestamp, f.sortOrder != "asc")
    else Selected(cache, f, json)
  }

  /** What the page `getLogs` returns holds: passing cache records, in
      timestamp order when sorting applies, all of them without a limit. */
  lemma PageOfLogs(cache: seq<LogRecord>, f: Filters, json: Data -> string, r: seq<LogRecord>)
    requires f.limit > 0 ==> r == JsSlice(OrderedSelection(cache, f, json), f.offset, f.offset + f.limit)
    requires f.limit == 0 ==> r == OrderedSelection(cache, f, json)
    ensures forall i :: 0 <= i < |r| ==> r[i] in cache && Passes(f, json, r[i])
    ensures SortApplies(f) ==> SortedBy(r, Timestamp, f.sortOrder != "asc")
    ensures !SortApplies(f) && f.limit == 0 ==> r == Selected(cache, f, json)
    ensures f.limit == 0 ==> multiset(r) == multiset(Selected(cache, f, json))
    ensures f.limit == 0 ==> forall i :: 0 <= i < |cache| && Passes(f, json, cache[i]) ==> cache[i] in r
    ensures f.limit > 0 ==> |r| <= f.limit
  {
    var sel := Selected(cache, f, json);
    var sorted := OrderedSelection(cache, f, json);
    assert AllPass(sel, cache, f, json);
    assert AllPass(sorted, cache, f, json) by {
      if SortApplies(f) {
        SortKeepsPassing(sel, cache, f, json);
      }
    }
    if f.limit > 0 {
      SliceKeepsPassing(sorted, cache, f, json, f.offset, f.offset + f.limit);
      if SortApplies(f) {
        SliceKeepsSorted(sorted, f.offset, f.offset + f.limit, f.sortOrder != "asc");
      }
    } else {
      SameMembers(sel, r);
    }
  }

  // the separate conditions of `getLogs`' filter phase
  function ByLevel(min: int): LogRecord -> bool { (rec: LogRecord) => rec.level >= min }
  function ByCategory(c: string): LogRecord -> bool { (rec: LogRecord) => rec.category == Named(c) }
  function BySearch(q: string, json: Data -> string): LogRecord -> bool { (rec: LogRecord) => MatchesSearch(rec, q, json) }
  function ByStart(t: int): LogRecord -> bool { (rec: LogRecord) => rec.timestamp >= t }
  function ByEnd(t: int): LogRecord -> bool { (rec: LogRecord) => rec.timestamp <= t }

  /** One `filter`, applied only when its option is set. */
  function Stage(s: seq<LogRecord>, applied: bool, p: LogRecord -> bool): seq<LogRecord>
  {
    if applied then Filter(s, p) else s
  }

  // the conjunction of the first one, two, three and four conditions
  function Upto1(f: Filters): LogRecord -> bool
  {
    (rec: LogRecord) => f.level.None? || rec.level >= f.level.value
  }
  function Upto2(f: Filters): LogRecord -> bool
  {
    (rec: LogRecord) => Upto1(f)(rec) && (f.category == "" || rec.category == Named(f.category))
  }
  function Upto3(f: Filters, json: Data -> string): LogRecord -> bool
  {
    (rec: LogRecord) => Upto2(f)(rec) && (f.search == "" || MatchesSearch(rec, f.search, json))
  }
  function Upto4(f: Filters, json: Data -> string): LogRecord -> bool
  {
    (rec: LogRecord) => Upto3(f, json)(rec) && (f.startTime == 0 || rec.timestamp >= f.startTime)
  }

  lemma Staged1(cache: seq<LogRecord>, f: Filters)
    ensures Stage(cache, f.level.Some?, ByLevel(f.level.GetOr(0))) == Filter(cache, Upto1(f))
  {
    var p0 := (rec: LogRecord) => true;
    FilterAll(cache, p0);
    FilterThen(cache, p0, ByLevel(f.level.GetOr(0)), f.level.Some?, Upto1(f));
  }

  lemma Staged2(cache: seq<LogRecord>, f: Filters)
    ensures Stage(Filter(cache, Upto1(f)), f.category != "", ByCategory(f.category)) == Filter(cache, Upto2(f))
  {
    FilterThen(cache, Upto1(f), ByCategory(f.category), f.category != "", Upto2(f));
  }

  lemma Staged3(cache: seq<LogRecord>, f: Filters, json: Data -> string)
    ensures Stage(Filter(cache, Upto2(f)), f.search != "", BySearch(f.search, json)) == Filter(cache, Upto3(f, json))
  {
    FilterThen(cache, Upto2(f), BySearch(f.search, json), f.search != "", Upto3(f, json));
  }

  lemma Staged4(cache: seq<LogRecord>, f: Filters, json: Data -> string)
    ensures Stage(Filter(cache, Upto3(f, json)), f.startTime != 0, ByStart(f.startTime)) == Filter(cache, Upto4(f, json))
  {
    FilterThen(cache, Upto3(f, json), ByStart(f.startTime), f.startTime != 0, Upto4(f, json));
  }

  lemma Staged5(cache: seq<LogRecord>, f: Filters, json: Data -> string)
    ensures Stage(Filter(cache, Upto4(f, json)), f.endTime != 0, ByEnd(f.endTime)) == Selected(cache, f, json)
  {
    var passes := (rec: LogRecord) => Passes(f, json, rec);
    forall rec: LogRecord
      ensures passes(rec) == (Upto4(f, json)(rec) && (f.endTime == 0 || ByEnd(f.endTime)(rec)))
    {
      assert Upto4(f, json)(rec) == (Upto3(f, json)(rec) && (f.startTime == 0 || rec.timestamp >= f.startTime));
      assert Upto3(f, json)(rec) == (Upto2(f)(rec) && (f.search == "" || MatchesSearch(rec, f.search, json)));
      assert Upto2(f)(rec) == (Upto1(f)(rec) && (f.category == "" || rec.category == Named(f.category)));
    }
    FilterThen(cache, Upto4(f, json), ByEnd(f.endTime), f.endTime != 0, passes);
  }

  /** Applying each set condition in turn selects the records that pass
      them all. */
  lemma StagedIsSelected(cache: seq<LogRecord>, f: Filters, json: Data -> string)
    ensures Stage(Stage(Stage(Stage(Stage(cache, f.level.Some?, ByLevel(f.level.GetOr(0))),
                                      f.category != "", ByCategory(f.category)),
                                f.search != "", BySearch(f.search, json)),
                          f.startTime != 0, ByStart(f.startTime)),
                    f.endTime != 0, ByEnd(f.endTime))
            == Selected(cache, f, json)
  {
    Staged1(cache, f);
    Staged2(cache, f);
    Staged3(cache, f, json);
    Staged4(cache, f, json);
    Staged5(cache, f, json);
  }

  function Timestamp(rec: LogRecord): int { rec.timestamp }

  /** Every element of `s` is a cached record that passes `f`. */
  ghost predicate AllPass(s: seq<LogRecord>, cache: seq<LogRecord>, f: Filters, json: Data -> string)
  {
    forall i :: 0 <= i < |s| ==> s[i] in cache && Passes(f, json, s[i])
  }

  lemma SortKeepsPassing(s: seq<LogRecord>, cache: seq<LogRecord>, f: Filters, json: Data -> string)
    requires AllPass(s, cache, f, json)
    ensures AllPass(SortBy(s, Timestamp, f.sortOrder != "asc"), cache, f, json)
  {
    var r := SortBy(s, Timestamp, f.sortOrder != "asc");
    forall i | 0 <= i < |r| ensures r[i] in cache && Passes(f, json, r[i]) {
      SortByMembers(s, Timestamp, f.sortOrder != "asc", r[i]);
    }
  }

  lemma SliceKeepsPassing(s: seq<LogRecord>, cache: seq<LogRecord>, f: Filters, json: Data -> string, a: nat, b: nat)
    requires AllPass(s, cache, f, json)
    ensures AllPass(JsSlice(s, a, b), cache, f, json)
  {
  }

  lemma SliceKeepsSorted(s: seq<LogRecord>, a: nat, b: nat, descending: bool)
    requires SortedBy(s, Timestamp, descending)
    ensures SortedBy(JsSlice(s, a, b), Timestamp, descending)
  {
  }

  /** Sequences with the same multiset have the same members. */
  lemma SameMembers<T>(a: seq<T>, b: seq<T>)
    requires multiset(a) == multiset(b)
    ensures forall x :: x in a ==> x in b
  {
    forall x | x in a ensures x in b {
      assert x in multiset(a);
    }
  }

  /** `getStats()`; the storage usage figure is left out. `levelCounts` is
      indexed by level. */
  datatype Stats = Stats(totalLogs: nat, levelCounts: seq<nat>, categoryCounts: map<string, nat>,
                         oldestLogTime: Option<int>, newestLogTime: Option<int>, perfTrackCount: nat)

  /** Number of records at exactly `level`. */
  function CountLevel(rs: seq<LogRecord>, level: int): (n: nat)
    ensures n <= |rs|
  {
    Count(rs, (rec: LogRecord) => rec.level == level)
  }

  /** When every record has a known level, the per-level counts add up to
      the total. */
  lemma {:induction false} LevelCountsTotal(rs: seq<LogRecord>)
    requires forall i :: 0 <= i < |rs| ==> TRACE <= rs[i].level <= FATAL
    ensures CountLevel(rs, 0) + CountLevel(rs, 1) + CountLevel(rs, 2) + CountLevel(rs, 3)
      + CountLevel(rs, 4) + CountLevel(rs, 5) == |rs|
  {
    if rs != [] {
      LevelCountsTotal(rs[1..]);
      CountLevelHead(rs, 0);
      CountLevelHead(rs, 1);
      CountLevelHead(rs, 2);
      CountLevelHead(rs, 3);
      CountLevelHead(rs, 4);
      CountLevelHead(rs, 5);
    }
  }

  lemma CountLevelHead(rs: seq<LogRecord>, level: int)
    requires rs != []
    ensures CountLevel(rs, level) == (if rs[0].level == level then 1 else 0) + CountLevel(rs[1..], level)
  {
  }

  /** Records per level, indexed by level. */
  function LevelCounts(rs: seq<LogRecord>): (counts: seq<nat>)
    ensures |counts| == 6
    ensures forall l :: 0 <= l < 6 ==> counts[l] == CountLevel(rs, l)
    ensures (forall i :: 0 <= i < |rs| ==> TRACE <= rs[i].level <= FATAL) ==>
      counts[0] + counts[1] + counts[2] + counts[3] + counts[4] + counts[5] == |rs|
  {
    if forall i :: 0 <= i < |rs| ==> TRACE <= rs[i].level <= FATAL then
      LevelCountsTotal(rs);
      [CountLevel(rs, 0), CountLevel(rs, 1), CountLevel(rs, 2), CountLevel(rs, 3), CountLevel(rs, 4), CountLevel(rs, 5)]
    else
      [CountLevel(rs, 0), CountLevel(rs, 1), CountLevel(rs, 2), CountLevel(rs, 3), CountLevel(rs, 4), CountLevel(rs, 5)]
  }

  /** Records per known category name. */
  function CategoryCounts(rs: seq<LogRecord>): (m: map<string, nat>)
    ensures m.Keys == CATEGORIES
    ensures forall c :: c in m ==> m[c] <= |rs|
    ensures forall c :: c in m ==> m[c] == |Filter(rs, ByCategory(c))|
  {
    map c | c in CATEGORIES :: Count(rs, ByCategory(c))
  }

  /** A performance-tracking entry; `None` is the source's `null`. */
  datatype Perf = Perf(startTime: int, endTime: Option<int>, duration: Option<int>)

  class LogService {
    /** `config.currentLevel` */
    var currentLevel: int
    /** `config.enablePerformanceTracking` */
    var enablePerformanceTracking: bool
    var logCache: seq<LogRecord>
    /** Every event emitted so far. */
    var events: seq<Event>
    var performanceData: map<string, Perf>
    /** `systemStatus.networkStatus` */
    var networkStatus: string

    ghost predicate Valid()
      reads this
    {
      TRACE <= currentLevel <= FATAL
    }

    /** `new LogService()`, with no stored configuration: `stored` is what
        the storage key holds, `online` is `navigator.onLine`, and
        `now`/`formattedNow` are the clock. */
    constructor (now: int, formattedNow: string, stored: StoredLogs, online: bool)
      ensures Valid() && currentLevel == DEBUG && enablePerformanceTracking
      ensures performanceData == map[]
      ensures networkStatus == (if online then "online" else "offline")
      ensures logCache == InitialCache(now, formattedNow, stored, online)
      ensures events == InitialEvents(now, formattedNow, stored, online)
    {
      currentLevel := DEBUG;
      enablePerformanceTracking := true;
      performanceData := map[];
      logCache := [];
      events := [];
      networkStatus := "online";
      new;
      Initialize(now, formattedNow, stored, online);
    }

    /** `initialize()` on the fresh service: restore the stored logs, take
        the browser's network status, and log `LogService initialized`. */
    method Initialize(now: int, formattedNow: string, stored: StoredLogs, online: bool)
      requires currentLevel == DEBUG && logCache == [] && events == [] && networkStatus == "online"
      modifies this`networkStatus, this`logCache, this`events
      ensures networkStatus == (if online then "online" else "offline")
      ensures logCache == InitialCache(now, formattedNow, stored, online)
      ensures events == InitialEvents(now, formattedNow, stored, online)
    {
      RestoreFromStorage(stored, now);
      assert events == EmittedAll(LoadRecords(stored, now));
      SetupSystemMonitoring(online, now);
      var rec := InitializedRecord(now, formattedNow);
      assert rec == MakeRecord(now, INFO, rec.category, rec.message, rec.data);
      Log(INFO, rec.category, rec.message, rec.data, now);
    }

    /** The storage block of `initialize()` on the empty cache at the
        default level: `loadStoredLogs`, every record of which is kept. */
    method RestoreFromStorage(stored: StoredLogs, now: int)
      requires currentLevel == DEBUG && logCache == []
      modifies this`logCache, this`events
      ensures logCache == Restored(stored) + LoadRecords(stored, now)
      ensures events == old(events) + EmittedAll(LoadRecords(stored, now))
    {
      LoadStoredLogs(stored, now);
      AllKept(DEBUG, LoadRecords(stored, now));
    }

    /** The network half of `setupSystemMonitoring()` at the default level:
        the first `updateNetworkStatus` call, with `navigator.onLine`. */
    method SetupSystemMonitoring(online: bool, now: int)
      requires currentLevel == DEBUG && networkStatus == "online"
      modifies this`networkStatus, this`logCache, this`events
      ensures networkStatus == (if online then "online" else "offline")
      ensures logCache == old(logCache) + NetworkRecords(online, now)
      ensures events == old(events) + NetworkEvents(online, now)
    {
      if online {
        UpdateNetworkStatus("online", now);
      } else {
        UpdateNetworkStatus("offline", now);
        KeptSingle(DEBUG, NetworkRecord("offline", now));
        EmittedOne(NetworkRecord("offline", now));
      }
    }

    /** `loadStoredLogs()`: a stored array replaces the cache by its newest
        `maxStoredLogs` logs; the storage record follows under the level
        rule. */
    method LoadStoredLogs(stored: StoredLogs, now: int)
      modifies this`logCache, this`events
      ensures logCache == (if stored.LogArray? then Restored(stored) else old(logCache))
                          + Kept(currentLevel, LoadRecords(stored, now))
      ensures events == old(events) + EmittedAll(Kept(currentLevel, LoadRecords(stored, now)))
    {
      match stored
      case LogArray(_) =>
        logCache := Restored(stored);
        var message := "Loaded " + NatToString(|logCache|) + " logs from storage";
        Log(INFO, Named(SYSTEM), message, map[], now);
        KeptSingle(currentLevel, MakeRecord(now, INFO, Named(SYSTEM), message, map[]));
        EmittedOne(MakeRecord(now, INFO, Named(SYSTEM), message, map[]));
      case Unparsable(e) =>
        var category := Structured(map["error" := Str(e)]);
        assert NormalizeErrorData(map[]) == map[];
        LogError(ERROR, category, "Failed to load logs from storage", map[], now);
        KeptSingle(currentLevel, MakeRecord(now, ERROR, category, "Failed to load logs from storage", map[]));
        EmittedOne(MakeRecord(now, ERROR, category, "Failed to load logs from storage", map[]));
      case _ =>
    }

    /** `updateNetworkStatus(status)`: a status equal to the current one
        changes nothing; a new one is stored, logged at INFO under the level
        rule and announced with `networkStatusChanged` in any case. */
    method UpdateNetworkStatus(status: string, now: int)
      modifies this`networkStatus, this`logCache, this`events
      ensures networkStatus == status
      ensures status == old(networkStatus) ==> logCache == old(logCache) && events == old(events)
      ensures status != old(networkStatus) ==>
        logCache == old(logCache) + Kept(currentLevel, [NetworkRecord(status, now)])
        && events == old(events) + EmittedAll(Kept(currentLevel, [NetworkRecord(status, now)])) + [NetworkStatusChanged(status)]
    {
      if networkStatus != status {
        networkStatus := status;
        var rec := NetworkRecord(status, now);
        KeptSingle(currentLevel, rec);
        Log(INFO, rec.category, rec.message, map[], now);
        EmittedOne(rec);
        events := events + [NetworkStatusChanged(status)];
      }
    }

    /** `log(level, category, message, data)` at clock reading `now` (also
        `trace`, `debug`, `info`, `warn`): a record below the current level is
        dropped with no effect at all; otherwise it is cached and emitted. */
    method Log(level: int, category: Category, message: string, data: Data, now: int)
      modifies this`logCache, this`events
      ensures level < currentLevel ==> logCache == old(logCache) && events == old(events)
      ensures level >= currentLevel ==>
        logCache == old(logCache) + [MakeRecord(now, level, category, message, data)]
        && events == old(events) + Emitted(MakeRecord(now, level, category, message, data))
    {
      if level < currentLevel {
        return;
      }
      var rec := MakeRecord(now, level, category, message, data);
      logCache := logCache + [rec];
      events := events + [LogEvent(rec)];
      if level >= ERROR {
        events := events + [ErrorEvent(rec)];
      }
    }

    /** `error` (`level` ERROR) and `fatal` (`level` FATAL): the data is
        normalised first. */
    method LogError(level: int, category: Category, message: string, data: Data, now: int)
      requires level == ERROR || level == FATAL
      modifies this`logCache, this`events
      ensures level < currentLevel ==> logCache == old(logCache) && events == old(events)
      ensures level >= currentLevel ==>
        logCache == old(logCache) + [MakeRecord(now, level, category, message, NormalizeErrorData(data))]
        && events == old(events) + Emitted(MakeRecord(now, level, category, message, NormalizeErrorData(data)))
    {
      Log(level, category, message, NormalizeErrorData(data), now);
    }

    /** `setLevel(level)`: an accepted level is stored and announced at INFO
        (kept only if the new level lets INFO through); a rejected argument
        leaves the level alone and is reported at ERROR. */
    method SetLevel(arg: LevelArg, now: int)
      requires Valid()
      modifies this`currentLevel, this`logCache, this`events
      ensures Valid()
      ensures ParseLevel(arg).Some? ==> currentLevel == ParseLevel(arg).value
      ensures ParseLevel(arg).None? ==> currentLevel == old(currentLevel)
      ensures ParseLevel(arg).Some? ==>
        var v := ParseLevel(arg).value;
        logCache == old(logCache) + Kept(currentLevel, [MakeRecord(now, INFO, Structured(map["level" := Num(v)]),
                                                                   "Log level set to " + LevelName(v).value, map[])])
      ensures ParseLevel(arg).None? ==>
        logCache == old(logCache) + Kept(currentLevel, [MakeRecord(now, ERROR, Structured(map["level" := ArgValue(arg)]),
                                                                   "Invalid log level", map[])])
    {
      var parsed := ParseLevel(arg);
      if parsed.Some? {
        var v := parsed.value;
        currentLevel := v;
        Log(INFO, Structured(map["level" := Num(v)]), "Log level set to " + LevelName(v).value, map[], now);
      } else {
        LogError(ERROR, Structured(map["level" := ArgValue(arg)]), "Invalid log level", map[], now);
      }
    }

    /** `getLevel()` */
    function GetLevel(): (level: int)
      reads this
      requires Valid()
      ensures TRACE <= level <= FATAL && LevelName(level).Some?
    {
      currentLevel
    }

    /** `getLogs(filters)`, with `json` standing for `JSON.stringify`. It works
        on a copy: the cache is not changed. Every result passes the filters;
        the result is ordered by timestamp when sorting applies (descending
        unless `sortOrder` is 'asc'); without a limit it is exactly the
        passing records in that order, and with one it is the page
        `[offset, offset+limit)` of them; an offset without a limit is
        ignored. */
    method GetLogs(f: Filters, json: Data -> string) returns (r: seq<LogRecord>)
      ensures forall i :: 0 <= i < |r| ==> r[i] in logCache && Passes(f, json, r[i])
      ensures SortApplies(f) ==> SortedBy(r, Timestamp, f.sortOrder != "asc")
      ensures !SortApplies(f) && f.limit == 0 ==> r == Selected(logCache, f, json)
      ensures f.limit == 0 ==> multiset(r) == multiset(Selected(logCache, f, json))
      ensures f.limit == 0 ==> forall i :: 0 <= i < |logCache| && Passes(f, json, logCache[i]) ==> logCache[i] in r
      ensures f.limit > 0 ==> |r| <= f.limit
      ensures f.limit > 0 ==> r == JsSlice(OrderedSelection(logCache, f, json), f.offset, f.offset + f.limit)
      ensures f.limit == 0 ==> r == OrderedSelection(logCache, f, json)
    {
      var filtered := ApplyFilters(f, json);
      var sorted := filtered;
      if SortApplies(f) {
        sorted := SortBy(filtered, Timestamp, f.sortOrder != "asc");
      }
      r := sorted;
      if f.limit > 0 {
        r := JsSlice(sorted, f.offset, f.offset + f.limit);
      }
      PageOfLogs(logCache, f, json, r);
    }

    /** The filter phase of `getLogs`: one `filter` per applied condition,
        each on the result of the previous one. */
    method ApplyFilters(f: Filters, json: Data -> string) returns (filtered: seq<LogRecord>)
      ensures filtered == Selected(logCache, f, json)
    {
      filtered := logCache;
      if f.level.Some? {
        filtered := Filter(filtered, ByLevel(f.level.value));
      }
      if f.category != "" {
        filtered := Filter(filtered, ByCategory(f.category));
      }
      if f.search != "" {
        filtered := Filter(filtered, BySearch(f.search, json));
      }
      if f.startTime != 0 {
        filtered := Filter(filtered, ByStart(f.startTime));
      }
      if f.endTime != 0 {
        filtered := Filter(filtered, ByEnd(f.endTime));
      }
      StagedIsSelected(logCache, f, json);
    }

    /** `clearLogs(options)`: `clearCache` is `options.cache !== false`,
        `clearStorage` is `options.storage !== false` with storage usable,
        and `removeError` the message `removeItem` throws, if it does. */
    method ClearLogs(clearCache: bool, clearStorage: bool, removeError: Option<string>, now: int)
      modifies this`logCache, this`events
      ensures logCache == (if clearCache then [] else old(logCache))
        + Kept(currentLevel, (if clearCache then [MakeRecord(now, INFO, Named(SYSTEM), "Log cache cleared", map[])] else [])
                             + StorageRecords(clearStorage, removeError, now))
    {
      ghost var rec := MakeRecord(now, INFO, Named(SYSTEM), "Log cache cleared", map[]);
      ghost var cacheRecords: seq<LogRecord> := if clearCache then [rec] else [];
      ghost var base := if clearCache then [] else old(logCache);
      ghost var storage := StorageRecords(clearStorage, removeError, now);
      if clearCache {
        logCache := [];
        Log(INFO, Named(SYSTEM), "Log cache cleared", map[], now);
        KeptSingle(currentLevel, rec);
      }
      assert logCache == base + Kept(currentLevel, cacheRecords);
      ghost var mid := logCache;
      ClearStorage(clearStorage, removeError, now);
      assert logCache == mid + Kept(currentLevel, storage);
      KeptConcat(currentLevel, cacheRecords, storage);
      AppendAssoc(base, Kept(currentLevel, cacheRecords), Kept(currentLevel, storage));
    }

    /** The storage half of `clearLogs`. */
    method ClearStorage(clearStorage: bool, removeError: Option<string>, now: int)
      modifies this`logCache, this`events
      ensures logCache == old(logCache) + Kept(currentLevel, StorageRecords(clearStorage, removeError, now))
    {
      if clearStorage {
        if removeError.None? {
          Log(INFO, Named(SYSTEM), "Stored logs cleared", map[], now);
        } else {
          // the `{error}` object is passed in the category position
          assert NormalizeErrorData(map[]) == map[];
          LogError(ERROR, Structured(map["error" := Str(removeError.value)]), "Failed to clear stored logs", map[], now);
        }
        KeptSingle(currentLevel, StorageRecords(clearStorage, removeError, now)[0]);
      }
    }

    /** `startPerf(key)` with `perfNow` the `performance.now()` reading. */
    method StartPerf(key: string, perfNow: int, now: int)
      modifies this`performanceData, this`logCache, this`events
      ensures !enablePerformanceTracking ==> performanceData == old(performanceData) && logCache == old(logCache)
      ensures enablePerformanceTracking ==>
        performanceData == old(performanceData)[key := Perf(perfNow, None, None)]
        && logCache == old(logCache) + Kept(currentLevel, [MakeRecord(now, DEBUG, Named(SYSTEM), "Performance tracking started", map["key" := Str(key)])])
    {
      if !enablePerformanceTracking {
        return;
      }
      performanceData := performanceData[key := Perf(perfNow, None, None)];
      Log(DEBUG, Named(SYSTEM), "Performance tracking started", map["key" := Str(key)], now);
    }

    /** `endPerf(key)`: `None` (the source's `null`) when tracking is off, the
        key is unknown, or the entry has already ended; otherwise the entry is
        closed at `perfNow` and the elapsed time is returned, so a second
        `endPerf` for the same key returns `None`. */
    method EndPerf(key: string, perfNow: int, now: int) returns (d: Option<int>)
      modifies this`performanceData, this`logCache, this`events
      ensures d.Some? <==> enablePerformanceTracking && key in old(performanceData) && old(performanceData)[key].endTime.None?
      ensures d.Some? ==>
        d.value == perfNow - old(performanceData)[key].startTime
        && performanceData == old(performanceData)[key := Perf(old(performanceData)[key].startTime, Some(perfNow), Some(d.value))]
      ensures d.None? ==> performanceData == old(performanceData)
      ensures d.None? && enablePerformanceTracking ==>
        logCache == old(logCache) + Kept(currentLevel, [MakeRecord(now, WARN, Named(SYSTEM),
                                           "Performance tracking not found or already ended", map["key" := Str(key)])])
      ensures d.Some? ==>
        logCache == old(logCache) + Kept(currentLevel, [MakeRecord(now, DEBUG, Named(SYSTEM), "Performance tracking ended",
                                           map["key" := Str(key), "duration" := Str(IntToString(d.value) + ".00ms")])])
      ensures key in performanceData && d.Some? ==> performanceData[key].endTime.Some?
    {
      if !enablePerformanceTracking {
        return None;
      }
      if key !in performanceData || performanceData[key].endTime.Some? {
        Log(WARN, Named(SYSTEM), "Performance tracking not found or already ended", map["key" := Str(key)], now);
        return None;
      }
      var p := performanceData[key];
      var duration := perfNow - p.startTime;
      performanceData := performanceData[key := Perf(p.startTime, Some(perfNow), Some(duration))];
      // `toFixed(2)` of a whole number of milliseconds
      Log(DEBUG, Named(SYSTEM), "Performance tracking ended",
          map["key" := Str(key), "duration" := Str(IntToString(duration) + ".00ms")], now);
      d := Some(duration);
    }

    /** `getPerfData(key)`. */
    function GetPerfData(key: string): (p: Option<Perf>)
      reads this
      ensures p.Some? <==> key in performanceData
      ensures p.Some? ==> p.value == performanceData[key]
    {
      if key in performanceData then Some(performanceData[key]) else None
    }

    /** `clearPerfData(key)`: one entry for a truthy (non-empty) key, all of
        them otherwise, each announced at DEBUG. */
    method ClearPerfData(key: Option<string>, now: int)
      modifies this`performanceData, this`logCache, this`events
      ensures key.Some? && key.value != "" ==>
        performanceData == old(performanceData) - {key.value}
        && logCache == old(logCache) + Kept(currentLevel, [MakeRecord(now, DEBUG, Named(SYSTEM),
                                           "Performance data cleared for key", map["key" := Str(key.value)])])
      ensures !(key.Some? && key.value != "") ==>
        performanceData == map[]
        && logCache == old(logCache) + Kept(currentLevel, [MakeRecord(now, DEBUG, Named(SYSTEM), "All performance data cleared", map[])])
    {
      if key.Some? && key.value != "" {
        performanceData := performanceData - {key.value};
        Log(DEBUG, Named(SYSTEM), "Performance data cleared for key", map["key" := Str(key.value)], now);
        KeptSingle(currentLevel, MakeRecord(now, DEBUG, Named(SYSTEM), "Performance data cleared for key", map["key" := Str(key.value)]));
      } else {
        performanceData := map[];
        Log(DEBUG, Named(SYSTEM), "All performance data cleared", map[], now);
        KeptSingle(currentLevel, MakeRecord(now, DEBUG, Named(SYSTEM), "All performance data cleared", map[]));
      }
    }

    /** `getStats()`. */
    function GetStats(): (s: Stats)
      reads this
      ensures s.totalLogs == |logCache| && |s.levelCounts| == 6
      ensures s.levelCounts == LevelCounts(logCache) && s.categoryCounts == CategoryCounts(logCache)
      ensures forall l :: 0 <= l < 6 ==> s.levelCounts[l] <= s.totalLogs
      ensures (forall i :: 0 <= i < |logCache| ==> TRACE <= logCache[i].level <= FATAL) ==>
        s.levelCounts[0] + s.levelCounts[1] + s.levelCounts[2] + s.levelCounts[3]
        + s.levelCounts[4] + s.levelCounts[5] == s.totalLogs
      ensures s.categoryCounts.Keys == CATEGORIES
      ensures forall c :: c in s.categoryCounts ==> s.categoryCounts[c] <= s.totalLogs
      ensures s.oldestLogTime.Some? <==> |logCache| > 0
      ensures s.newestLogTime.Some? <==> |logCache| > 0
      ensures |logCache| > 0 ==>
        s.oldestLogTime.value == logCache[0].timestamp && s.newestLogTime.value == logCache[|logCache| - 1].timestamp
      ensures s.perfTrackCount == |performanceData|
    {
      var cache := logCache;
      Stats(|cache|,
            LevelCounts(cache),
            CategoryCounts(cache),
            if |cache| > 0 then Some(cache[0].timestamp) else None,
            if |cache| > 0 then Some(cache[|cache| - 1].timestamp) else None,
            |performanceData|)
    }
  }

  /** The records `clearLogs` writes for its storage step; the failure
      record carries the `{error}` object as its category and empty data. */
  function StorageRecords(clearStorage: bool, removeError: Option<string>, now: int): (rs: seq<LogRecord>)
    ensures |rs| == (if clearStorage then 1 else 0)
    ensures clearStorage ==> rs[0].timestamp == now && rs[0].data == map[]
    ensures clearStorage ==> (rs[0].level == INFO <==> removeError.None?) && (rs[0].level == ERROR <==> removeError.Some?)
    ensures clearStorage && removeError.None? ==> rs[0].category == Named(SYSTEM) && rs[0].message == "Stored logs cleared"
    ensures clearStorage && removeError.Some? ==>
      rs[0].category == Structured(map["error" := Str(removeError.value)]) && rs[0].message == "Failed to clear stored logs"
  {
    if !clearStorage then []
    else if removeError.None? then [MakeRecord(now, INFO, Named(SYSTEM), "Stored logs cleared", map[])]
    else [MakeRecord(now, ERROR, Structured(map["error" := Str(removeError.value)]), "Failed to clear stored logs", map[])]
  }

  /** `config.maxStoredLogs` of the default configuration. */
  const MAX_STORED_LOGS := 1000

  /** What `loadStoredLogs` finds under the storage key: nothing (storage
      off or unusable, no item, or an empty string), text `JSON.parse`
      rejects with the message `error`, a value that is not an array, or
      an array of logs. */
  datatype StoredLogs = NoStoredLogs | Unparsable(error: string) | NotAnArray | LogArray(logs: seq<LogRecord>)

  /** The logs `loadStoredLogs` restores: the newest `maxStoredLogs` of a
      stored array (`logs.slice(-maxStoredLogs)`). */
  function Restored(stored: StoredLogs): (rs: seq<LogRecord>)
    ensures stored.LogArray? ==> |rs| == Min(MAX_STORED_LOGS, |stored.logs|) && rs == stored.logs[|stored.logs| - |rs|..]
    ensures !stored.LogArray? ==> rs == []
  {
    if stored.LogArray? then LastN(stored.logs, MAX_STORED_LOGS) else []
  }

  /** The record `loadStoredLogs` writes: `Loaded N logs from storage` at
      INFO after restoring N logs, the failure record (its `{error}` object
      in the category position) at ERROR when parsing throws, and none when
      there is nothing to restore. */
  function LoadRecords(stored: StoredLogs, now: int): (rs: seq<LogRecord>)
    ensures |rs| == (if stored.LogArray? || stored.Unparsable? then 1 else 0)
    ensures |rs| == 1 ==> rs[0].timestamp == now && rs[0].data == map[]
    ensures stored.LogArray? ==>
      rs[0].level == INFO && rs[0].category == Named(SYSTEM)
      && rs[0].message == "Loaded " + NatToString(|Restored(stored)|) + " logs from storage"
    ensures stored.Unparsable? ==>
      rs[0].level == ERROR && rs[0].category == Structured(map["error" := Str(stored.error)])
      && rs[0].message == "Failed to load logs from storage"
  {
    match stored
    case LogArray(_) => [MakeRecord(now, INFO, Named(SYSTEM), "Loaded " + NatToString(|Restored(stored)|) + " logs from storage", map[])]
    case Unparsable(e) => [MakeRecord(now, ERROR, Structured(map["error" := Str(e)]), "Failed to load logs from storage", map[])]
    case _ => []
  }

  /** The record `updateNetworkStatus` writes for a changed status; its
      `{status}` object sits in the category position. */
  function NetworkRecord(status: string, now: int): (r: LogRecord)
    ensures r.level == INFO && r.message == "Network status changed" && r.timestamp == now
    ensures r.category == Structured(map["status" := Str(status)]) && r.data == map[]
  {
    MakeRecord(now, INFO, Structured(map["status" := Str(status)]), "Network status changed", map[])
  }

  /** The closing record of `initialize`, with the default level DEBUG and
      the formatted clock; its data object sits in the category position. */
  function InitializedRecord(now: int, formattedNow: string): (r: LogRecord)
    ensures r.level == INFO && r.message == "LogService initialized" && r.timestamp == now
    ensures r.category == Structured(map["level" := Str("DEBUG"), "timestamp" := Str(formattedNow)])
  {
    MakeRecord(now, INFO, Structured(map["level" := Str("DEBUG"), "timestamp" := Str(formattedNow)]),
               "LogService initialized", map[])
  }

  /** The cache after `initialize` at the default level: the restored logs,
      the storage record, the network record when the browser starts
      offline, and the `LogService initialized` record. */
  function InitialCache(now: int, formattedNow: string, stored: StoredLogs, online: bool): seq<LogRecord>
  {
    Restored(stored) + LoadRecords(stored, now) + NetworkRecords(online, now) + [InitializedRecord(now, formattedNow)]
  }

  /** The record the first network check writes: one only when the browser
      starts offline, since the status starts as 'online'. */
  function NetworkRecords(online: bool, now: int): (rs: seq<LogRecord>)
    ensures |rs| == (if online then 0 else 1)
  {
    if online then [] else [NetworkRecord("offline", now)]
  }

  /** The events of that check: the record's, then `networkStatusChanged`. */
  function NetworkEvents(online: bool, now: int): seq<Event>
  {
    if online then [] else Emitted(NetworkRecord("offline", now)) + [NetworkStatusChanged("offline")]
  }

  /** The events of a run of kept records, in order. */
  function EmittedAll(rs: seq<LogRecord>): (es: seq<Event>)
    ensures |es| >= |rs|
  {
    if rs == [] then [] else Emitted(rs[0]) + EmittedAll(rs[1..])
  }

  /** The events `initialize` emits: those of each record it writes (restored
      logs are not emitted), and `networkStatusChanged` after the network
      record. */
  function InitialEvents(now: int, formattedNow: string, stored: StoredLogs, online: bool): seq<Event>
  {
    EmittedAll(LoadRecords(stored, now)) + NetworkEvents(online, now) + Emitted(InitializedRecord(now, formattedNow))
  }

  /** Where the parts of a cache built by appending land. */
  lemma Layout(restored: seq<LogRecord>, loaded: seq<LogRecord>, network: seq<LogRecord>, last: LogRecord)
    ensures var c := restored + loaded + network + [last];
      && |c| == |restored| + |loaded| + |network| + 1
      && c[..|restored|] == restored
      && c[|c| - 1] == last
      && (|network| == 1 ==> c[|c| - 2] == network[0])
  {
    var c := restored + loaded + network + [last];
    assert c == restored + (loaded + network + [last]);
  }

  /** What a fresh service holds: the newest stored logs, at most
      `maxStoredLogs` of them, come first and in their stored order; the
      records `initialize` writes follow (one for the storage step when
      there was something to read, one when starting offline), and the
      last record is always `LogService initialized`. */
  lemma InitialCacheShape(now: int, formattedNow: string, stored: StoredLogs, online: bool)
    ensures var c := InitialCache(now, formattedNow, stored, online);
      var k := |Restored(stored)|;
      && k <= MAX_STORED_LOGS
      && |c| == k + |LoadRecords(stored, now)| + (if online then 0 else 1) + 1
      && c[..k] == Restored(stored)
      && (stored.LogArray? ==> c[..k] == stored.logs[|stored.logs| - k..] && c[k].message == "Loaded " + NatToString(k) + " logs from storage")
      && (!online ==> c[|c| - 2] == NetworkRecord("offline", now))
      && c[|c| - 1] == InitializedRecord(now, formattedNow)
  {
    Layout(Restored(stored), LoadRecords(stored, now), NetworkRecords(online, now), InitializedRecord(now, formattedNow));
  }

}
