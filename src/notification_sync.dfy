/** The front end's notification synchroniser
    (`frontend/utils/notification-sync.js`): notifications from the Android
    device are checked, filtered by package and keyword, stored with
    defaults in an insertion-ordered map of at most `maxNotifications`
    entries and handed to the registered callbacks. The notification id
    (clock and `Math.random`) and the clock are parameters; showing a
    notification on screen and playing its sound are left out. */
module NotificationSync {
  import opened Wrappers
  import opened Seqs
  import opened Text
  import opened JsValues
  import opened OrderedMaps

  /** `v[key]` for one of the notification's own properties; anything but
      an object has none of them. */
  function Field(v: JsValue, key: string): JsValue
  {
    if v.Obj? && key in v.fields then v.fields[key] else Undefined
  }

  /** `v || d` */
  function Or(v: JsValue, d: JsValue): (r: JsValue)
    ensures Truthy(v) ==> r == v
    ensures !Truthy(v) ==> r == d
  {
    if Truthy(v) then v else d
  }

  /** `isValidNotification(data)`. */
  predicate IsValid(data: JsValue)
  {
    Truthy(data) && (Truthy(Field(data, "title")) || Truthy(Field(data, "text"))) && TypeOf(data) == "object"
  }

  /** A notification is valid exactly when it is an object with a truthy
      title or text. */
  lemma ValidIff(data: JsValue)
    ensures IsValid(data) <==> data.Obj? && (Truthy(Field(data, "title")) || Truthy(Field(data, "text")))
  {
  }

  datatype Filters = Filters(apps: seq<string>, keywords: seq<string>, blacklist: seq<string>)

  datatype FilterOverrides = FilterOverrides(apps: Option<seq<string>>, keywords: Option<seq<string>>, blacklist: Option<seq<string>>)

  /** `{ ...filters, ...overrides }`. */
  function MergeFilters(f: Filters, o: FilterOverrides): Filters
  {
    Filters(o.apps.GetOr(f.apps), o.keywords.GetOr(f.keywords), o.blacklist.GetOr(f.blacklist))
  }

  /** `list.includes(v)` for a list of strings. */
  predicate Includes(list: seq<string>, v: JsValue)
  {
    v.Str? && v.s in list
  }

  /** `data.packageName || 'unknown'` */
  function PackageOf(data: JsValue): JsValue
  {
    Or(Field(data, "packageName"), Str("unknown"))
  }

  /** `(data.title + ' ' + data.text).toLowerCase()` */
  function SearchText(data: JsValue): string
  {
    ToLower(ToStr(Field(data, "title")) + " " + ToStr(Field(data, "text")))
  }

  predicate SomeKeyword(keywords: seq<string>, content: string)
  {
    exists i :: 0 <= i < |keywords| && Contains(content, ToLower(keywords[i]))
  }

  /** `shouldFilterNotification(data)`. */
  predicate ShouldFilter(data: JsValue, f: Filters)
  {
    if |f.blacklist| > 0 && Includes(f.blacklist, PackageOf(data)) then true
    else if |f.apps| > 0 && !Includes(f.apps, PackageOf(data)) then true
    else if |f.keywords| > 0 then !SomeKeyword(f.keywords, SearchText(data))
    else false
  }

  /** The filters in their order: a blacklisted package is dropped whatever
      the other lists say; otherwise a package missing from a non-empty
      app list is dropped; otherwise, with keywords, a notification is kept
      exactly when some keyword occurs in its lower-cased title and text;
      with no lists nothing is dropped. */
  lemma FilterOrder(data: JsValue, f: Filters)
    ensures Includes(f.blacklist, PackageOf(data)) ==> ShouldFilter(data, f)
    ensures !Includes(f.blacklist, PackageOf(data)) && |f.apps| > 0 && !Includes(f.apps, PackageOf(data)) ==> ShouldFilter(data, f)
    ensures (!Includes(f.blacklist, PackageOf(data)) && (|f.apps| == 0 || Includes(f.apps, PackageOf(data))) && |f.keywords| > 0 ==>
      (ShouldFilter(data, f) <==> !SomeKeyword(f.keywords, SearchText(data))))
    ensures f == Filters([], [], []) ==> !ShouldFilter(data, f)
  {
  }

  /** A notification without a package name is read as package "unknown",
      so a blacklist naming "unknown" drops every such notification. */
  lemma MissingPackageIsUnknown(title: string)
    ensures var data := Obj(map["title" := Str(title)]);
      ShouldFilter(data, Filters([], [], ["unknown"])) && !ShouldFilter(data, Filters(["unknown"], [], []))
  {
    var data := Obj(map["title" := Str(title)]);
    assert Field(data, "packageName") == Undefined;
  }

  /** Lower-casing keeps a word without capitals at the end visible. */
  lemma LowerKeepsSuffix(a: string, w: string)
    requires forall k :: 0 <= k < |w| ==> !('A' <= w[k] <= 'Z')
    ensures Contains(ToLower(a + w), w)
  {
    var low := ToLower(a + w);
    assert low[|a|..|a| + |w|] == w by {
      forall k | 0 <= k < |w| ensures low[|a|..|a| + |w|][k] == w[k] {
        assert (a + w)[|a| + k] == w[k];
      }
    }
    ContainsAt(low, w, |a|);
  }

  /** A missing text reads as the word "undefined" in the keyword search,
      so the keyword "undefined" keeps every notification without text. */
  lemma MissingTextMatchesUndefined(title: string)
    ensures SomeKeyword(["undefined"], SearchText(Obj(map["title" := Str(title)])))
  {
    var data := Obj(map["title" := Str(title)]);
    assert Field(data, "text") == Undefined;
    var w := "undefined";
    assert forall k :: 0 <= k < |w| ==> !('A' <= w[k] <= 'Z');
    LowerKeepsSuffix(title + " ", w);
    LowerIdentity(w);
    assert ToLower(["undefined"][0]) == w;
  }

  datatype Notification = Notification(
    id: string,
    title: JsValue,
    text: JsValue,
    packageName: JsValue,
    app: JsValue,
    timestamp: int,
    priority: JsValue,
    icon: JsValue,
    actions: JsValue,
    raw: JsValue)

  /** The stored notification, with its defaults. */
  function Build(data: JsValue, id: string, now: int): (n: Notification)
  {
    Notification(id, Or(Field(data, "title"), Str("新通知")), Or(Field(data, "text"), Str("")),
                 PackageOf(data), Or(Field(data, "appName"), Str("Unknown App")), now,
                 Or(Field(data, "priority"), Str("default")), Or(Field(data, "icon"), Null),
                 Or(Field(data, "actions"), Arr([])), data)
  }

  /** A missing or falsy field takes its default; a truthy one is kept. */
  lemma BuildDefaults(data: JsValue, id: string, now: int)
    ensures var n := Build(data, id, now);
      && n.id == id && n.timestamp == now && n.raw == data
      && (Truthy(Field(data, "title")) ==> n.title == Field(data, "title"))
      && (!Truthy(Field(data, "title")) ==> n.title == Str("新通知"))
      && (!Truthy(Field(data, "text")) ==> n.text == Str(""))
      && (!Truthy(Field(data, "packageName")) ==> n.packageName == Str("unknown"))
      && (!Truthy(Field(data, "appName")) ==> n.app == Str("Unknown App"))
      && (!Truthy(Field(data, "priority")) ==> n.priority == Str("default"))
      && (!Truthy(Field(data, "icon")) ==> n.icon == Null)
      && (!Truthy(Field(data, "actions")) ==> n.actions == Arr([]))
      && Truthy(n.title) && Truthy(n.packageName) && Truthy(n.app) && Truthy(n.priority)
  {
  }

  /** `limitNotificationCount()`: over the limit, the oldest entry goes. */
  function Limit(m: OrderedMap<Notification>, max: int): OrderedMap<Notification>
  {
    if |m.order| > max && m.order != [] then Drop(m, m.order[0]) else m
  }

  /** Storing a notification and then limiting the count. */
  function Store(m: OrderedMap<Notification>, n: Notification, max: int): OrderedMap<Notification>
  {
    Limit(Put(m, n.id, n), max)
  }

  /** Limiting keeps every key listed once. */
  lemma LimitListed(m: OrderedMap<Notification>, max: int)
    requires Listed(m)
    ensures Listed(Limit(m, max))
  {
    if |m.order| > max && m.order != [] {
      DropListed(m, m.order[0]);
    }
  }

  lemma StoreListed(m: OrderedMap<Notification>, n: Notification, max: int)
    requires Listed(m)
    ensures Listed(Store(m, n, max))
  {
    PutListed(m, n.id, n);
    LimitListed(Put(m, n.id, n), max);
  }

  /** Storing keeps the map within its limit: with room, a new id goes
      last; a known id keeps its place. */
  lemma StoreBounded(m: OrderedMap<Notification>, n: Notification, max: int)
    requires Listed(m) && |m.order| <= max
    ensures |Store(m, n, max).order| <= max
    ensures n.id !in m.entries && |m.order| < max ==> Store(m, n, max).order == m.order + [n.id]
    ensures n.id in m.entries ==> Store(m, n, max).order == m.order
  {
    var p := Put(m, n.id, n);
    PutListed(m, n.id, n);
    if |p.order| > max && p.order != [] {
      DropListed(p, p.order[0]);
      RemoveFirstDistinct(p.order, p.order[0]);
    }
  }

  /** With the map full, a new id goes last and the oldest entry goes. */
  lemma StoreDropsOldest(m: OrderedMap<Notification>, n: Notification, max: int)
    requires Listed(m) && |m.order| == max && max > 0 && n.id !in m.entries
    ensures Store(m, n, max).order == m.order[1..] + [n.id]
    ensures n.id in Store(m, n, max).entries && Store(m, n, max).entries[n.id] == n
  {
    var p := Put(m, n.id, n);
    PutListed(m, n.id, n);
    DropFirst(p);
    assert p.order[1..] == m.order[1..] + [n.id];
    assert n.id in p.order[1..];
  }

  /** A notification just stored is kept when the map had room for it or
      it replaced one with its id. */
  lemma StoreKeeps(m: OrderedMap<Notification>, n: Notification, max: int)
    requires Listed(m) && |m.order| <= max && (|m.order| < max || n.id in m.entries)
    ensures n.id in Store(m, n, max).entries && Store(m, n, max).entries[n.id] == n
  {
    PutListed(m, n.id, n);
  }

  // ---------------------------------------------------------------------
  // getNotifications: newest first

  /** Timestamps do not increase along `s`. */
  predicate Descending(s: seq<Notification>)
  {
    forall i, j :: 0 <= i < j < |s| ==> s[i].timestamp >= s[j].timestamp
  }

  /** `x` put before the first element that is not newer, as a stable sort
      by descending timestamp places it. */
  function Insert(x: Notification, r: seq<Notification>): (out: seq<Notification>)
    ensures multiset(out) == multiset(r) + multiset{x}
  {
    if r == [] || x.timestamp >= r[0].timestamp then [x] + r
    else
      assert r == [r[0]] + r[1..];
      [r[0]] + Insert(x, r[1..])
  }

  /** `.sort((a, b) => b.timestamp - a.timestamp)`. */
  function SortDesc(s: seq<Notification>): (r: seq<Notification>)
    ensures multiset(r) == multiset(s)
  {
    if s == [] then []
    else
      assert s == [s[0]] + s[1..];
      Insert(s[0], SortDesc(s[1..]))
  }

  /** Inserting keeps every timestamp within a bound that holds of all. */
  lemma InsertNotNewer(x: Notification, r: seq<Notification>, t: int)
    requires x.timestamp <= t && forall e :: e in r ==> e.timestamp <= t
    ensures forall e :: e in Insert(x, r) ==> e.timestamp <= t
  {
    forall e | e in Insert(x, r) ensures e.timestamp <= t {
      assert e in multiset(Insert(x, r));
    }
  }

  /** The head of a descending sequence is the newest of it. */
  lemma HeadNewest(r: seq<Notification>)
    requires Descending(r) && r != []
    ensures forall e :: e in r ==> e.timestamp <= r[0].timestamp
  {
    forall e | e in r ensures e.timestamp <= r[0].timestamp {
      var k :| 0 <= k < |r| && r[k] == e;
      if k > 0 {
        assert r[0].timestamp >= r[k].timestamp;
      }
    }
  }

  /** A descending sequence stays so behind a head no older than any of it. */
  lemma ConsDescending(h: Notification, r: seq<Notification>)
    requires Descending(r) && forall e :: e in r ==> e.timestamp <= h.timestamp
    ensures Descending([h] + r)
  {
    var out := [h] + r;
    forall i, j | 0 <= i < j < |out| ensures out[i].timestamp >= out[j].timestamp {
      assert out[j] == r[j - 1];
      if i > 0 {
        assert out[i] == r[i - 1];
      } else {
        assert out[j] in r;
      }
    }
  }

  lemma {:induction false} InsertDescending(x: Notification, r: seq<Notification>)
    requires Descending(r)
    ensures Descending(Insert(x, r))
  {
    if r == [] || x.timestamp >= r[0].timestamp {
      if r != [] {
        HeadNewest(r);
      }
      ConsDescending(x, r);
    } else {
      InsertDescending(x, r[1..]);
      HeadNewest(r);
      assert forall e :: e in r[1..] ==> e in r;
      InsertNotNewer(x, r[1..], r[0].timestamp);
      ConsDescending(r[0], Insert(x, r[1..]));
    }
  }

  lemma {:induction false} SortDescending(s: seq<Notification>)
    ensures Descending(SortDesc(s))
  {
    if s != [] {
      SortDescending(s[1..]);
      InsertDescending(s[0], SortDesc(s[1..]));
    }
  }

  /** `getNotifications()`: the stored notifications, newest first. */
  lemma GetNotificationsSorted(m: OrderedMap<Notification>)
    requires Listed(m)
    ensures Descending(SortDesc(Values(m)))
    ensures multiset(SortDesc(Values(m))) == multiset(Values(m))
    ensures |SortDesc(Values(m))| == |m.order|
  {
    SortDescending(Values(m));
    assert |SortDesc(Values(m))| == |multiset(SortDesc(Values(m)))|;
  }

  // ---------------------------------------------------------------------
  // The synchroniser object

  datatype DisplaySettings = DisplaySettings(timeout: int, position: string, soundEnabled: bool, maxNotifications: int)

  datatype DisplayOverrides = DisplayOverrides(timeout: Option<int>, position: Option<string>, soundEnabled: Option<bool>,
                                               maxNotifications: Option<int>)

  function MergeDisplay(d: DisplaySettings, o: DisplayOverrides): DisplaySettings
  {
    DisplaySettings(o.timeout.GetOr(d.timeout), o.position.GetOr(d.position), o.soundEnabled.GetOr(d.soundEnabled),
                    o.maxNotifications.GetOr(d.maxNotifications))
  }

  /** A notification and the callbacks registered when it was handed out. */
  datatype Delivery = Delivery(notification: Notification, callbacks: seq<nat>)

  datatype Status = Status(isEnabled: bool, notificationCount: nat, filters: Filters, displaySettings: DisplaySettings)

  /** Whether `handleAndroidNotification` keeps a notification. */
  predicate Accepted(enabled: bool, data: JsValue, f: Filters)
  {
    enabled && IsValid(data) && !ShouldFilter(data, f)
  }

  class Synchronizer {
    var enabled: bool
    var notifications: OrderedMap<Notification>
    var callbacks: seq<nat>
    var filters: Filters
    var display: DisplaySettings
    var delivered: seq<Delivery>

    ghost predicate Valid()
      reads this
    {
      Listed(notifications)
    }

    constructor ()
      ensures Valid() && !enabled && notifications == Empty() && callbacks == [] && delivered == []
      ensures filters == Filters([], [], [])
      ensures display == DisplaySettings(5000, "top-right", true, 10)
    {
      enabled := false;
      notifications := Empty();
      callbacks := [];
      filters := Filters([], [], []);
      display := DisplaySettings(5000, "top-right", true, 10);
      delivered := [];
    }

    method Enable()
      modifies this`enabled
      ensures enabled
    {
      enabled := true;
    }

    method Disable()
      modifies this`enabled
      ensures !enabled
    {
      enabled := false;
    }

    /** `handleAndroidNotification(data)`, with the generated id and the
        time given. Outside a browser showing the notification throws
        after it is stored, and the callbacks are skipped. */
    method HandleAndroidNotification(data: JsValue, id: string, now: int, browser: bool)
      requires Valid()
      modifies this`notifications, this`delivered
      ensures Valid()
      ensures !Accepted(enabled, data, filters) ==> notifications == old(notifications) && delivered == old(delivered)
      ensures Accepted(enabled, data, filters) ==>
        && notifications == Store(old(notifications), Build(data, id, now), display.maxNotifications)
        && delivered == old(delivered) + (if browser then [Delivery(Build(data, id, now), callbacks)] else [])
    {
      if !enabled || !IsValid(data) || ShouldFilter(data, filters) {
        return;
      }
      var n := Build(data, id, now);
      StoreListed(notifications, n, display.maxNotifications);
      notifications := Put(notifications, id, n);
      notifications := Limit(notifications, display.maxNotifications);
      if browser {
        delivered := delivered + [Delivery(n, callbacks)];
      }
    }

    method GetNotifications() returns (r: seq<Notification>)
      requires Valid()
      ensures r == SortDesc(Values(notifications))
    {
      r := SortDesc(Values(notifications));
    }

    method GetUnreadCount() returns (n: nat)
      ensures n == |notifications.order|
    {
      n := |notifications.order|;
    }

    method ClearAllNotifications()
      modifies this`notifications
      ensures Valid() && notifications == Empty()
    {
      notifications := Empty();
    }

    method ClearNotification(id: string)
      requires Valid()
      modifies this`notifications
      ensures Valid() && notifications == Drop(old(notifications), id)
    {
      DropListed(notifications, id);
      notifications := Drop(notifications, id);
    }

    method AddNotificationCallback(cb: nat)
      modifies this`callbacks
      ensures callbacks == old(callbacks) + [cb]
    {
      callbacks := callbacks + [cb];
    }

    method RemoveNotificationCallback(cb: nat)
      modifies this`callbacks
      ensures callbacks == RemoveFirst(old(callbacks), cb)
    {
      var i := Find(callbacks, cb);
      if i > -1 {
        callbacks := callbacks[..i] + callbacks[i + 1..];
      }
    }

    method SetFilters(o: FilterOverrides)
      modifies this`filters
      ensures filters == MergeFilters(old(filters), o)
    {
      filters := MergeFilters(filters, o);
    }

    method SetDisplaySettings(o: DisplayOverrides)
      modifies this`display
      ensures display == MergeDisplay(old(display), o)
    {
      display := MergeDisplay(display, o);
    }

    method GetStatus() returns (st: Status)
      ensures st == Status(enabled, |notifications.order|, filters, display)
    {
      st := Status(enabled, |notifications.order|, filters, display);
    }
  }
}
