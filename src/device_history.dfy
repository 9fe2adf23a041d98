/** The Android device history (`DeviceHistoryManager`): the devices this
    phone has connected to, kept in shared preferences as a JSON array under
    "devices", together with the id of the last connected device under
    "last_connected". Every operation reads the stored array back (sorted
    newest first), edits that list and writes it again. */
module DeviceHistory {
  import opened Wrappers
  import opened Seqs
  import opened Sorting
  import opened Text

  const MAX_HISTORY_SIZE := 20
  const VERSION := "1.0.0"
  const CAPABILITIES := ["file_transfer", "screen_mirror", "remote_control", "notification", "clipboard_sync"]

  /** `DeviceHistoryEntry`. */
  datatype Entry = Entry(
    deviceId: string,
    deviceName: string,
    platform: string,
    ip: string,
    port: int,
    lastConnectedTime: int,
    connectionCount: int,
    isFavorite: bool,
    customName: Option<string>)

  /** The fields of `DeviceInfo` that the history reads and builds. */
  datatype DeviceInfo = DeviceInfo(
    deviceId: string,
    deviceName: string,
    platform: string,
    version: string,
    ip: string,
    port: int,
    capabilities: seq<string>,
    lastSeen: int)

  /** `getStatistics()`'s result. */
  datatype Statistics = Statistics(
    totalDevices: nat,
    favoriteDevices: nat,
    totalConnections: int,
    mostConnectedDevice: Option<Entry>,
    lastConnectedDevice: Option<Entry>)

  function TimeOf(e: Entry): int { e.lastConnectedTime }
  function CountOf(e: Entry): int { e.connectionCount }
  predicate IsFavorite(e: Entry) { e.isFavorite }
  predicate NotFavorite(e: Entry) { !e.isFavorite }
  predicate AnyEntry(e: Entry) { true }

  /** The test "has another id than `id`". */
  function OtherId(id: string): Entry -> bool
  {
    (e: Entry) => e.deviceId != id
  }

  // ---------------------------------------------------------------------
  // Reading the stored list back

  /** What reading an entry back from its JSON gives: `optString("customName")`
      is empty both for a missing name and for an empty one, and `takeIf`
      turns both into null. Every other field reads back as written. */
  function Reload(e: Entry): (r: Entry)
    ensures r.customName != Some("")
    ensures r.(customName := e.customName) == e
  {
    if e.customName == Some("") then e.(customName := None) else e
  }

  function ReloadAll(s: seq<Entry>): (r: seq<Entry>)
    ensures |r| == |s| && forall i :: 0 <= i < |s| ==> r[i] == Reload(s[i])
  {
    if s == [] then [] else [Reload(s[0])] + ReloadAll(s[1..])
  }

  /** `getDeviceHistory()`: the stored entries read back, newest first, ties
      in stored order. */
  function History(stored: seq<Entry>): seq<Entry>
  {
    SortBy(ReloadAll(stored), TimeOf, true)
  }

  /** A list that reads back as itself: newest first, and no empty custom name. */
  predicate Normalized(s: seq<Entry>)
  {
    SortedBy(s, TimeOf, true) && forall i :: 0 <= i < |s| ==> s[i].customName != Some("")
  }

  /** The history holds one read-back entry per stored entry and is normalised. */
  lemma HistoryShape(stored: seq<Entry>)
    ensures |History(stored)| == |stored|
    ensures Normalized(History(stored))
    ensures forall x :: x in History(stored) <==> x in ReloadAll(stored)
  {
    var h := History(stored);
    forall x ensures x in h <==> x in ReloadAll(stored) {
      SortByMembers(ReloadAll(stored), TimeOf, true, x);
    }
    forall i | 0 <= i < |h| ensures h[i].customName != Some("") {
      assert h[i] in ReloadAll(stored);
    }
  }

  /** A normalised list is read back unchanged. */
  lemma ReloadNormalized(s: seq<Entry>)
    requires forall i :: 0 <= i < |s| ==> s[i].customName != Some("")
    ensures ReloadAll(s) == s
  {
  }

  /** Writing a normalised list and reading it back gives the same list. */
  lemma HistoryOfNormalized(s: seq<Entry>)
    requires Normalized(s)
    ensures History(s) == s
  {
    ReloadNormalized(s);
    SortByIdentity(s, TimeOf, true);
  }

  /** Saving what was read and reading it again changes nothing. */
  lemma HistoryIdempotent(stored: seq<Entry>)
    ensures History(History(stored)) == History(stored)
  {
    HistoryShape(stored);
    HistoryOfNormalized(History(stored));
  }

  /** Filtering a normalised list keeps it normalised. */
  lemma FilterNormalized(s: seq<Entry>, f: Entry -> bool)
    requires Normalized(s)
    ensures Normalized(Filter(s, f))
  {
    FilterSorted(s, f, TimeOf, true);
    var r := Filter(s, f);
    forall i | 0 <= i < |r| ensures r[i].customName != Some("") {
      assert r[i] in s;
    }
  }

  // ---------------------------------------------------------------------
  // saveDevice

  /** `indexOfFirst { it.deviceId == id }`, with `|s|` for -1. */
  function IndexOfId(s: seq<Entry>, id: string): (k: nat)
    ensures k <= |s|
    ensures forall j :: 0 <= j < k ==> s[j].deviceId != id
    ensures k < |s| ==> s[k].deviceId == id
  {
    if s == [] then 0 else if s[0].deviceId == id then 0 else 1 + IndexOfId(s[1..], id)
  }

  /** The entry `saveDevice` puts at the front: the known entry brought up to
      date, or a new one. */
  function Visited(devices: seq<Entry>, d: DeviceInfo, now: int): Entry
  {
    var k := IndexOfId(devices, d.deviceId);
    if k < |devices| then
      devices[k].(deviceName := d.deviceName, ip := d.ip, port := d.port,
                  lastConnectedTime := now, connectionCount := devices[k].connectionCount + 1)
    else
      Entry(d.deviceId, d.deviceName, d.platform, d.ip, d.port, now, 1, false, None)
  }

  /** The list without the known entry, if any (`removeAt`). */
  function Others(devices: seq<Entry>, id: string): seq<Entry>
  {
    var k := IndexOfId(devices, id);
    if k < |devices| then devices[..k] + devices[k + 1..] else devices
  }

  /** `add(0, entry)` on the list without the old entry. */
  function Merged(devices: seq<Entry>, d: DeviceInfo, now: int): seq<Entry>
  {
    [Visited(devices, d, now)] + Others(devices, d.deviceId)
  }

  /** All favourites, then as many non-favourites, in list order, as fit in
      `MAX_HISTORY_SIZE`; Kotlin's `take` throws on the negative count that
      more than 20 favourites give. */
  function Trim(list: seq<Entry>): Result<seq<Entry>>
  {
    var favorites := Filter(list, IsFavorite);
    var budget := MAX_HISTORY_SIZE - |favorites|;
    if budget < 0 then Err("IllegalArgumentException: requested element count is less than zero")
    else Ok(favorites + Take(Filter(list, NotFavorite), budget))
  }

  /** `saveDevice(device)` at time `now`: the list it writes. */
  function Save(stored: seq<Entry>, d: DeviceInfo, now: int): Result<seq<Entry>>
  {
    var t := Trim(Merged(History(stored), d, now));
    if t.Err? then Err(t.error) else Ok(SortBy(t.value, TimeOf, true))
  }

  /** The entry saved for a known id keeps platform, favourite flag and custom
      name, takes name, ip and port from the device, is stamped `now` and
      counts one more connection; a new id starts a fresh entry with count 1. */
  lemma SavedEntry(stored: seq<Entry>, d: DeviceInfo, now: int)
    ensures var h := History(stored); var v := Visited(h, d, now); var k := IndexOfId(h, d.deviceId);
      && v.deviceId == d.deviceId && v.deviceName == d.deviceName && v.ip == d.ip && v.port == d.port
      && v.lastConnectedTime == now
      && (k < |h| ==> v.platform == h[k].platform && v.isFavorite == h[k].isFavorite
                      && v.customName == h[k].customName && v.connectionCount == h[k].connectionCount + 1)
      && (k == |h| ==> v.platform == d.platform && !v.isFavorite && v.customName == None && v.connectionCount == 1)
  {
  }

  /** The entries other than the saved one come from the history. */
  lemma OthersFromHistory(devices: seq<Entry>, id: string, x: Entry)
    requires x in Others(devices, id)
    ensures x in devices
  {
    var k := IndexOfId(devices, id);
    if k < |devices| {
      if x in devices[..k] {
        var j :| 0 <= j < k && devices[..k][j] == x;
        assert devices[j] == x;
      } else {
        var j :| 0 <= j < |devices[k + 1..]| && devices[k + 1..][j] == x;
        assert devices[k + 1 + j] == x;
      }
    }
  }

  /** Membership in a trimmed list. */
  lemma TrimMembers(list: seq<Entry>, kept: seq<Entry>, x: Entry)
    requires Trim(list) == Ok(kept)
    ensures x in kept && x.isFavorite <==> x in list && x.isFavorite
    ensures x in kept && !x.isFavorite <==> x in Take(Filter(list, NotFavorite), MAX_HISTORY_SIZE - |Filter(list, IsFavorite)|)
    ensures x in kept ==> x in list
  {
    var favorites := Filter(list, IsFavorite);
    var non := Filter(list, NotFavorite);
    var rest := Take(non, MAX_HISTORY_SIZE - |favorites|);
    assert kept == favorites + rest;
    FilterMember(list, IsFavorite, x);
    FilterMember(list, NotFavorite, x);
    if x in rest {
      TakeMember(non, MAX_HISTORY_SIZE - |favorites|, x);
    }
  }

  /** The trim: `saveDevice` throws exactly when more than 20 favourites are
      stored; otherwise every favourite is kept, the non-favourites kept are
      the first `20 - favourites` of the new list, the result has
      `favourites + min(non-favourites, 20 - favourites) <= 20` entries, and
      it reads back as written. */
  lemma SaveTrims(stored: seq<Entry>, d: DeviceInfo, now: int)
    ensures var list := Merged(History(stored), d, now);
            var favorites := Filter(list, IsFavorite);
            var r := Save(stored, d, now);
      && (r.Err? <==> |favorites| > MAX_HISTORY_SIZE)
      && (r.Ok? ==>
        && (forall x :: x in r.value && x.isFavorite <==> x in list && x.isFavorite)
        && (forall x :: x in r.value && !x.isFavorite <==>
              x in Take(Filter(list, NotFavorite), MAX_HISTORY_SIZE - |favorites|))
        && |r.value| == |favorites| + Min(|Filter(list, NotFavorite)|, MAX_HISTORY_SIZE - |favorites|)
        && |r.value| <= MAX_HISTORY_SIZE
        && History(r.value) == r.value)
  {
    var h := History(stored);
    var list := Merged(h, d, now);
    var r := Save(stored, d, now);
    if r.Ok? {
      var kept := Trim(list).value;
      assert r.value == SortBy(kept, TimeOf, true);
      forall x ensures x in r.value <==> x in kept {
        SortByMembers(kept, TimeOf, true, x);
      }
      forall x ensures (x in r.value && x.isFavorite <==> x in list && x.isFavorite)
        && (x in r.value && !x.isFavorite <==>
              x in Take(Filter(list, NotFavorite), MAX_HISTORY_SIZE - |Filter(list, IsFavorite)|))
      {
        TrimMembers(list, kept, x);
      }
      SaveNormalized(stored, d, now);
      HistoryOfNormalized(r.value);
    }
  }

  /** What `saveDevice` writes is newest first with no empty custom name. */
  lemma SaveNormalized(stored: seq<Entry>, d: DeviceInfo, now: int)
    requires Save(stored, d, now).Ok?
    ensures Normalized(Save(stored, d, now).value)
  {
    var h := History(stored);
    var list := Merged(h, d, now);
    var kept := Trim(list).value;
    var r := Save(stored, d, now).value;
    HistoryShape(stored);
    forall i | 0 <= i < |r| ensures r[i].customName != Some("") {
      var x := r[i];
      SortByMembers(kept, TimeOf, true, x);
      TrimMembers(list, kept, x);
      if x != Visited(h, d, now) {
        assert x in Others(h, d.deviceId);
        OthersFromHistory(h, d.deviceId, x);
      }
    }
  }

  /** The saved entry is kept exactly when it is a favourite or fewer than 20
      favourites are stored. */
  lemma SaveKeepsVisited(stored: seq<Entry>, d: DeviceInfo, now: int)
    requires Save(stored, d, now).Ok?
    ensures var h := History(stored); var v := Visited(h, d, now);
      v in Save(stored, d, now).value <==>
        v.isFavorite || |Filter(Merged(h, d, now), IsFavorite)| < MAX_HISTORY_SIZE
  {
    var h := History(stored);
    var list := Merged(h, d, now);
    var v := Visited(h, d, now);
    var kept := Trim(list).value;
    SortByMembers(kept, TimeOf, true, v);
    TrimMembers(list, kept, v);
    var non := Filter(list, NotFavorite);
    if !v.isFavorite {
      assert non == [v] + Filter(Others(h, d.deviceId), NotFavorite) by {
        assert list[1..] == Others(h, d.deviceId);
      }
      var budget := MAX_HISTORY_SIZE - |Filter(list, IsFavorite)|;
      if budget > 0 {
        assert Take(non, budget)[0] == v;
      }
    }
  }

  /** When every stored entry is older than `now` and the saved entry is kept,
      it comes first in the saved list. */
  lemma SaveMovesToFront(stored: seq<Entry>, d: DeviceInfo, now: int)
    requires forall x :: x in History(stored) ==> x.lastConnectedTime < now
    requires Save(stored, d, now).Ok?
    requires Visited(History(stored), d, now) in Save(stored, d, now).value
    ensures Save(stored, d, now).value[0] == Visited(History(stored), d, now)
  {
    var h := History(stored);
    var list := Merged(h, d, now);
    var v := Visited(h, d, now);
    var kept := Trim(list).value;
    var r := Save(stored, d, now).value;
    var i :| 0 <= i < |r| && r[i] == v;
    assert r[0].lastConnectedTime >= now by {
      assert i == 0 || InOrder(TimeOf(r[0]), TimeOf(r[i]), true);
    }
    SortByMembers(kept, TimeOf, true, r[0]);
    TrimMembers(list, kept, r[0]);
    if r[0] != v {
      assert r[0] in Others(h, d.deviceId);
      OthersFromHistory(h, d.deviceId, r[0]);
    }
  }

  /** A history of at most 20 entries never makes `saveDevice` throw, and stays
      within 20 entries. */
  lemma SaveNeverThrows(stored: seq<Entry>, d: DeviceInfo, now: int)
    requires |stored| <= MAX_HISTORY_SIZE
    ensures Save(stored, d, now).Ok?
    ensures |Save(stored, d, now).value| <= MAX_HISTORY_SIZE
  {
    var h := History(stored);
    HistoryShape(stored);
    var list := Merged(h, d, now);
    var k := IndexOfId(h, d.deviceId);
    if k == |h| {
      assert Filter(list, IsFavorite) == Filter(h, IsFavorite) by {
        assert list[1..] == h;
      }
    }
    SaveTrims(stored, d, now);
  }

  // ---------------------------------------------------------------------
  // Queries

  /** `getRecentDevices(limit)`; Kotlin's `take` throws on a negative limit. */
  function Recent(stored: seq<Entry>, limit: int): Result<seq<Entry>>
  {
    if limit < 0 then Err("IllegalArgumentException: requested element count is less than zero")
    else Ok(Take(History(stored), limit))
  }

  /** The recent devices are the first `limit` of the history, no older entry
      is left out in favour of a newer one, and a negative limit throws. */
  lemma RecentNewest(stored: seq<Entry>, limit: int)
    ensures Recent(stored, limit).Err? <==> limit < 0
    ensures limit >= 0 ==> var r := Recent(stored, limit).value; var h := History(stored);
      && |r| == Min(limit, |stored|) && r == h[..|r|]
      && forall i, j :: 0 <= i < |r| <= j < |h| ==> h[j].lastConnectedTime <= r[i].lastConnectedTime
  {
    HistoryShape(stored);
    if limit >= 0 {
      var h := History(stored);
      var r := Take(h, limit);
      forall i, j | 0 <= i < |r| <= j < |h| ensures h[j].lastConnectedTime <= r[i].lastConnectedTime {
        assert r[i] == h[i] && InOrder(TimeOf(h[i]), TimeOf(h[j]), true);
      }
    }
  }

  /** `getFavoriteDevices()`. */
  function Favorites(stored: seq<Entry>): seq<Entry>
  {
    Filter(History(stored), IsFavorite)
  }

  /** The favourites are the history's favourite entries, newest first. */
  lemma FavoritesExactly(stored: seq<Entry>)
    ensures forall x :: x in Favorites(stored) <==> x in History(stored) && x.isFavorite
    ensures Normalized(Favorites(stored))
  {
    HistoryShape(stored);
    FilterNormalized(History(stored), IsFavorite);
    var h := History(stored);
    forall x | x in h && x.isFavorite ensures x in Favorites(stored) {
      var j :| 0 <= j < |h| && h[j] == x;
    }
  }

  /** `getLastConnectedDevice()`: the first entry with the remembered id. */
  function LastConnected(stored: seq<Entry>, last: Option<string>): Option<Entry>
  {
    if last.None? then None
    else
      var h := History(stored);
      var k := IndexOfId(h, last.value);
      if k < |h| then Some(h[k]) else None
  }

  /** The last connected device carries the remembered id, and is missing only
      when no id is remembered or no entry carries it. */
  lemma LastConnectedFound(stored: seq<Entry>, last: Option<string>)
    ensures var r := LastConnected(stored, last);
      && (r.Some? ==> last.Some? && r.value in History(stored) && r.value.deviceId == last.value)
      && (r.None? <==> last.None? || forall x :: x in History(stored) ==> x.deviceId != last.value)
  {
  }

  /** `device.<field>.lowercase().contains(lowerQuery)` etc., for the
      already lower-cased query `lq`: the ip is matched without lower-casing. */
  function Matches(lq: string): Entry -> bool
  {
    (e: Entry) =>
      Contains(ToLower(e.deviceName), lq)
      || (e.customName.Some? && Contains(ToLower(e.customName.value), lq))
      || Contains(e.ip, lq)
      || Contains(ToLower(e.deviceId), lq)
  }

  /** `searchDevices(query)`. */
  function Search(stored: seq<Entry>, query: string): seq<Entry>
  {
    Filter(History(stored), Matches(ToLower(query)))
  }

  /** An entry is found exactly when the lower-cased query occurs in its
      lower-cased name, custom name or id, or in its ip as stored. */
  lemma SearchMembers(stored: seq<Entry>, query: string, x: Entry)
    ensures x in Search(stored, query) <==>
      (x in History(stored) &&
       (Contains(ToLower(x.deviceName), ToLower(query))
        || (x.customName.Some? && Contains(ToLower(x.customName.value), ToLower(query)))
        || Contains(x.ip, ToLower(query))
        || Contains(ToLower(x.deviceId), ToLower(query))))
  {
    var h := History(stored);
    if x in h && Matches(ToLower(query))(x) {
      var j :| 0 <= j < |h| && h[j] == x;
    }
  }

  /** Every string contains the empty one. */
  lemma ContainsEmpty(s: string)
    ensures Contains(s, "")
  {
    ContainsAt(s, "", 0);
  }

  /** The empty query finds the whole history. */
  lemma SearchEmptyQuery(stored: seq<Entry>)
    ensures Search(stored, "") == History(stored)
  {
    var h := History(stored);
    forall i | 0 <= i < |h| ensures Matches(ToLower(""))(h[i]) {
      ContainsEmpty(ToLower(h[i].deviceName));
    }
    FilterAll(h, Matches(ToLower("")));
  }

  /** The query's case does not matter. */
  lemma SearchCaseInsensitive(stored: seq<Entry>, query: string)
    ensures Search(stored, query) == Search(stored, ToLower(query))
  {
    LowerIdentity(ToLower(query));
  }

  /** `sumOf { it.connectionCount }`. */
  lemma {:induction false} SumAtLeastLength(s: seq<Entry>)
    requires forall x :: x in s ==> x.connectionCount >= 1
    ensures Sum(s, CountOf) >= |s|
  {
    if s != [] {
      assert s[0] in s;
      assert forall x :: x in s[1..] ==> x in s;
      SumAtLeastLength(s[1..]);
    }
  }

  /** `getStatistics()`. */
  function Stats(stored: seq<Entry>, last: Option<string>): Statistics
  {
    var h := History(stored);
    Statistics(|h|, Count(h, IsFavorite), Sum(h, CountOf), Best(h, CountOf, AnyEntry), LastConnected(stored, last))
  }

  /** The totals, and the most connected device: the first entry of greatest
      count (`maxByOrNull`), missing only for an empty history. */
  lemma StatisticsFacts(stored: seq<Entry>, last: Option<string>)
    ensures var st := Stats(stored, last); var h := History(stored);
      && st.totalDevices == |stored|
      && st.favoriteDevices == |Favorites(stored)| <= st.totalDevices
      && (st.mostConnectedDevice.None? <==> stored == [])
      && (st.mostConnectedDevice.Some? ==>
            st.mostConnectedDevice.value in h
            && forall x :: x in h ==> x.connectionCount <= st.mostConnectedDevice.value.connectionCount)
      && ((forall i :: 0 <= i < |stored| ==> stored[i].connectionCount >= 1) ==> st.totalConnections >= st.totalDevices)
      && st.lastConnectedDevice == LastConnected(stored, last)
  {
    var h := History(stored);
    HistoryShape(stored);
    var b := BestIndex(h, CountOf, AnyEntry);
    if stored != [] {
      assert AnyEntry(h[0]);
    }
    if forall i :: 0 <= i < |stored| ==> stored[i].connectionCount >= 1 {
      forall x | x in h ensures x.connectionCount >= 1 {
        assert x in ReloadAll(stored);
      }
      SumAtLeastLength(h);
    }
  }

  /** `toDeviceInfo(entry)`: the custom name, if any, is shown as the name. */
  function ToDeviceInfo(e: Entry): DeviceInfo
  {
    DeviceInfo(e.deviceId, e.customName.GetOr(e.deviceName), e.platform, VERSION, e.ip, e.port, CAPABILITIES, e.lastConnectedTime)
  }

  /** Reconnecting to a history entry through its `DeviceInfo` keeps its
      address, platform, flag and custom name, but writes the name shown
      (the custom name, when set) into `deviceName`. */
  lemma ReconnectThroughInfo(stored: seq<Entry>, i: nat, now: int)
    requires i < |History(stored)| && IndexOfId(History(stored), History(stored)[i].deviceId) == i
    ensures var e := History(stored)[i];
      Visited(History(stored), ToDeviceInfo(e), now) ==
        e.(deviceName := e.customName.GetOr(e.deviceName), lastConnectedTime := now,
           connectionCount := e.connectionCount + 1)
  {
  }

  // ---------------------------------------------------------------------
  // Edits of one entry

  /** The three single-entry edits. */
  datatype Edit =
    | MarkFavorite(favorite: bool)            // setFavorite
    | Rename(name: Option<string>)            // setCustomName
    | MoveTo(newIp: string, newPort: Option<int>)  // updateDeviceIp

  function Apply(e: Entry, edit: Edit): Entry
  {
    match edit
    case MarkFavorite(f) => e.(isFavorite := f)
    case Rename(n) => e.(customName := n)
    case MoveTo(a, p) => e.(ip := a, port := p.GetOr(e.port))
  }

  /** What each edit changes: a single field, or ip and port, where a missing
      port keeps the old one. Id and time are never changed. */
  lemma ApplyChanges(e: Entry, edit: Edit)
    ensures var r := Apply(e, edit);
      && r.deviceId == e.deviceId && r.lastConnectedTime == e.lastConnectedTime
      && r.connectionCount == e.connectionCount && r.deviceName == e.deviceName && r.platform == e.platform
      && (edit.MarkFavorite? ==> r == e.(isFavorite := edit.favorite))
      && (edit.Rename? ==> r == e.(customName := edit.name))
      && (edit.MoveTo? ==> r.ip == edit.newIp && r.isFavorite == e.isFavorite && r.customName == e.customName
                           && (edit.newPort.None? ==> r.port == e.port)
                           && (edit.newPort.Some? ==> r.port == edit.newPort.value))
  {
  }

  /** The list an edit writes; nothing is written when no entry matches. */
  function Update(stored: seq<Entry>, id: string, edit: Edit): seq<Entry>
  {
    var h := History(stored);
    var k := IndexOfId(h, id);
    if k < |h| then h[k := Apply(h[k], edit)] else stored
  }

  /** An edit changes the first entry with the id and no other; without such
      an entry it writes nothing. Except for an empty custom name, what it
      writes reads back unchanged. */
  lemma UpdateOnlyMatching(stored: seq<Entry>, id: string, edit: Edit)
    ensures var h := History(stored); var k := IndexOfId(h, id); var r := Update(stored, id, edit);
      && (k == |h| <==> forall x :: x in h ==> x.deviceId != id)
      && (k == |h| ==> r == stored)
      && (k < |h| ==> |r| == |h| && h[k].deviceId == id && r[k] == Apply(h[k], edit)
                      && (forall i :: 0 <= i < |h| && i != k ==> r[i] == h[i])
                      && (edit != Rename(Some("")) ==> History(r) == r))
  {
    var h := History(stored);
    var k := IndexOfId(h, id);
    HistoryShape(stored);
    if k < |h| && edit != Rename(Some("")) {
      var r := Update(stored, id, edit);
      assert Normalized(r) by {
        forall i, j | 0 <= i < j < |r| ensures InOrder(TimeOf(r[i]), TimeOf(r[j]), true) {
          assert TimeOf(r[i]) == TimeOf(h[i]) && TimeOf(r[j]) == TimeOf(h[j]);
        }
      }
      HistoryOfNormalized(r);
    }
  }

  /** An empty custom name reads back as no custom name. */
  lemma EmptyNameReadsAsNone(stored: seq<Entry>, id: string)
    requires IndexOfId(History(stored), id) < |History(stored)|
    ensures var k := IndexOfId(History(stored), id);
      History(Update(stored, id, Rename(Some(""))))[k] == History(stored)[k].(customName := None)
  {
    var h := History(stored);
    var k := IndexOfId(h, id);
    HistoryShape(stored);
    var r := Update(stored, id, Rename(Some("")));
    var back := ReloadAll(r);
    assert back == h[k := h[k].(customName := None)] by {
      ReloadNormalized(h);
    }
    assert SortedBy(back, TimeOf, true) by {
      forall i, j | 0 <= i < j < |back| ensures InOrder(TimeOf(back[i]), TimeOf(back[j]), true) {
        assert TimeOf(back[i]) == TimeOf(h[i]) && TimeOf(back[j]) == TimeOf(h[j]);
      }
    }
    SortByIdentity(back, TimeOf, true);
  }

  // ---------------------------------------------------------------------
  // Removal and clearing

  /** `removeDevice(id)`: the list written (always). */
  function Remove(stored: seq<Entry>, id: string): seq<Entry>
  {
    Filter(History(stored), OtherId(id))
  }

  /** `removeDevice(id)`: the last-connected id afterwards. */
  function ForgetLast(last: Option<string>, id: string): Option<string>
  {
    if last == Some(id) then None else last
  }

  /** Removal drops exactly the entries with the id, and the rest reads back
      in order. */
  lemma RemoveEffect(stored: seq<Entry>, id: string)
    ensures forall x :: x in Remove(stored, id) <==> x in History(stored) && x.deviceId != id
    ensures History(Remove(stored, id)) == Remove(stored, id)
  {
    var h := History(stored);
    var r := Remove(stored, id);
    HistoryShape(stored);
    forall x ensures x in r <==> x in h && x.deviceId != id {
      FilterMember(h, OtherId(id), x);
    }
    FilterNormalized(h, OtherId(id));
    HistoryOfNormalized(r);
  }

  /** After removal the last connected device is gone when it was the removed
      one, and otherwise is the same entry as before. */
  lemma RemoveForgets(stored: seq<Entry>, id: string, last: Option<string>)
    ensures LastConnected(Remove(stored, id), ForgetLast(last, id)) ==
      if last == Some(id) then None else LastConnected(stored, last)
  {
    RemoveEffect(stored, id);
    if last.Some? && last.value != id {
      KeepFirstMatch(History(stored), OtherId(id), last.value);
    }
  }

  /** Filtering out other ids keeps the first entry with a remaining id. */
  lemma {:induction false} KeepFirstMatch(s: seq<Entry>, f: Entry -> bool, id: string)
    requires forall x: Entry :: x.deviceId == id ==> f(x)
    ensures var r := Filter(s, f); var k := IndexOfId(r, id); var j := IndexOfId(s, id);
      (k < |r| <==> j < |s|) && (k < |r| ==> r[k] == s[j])
  {
    if s != [] {
      var t := Filter(s[1..], f);
      KeepFirstMatch(s[1..], f, id);
      if s[0].deviceId == id {
        assert Filter(s, f) == [s[0]] + t;
      } else {
        IndexOfIdCons(s[0], s[1..], id);
        assert [s[0]] + s[1..] == s;
        if f(s[0]) {
          assert Filter(s, f) == [s[0]] + t;
          IndexOfIdCons(s[0], t, id);
        } else {
          assert Filter(s, f) == t;
        }
      }
    }
  }

  /** Searching past a head with another id. */
  lemma IndexOfIdCons(x: Entry, t: seq<Entry>, id: string)
    requires x.deviceId != id
    ensures IndexOfId([x] + t, id) == 1 + IndexOfId(t, id)
    ensures IndexOfId(t, id) < |t| ==> ([x] + t)[1 + IndexOfId(t, id)] == t[IndexOfId(t, id)]
  {
    assert ([x] + t)[1..] == t;
  }

  /** `clearHistory(keepFavorites)`: the list written; removing the key reads
      back as the empty list. */
  function Clear(stored: seq<Entry>, keepFavorites: bool): seq<Entry>
  {
    if keepFavorites then Favorites(stored) else []
  }

  /** Keeping favourites leaves exactly the favourites and the last-connected
      id; clearing fully leaves nothing. */
  lemma ClearEffect(stored: seq<Entry>, keepFavorites: bool)
    ensures keepFavorites ==>
      forall x :: x in History(Clear(stored, true)) <==> x in History(stored) && x.isFavorite
    ensures keepFavorites ==> History(Clear(stored, true)) == Favorites(stored)
    ensures !keepFavorites ==> History(Clear(stored, false)) == []
  {
    FavoritesExactly(stored);
    if keepFavorites {
      HistoryOfNormalized(Favorites(stored));
    }
  }

  /** Histories within `MAX_HISTORY_SIZE` stay within it under every write. */
  lemma WritesStayBounded(stored: seq<Entry>, id: string, edit: Edit, keep: bool)
    requires |stored| <= MAX_HISTORY_SIZE
    ensures |Update(stored, id, edit)| <= MAX_HISTORY_SIZE
    ensures |Remove(stored, id)| <= MAX_HISTORY_SIZE
    ensures |Clear(stored, keep)| <= MAX_HISTORY_SIZE
  {
    HistoryShape(stored);
  }

  // ---------------------------------------------------------------------
  // The manager over its preferences

  class DeviceHistoryManager {
    /** The "devices" array as last written. */
    var devices: seq<Entry>
    /** The "last_connected" id. */
    var lastConnected: Option<string>

    /** A manager over what the preferences already hold. */
    constructor (stored: seq<Entry>, last: Option<string>)
      ensures devices == stored && lastConnected == last
    {
      devices, lastConnected := stored, last;
    }

    /** `saveDevice(device)` at clock time `now`; `thrown` when `take` throws,
        in which case nothing is written. */
    method SaveDevice(d: DeviceInfo, now: int) returns (thrown: bool)
      modifies this
      ensures thrown <==> Save(old(devices), d, now).Err?
      ensures !thrown ==> devices == Save(old(devices), d, now).value && lastConnected == Some(d.deviceId)
      ensures thrown ==> devices == old(devices) && lastConnected == old(lastConnected)
    {
      var r := Save(devices, d, now);
      if r.Err? {
        return true;
      }
      devices := r.value;
      lastConnected := Some(d.deviceId);
      return false;
    }

    method GetDeviceHistory() returns (h: seq<Entry>)
      ensures h == History(devices)
    {
      h := History(devices);
    }

    method GetRecentDevices(limit: int) returns (r: Result<seq<Entry>>)
      ensures r == Recent(devices, limit)
    {
      r := Recent(devices, limit);
    }

    method GetFavoriteDevices() returns (r: seq<Entry>)
      ensures r == Favorites(devices)
    {
      r := Favorites(devices);
    }

    method GetLastConnectedDevice() returns (r: Option<Entry>)
      ensures r == LastConnected(devices, lastConnected)
    {
      r := LastConnected(devices, lastConnected);
    }

    method SetFavorite(id: string, favorite: bool)
      modifies this
      ensures devices == Update(old(devices), id, MarkFavorite(favorite)) && lastConnected == old(lastConnected)
    {
      devices := Update(devices, id, MarkFavorite(favorite));
    }

    method SetCustomName(id: string, name: Option<string>)
      modifies this
      ensures devices == Update(old(devices), id, Rename(name)) && lastConnected == old(lastConnected)
    {
      devices := Update(devices, id, Rename(name));
    }

    method UpdateDeviceIp(id: string, newIp: string, newPort: Option<int>)
      modifies this
      ensures devices == Update(old(devices), id, MoveTo(newIp, newPort)) && lastConnected == old(lastConnected)
    {
      devices := Update(devices, id, MoveTo(newIp, newPort));
    }

    method RemoveDevice(id: string)
      modifies this
      ensures devices == Remove(old(devices), id) && lastConnected == ForgetLast(old(lastConnected), id)
    {
      devices := Remove(devices, id);
      if lastConnected == Some(id) {
        lastConnected := None;
      }
    }

    method ClearHistory(keepFavorites: bool)
      modifies this
      ensures devices == Clear(old(devices), keepFavorites)
      ensures lastConnected == if keepFavorites then old(lastConnected) else None
    {
      devices := Clear(devices, keepFavorites);
      if !keepFavorites {
        lastConnected := None;
      }
    }

    method SearchDevices(query: string) returns (r: seq<Entry>)
      ensures r == Search(devices, query)
    {
      r := Search(devices, query);
    }

    method GetStatistics() returns (st: Statistics)
      ensures st == Stats(devices, lastConnected)
    {
      st := Stats(devices, lastConnected);
    }
  }
}
