/** The front end's simulated device discovery
    (`frontend/services/DeviceDiscoveryService.js`): a list of devices that
    scans grow, change and shrink at random, that callers add to, remove
    from, update, clear, import, search and filter. `Math.random()` and
    the clock are parameters: a scan's outcome (the candidate devices, the
    devices whose status flips, the one that goes offline) is handed to
    the step that completes the scan. Listeners, emitted events, console
    output and the JSON text of export and import are not modelled. */
module DeviceDiscoveryService {
  import opened Wrappers
  import opened Seqs
  import opened Text
  import opened JsValues

  const CONNECTED := "connected"
  const DISCONNECTED := "disconnected"

  datatype Connection = Connection(signalStrength: int, latency: int, bandwidth: int, uptime: int, protocol: string)

  /** The device metadata the service reads: the battery level is `null`
      for Windows and macOS machines. */
  datatype Metadata = Metadata(osVersion: string, appVersion: string, batteryLevel: Option<int>, screenResolution: string)

  datatype Performance = Performance(cpuUsage: int, memoryUsage: int, temperature: int)

  /** A device. `metadata` and `connection` are absent only on imported
      devices that lacked them. */
  datatype Device = Device(
    id: string, name: string, type_: string, manufacturer: string, model: string,
    ip: string, mac: string, status: string,
    lastSeen: int, lastStatusChange: int, firstSeen: int, icon: string, color: string,
    metadata: Option<Metadata>, performance: Performance, connection: Option<Connection>)

  /** `device[key]` for the keys a filter can name; the nested records are
      objects, and any other key is `undefined`. */
  function Field(d: Device, key: string): (v: JsValue)
    ensures key == "type" ==> v == Str(d.type_)
    ensures key == "status" ==> v == Str(d.status)
  {
    if key == "id" then Str(d.id)
    else if key == "name" then Str(d.name)
    else if key == "type" then Str(d.type_)
    else if key == "manufacturer" then Str(d.manufacturer)
    else if key == "model" then Str(d.model)
    else if key == "ip" then Str(d.ip)
    else if key == "mac" then Str(d.mac)
    else if key == "status" then Str(d.status)
    else if key == "icon" then Str(d.icon)
    else if key == "color" then Str(d.color)
    else if key == "lastSeen" then Num(d.lastSeen)
    else if key == "lastStatusChange" then Num(d.lastStatusChange)
    else if key == "firstSeen" then Num(d.firstSeen)
    else if key == "performance" then Obj(map[])
    else if key == "connection" && d.connection.Some? then Obj(map[])
    else if key == "metadata" && d.metadata.Some? then Obj(map[])
    else Undefined
  }

  // ---------------------------------------------------------------------
  // Queries

  /** `getDeviceById(id)`: the first device with that id. */
  function DeviceById(ds: seq<Device>, id: string): (r: Option<Device>)
    ensures r.Some? <==> exists i :: 0 <= i < |ds| && ds[i].id == id
    ensures r.Some? ==> r.value in ds && r.value.id == id
  {
    if ds == [] then None
    else if ds[0].id == id then Some(ds[0])
    else
      var r := DeviceById(ds[1..], id);
      assert forall i :: 0 < i < |ds| ==> ds[i] == ds[1..][i - 1];
      r
  }

  /** The index of the first device with that id (`findIndex`), or -1. */
  function IndexOfId(ds: seq<Device>, id: string): (k: int)
    ensures -1 <= k < |ds|
    ensures k == -1 <==> forall i :: 0 <= i < |ds| ==> ds[i].id != id
    ensures k >= 0 ==> ds[k].id == id && forall i :: 0 <= i < k ==> ds[i].id != id
  {
    if ds == [] then -1
    else if ds[0].id == id then 0
    else
      var k := IndexOfId(ds[1..], id);
      assert forall i :: 0 < i < |ds| ==> ds[i] == ds[1..][i - 1];
      if k == -1 then -1 else k + 1
  }

  /** `getDevicesByType`, `getConnectedDevices` and `getDisconnectedDevices`. */
  function OfType(ds: seq<Device>, t: string): seq<Device>
  {
    Filter(ds, (d: Device) => d.type_ == t)
  }

  function WithStatus(ds: seq<Device>, status: string): seq<Device>
  {
    Filter(ds, (d: Device) => d.status == status)
  }

  /** `getDevicesByType(t)` is the filter `type === t` (which
      `filterDevices({type: t})` also gives), and the connected and
      disconnected lists are exactly the devices with those statuses. */
  lemma QueriesSelect(ds: seq<Device>, t: string, d: Device)
    ensures d in OfType(ds, t) <==> d in ds && d.type_ == t
    ensures d in WithStatus(ds, CONNECTED) <==> d in ds && d.status == CONNECTED
    ensures d in WithStatus(ds, DISCONNECTED) <==> d in ds && d.status == DISCONNECTED
    ensures OfType(ds, t) == Filtered(ds, [("type", Str(t))])
  {
    FilterMember(ds, (d: Device) => d.type_ == t, d);
    FilterMember(ds, (d: Device) => d.status == CONNECTED, d);
    FilterMember(ds, (d: Device) => d.status == DISCONNECTED, d);
    forall d: Device ensures (d.type_ == t) == Accepts(d, [("type", Str(t))]) {
      assert [("type", Str(t))][1..] == [];
    }
    SameFilter(ds, (d: Device) => d.type_ == t, (d: Device) => Accepts(d, [("type", Str(t))]));
  }

  lemma {:induction false} SameFilter(ds: seq<Device>, f: Device -> bool, g: Device -> bool)
    requires forall d :: f(d) == g(d)
    ensures Filter(ds, f) == Filter(ds, g)
  {
    if ds != [] {
      SameFilter(ds[1..], f, g);
    }
  }

  /** One device matches a search for the lower-cased query. */
  predicate Matches(d: Device, lowerQuery: string)
  {
    || Contains(ToLower(d.name), lowerQuery)
    || Contains(ToLower(d.id), lowerQuery)
    || Contains(ToLower(d.ip), lowerQuery)
    || Contains(ToLower(d.mac), lowerQuery)
    || Contains(ToLower(d.manufacturer), lowerQuery)
    || Contains(ToLower(d.model), lowerQuery)
  }

  /** `searchDevices(query)`. */
  function Search(ds: seq<Device>, query: string): seq<Device>
  {
    if query == "" then [] else Filter(ds, (d: Device) => Matches(d, ToLower(query)))
  }

  /** An empty query finds nothing; any other finds exactly the devices
      whose name, id, address, MAC address, maker or model contains it,
      ignoring case. */
  lemma SearchFinds(ds: seq<Device>, query: string, d: Device)
    ensures Search(ds, "") == []
    ensures query != "" ==> (d in Search(ds, query) <==> d in ds && Matches(d, ToLower(query)))
  {
    if query != "" {
      FilterMember(ds, (d: Device) => Matches(d, ToLower(query)), d);
    }
  }

  /** Changing the case of the query changes nothing. */
  lemma SearchIgnoresCase(ds: seq<Device>, a: string, b: string)
    requires ToLower(a) == ToLower(b)
    ensures Search(ds, a) == Search(ds, b)
  {
  }

  /** The value of `device.connection?.signalStrength`,
      `device.connection?.latency` and `device.metadata?.batteryLevel`
      as JavaScript sees it. */
  function SignalValue(d: Device): JsValue
  {
    if d.connection.Some? then Num(d.connection.value.signalStrength) else Undefined
  }

  function LatencyValue(d: Device): JsValue
  {
    if d.connection.Some? then Num(d.connection.value.latency) else Undefined
  }

  function BatteryValue(d: Device): JsValue
  {
    if d.metadata.None? then Undefined
    else if d.metadata.value.batteryLevel.None? then Null
    else Num(d.metadata.value.batteryLevel.value)
  }

  /** `items.includes(v)` for the primitive values a field holds; an
      object field is never an element, being compared by reference. */
  predicate Includes(items: seq<JsValue>, v: JsValue)
  {
    !v.Obj? && !v.Arr? && v in items
  }

  /** One entry of `filterDevices`'s loop: false exactly where the source
      returns false. The three bounds are checked first; when a bound
      holds, the entry still goes on to the string and array tests, which
      read `device[key]`. */
  predicate Passes(d: Device, key: string, value: JsValue)
  {
    if key == "minSignalStrength" && Greater(value, SignalValue(d)) then false
    else if key == "maxLatency" && Greater(LatencyValue(d), value) then false
    else if key == "minBatteryLevel" && Greater(value, BatteryValue(d)) then false
    else if value.Str? && Field(d, key) != value then false
    else if value.Arr? && !Includes(value.items, Field(d, key)) then false
    else true
  }

  /** The loop over `Object.entries(filters)` for one device. */
  predicate Accepts(d: Device, filters: seq<(string, JsValue)>)
  {
    filters == [] || (Passes(d, filters[0].0, filters[0].1) && Accepts(d, filters[1..]))
  }

  /** `filterDevices(filters)`. */
  function Filtered(ds: seq<Device>, filters: seq<(string, JsValue)>): seq<Device>
  {
    Filter(ds, (d: Device) => Accepts(d, filters))
  }

  /** A device is kept exactly when every entry passes, whatever their order. */
  lemma {:induction false} AcceptsAll(d: Device, filters: seq<(string, JsValue)>)
    ensures Accepts(d, filters) <==> forall i :: 0 <= i < |filters| ==> Passes(d, filters[i].0, filters[i].1)
  {
    if filters != [] {
      AcceptsAll(d, filters[1..]);
      assert forall i :: 0 < i < |filters| ==> filters[i] == filters[1..][i - 1];
    }
  }

  /** No filter keeps every device; a string must equal the field, an
      array must hold it, and a number on any other key is ignored. */
  lemma PassesCases(d: Device, key: string, value: JsValue)
    requires key !in {"minSignalStrength", "maxLatency", "minBatteryLevel"}
    ensures value.Str? ==> (Passes(d, key, value) <==> Field(d, key) == value)
    ensures value.Arr? ==> (Passes(d, key, value) <==> Includes(value.items, Field(d, key)))
    ensures value.Num? ==> Passes(d, key, value)
    ensures Accepts(d, [])
  {
  }

  /** With a numeric bound and a connection the bounds are the plain
      comparisons; a device without a connection (or metadata) is never
      dropped by them, and a `null` battery level counts as 0. */
  lemma BoundsCompare(d: Device, v: int)
    ensures d.connection.Some? ==> (Passes(d, "minSignalStrength", Num(v)) <==> d.connection.value.signalStrength >= v)
    ensures d.connection.Some? ==> (Passes(d, "maxLatency", Num(v)) <==> d.connection.value.latency <= v)
    ensures d.connection.None? ==> Passes(d, "minSignalStrength", Num(v)) && Passes(d, "maxLatency", Num(v))
    ensures d.metadata.None? ==> Passes(d, "minBatteryLevel", Num(v))
    ensures d.metadata.Some? && d.metadata.value.batteryLevel.None? ==> (Passes(d, "minBatteryLevel", Num(v)) <==> v <= 0)
  {
    GreaterNums(v, 0);
  }

  /** A bound given as a string falls through to the string test, and no
      device has a property of that name: such a filter keeps nothing. */
  lemma StringBoundKeepsNothing(ds: seq<Device>, key: string, s: string)
    requires key in {"minSignalStrength", "maxLatency", "minBatteryLevel"}
    ensures Filtered(ds, [(key, Str(s))]) == []
  {
    assert forall d: Device :: !Accepts(d, [(key, Str(s))]) by {
      forall d: Device ensures !Accepts(d, [(key, Str(s))]) {
        assert Field(d, key) == Undefined;
      }
    }
    FilterNone(ds, (d: Device) => Accepts(d, [(key, Str(s))]));
  }

  lemma FilterNone(ds: seq<Device>, f: Device -> bool)
    requires forall d :: !f(d)
    ensures Filter(ds, f) == []
  {
  }

  // ---------------------------------------------------------------------
  // Changes

  /** What a caller passes to `addDevice`: `None` is `undefined`, and an
      empty string is also falsy. */
  datatype DeviceData = DeviceData(
    id: Option<string>, name: Option<string>, type_: Option<string>, manufacturer: Option<string>,
    model: Option<string>, ip: Option<string>, mac: Option<string>, status: Option<string>,
    icon: Option<string>, color: Option<string>,
    metadata: Option<Metadata>, performance: Option<Performance>, connection: Option<Connection>)

  /** `x || fallback` on an optional string. */
  function Or(x: Option<string>, fallback: string): string
  {
    if x.Some? && x.value != "" then x.value else fallback
  }

  /** What `Math.random()` gives `addDevice`: the last address byte less
      one, a MAC address, metadata and performance figures. */
  datatype AddDraws = AddDraws(ipByte: nat, mac: string, metadata: Metadata, performance: Performance)

  function DefaultConnection(): Connection
  {
    Connection(5, 20, 50, 0, "WebSocket")
  }

  /** The device `addDevice(data)` builds. Without an id the id is made
      from the lower-cased type, which throws when there is no type. */
  function NewDevice(data: DeviceData, now: int, draws: AddDraws): (r: Result<Device>)
    requires draws.ipByte < 254
  {
    if Or(data.id, "") == "" && data.type_.None? then Err("TypeError: Cannot read properties of undefined (reading 'toLowerCase')")
    else
      var typeText := if data.type_.Some? then data.type_.value else "undefined";
      var metadata := if data.metadata.Some? then data.metadata.value else draws.metadata;
      Ok(Device(
        Or(data.id, ToLower(typeText) + "-" + IntToString(now)),
        Or(data.name, typeText + " Device"),
        Or(data.type_, "Unknown"),
        Or(data.manufacturer, "Unknown"),
        Or(data.model, "Unknown"),
        Or(data.ip, "192.168.1." + NatToString(draws.ipByte + 1)),
        Or(data.mac, draws.mac),
        Or(data.status, CONNECTED),
        now, now, now,
        Or(data.icon, "desktop"),
        Or(data.color, "#1890ff"),
        Some(metadata),
        if data.performance.Some? then data.performance.value else draws.performance,
        Some(if data.connection.Some? then data.connection.value else DefaultConnection())))
  }

  /** A device is built unless both id and type are missing; given fields
      are kept, the status defaults to connected, the type to "Unknown",
      the connection to full strength, and a missing name is the type
      followed by " Device" (so "undefined Device" when only the id was
      given). */
  lemma NewDeviceFields(data: DeviceData, now: int, draws: AddDraws)
    requires draws.ipByte < 254
    ensures NewDevice(data, now, draws).Err? <==> Or(data.id, "") == "" && data.type_.None?
    ensures NewDevice(data, now, draws).Ok? ==>
      var d := NewDevice(data, now, draws).value;
      && (Or(data.id, "") != "" ==> d.id == data.id.value)
      && (Or(data.status, "") == "" ==> d.status == CONNECTED)
      && (Or(data.type_, "") == "" ==> d.type_ == "Unknown")
      && (data.connection.None? ==> d.connection == Some(DefaultConnection()))
      && (Or(data.name, "") == "" && data.type_.None? ==> d.name == "undefined Device")
      && d.lastSeen == now && d.firstSeen == now && d.metadata.Some?
  {
  }

  /** `removeDevice(id)`: the first device with that id is spliced out. */
  function Removed(ds: seq<Device>, id: string): (r: Option<seq<Device>>)
  {
    var k := IndexOfId(ds, id);
    if k == -1 then None else Some(ds[..k] + ds[k + 1..])
  }

  /** `updateDeviceStatus(id, status)`: the first device with that id gets
      the status and the time of the change. */
  function StatusUpdated(ds: seq<Device>, id: string, status: string, now: int): (r: Option<seq<Device>>)
  {
    var k := IndexOfId(ds, id);
    if k == -1 then None else Some(ds[k := ds[k].(status := status, lastStatusChange := now)])
  }

  /** Adding appends without looking for the id; removing that id again
      gives back the list when the id was new, and removes the older
      device with the same id otherwise. */
  lemma AddThenRemove(ds: seq<Device>, d: Device)
    ensures (forall i :: 0 <= i < |ds| ==> ds[i].id != d.id) ==> Removed(ds + [d], d.id) == Some(ds)
    ensures (exists i :: 0 <= i < |ds| && ds[i].id == d.id) ==>
      Removed(ds + [d], d.id).Some? && |Removed(ds + [d], d.id).value| == |ds| && Removed(ds + [d], d.id).value[|ds| - 1] == d
  {
    var k := IndexOfId(ds + [d], d.id);
    assert (ds + [d])[|ds|] == d;
    assert forall i :: 0 <= i < |ds| ==> (ds + [d])[i] == ds[i];
    if forall i :: 0 <= i < |ds| ==> ds[i].id != d.id {
      assert k == |ds|;
      assert (ds + [d])[..k] == ds && (ds + [d])[k + 1..] == [];
      assert Removed(ds + [d], d.id) == Some((ds + [d])[..k] + (ds + [d])[k + 1..]);
      assert ds + [] == ds;
    } else {
      assert k < |ds|;
      assert (ds + [d])[k + 1..] == ds[k + 1..] + [d];
    }
  }

  /** Removing and updating fail exactly for an unknown id; a removal drops
      one device and an update changes only the status and time of the
      first device with the id, which `getDeviceById` then shows. */
  lemma RemoveUpdateEffect(ds: seq<Device>, id: string, status: string, now: int)
    ensures Removed(ds, id).None? <==> DeviceById(ds, id).None?
    ensures StatusUpdated(ds, id, status, now).None? <==> DeviceById(ds, id).None?
    ensures Removed(ds, id).Some? ==> |Removed(ds, id).value| == |ds| - 1
    ensures StatusUpdated(ds, id, status, now).Some? ==>
      var t := StatusUpdated(ds, id, status, now).value;
      && |t| == |ds|
      && DeviceById(t, id) == Some(DeviceById(ds, id).value.(status := status, lastStatusChange := now))
      && forall i :: 0 <= i < |ds| && ds[i].id != id ==> t[i] == ds[i]
  {
    var k := IndexOfId(ds, id);
    if k >= 0 {
      var t := ds[k := ds[k].(status := status, lastStatusChange := now)];
      FirstById(ds, id, k);
      FirstById(t, id, k);
    }
  }

  /** The device `getDeviceById` finds is the one at the first index. */
  lemma {:induction false} FirstById(ds: seq<Device>, id: string, k: nat)
    requires k < |ds| && ds[k].id == id && forall i :: 0 <= i < k ==> ds[i].id != id
    ensures DeviceById(ds, id) == Some(ds[k])
  {
    if k > 0 {
      FirstById(ds[1..], id, k - 1);
    }
  }

  /** `importDevices(json)`, given the parsed value when it was an array
      (and `None` when parsing failed or gave anything else): the devices
      with fresh times, or nothing. */
  function Imported(parsed: Option<seq<Device>>, now: int): (r: Option<seq<Device>>)
    ensures parsed.None? <==> r.None?
    ensures r.Some? ==> |r.value| == |parsed.value|
  {
    if parsed.None? then None
    else Some(seq(|parsed.value|, i requires 0 <= i < |parsed.value| => parsed.value[i].(lastSeen := now, lastStatusChange := now)))
  }

  // ---------------------------------------------------------------------
  // Scanning

  /** Whether a candidate shares the id or the address of a listed device. */
  predicate Clash(ds: seq<Device>, c: Device)
  {
    exists i :: 0 <= i < |ds| && (ds[i].id == c.id || ds[i].ip == c.ip)
  }

  /** The scan's first loop: each candidate appended unless it clashes
      with a device already listed, those added before it included. */
  function AddNew(ds: seq<Device>, candidates: seq<Device>): seq<Device>
    decreases |candidates|
  {
    if candidates == [] then ds
    else AddNew(if Clash(ds, candidates[0]) then ds else ds + [candidates[0]], candidates[1..])
  }

  /** No two devices share an id or an address. */
  predicate Apart(ds: seq<Device>)
  {
    forall i, j :: 0 <= i < j < |ds| ==> ds[i].id != ds[j].id && ds[i].ip != ds[j].ip
  }

  /** A device that clashes with none keeps a list apart. */
  lemma AppendApart(ds: seq<Device>, c: Device)
    requires Apart(ds) && !Clash(ds, c)
    ensures Apart(ds + [c])
  {
    var next := ds + [c];
    forall i, j | 0 <= i < j < |next| ensures next[i].id != next[j].id && next[i].ip != next[j].ip {
      if j == |ds| {
        assert next[i] == ds[i];
      }
    }
  }

  /** The scan's additions keep the devices it started with, in front,
      add only candidates, and never add a device whose id or address is
      taken; so a list without clashes keeps none. */
  lemma AddNewEffect(ds: seq<Device>, candidates: seq<Device>)
    ensures var r := AddNew(ds, candidates);
      && |ds| <= |r| <= |ds| + |candidates|
      && r[..|ds|] == ds
      && (forall i :: |ds| <= i < |r| ==> r[i] in candidates)
      && (Apart(ds) ==> Apart(r))
  {
    AddNewKeeps(ds, candidates);
    if Apart(ds) {
      AddNewApart(ds, candidates);
    }
  }

  /** The first part of `AddNewEffect`: the list grows by candidates only,
      behind the devices it started with. */
  lemma {:induction false} AddNewKeeps(ds: seq<Device>, candidates: seq<Device>)
    ensures var r := AddNew(ds, candidates);
      && |ds| <= |r| <= |ds| + |candidates|
      && r[..|ds|] == ds
      && (forall i :: |ds| <= i < |r| ==> r[i] in candidates)
    decreases |candidates|
  {
    if candidates != [] {
      var c := candidates[0];
      var next := if Clash(ds, c) then ds else ds + [c];
      assert AddNew(ds, candidates) == AddNew(next, candidates[1..]);
      AddNewKeeps(next, candidates[1..]);
      var r := AddNew(next, candidates[1..]);
      assert r[..|ds|] == r[..|next|][..|ds|];
      forall i | |ds| <= i < |r| ensures r[i] in candidates {
        if i < |next| {
          assert r[i] == c;
        } else {
          assert r[i] in candidates[1..];
        }
      }
    }
  }

  /** The second part of `AddNewEffect`: a list apart stays apart. */
  lemma {:induction false} AddNewApart(ds: seq<Device>, candidates: seq<Device>)
    requires Apart(ds)
    ensures Apart(AddNew(ds, candidates))
    decreases |candidates|
  {
    if candidates != [] {
      var c := candidates[0];
      if Clash(ds, c) {
        assert AddNew(ds, candidates) == AddNew(ds, candidates[1..]);
        AddNewApart(ds, candidates[1..]);
      } else {
        assert AddNew(ds, candidates) == AddNew(ds + [c], candidates[1..]);
        AppendApart(ds, c);
        AddNewApart(ds + [c], candidates[1..]);
      }
    }
  }

  /** One status flip of the scan's second loop. */
  function Toggle(ds: seq<Device>, i: nat, now: int): seq<Device>
    requires i < |ds|
  {
    ds[i := ds[i].(status := if ds[i].status == CONNECTED then DISCONNECTED else CONNECTED, lastStatusChange := now)]
  }

  function ToggleAll(ds: seq<Device>, picks: seq<nat>, now: int): (r: seq<Device>)
    requires forall k :: 0 <= k < |picks| ==> picks[k] < |ds|
    ensures |r| == |ds|
    decreases |picks|
  {
    if picks == [] then ds else ToggleAll(Toggle(ds, picks[0], now), picks[1..], now)
  }

  /** Status flips change no id and no address. */
  lemma {:induction false} ToggleAllKeeps(ds: seq<Device>, picks: seq<nat>, now: int)
    requires forall k :: 0 <= k < |picks| ==> picks[k] < |ds|
    ensures forall i :: 0 <= i < |ds| ==> ToggleAll(ds, picks, now)[i].id == ds[i].id && ToggleAll(ds, picks, now)[i].ip == ds[i].ip
    decreases |picks|
  {
    if picks != [] {
      ToggleAllKeeps(Toggle(ds, picks[0], now), picks[1..], now);
    }
  }

  /** Flipping the same device twice gives back its status. */
  lemma ToggleTwice(ds: seq<Device>, i: nat, now: int)
    requires i < |ds| && ds[i].status in {CONNECTED, DISCONNECTED}
    ensures Toggle(Toggle(ds, i, now), i, now)[i].status == ds[i].status
  {
  }

  /** What `Math.random()` decided for one scan: the candidate devices
      (`Math.floor(Math.random() * 4)` of them), the indices whose status
      flips (at most two, and at most the number of devices), and the
      index of the device that goes offline, if the coin says so. */
  datatype ScanDraws = ScanDraws(candidates: seq<Device>, flips: seq<nat>, offline: Option<nat>)

  predicate DrawsFit(r: ScanDraws, count: nat)
  {
    && |r.candidates| <= 3
    && |r.flips| <= Min(2, count)
    && (forall k :: 0 <= k < |r.flips| ==> r.flips[k] < count)
    && (r.offline.Some? ==> r.offline.value < count && count > |r.candidates|)
  }

  /** The devices after a scan: additions, then flips among the devices
      then listed, then the removal; the removal is drawn only when there
      are more devices than candidates, counted before any are dropped. */
  function Scanned(ds: seq<Device>, r: ScanDraws, now: int): seq<Device>
    requires DrawsFit(r, |AddNew(ds, r.candidates)|)
  {
    var added := AddNew(ds, r.candidates);
    var flipped := ToggleAll(added, r.flips, now);
    if r.offline.Some? then flipped[..r.offline.value] + flipped[r.offline.value + 1..] else flipped
  }

  /** A scan never makes two devices share an id or an address. */
  lemma ScanKeepsApart(ds: seq<Device>, r: ScanDraws, now: int)
    requires Apart(ds) && DrawsFit(r, |AddNew(ds, r.candidates)|)
    ensures Apart(Scanned(ds, r, now))
  {
    var added := AddNew(ds, r.candidates);
    AddNewEffect(ds, r.candidates);
    var flipped := ToggleAll(added, r.flips, now);
    ToggleAllKeeps(added, r.flips, now);
    assert Apart(flipped);
    if r.offline.Some? {
      var k := r.offline.value;
      var t := flipped[..k] + flipped[k + 1..];
      forall i, j | 0 <= i < j < |t| ensures t[i].id != t[j].id && t[i].ip != t[j].ip {
        var i', j' := if i < k then i else i + 1, if j < k then j else j + 1;
        assert t[i] == flipped[i'] && t[j] == flipped[j'];
      }
    }
  }

  datatype ScanStatus = ScanStatus(isScanning: bool, lastScanTime: Option<int>, deviceCount: nat, scanInterval: bool)

  // ---------------------------------------------------------------------
  // The service object

  class Discovery {
    var devices: seq<Device>
    var scanning: bool
    /** The period of the continuous-scan timer, while there is one. */
    var interval: Option<int>
    var lastScanTime: Option<int>
    /** Scans started whose one-second delay has not yet run out. */
    var pendingScans: nat

    constructor ()
      ensures devices == [] && !scanning && interval.None? && lastScanTime.None? && pendingScans == 0
    {
      devices, scanning, interval, lastScanTime, pendingScans := [], false, None, None, 0;
    }

    /** `startScan(continuous, interval)`: nothing while already scanning. */
    method StartScan(continuous: bool, period: int)
      modifies this`scanning, this`interval, this`pendingScans
      ensures old(scanning) ==> scanning && interval == old(interval) && pendingScans == old(pendingScans)
      ensures !old(scanning) ==> && scanning && pendingScans == old(pendingScans) + 1
                                 && interval == (if continuous then Some(period) else old(interval))
    {
      if scanning {
        return;
      }
      scanning := true;
      pendingScans := pendingScans + 1;
      if continuous {
        interval := Some(period);
      }
    }

    /** `stopScan()`: nothing while not scanning; the timer stops, but a
        scan already under way still completes. */
    method StopScan()
      modifies this`scanning, this`interval
      ensures !old(scanning) ==> !scanning && interval == old(interval)
      ensures old(scanning) ==> !scanning && interval.None?
    {
      if !scanning {
        return;
      }
      scanning := false;
      interval := None;
    }

    /** A firing of the continuous-scan timer starts another scan. */
    method IntervalFired()
      requires interval.Some?
      modifies this`pendingScans
      ensures pendingScans == old(pendingScans) + 1
    {
      pendingScans := pendingScans + 1;
    }

    /** The end of a scan's delay: `scan`'s timer callback. */
    method CompleteScan(r: ScanDraws, now: int)
      requires pendingScans > 0 && DrawsFit(r, |AddNew(devices, r.candidates)|)
      modifies this`devices, this`lastScanTime, this`pendingScans
      ensures devices == Scanned(old(devices), r, now)
      ensures lastScanTime == Some(now) && pendingScans == old(pendingScans) - 1
    {
      pendingScans := pendingScans - 1;
      ghost var start := devices;
      var i := 0;
      while i < |r.candidates|
        invariant 0 <= i <= |r.candidates|
        invariant AddNew(devices, r.candidates[i..]) == AddNew(start, r.candidates)
        invariant pendingScans == old(pendingScans) - 1
        decreases |r.candidates| - i
      {
        var c := r.candidates[i];
        if !Clash(devices, c) {
          devices := devices + [c];
        }
        assert r.candidates[i..][1..] == r.candidates[i + 1..];
        i := i + 1;
      }
      assert r.candidates[i..] == [];
      ghost var added := devices;
      var count := |devices|;
      var k := 0;
      while k < |r.flips|
        invariant 0 <= k <= |r.flips| && |devices| == count
        invariant ToggleAll(devices, r.flips[k..], now) == ToggleAll(added, r.flips, now)
        invariant pendingScans == old(pendingScans) - 1
        decreases |r.flips| - k
      {
        var j := r.flips[k];
        var d := devices[j];
        devices := devices[j := d.(status := if d.status == CONNECTED then DISCONNECTED else CONNECTED, lastStatusChange := now)];
        assert r.flips[k..][1..] == r.flips[k + 1..];
        k := k + 1;
      }
      assert r.flips[k..] == [];
      assert added == AddNew(start, r.candidates);
      assert devices == ToggleAll(added, r.flips, now);
      if r.offline.Some? {
        var j := r.offline.value;
        devices := devices[..j] + devices[j + 1..];
      }
      lastScanTime := Some(now);
    }

    method GetDevices() returns (r: seq<Device>)
      ensures r == devices
    {
      r := devices;
    }

    method GetDeviceById(id: string) returns (r: Option<Device>)
      ensures r == DeviceById(devices, id)
    {
      var k := IndexOfId(devices, id);
      if k == -1 {
        return None;
      }
      FirstById(devices, id, k);
      r := Some(devices[k]);
    }

    method GetDevicesByType(t: string) returns (r: seq<Device>)
      ensures r == OfType(devices, t)
    {
      r := OfType(devices, t);
    }

    method GetConnectedDevices() returns (r: seq<Device>)
      ensures r == WithStatus(devices, CONNECTED)
    {
      r := WithStatus(devices, CONNECTED);
    }

    method GetDisconnectedDevices() returns (r: seq<Device>)
      ensures r == WithStatus(devices, DISCONNECTED)
    {
      r := WithStatus(devices, DISCONNECTED);
    }

    method SearchDevices(query: string) returns (r: seq<Device>)
      ensures r == Search(devices, query)
    {
      r := Search(devices, query);
    }

    method FilterDevices(filters: seq<(string, JsValue)>) returns (r: seq<Device>)
      ensures r == Filtered(devices, filters)
    {
      r := Filtered(devices, filters);
    }

    /** `addDevice(data)`: appended; a failure leaves the list alone. */
    method AddDevice(data: DeviceData, now: int, draws: AddDraws) returns (r: Result<Device>)
      requires draws.ipByte < 254
      modifies this`devices
      ensures r == NewDevice(data, now, draws)
      ensures devices == if r.Ok? then old(devices) + [r.value] else old(devices)
    {
      r := NewDevice(data, now, draws);
      if r.Ok? {
        devices := devices + [r.value];
      }
    }

    method RemoveDevice(id: string) returns (ok: bool)
      modifies this`devices
      ensures ok == Removed(old(devices), id).Some?
      ensures devices == if ok then Removed(old(devices), id).value else old(devices)
    {
      var k := IndexOfId(devices, id);
      if k == -1 {
        return false;
      }
      devices := devices[..k] + devices[k + 1..];
      return true;
    }

    method UpdateDeviceStatus(id: string, status: string, now: int) returns (ok: bool)
      modifies this`devices
      ensures ok == StatusUpdated(old(devices), id, status, now).Some?
      ensures devices == if ok then StatusUpdated(old(devices), id, status, now).value else old(devices)
    {
      var k := IndexOfId(devices, id);
      if k == -1 {
        return false;
      }
      devices := devices[k := devices[k].(status := status, lastStatusChange := now)];
      return true;
    }

    method ClearDevices() returns (cleared: nat)
      modifies this`devices
      ensures devices == [] && cleared == |old(devices)|
    {
      cleared := |devices|;
      devices := [];
    }

    method GetScanStatus() returns (s: ScanStatus)
      ensures s == ScanStatus(scanning, lastScanTime, |devices|, interval.Some?)
    {
      s := ScanStatus(scanning, lastScanTime, |devices|, interval.Some?);
    }

    /** `importDevices(json)`: the count imported, and 0 with the list
        kept when the text was not a JSON array. */
    method ImportDevices(parsed: Option<seq<Device>>, now: int) returns (count: nat)
      modifies this`devices
      ensures parsed.None? ==> count == 0 && devices == old(devices)
      ensures parsed.Some? ==> count == |parsed.value| && devices == Imported(parsed, now).value
    {
      var r := Imported(parsed, now);
      if r.None? {
        return 0;
      }
      devices := r.value;
      count := |r.value|;
    }
  }
}
