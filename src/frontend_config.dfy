// The web front end's configuration manager: a tree of settings read and
// written by dot-separated paths, merged with partial updates, persisted
// to local storage and reported to listeners.

module FrontendConfig {
  import opened Wrappers
  import opened Text
  import opened JsValues
  import Seqs

  const STORAGE_KEY := "app_config_v1"
  const DEFAULT_WEBSOCKET_URL := "ws://localhost:8928"

  // ---------------------------------------------------------------------------
  // Property access

  /** `key` as an array index: the canonical decimal form of a number. */
  function ArrayIndex(key: string): (r: Option<nat>)
    ensures r.Some? ==> key == NatToString(r.value)
  {
    match ParseNat(key)
    case None => None
    case Some(i) => if NatToString(i) == key then Some(i) else None
  }

  /** `key in v` for an object or an array (own properties only). */
  predicate Has(v: JsValue, key: string)
  {
    match v
    case Obj(f) => key in f
    case Arr(items) => key == "length" || (ArrayIndex(key).Some? && ArrayIndex(key).value < |items|)
    case _ => false
  }

  /** `v[key]` on a value that is neither `null` nor `undefined`: an own
      field, an index or the `length` of an array or a string, and
      `undefined` otherwise. */
  function Prop(v: JsValue, key: string): (r: JsValue)
    ensures v.Obj? ==> r == if key in v.fields then v.fields[key] else Undefined
    ensures (v.Obj? || v.Arr?) && !Has(v, key) ==> r == Undefined
  {
    match v
    case Obj(f) => if key in f then f[key] else Undefined
    case Arr(items) =>
      if key == "length" then Num(|items|)
      else if ArrayIndex(key).Some? && ArrayIndex(key).value < |items| then items[ArrayIndex(key).value]
      else Undefined
    case Str(s) =>
      if key == "length" then Num(|s|)
      else if ArrayIndex(key).Some? && ArrayIndex(key).value < |s| then Str([s[ArrayIndex(key).value]])
      else Undefined
    case _ => Undefined
  }

  /** `typeof v === 'object'` */
  predicate ObjectType(v: JsValue)
  {
    v.Null? || v.Arr? || v.Obj?
  }

  /** `isObject(item)` in a test: a plain object. */
  predicate IsObject(v: JsValue)
  {
    v.Obj?
  }

  /** `item && typeof item === 'object' && !Array.isArray(item)` holds exactly
      for plain objects: never for arrays or `null`. */
  lemma IsObjectIff(v: JsValue)
    ensures IsObject(v) <==> Truthy(v) && TypeOf(v) == "object" && !v.Arr?
    ensures !IsObject(Null) && !IsObject(Arr([]))
  {
  }

  /** `{ ...v }`: the own enumerable entries, the indices of an array or a
      string, nothing for any other value. */
  function Spread(v: JsValue): (m: map<string, JsValue>)
    ensures v.Obj? ==> m == v.fields
    ensures !v.Obj? && !v.Arr? && !v.Str? ==> m == map[]
  {
    match v
    case Obj(f) => f
    case Arr(items) => SpreadItems(items)
    case Str(s) => SpreadChars(s)
    case _ => map[]
  }

  function SpreadItems(items: seq<JsValue>): (m: map<string, JsValue>)
    ensures forall i :: 0 <= i < |items| ==> NatToString(i) in m && m[NatToString(i)] == items[i]
  {
    if items == [] then map[]
    else
      var n := |items| - 1;
      var m := SpreadItems(items[..n]);
      assert forall i :: 0 <= i < n ==> NatToString(i) != NatToString(n) by {
        forall i | 0 <= i < n ensures NatToString(i) != NatToString(n) {
          ParseNatToString(i);
          ParseNatToString(n);
        }
      }
      m[NatToString(n) := items[n]]
  }

  function SpreadChars(s: string): map<string, JsValue>
  {
    if s == [] then map[] else SpreadChars(s[..|s| - 1])[NatToString(|s| - 1) := Str([s[|s| - 1]])]
  }

  // ---------------------------------------------------------------------------
  // get(path, defaultValue)

  /** The walk of `get`: `d` as soon as the current value is `null`, not an
      object, or lacks the next key. */
  function GetPath(v: JsValue, keys: seq<string>, d: JsValue): JsValue
    decreases |keys|
  {
    if keys == [] then v
    else if v.Null? || !ObjectType(v) || !Has(v, keys[0]) then d
    else GetPath(Prop(v, keys[0]), keys[1..], d)
  }

  /** `v` holds plain objects along `keys`, each with the next key. */
  predicate Through(v: JsValue, keys: seq<string>)
  {
    v.Obj? && (keys == [] || (keys[0] in v.fields && Through(v.fields[keys[0]], keys[1..])))
  }

  // ---------------------------------------------------------------------------
  // set(path, value)

  /** `part[key] = x` on an object or an array; an array takes an index
      within it or just past its end. */
  function Write(part: JsValue, key: string, x: JsValue): (r: JsValue)
    ensures part.Obj? ==> r == Obj(part.fields[key := x])
  {
    match part
    case Obj(f) => Obj(f[key := x])
    case Arr(items) =>
      if ArrayIndex(key).Some? && ArrayIndex(key).value < |items| then Arr(items[ArrayIndex(key).value := x])
      else if ArrayIndex(key).Some? && ArrayIndex(key).value == |items| then Arr(items + [x])
      else part
    case _ => part
  }

  /** The value `set` descends into under `key`: the one there when it is
      of type object, a fresh `{}` otherwise. */
  function Descend(part: JsValue, key: string): (c: JsValue)
    ensures ObjectType(c)
  {
    if Has(part, key) && ObjectType(Prop(part, key)) then Prop(part, key) else Obj(map[])
  }

  /** The string `set(path, value)` walk over `keys`: intermediates that
      are missing or not of type object become `{}`, and reaching `null`
      throws. */
  function SetIn(part: JsValue, keys: seq<string>, x: JsValue): (r: Result<JsValue>)
    requires |keys| >= 1
    ensures r.Ok? && part.Obj? ==> r.value.Obj?
    decreases |keys|
  {
    if part.Null? then
      if |keys| == 1 then Err("Cannot set properties of null (setting '" + keys[0] + "')")
      else Err("Cannot use 'in' operator to search for '" + keys[0] + "' in null")
    else if |keys| == 1 then Ok(Write(part, keys[0], x))
    else
      match SetIn(Descend(part, keys[0]), keys[1..], x)
      case Err(e) => Err(e)
      case Ok(c) => Ok(Write(part, keys[0], c))
  }

  /** Each of `parts` after the first is what `set` descends into from the
      one before it, none but the last being `null`. */
  predicate Chain(parts: seq<JsValue>, keys: seq<string>)
  {
    |parts| <= |keys| &&
    forall j :: 0 <= j < |parts| - 1 ==> !parts[j].Null? && parts[j + 1] == Descend(parts[j], keys[j])
  }

  lemma ChainSnoc(parts: seq<JsValue>, keys: seq<string>)
    requires Chain(parts, keys) && |parts| >= 1 && |parts| < |keys| && !parts[|parts| - 1].Null?
    ensures Chain(parts + [Descend(parts[|parts| - 1], keys[|parts| - 1])], keys)
  {
  }

  lemma ChainAt(parts: seq<JsValue>, keys: seq<string>, j: nat)
    requires Chain(parts, keys) && j < |parts| - 1
    ensures !parts[j].Null? && parts[j + 1] == Descend(parts[j], keys[j])
  {
  }

  /** The walk of `set(path, value)`: down the keys, replacing what is
      missing or not of type object with `{}`, then the value written and
      each child written back into its parent. */
  method SetPath(root: JsValue, keys: seq<string>, v: JsValue) returns (r: Result<JsValue>)
    requires |keys| >= 1
    ensures r == SetIn(root, keys, v)
  {
    var n := |keys|;
    // parts[i] is the object the walk stands on before key i
    var parts := [root];
    var i := 0;
    while i < n - 1
      invariant 0 <= i <= n - 1 && |parts| == i + 1 && parts[0] == root
      invariant Chain(parts, keys)
      invariant SetIn(parts[i], keys[i..], v).Err? ==> SetIn(root, keys, v) == SetIn(parts[i], keys[i..], v)
    {
      if parts[i].Null? {
        return Err("Cannot use 'in' operator to search for '" + keys[i] + "' in null");
      }
      assert keys[i..][1..] == keys[i + 1..];
      ChainSnoc(parts, keys);
      parts := parts + [Descend(parts[i], keys[i])];
      i := i + 1;
    }
    if parts[n - 1].Null? {
      return Err("Cannot set properties of null (setting '" + keys[n - 1] + "')");
    }
    // write the value, then each rebuilt child into its parent
    var acc := Write(parts[n - 1], keys[n - 1], v);
    var j := n - 1;
    while j > 0
      invariant 0 <= j <= n - 1
      invariant SetIn(parts[j], keys[j..], v) == Ok(acc)
    {
      j := j - 1;
      assert keys[j..][1..] == keys[j + 1..];
      ChainAt(parts, keys, j);
      acc := Write(parts[j], keys[j], acc);
    }
    return Ok(acc);
  }

  /** The walk meets no `null` and no array it would write into. */
  predicate Plain(part: JsValue, keys: seq<string>)
    requires |keys| >= 1
    decreases |keys|
  {
    part.Obj? &&
    (|keys| == 1 ||
     (var c := Descend(part, keys[0]); !(keys[0] in part.fields && (c.Null? || c.Arr?)) && Plain(c, keys[1..])))
  }

  /** A fresh object is plain along any path. */
  lemma {:induction false} FreshPlain(keys: seq<string>)
    requires |keys| >= 1
    ensures Plain(Obj(map[]), keys)
    decreases |keys|
  {
    if |keys| > 1 {
      FreshPlain(keys[1..]);
    }
  }

  /** After `set(path, x)`, `get(path)` returns `x`. */
  lemma {:induction false} SetThenGet(v: JsValue, keys: seq<string>, x: JsValue, d: JsValue)
    requires |keys| >= 1 && Plain(v, keys)
    ensures SetIn(v, keys, x).Ok? && GetPath(SetIn(v, keys, x).value, keys, d) == x
    decreases |keys|
  {
    if |keys| > 1 {
      SetThenGet(Descend(v, keys[0]), keys[1..], x, d);
    }
  }

  /** Walking into an existing `null` throws. */
  lemma NullOnTheWay(v: JsValue, keys: seq<string>, x: JsValue)
    requires |keys| >= 2 && v.Obj? && keys[0] in v.fields && v.fields[keys[0]].Null?
    ensures SetIn(v, keys, x).Err?
  {
  }

  /** `set(path, x)` leaves alone every path that leaves it below objects
      that were already there. */
  lemma {:induction false} SetKeepsOthers(v: JsValue, keys: seq<string>, other: seq<string>, i: nat, x: JsValue, d: JsValue)
    requires |keys| >= 1 && Plain(v, keys)
    requires i < |keys| && i < |other| && keys[..i] == other[..i] && keys[i] != other[i]
    requires Through(v, keys[..i])
    ensures SetIn(v, keys, x).Ok? && GetPath(SetIn(v, keys, x).value, other, d) == GetPath(v, other, d)
    decreases i
  {
    SetThenGet(v, keys, x, d);
    if i > 0 {
      var c := v.fields[keys[0]];
      assert keys[0] == other[0];
      assert keys[1..][..i - 1] == keys[..i][1..] && other[1..][..i - 1] == other[..i][1..];
      assert Descend(v, keys[0]) == c;
      SetKeepsOthers(c, keys[1..], other[1..], i - 1, x, d);
    }
  }

  // ---------------------------------------------------------------------------
  // getPathFromObject(obj, path)

  /** The `reduce` of `getPathFromObject`: the next property while the
      current value is truthy and the property is not `undefined`. */
  function PathFrom(v: JsValue, keys: seq<string>): JsValue
    decreases |keys|
  {
    if keys == [] then v
    else
      var next := if Truthy(v) && Prop(v, keys[0]) != Undefined then Prop(v, keys[0]) else Undefined;
      PathFrom(next, keys[1..])
  }

  /** Once `undefined`, the reduction stays `undefined`. */
  lemma {:induction false} PathFromUndefined(keys: seq<string>)
    ensures PathFrom(Undefined, keys) == Undefined
  {
    if keys != [] {
      PathFromUndefined(keys[1..]);
    }
  }

  /** Through plain objects, `getPathFromObject` and `get` agree on a
      defined value. */
  lemma {:induction false} PathFromIsGet(v: JsValue, keys: seq<string>, d: JsValue)
    requires |keys| >= 1 && Through(v, keys[..|keys| - 1]) && PathFrom(v, keys) != Undefined
    ensures GetPath(v, keys, d) == PathFrom(v, keys)
    decreases |keys|
  {
    if |keys| == 1 {
      assert keys[1..] == [];
    } else {
      assert keys[..|keys| - 1][1..] == keys[1..][..|keys| - 2];
      PathFromIsGet(v.fields[keys[0]], keys[1..], d);
    }
  }

  /** A string's characters are reachable by `getPathFromObject` but not by
      `get`, which refuses to descend into anything but objects. */
  lemma StringsDiffer()
    ensures PathFrom(Obj(map["theme" := Str("light")]), ["theme", "length"]) == Num(5)
    ensures GetPath(Obj(map["theme" := Str("light")]), ["theme", "length"], Undefined) == Undefined
  {
  }

  // ---------------------------------------------------------------------------
  // deepMerge(target, source)

  /** `deepMerge` as written: a copy of the target when either side is not
      a plain object; otherwise each source key replaces the target's,
      except that an object under a key the target holds is merged into
      the target's value whatever that value is. */
  function DeepMerge(target: JsValue, source: JsValue): (r: JsValue)
    ensures r.Obj?
  {
    if IsObject(target) && IsObject(source) then
      Obj(map k | k in target.fields.Keys + source.fields.Keys ::
            if k !in source.fields then target.fields[k]
            else if IsObject(source.fields[k]) && k in target.fields then DeepMerge(target.fields[k], source.fields[k])
            else source.fields[k])
    else Obj(Spread(target))
  }

  /** Target keys absent from the source stay, source values that are not
      plain objects replace the target's, and plain objects are merged in
      (or copied when the target lacks the key). */
  lemma DeepMergeFields(t: JsValue, s: JsValue)
    requires IsObject(t) && IsObject(s)
    ensures var r := DeepMerge(t, s).fields;
      && r.Keys == t.fields.Keys + s.fields.Keys
      && (forall k :: k in t.fields && k !in s.fields ==> r[k] == t.fields[k])
      && (forall k :: k in s.fields && !IsObject(s.fields[k]) ==> r[k] == s.fields[k])
      && (forall k :: k in s.fields && IsObject(s.fields[k]) && k !in t.fields ==> r[k] == s.fields[k])
      && (forall k :: k in s.fields && IsObject(s.fields[k]) && k in t.fields ==> r[k] == DeepMerge(t.fields[k], s.fields[k]))
  {
  }

  /** A source that is not a plain object changes nothing. */
  lemma DeepMergeIgnoresNonObject(t: JsValue, s: JsValue)
    requires IsObject(t) && !IsObject(s)
    ensures DeepMerge(t, s) == t
  {
  }

  /** As written, an object merged onto a `null` (or any value that is not
      an object) is lost: `{...null}` is `{}`. */
  lemma DeepMergeDropsObject()
    ensures var t := Obj(map["lastConnectedDevice" := Null]);
      var s := Obj(map["lastConnectedDevice" := Obj(map["id" := Str("x")])]);
      GetPath(DeepMerge(t, s), ["lastConnectedDevice", "id"], Undefined) == Undefined
  {
    var t := Obj(map["lastConnectedDevice" := Null]);
    var s := Obj(map["lastConnectedDevice" := Obj(map["id" := Str("x")])]);
    var inner := DeepMerge(Null, s.fields["lastConnectedDevice"]);
    assert inner == Obj(map[]);
    assert DeepMerge(t, s).fields["lastConnectedDevice"] == inner;
  }

  /** As written, merging the same source twice differs from merging it
      once. */
  lemma DeepMergeNotIdempotent()
    ensures var t := Obj(map["a" := Null]);
      var s := Obj(map["a" := Obj(map["b" := Num(1)])]);
      DeepMerge(DeepMerge(t, s), s) != DeepMerge(t, s)
  {
    var t := Obj(map["a" := Null]);
    var s := Obj(map["a" := Obj(map["b" := Num(1)])]);
    var once := DeepMerge(t, s);
    assert once.fields["a"] == Obj(map[]);
    var twice := DeepMerge(once, s);
    assert twice.fields["a"] == DeepMerge(Obj(map[]), s.fields["a"]);
    assert "b" in DeepMerge(Obj(map[]), s.fields["a"]).fields;
  }

  /** The merge the code evidently intends: an object is merged into the
      target's value only when that value is a plain object too, and
      otherwise replaces it. */
  function Merge(target: JsValue, source: JsValue): (r: JsValue)
    ensures r.Obj?
  {
    if IsObject(target) && IsObject(source) then
      Obj(map k | k in target.fields.Keys + source.fields.Keys ::
            if k !in source.fields then target.fields[k]
            else if IsObject(source.fields[k]) && k in target.fields && IsObject(target.fields[k])
            then Merge(target.fields[k], source.fields[k])
            else source.fields[k])
    else Obj(Spread(target))
  }

  /** `s` holds the non-object value `x` at the end of `keys`, below plain
      objects. */
  predicate LeafAt(s: JsValue, keys: seq<string>, x: JsValue)
  {
    if keys == [] then s == x && !IsObject(x)
    else s.Obj? && keys[0] in s.fields && LeafAt(s.fields[keys[0]], keys[1..], x)
  }

  lemma {:induction false} LeafGet(s: JsValue, keys: seq<string>, x: JsValue, d: JsValue)
    requires LeafAt(s, keys, x)
    ensures GetPath(s, keys, d) == x
  {
    if keys != [] {
      LeafGet(s.fields[keys[0]], keys[1..], x, d);
    }
  }

  /** Every value the source holds below plain objects reads back from the
      merge. */
  lemma {:induction false} MergeLeaves(t: JsValue, s: JsValue, keys: seq<string>, x: JsValue, d: JsValue)
    requires IsObject(t) && |keys| >= 1 && LeafAt(s, keys, x)
    ensures GetPath(Merge(t, s), keys, d) == x
    decreases |keys|
  {
    var k := keys[0];
    var r := Merge(t, s);
    var sk := s.fields[k];
    if IsObject(sk) && k in t.fields && IsObject(t.fields[k]) {
      assert r.fields[k] == Merge(t.fields[k], sk);
      MergeLeaves(t.fields[k], sk, keys[1..], x, d);
    } else {
      assert r.fields[k] == sk;
      LeafGet(sk, keys[1..], x, d);
    }
  }

  /** The corrected merge keeps the remembered device of the example above. */
  lemma MergeKeepsObject()
    ensures var t := Obj(map["lastConnectedDevice" := Null]);
      var s := Obj(map["lastConnectedDevice" := Obj(map["id" := Str("x")])]);
      GetPath(Merge(t, s), ["lastConnectedDevice", "id"], Undefined) == Str("x")
  {
    var s := Obj(map["lastConnectedDevice" := Obj(map["id" := Str("x")])]);
    assert LeafAt(s, ["lastConnectedDevice", "id"], Str("x")) by {
      assert ["lastConnectedDevice", "id"][1..] == ["id"];
      assert ["id"][1..] == [];
    }
    MergeLeaves(Obj(map["lastConnectedDevice" := Null]), s, ["lastConnectedDevice", "id"], Str("x"), Undefined);
  }

  /** Merging a value into itself gives it back. */
  lemma {:induction false} MergeSelf(v: JsValue)
    requires IsObject(v)
    ensures Merge(v, v) == v
  {
    var r := Merge(v, v);
    forall k | k in v.fields
      ensures r.fields[k] == v.fields[k]
    {
      if IsObject(v.fields[k]) {
        MergeSelf(v.fields[k]);
      }
    }
    assert r.fields == v.fields;
  }

  /** Merging the same source a second time changes nothing. */
  lemma {:induction false} MergeIdempotent(t: JsValue, s: JsValue)
    requires IsObject(t) && IsObject(s)
    ensures Merge(Merge(t, s), s) == Merge(t, s)
  {
    var once := Merge(t, s);
    var twice := Merge(once, s);
    forall k | k in once.fields
      ensures twice.fields[k] == once.fields[k]
    {
      if k in s.fields && IsObject(s.fields[k]) {
        if k in t.fields && IsObject(t.fields[k]) {
          MergeIdempotent(t.fields[k], s.fields[k]);
        } else {
          MergeSelf(s.fields[k]);
        }
      }
    }
    assert twice.fields == once.fields;
  }

  /** Keys of the target that the source does not name stay as they were. */
  lemma MergeKeepsTarget(t: JsValue, s: JsValue, k: string)
    requires IsObject(t) && IsObject(s) && k in t.fields && k !in s.fields
    ensures k in Merge(t, s).fields && Merge(t, s).fields[k] == t.fields[k]
  {
  }

  // ---------------------------------------------------------------------------
  // Persistence

  /** The value `JSON.parse(JSON.stringify(v))` gives back: members that are
      `undefined` dropped, array items that are `undefined` turned into
      `null`. */
  function Persist(v: JsValue): (r: JsValue)
    ensures v.Obj? ==> r.Obj? && r.fields.Keys <= v.fields.Keys
  {
    match v
    case Obj(f) => Obj(map k | k in f && !f[k].Undefined? :: Persist(f[k]))
    case Arr(items) => Arr(PersistItems(items))
    case _ => v
  }

  function PersistItems(items: seq<JsValue>): (r: seq<JsValue>)
    ensures |r| == |items|
    ensures forall i :: 0 <= i < |items| ==> r[i] == if items[i].Undefined? then Null else Persist(items[i])
  {
    if items == [] then [] else [if items[0].Undefined? then Null else Persist(items[0])] + PersistItems(items[1..])
  }

  /** What is stored is what storing it again would store. */
  lemma {:induction false} PersistIdempotent(v: JsValue)
    ensures !Persist(v).Undefined? || v.Undefined?
    ensures Persist(Persist(v)) == Persist(v)
  {
    match v
    case Obj(f) =>
      var p := Persist(v);
      forall k | k in p.fields
        ensures Persist(p.fields[k]) == p.fields[k] && !p.fields[k].Undefined?
      {
        PersistIdempotent(f[k]);
      }
      assert Persist(p).fields == p.fields;
    case Arr(items) =>
      var p := PersistItems(items);
      forall i | 0 <= i < |items|
        ensures Persist(p[i]) == p[i] && !p[i].Undefined?
      {
        if !items[i].Undefined? {
          PersistIdempotent(items[i]);
        }
      }
      assert PersistItems(p) == p;
    case _ =>
  }

  // ---------------------------------------------------------------------------
  // Defaults and loading

  /** `getDefaultConfig()`; `development` is `NODE_ENV === 'development'`
      and `mockQuery` whether the page's query asks for `useMock=true`. */
  function Defaults(development: bool, mockQuery: bool): (v: JsValue)
    ensures v.Obj?
  {
    Obj(map[
      "connection" := DefaultConnection(development && mockQuery),
      "ui" := DefaultUi(),
      "features" := DefaultFeatures(),
      "cache" := Obj(map["enabled" := Bool(true), "maxSizeMB" := Num(50), "clearInterval" := Num(86400000)]),
      "logging" := Obj(map["enabled" := Bool(development), "level" := Str("info"), "consoleEnabled" := Bool(true),
                           "fileEnabled" := Bool(false)]),
      "preferences" := DefaultPreferences()])
  }

  function DefaultConnection(mockMode: bool): (v: JsValue)
    ensures v.Obj? && "websocketUrl" in v.fields && v.fields["websocketUrl"] == Str(DEFAULT_WEBSOCKET_URL)
  {
    Obj(map[
      "websocketUrl" := Str(DEFAULT_WEBSOCKET_URL),
      "mockMode" := Bool(mockMode),
      "autoReconnect" := Bool(true),
      "reconnectAttempts" := Num(5),
      "reconnectDelay" := Num(1000),
      "messageTimeout" := Num(10000)])
  }

  function DefaultUi(): JsValue
  {
    Obj(map[
      "theme" := Str("light"),
      "showNotifications" := Bool(true),
      "defaultLanguage" := Str("zh-CN"),
      "animationEnabled" := Bool(true),
      "fontSize" := Str("medium"),
      "showStatusBar" := Bool(true)])
  }

  function DefaultFeatures(): JsValue
  {
    Obj(map[
      "deviceDiscovery" := Obj(map["enabled" := Bool(true), "autoStart" := Bool(false), "scanInterval" := Num(3000)]),
      "screenSharing" := Obj(map["defaultQuality" := Num(720), "maxFps" := Num(30), "showStats" := Bool(false), "autoFit" := Bool(true)]),
      "remoteControl" := Obj(map["enabled" := Bool(true), "showVirtualKeyboard" := Bool(false), "touchSensitivity" := Str("medium")]),
      "fileTransfer" := Obj(map["chunkSize" := Num(1024 * 1024), "maxConcurrentTransfers" := Num(2),
                                "showProgress" := Bool(true), "autoAccept" := Bool(false)])])
  }

  function DefaultPreferences(): (v: JsValue)
    ensures v.Obj? && "lastConnectedDevice" in v.fields && v.fields["lastConnectedDevice"] == Null
  {
    Obj(map["lastConnectedDevice" := Null, "rememberDevice" := Bool(true),
            "startMinimized" := Bool(false), "autoUpdateCheck" := Bool(true)])
  }

  /** The keys of the default configuration, in their written order. */
  const DefaultKeys: seq<string> := ["connection", "ui", "features", "cache", "logging", "preferences"]

  /** What local storage holds under the key: nothing (or an empty
      string), text that is not JSON, or a parsed document. */
  datatype Saved = NothingSaved | Garbled | SavedJson(doc: JsValue)

  /** `url.includes(part)` for a string or an array; any other value has no
      `includes` and the call throws. */
  function Includes(url: JsValue, part: string): (r: Option<bool>)
  {
    match url
    case Str(s) => Some(Contains(s, part))
    case Arr(items) => Some(Str(part) in items)
    case _ => None
  }

  /** The clean-up of a saved document: a WebSocket URL that ends in the
      old `/ws` path or points at the development server's port 8781 is
      dropped; `None` where reading the document throws. */
  function Cleaned(doc: JsValue): (r: Option<JsValue>)
  {
    if doc.Null? || doc.Undefined? then None
    else
      var conn := Prop(doc, "connection");
      if !Truthy(conn) || conn.Null? || conn.Undefined? then Some(doc)
      else
        var url := Prop(conn, "websocketUrl");
        if !Truthy(url) then Some(doc)
        else
          match (Includes(url, "/ws"), Includes(url, ":8781"))
          case (Some(a), Some(b)) =>
            if (a || b) && doc.Obj? && conn.Obj? then Some(Obj(doc.fields["connection" := Obj(conn.fields - {"websocketUrl"})]))
            else Some(doc)
          case _ => None
  }

  /** `loadConfig()` on the defaults, with the evidently intended merge. */
  function Loaded(defaults: JsValue, saved: Saved): (v: JsValue)
    requires defaults.Obj?
    ensures v.Obj?
  {
    match saved
    case NothingSaved => defaults
    case Garbled => defaults
    case SavedJson(doc) =>
      match Cleaned(doc)
      case None => defaults
      case Some(d) => Merge(defaults, d)
  }

  /** The value `Merge` leaves under a key both sides hold. */
  lemma MergeAt(t: JsValue, s: JsValue, k: string)
    requires IsObject(t) && IsObject(s) && k in t.fields && k in s.fields
    ensures k in Merge(t, s).fields
    ensures IsObject(t.fields[k]) && IsObject(s.fields[k]) ==> Merge(t, s).fields[k] == Merge(t.fields[k], s.fields[k])
    ensures !(IsObject(t.fields[k]) && IsObject(s.fields[k])) ==> Merge(t, s).fields[k] == s.fields[k]
  {
  }

  /** Loading over any defaults whose connection holds a URL: a saved URL
      with the legacy path gives way to the default one; any other saved
      URL is kept. */
  lemma {:induction false} LoadedUrl(defaults: JsValue, doc: map<string, JsValue>, conn: map<string, JsValue>, url: string)
    requires defaults.Obj? && "connection" in defaults.fields && defaults.fields["connection"].Obj?
    requires "websocketUrl" in defaults.fields["connection"].fields
    requires "connection" in doc && doc["connection"] == Obj(conn) && "websocketUrl" in conn && conn["websocketUrl"] == Str(url)
    ensures var got := GetPath(Loaded(defaults, SavedJson(Obj(doc))), ["connection", "websocketUrl"], Undefined);
      (Contains(url, "/ws") || Contains(url, ":8781") ==> got == defaults.fields["connection"].fields["websocketUrl"])
      && (url != "" && !Contains(url, "/ws") && !Contains(url, ":8781") ==> got == Str(url))
  {
    var keys := ["connection", "websocketUrl"];
    assert keys[1..] == ["websocketUrl"] && keys[1..][1..] == [];
    var dc := defaults.fields["connection"];
    var c := Cleaned(Obj(doc));
    if url != "" {
      var legacy := Contains(url, "/ws") || Contains(url, ":8781");
      var cc := if legacy then Obj(conn - {"websocketUrl"}) else Obj(conn);
      if !legacy {
        assert doc["connection" := cc] == doc;
      }
      assert c == Some(Obj(doc["connection" := cc]));
      var merged := Merge(defaults, c.value);
      MergeAt(defaults, c.value, "connection");
      assert merged.fields["connection"] == Merge(dc, cc);
      if legacy {
        assert Merge(dc, cc).fields["websocketUrl"] == dc.fields["websocketUrl"];
      } else {
        MergeAt(dc, cc, "websocketUrl");
      }
    }
  }

  /** With the shipped defaults, a legacy saved URL becomes
      `ws://localhost:8928`. */
  lemma LoadCleansLegacyUrl(development: bool, mockQuery: bool, doc: map<string, JsValue>, conn: map<string, JsValue>, url: string)
    requires "connection" in doc && doc["connection"] == Obj(conn) && "websocketUrl" in conn && conn["websocketUrl"] == Str(url)
    ensures var v := Loaded(Defaults(development, mockQuery), SavedJson(Obj(doc)));
      var got := GetPath(v, ["connection", "websocketUrl"], Undefined);
      (Contains(url, "/ws") || Contains(url, ":8781") ==> got == Str(DEFAULT_WEBSOCKET_URL))
      && (url != "" && !Contains(url, "/ws") && !Contains(url, ":8781") ==> got == Str(url))
  {
    DefaultKeyOrder(development, mockQuery);
    LoadedUrl(Defaults(development, mockQuery), doc, conn, url);
  }

  // ---------------------------------------------------------------------------
  // Listeners

  /** What a listener is called with: a path listener gets the new value,
      the value `get(path)` returns after the update, and the path; a
      wildcard listener gets the changes and the whole configuration. */
  datatype Notice =
    | PathNotice(listener: nat, newValue: JsValue, oldValue: JsValue, path: string)
    | AnyNotice(listener: nat, changes: JsValue, config: JsValue)

  function ListenersOf(listeners: map<string, seq<nat>>, path: string): seq<nat>
  {
    if path in listeners then listeners[path] else []
  }

  /** `on(path, listener)` */
  function On(listeners: map<string, seq<nat>>, path: string, l: nat): (r: map<string, seq<nat>>)
    ensures ListenersOf(r, path) == ListenersOf(listeners, path) + [l]
    ensures forall p :: p != path ==> ListenersOf(r, p) == ListenersOf(listeners, p)
  {
    listeners[path := ListenersOf(listeners, path) + [l]]
  }

  /** `off(path, listener)`: the first registration removed, if any. */
  function Off(listeners: map<string, seq<nat>>, path: string, l: nat): (r: map<string, seq<nat>>)
    ensures forall p :: p != path ==> ListenersOf(r, p) == ListenersOf(listeners, p)
  {
    if path in listeners then listeners[path := Seqs.RemoveFirst(listeners[path], l)] else listeners
  }

  /** Removing a listener just added to a path that did not hold it
      restores the path's listeners. */
  lemma OnThenOff(listeners: map<string, seq<nat>>, path: string, l: nat)
    requires l !in ListenersOf(listeners, path)
    ensures ListenersOf(Off(On(listeners, path, l), path, l), path) == ListenersOf(listeners, path)
  {
    var s := ListenersOf(listeners, path);
    var k := Seqs.Find(s + [l], l);
    assert (s + [l])[|s|] == l;
    assert k == |s|;
    assert (s + [l])[..|s|] == s;
  }

  /** The path listeners' calls for `changes`, in order, each told what
      `config` (already updated) holds at the path. */
  function PathNotices(listeners: map<string, seq<nat>>, config: JsValue, changes: seq<(string, JsValue)>): (ns: seq<Notice>)
  {
    if changes == [] then []
    else
      var (path, v) := changes[0];
      var ls := ListenersOf(listeners, path);
      var before := GetPath(config, Split(path, '.'), Undefined);
      seq(|ls|, i requires 0 <= i < |ls| => PathNotice(ls[i], v, before, path)) + PathNotices(listeners, config, changes[1..])
  }

  /** `notifyChanges(changes)`: the path listeners of each change, then the
      wildcard listeners. */
  function Notify(listeners: map<string, seq<nat>>, config: JsValue, changes: seq<(string, JsValue)>, whole: JsValue): seq<Notice>
  {
    var any := ListenersOf(listeners, "*");
    PathNotices(listeners, config, changes) + seq(|any|, i requires 0 <= i < |any| => AnyNotice(any[i], whole, config))
  }

  /** After `set(path, v)` the path's listeners are told `v` twice: the
      "old" value is read after the update. */
  lemma SetNoticeOldIsNew(listeners: map<string, seq<nat>>, config: JsValue, path: string, v: JsValue)
    requires Plain(config, Split(path, '.'))
    ensures var c := SetIn(config, Split(path, '.'), v);
      c.Ok? &&
      var ns := PathNotices(listeners, c.value, [(path, v)]);
      |ns| == |ListenersOf(listeners, path)| &&
      forall i :: 0 <= i < |ns| ==> ns[i] == PathNotice(ListenersOf(listeners, path)[i], v, v, path)
  {
    SetThenGet(config, Split(path, '.'), v, Undefined);
    assert [(path, v)][1..] == [];
  }

  /** The entries of `m` in the order `order` lists its keys. */
  function Entries(m: map<string, JsValue>, order: seq<string>): (es: seq<(string, JsValue)>)
    requires forall k :: k in order ==> k in m
    ensures |es| == |order| && forall i :: 0 <= i < |order| ==> es[i] == (order[i], m[order[i]])
  {
    seq(|order|, i requires 0 <= i < |order| => (order[i], m[order[i]]))
  }

  /** `order` is the key order `Object.keys` gives for `m`. */
  predicate KeyOrder(m: map<string, JsValue>, order: seq<string>)
  {
    Seqs.Distinct(order) && (forall k :: k in order ==> k in m) && (forall k :: k in m ==> k in order)
  }

  /** The default configuration has the six sections, in the order
      written. */
  lemma DefaultKeyOrder(development: bool, mockQuery: bool)
    ensures KeyOrder(Defaults(development, mockQuery).fields, DefaultKeys)
    ensures Defaults(development, mockQuery).fields["connection"] == DefaultConnection(development && mockQuery)
    ensures Defaults(development, mockQuery).fields["preferences"] == DefaultPreferences()
  {
  }

  // ---------------------------------------------------------------------------
  // The manager

  /** What a call that can throw ends in. */
  datatype Outcome = Done | Threw(message: string)

  class ConfigManager {
    const development: bool
    const mockQuery: bool
    /** `getDefaultConfig()`, the same value on every call. */
    const defaults: JsValue
    var config: JsValue
    var listeners: map<string, seq<nat>>
    var notices: seq<Notice>
    /** What this manager last wrote to local storage under the storage
        key, as it parses back. */
    var stored: Option<JsValue>

    ghost predicate Valid()
      reads this
    {
      config.Obj? && defaults.Obj? && KeyOrder(defaults.fields, DefaultKeys)
    }

    /** `new ConfigManager()` over what local storage holds. */
    constructor (development: bool, mockQuery: bool, saved: Saved)
      ensures Valid() && this.development == development && this.mockQuery == mockQuery
      ensures defaults == Defaults(development, mockQuery)
      ensures config == Loaded(defaults, saved)
      ensures listeners == map[] && notices == [] && stored == None
    {
      this.development := development;
      this.mockQuery := mockQuery;
      var d := Defaults(development, mockQuery);
      DefaultKeyOrder(development, mockQuery);
      defaults := d;
      config := Loaded(d, saved);
      listeners, notices, stored := map[], [], None;
    }

    /** `saveConfig()` */
    method SaveConfig()
      modifies this
      ensures stored == Some(Persist(config))
      ensures config == old(config) && listeners == old(listeners) && notices == old(notices)
    {
      stored := Some(Persist(config));
    }

    /** `getConfig()`: a shallow copy, equal as a value. */
    method GetConfig() returns (v: JsValue)
      requires Valid()
      ensures v == config
    {
      v := Obj(Spread(config));
    }

    /** `get(path, defaultValue)` */
    method Get(path: string, d: JsValue) returns (r: JsValue)
      ensures r == GetPath(config, Split(path, '.'), d)
    {
      var keys := Split(path, '.');
      var value := config;
      var i := 0;
      while i < |keys|
        invariant 0 <= i <= |keys|
        invariant GetPath(config, keys, d) == GetPath(value, keys[i..], d)
      {
        if value.Null? || TypeOf(value) != "object" || !Has(value, keys[i]) {
          return d;
        }
        assert keys[i..][1..] == keys[i + 1..];
        value := Prop(value, keys[i]);
        i := i + 1;
      }
      return value;
    }

    /** `set(path, value)` with a string path: written, reported and saved,
        or a throw that changes nothing. */
    method Set(path: string, v: JsValue) returns (r: Outcome)
      requires Valid()
      modifies this
      ensures Valid() && listeners == old(listeners)
      ensures var c := SetIn(old(config), Split(path, '.'), v);
        (c.Err? ==> r == Threw(c.error) && config == old(config) && notices == old(notices) && stored == old(stored))
        && (c.Ok? ==> (r == Done && config == c.value && stored == Some(Persist(config))
                       && notices == old(notices) + Notify(listeners, config, [(path, v)], Obj(map[path := v]))))
    {
      var c := SetPath(config, Split(path, '.'), v);
      if c.Err? {
        return Threw(c.error);
      }
      config := c.value;
      notices := notices + Notify(listeners, config, [(path, v)], Obj(map[path := v]));
      SaveConfig();
      r := Done;
    }

    /** `set(object)`: merged in, each top-level key reported in `order`,
        and saved. */
    method SetAll(source: map<string, JsValue>, order: seq<string>)
      requires Valid() && KeyOrder(source, order)
      modifies this
      ensures Valid() && listeners == old(listeners)
      ensures config == Merge(old(config), Obj(source)) && stored == Some(Persist(config))
      ensures notices == old(notices) + Notify(listeners, config, Entries(source, order), Obj(source))
    {
      config := Merge(config, Obj(source));
      notices := notices + Notify(listeners, config, Entries(source, order), Obj(source));
      SaveConfig();
    }

    /** `reset()`: the defaults, saved and reported key by key. */
    method ResetAll()
      modifies this
      requires Valid()
      ensures Valid() && config == defaults && listeners == old(listeners)
      ensures stored == Some(Persist(config))
      ensures notices == old(notices) + Notify(listeners, config, Entries(config.fields, DefaultKeys), config)
    {
      config := defaults;
      SaveConfig();
      notices := notices + Notify(listeners, config, Entries(config.fields, DefaultKeys), config);
    }

    /** `reset(path)`: with a path, the default at `path` set again when
        there is one; with none (or an empty one), everything reset. */
    method Reset(path: string) returns (r: Outcome)
      requires Valid()
      modifies this
      ensures Valid() && listeners == old(listeners)
      ensures path == "" ==> r == Done && config == defaults && stored == Some(Persist(config))
      ensures path == "" ==> notices == old(notices) + Notify(listeners, config, Entries(config.fields, DefaultKeys), config)
      ensures path != "" ==>
        var dv := PathFrom(defaults, Split(path, '.'));
        (dv == Undefined ==> r == Done && config == old(config) && notices == old(notices) && stored == old(stored))
        && (dv != Undefined ==> var c := SetIn(old(config), Split(path, '.'), dv);
              (c.Ok? ==> r == Done && config == c.value) && (c.Err? ==> r.Threw? && config == old(config)))
    {
      if path == "" {
        ResetAll();
        return Done;
      }
      var dv := PathFrom(defaults, Split(path, '.'));
      if dv != Undefined {
        r := Set(path, dv);
      } else {
        r := Done;
      }
    }

    /** `on(path, listener)` */
    method AddListener(path: string, l: nat)
      modifies this
      ensures listeners == On(old(listeners), path, l)
      ensures config == old(config) && notices == old(notices) && stored == old(stored)
    {
      listeners := On(listeners, path, l);
    }

    /** `off(path, listener)` */
    method RemoveListener(path: string, l: nat)
      modifies this
      ensures listeners == Off(old(listeners), path, l)
      ensures config == old(config) && notices == old(notices) && stored == old(stored)
    {
      listeners := Off(listeners, path, l);
    }

    /** `clearConfig()`: storage emptied and the defaults back, without a
        report. */
    method ClearConfig()
      modifies this
      requires Valid()
      ensures Valid() && stored == None && config == defaults
      ensures listeners == old(listeners) && notices == old(notices)
    {
      stored := None;
      config := defaults;
    }

    /** `exportConfig()`: the document its JSON text describes. */
    method ExportConfig() returns (doc: JsValue)
      ensures doc == Persist(config)
    {
      doc := Persist(config);
    }

    /** `importConfig(config)`: `None` stands for text that is not JSON,
        which throws; anything else is merged in, saved and reported key by
        key in `order`. */
    method ImportConfig(imported: Option<JsValue>, order: seq<string>) returns (r: Outcome)
      requires Valid()
      requires imported.Some? ==> KeyOrder(Merge(config, imported.value).fields, order)
      modifies this
      ensures Valid() && listeners == old(listeners)
      ensures imported.None? ==> r == Threw("无效的配置格式") && config == old(config) && notices == old(notices)
      ensures imported.Some? ==> r == Done && config == Merge(old(config), imported.value)
      ensures imported.Some? ==> stored == Some(Persist(config))
      ensures imported.Some? ==> notices == old(notices) + Notify(listeners, config, Entries(config.fields, order), config)
    {
      if imported.None? {
        return Threw("无效的配置格式");
      }
      config := Merge(config, imported.value);
      SaveConfig();
      notices := notices + Notify(listeners, config, Entries(config.fields, order), config);
      r := Done;
    }

    /** `getConnectionConfig()` (and `getUIConfig()` with `"ui"`): a copy of
        the section. */
    method GetSection(name: string) returns (v: JsValue)
      requires Valid()
      ensures v == Obj(Spread(Prop(config, name)))
      ensures Prop(config, name).Obj? ==> v == Prop(config, name)
    {
      v := Obj(Spread(Prop(config, name)));
    }

    /** `setConnectionConfig(c)` (and `setUIConfig(c)` with `"ui"`): the
        section's entries overridden by `c`'s, set as a whole. */
    method SetSection(name: string, c: JsValue) returns (r: Outcome)
      requires Valid() && '.' !in name
      modifies this
      ensures Valid() && r == Done && listeners == old(listeners)
      ensures var merged := Obj(Spread(Prop(old(config), name)) + Spread(c));
        config == Obj(old(config).fields[name := merged]) && stored == Some(Persist(config))
        && notices == old(notices) + Notify(listeners, config, [(name, merged)], Obj(map[name := merged]))
    {
      var merged := Obj(Spread(Prop(config, name)) + Spread(c));
      SplitNone(name, '.');
      r := Set(name, merged);
    }

    /** `getFeaturesConfig(featureName)`: a copy of one feature's section, or
        of all of them for an empty name; reading a feature of a `null` or
        missing section throws. */
    method GetFeaturesConfig(featureName: string) returns (r: Result<JsValue>)
      requires Valid()
      ensures var features := Prop(config, "features");
        (featureName == "" ==> r == Ok(Obj(Spread(features))))
        && (featureName != "" && (features.Null? || features.Undefined?) ==> r.Err?)
        && (featureName != "" && !(features.Null? || features.Undefined?) ==> r == Ok(Obj(Spread(Prop(features, featureName)))))
    {
      var features := Prop(config, "features");
      if featureName == "" {
        return Ok(Obj(Spread(features)));
      }
      if features.Null? || features.Undefined? {
        return Err(ReadError(features, featureName));
      }
      r := Ok(Obj(Spread(Prop(features, featureName))));
    }

    /** `setFeatureConfig(featureName, c)`: the feature's entries overridden
        by `c`'s, set at `features.<featureName>`. */
    method SetFeatureConfig(featureName: string, c: JsValue) returns (r: Outcome)
      requires Valid()
      modifies this
      ensures Valid() && listeners == old(listeners)
      ensures var features := Prop(old(config), "features");
        (features.Null? || features.Undefined? ==> r.Threw? && config == old(config))
        && (!(features.Null? || features.Undefined?) ==>
              var v := Obj(Spread(Prop(features, featureName)) + Spread(c));
              var s := SetIn(old(config), Split("features." + featureName, '.'), v);
              (s.Ok? ==> r == Done && config == s.value) && (s.Err? ==> r.Threw? && config == old(config)))
    {
      var features := Prop(config, "features");
      if features.Null? || features.Undefined? {
        return Threw(ReadError(features, featureName));
      }
      var v := Obj(Spread(Prop(features, featureName)) + Spread(c));
      r := Set("features." + featureName, v);
    }
  }

  /** With the evidently intended merge, a device remembered in the saved
      configuration survives loading. */
  lemma LoadKeepsDevice(development: bool, mockQuery: bool, device: JsValue, id: string)
    requires device == Obj(map["id" := Str(id)])
    ensures var doc := Obj(map["preferences" := Obj(map["lastConnectedDevice" := device])]);
      GetPath(Loaded(Defaults(development, mockQuery), SavedJson(doc)), ["preferences", "lastConnectedDevice", "id"], Undefined) == Str(id)
  {
    var doc := Obj(map["preferences" := Obj(map["lastConnectedDevice" := device])]);
    var keys := ["preferences", "lastConnectedDevice", "id"];
    assert Cleaned(doc) == Some(doc);
    assert LeafAt(doc, keys, Str(id)) by {
      assert keys[1..] == ["lastConnectedDevice", "id"] && keys[1..][1..] == ["id"] && keys[1..][1..][1..] == [];
      assert LeafAt(Str(id), [], Str(id));
      assert LeafAt(device, ["id"], Str(id));
      assert LeafAt(doc.fields["preferences"], ["lastConnectedDevice", "id"], Str(id));
    }
    MergeLeaves(Defaults(development, mockQuery), doc, keys, Str(id), Undefined);
  }
}
