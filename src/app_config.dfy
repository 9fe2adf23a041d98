/** The Android app's configuration store (`config/AppConfig.kt`): typed
    settings kept in shared preferences, setters that clamp or whitelist
    some values and tell every listener about each change, feature flags
    cached in memory over their stored copies, the JSON import and export,
    the reset to defaults and the validation report.

    The shared-preferences file is a map from preference names to typed
    values; a listener is an identifier, and what listeners are told is
    kept as a log of notices, one per listener and change. */
module AppConfig {
  import opened Wrappers
  import opened Text
  import Seqs

  // ---------------------------------------------------------------------------
  // Settings

  const INT_MIN: int := -0x8000_0000
  const INT_MAX: int := 0x7FFF_FFFF
  const LONG_MIN: int := -0x8000_0000_0000_0000
  const LONG_MAX: int := 0x7FFF_FFFF_FFFF_FFFF

  /** A stored preference. */
  datatype Pref = PInt(i: int) | PLong(l: int) | PStr(s: string) | PBool(b: bool)

  /** The settings with a property of their own. */
  datatype Key =
    | ServerIp | ServerPort | DiscoveryPort | WebSocketPort
    | ConnectionStrategy | HeartbeatInterval | ReconnectDelay | MaxReconnectAttempts | ConnectionTimeout
    | DebugMode | AutoConnect | AutoDiscovery
    | ScreenQuality | ScreenFps | FileChunkSize

  /** The preference name each setting is stored under. */
  function Name(k: Key): string
  {
    match k
    case ServerIp => "server_ip"
    case ServerPort => "server_port"
    case DiscoveryPort => "discovery_port"
    case WebSocketPort => "websocket_port"
    case ConnectionStrategy => "connection_strategy"
    case HeartbeatInterval => "heartbeat_interval"
    case ReconnectDelay => "reconnect_delay"
    case MaxReconnectAttempts => "max_reconnect_attempts"
    case ConnectionTimeout => "connection_timeout"
    case DebugMode => "debug_mode"
    case AutoConnect => "auto_connect"
    case AutoDiscovery => "auto_discovery"
    case ScreenQuality => "screen_quality"
    case ScreenFps => "screen_fps"
    case FileChunkSize => "file_chunk_size"
  }

  /** The defaults of the companion object. */
  function Default(k: Key): (v: Pref)
    ensures OfKind(k, v)
  {
    match k
    case ServerIp => PStr("192.168.1.100")
    case ServerPort => PInt(8928)
    case DiscoveryPort => PInt(8190)
    case WebSocketPort => PInt(8781)
    case ConnectionStrategy => PStr("websocket")
    case HeartbeatInterval => PLong(30000)
    case ReconnectDelay => PLong(5000)
    case MaxReconnectAttempts => PInt(10)
    case ConnectionTimeout => PLong(10000)
    case DebugMode => PBool(false)
    case AutoConnect => PBool(true)
    case AutoDiscovery => PBool(true)
    case ScreenQuality => PInt(80)
    case ScreenFps => PInt(15)
    case FileChunkSize => PInt(1024 * 1024)
  }

  /** `v` has the type of setting `k`, within Kotlin's `Int` or `Long`. */
  predicate OfKind(k: Key, v: Pref)
  {
    match k
    case ServerIp => v.PStr?
    case ConnectionStrategy => v.PStr?
    case HeartbeatInterval => v.PLong? && LONG_MIN <= v.l <= LONG_MAX
    case ReconnectDelay => v.PLong? && LONG_MIN <= v.l <= LONG_MAX
    case ConnectionTimeout => v.PLong? && LONG_MIN <= v.l <= LONG_MAX
    case DebugMode => v.PBool?
    case AutoConnect => v.PBool?
    case AutoDiscovery => v.PBool?
    case _ => v.PInt? && INT_MIN <= v.i <= INT_MAX
  }

  /** Every setting, in the order `resetToDefaults` writes them. */
  const AllKeys: seq<Key> := [ServerIp, ServerPort, DiscoveryPort, WebSocketPort, ConnectionStrategy,
                              HeartbeatInterval, ReconnectDelay, MaxReconnectAttempts, ConnectionTimeout,
                              DebugMode, AutoConnect, AutoDiscovery, ScreenQuality, ScreenFps, FileChunkSize]

  lemma AllKeysComplete(k: Key)
    ensures k in AllKeys
  {
  }

  /** The preference names are distinct, and none is a feature flag's. */
  lemma NamesDistinct(k1: Key, k2: Key)
    ensures Name(k1) == Name(k2) ==> k1 == k2
  {
  }

  lemma NoFeatureName(k: Key, feature: string)
    ensures Name(k) != FeatureName(feature)
  {
    var n := Name(k);
    assert n[0] != 'f' || n[1] != 'e';
    assert ("feature_" + feature)[1] == 'e';
  }

  /** `SUPPORTED_STRATEGIES` */
  const Strategies: seq<string> := ["websocket", "tcp", "http", "kcp", "udp", "bluetooth"]

  /** What a preference is stored under: a setting's own name, or
      `feature_` followed by a flag's name. */
  datatype PrefKey = Setting(key: Key) | Feature(name: string)

  /** The preference name of a stored preference. */
  function PrefName(p: PrefKey): string
  {
    match p
    case Setting(k) => Name(k)
    case Feature(f) => FeatureName(f)
  }

  function FeatureName(feature: string): string
  {
    "feature_" + feature
  }

  /** The preference names are distinct, so preferences may be keyed by
      `PrefKey` instead of by name. */
  lemma PrefNamesDistinct(p: PrefKey, q: PrefKey)
    ensures PrefName(p) == PrefName(q) ==> p == q
  {
    if PrefName(p) == PrefName(q) {
      match p
      case Setting(k) =>
        if q.Feature? { NoFeatureName(k, q.name); } else { NamesDistinct(k, q.key); }
      case Feature(f) =>
        if q.Setting? { NoFeatureName(q.key, f); }
        else { assert f == FeatureName(f)[8..] && q.name == FeatureName(q.name)[8..]; }
    }
  }

  type Prefs = map<PrefKey, Pref>

  /** The stored preferences hold each setting with its own type. */
  ghost predicate WellTyped(prefs: Prefs)
  {
    forall k: Key :: Setting(k) in prefs ==> OfKind(k, prefs[Setting(k)])
  }

  /** A property's getter: the stored value, or the default. */
  function Read(prefs: Prefs, k: Key): (v: Pref)
    requires WellTyped(prefs)
    ensures OfKind(k, v)
    ensures Setting(k) !in prefs ==> v == Default(k)
  {
    if Setting(k) in prefs then prefs[Setting(k)] else Default(k)
  }

  /** The number a numeric getter returns. */
  function IntOf(prefs: Prefs, k: Key): int
    requires WellTyped(prefs)
  {
    match Read(prefs, k)
    case PInt(i) => i
    case PLong(l) => l
    case _ => 0
  }

  /** The text a string getter returns. */
  function StrOf(prefs: Prefs, k: Key): string
    requires WellTyped(prefs)
  {
    match Read(prefs, k)
    case PStr(t) => t
    case _ => ""
  }

  // ---------------------------------------------------------------------------
  // The store as a value

  /** What `notifyConfigChanged` passes: the key and the old and new values
      (`null` for the reset). */
  datatype Change = Change(key: string, oldValue: Option<Pref>, newValue: Option<Pref>)

  /** One listener told of one change. */
  datatype Notice = Notice(listener: nat, change: Change)

  /** The configuration's state: the preferences, the in-memory feature
      flags with their insertion order, the listeners and what they have
      been told. */
  datatype Store = Store(prefs: Prefs, flags: map<string, bool>, flagOrder: seq<string>,
                         listeners: seq<nat>, notices: seq<Notice>)

  /** The flag order lists the cached flags once each. */
  ghost predicate Coherent(s: Store)
  {
    WellTyped(s.prefs) && Seqs.Distinct(s.flagOrder) && (forall n :: n in s.flags <==> n in s.flagOrder)
  }

  function Deliver(listeners: seq<nat>, c: Change): (d: seq<Notice>)
    ensures |d| == |listeners| && forall i :: 0 <= i < |d| ==> d[i] == Notice(listeners[i], c)
  {
    seq(|listeners|, i requires 0 <= i < |listeners| => Notice(listeners[i], c))
  }

  /** `notifyConfigChanged`: every listener, in order, is told. */
  function Notify(s: Store, c: Change): (t: Store)
    ensures t.prefs == s.prefs && t.flags == s.flags && t.flagOrder == s.flagOrder && t.listeners == s.listeners
    ensures t.notices == s.notices + Deliver(s.listeners, c)
  {
    s.(notices := s.notices + Deliver(s.listeners, c))
  }

  /** `value.coerceIn(lo, hi)` */
  function Clamp(v: int, lo: int, hi: int): (r: int)
    requires lo <= hi
    ensures lo <= r <= hi
    ensures lo <= v <= hi ==> r == v
    ensures v < lo ==> r == lo
    ensures v > hi ==> r == hi
  {
    if v < lo then lo else if v > hi then hi else v
  }

  /** The value a setter stores, if it stores one: the strategy only when
      supported and then lowercased, quality clamped to 10..100 and the
      frame rate to 1..60, anything else as given. */
  function Stored(k: Key, v: Pref): (r: Option<Pref>)
    requires OfKind(k, v)
    ensures r.Some? ==> OfKind(k, r.value)
  {
    match k
    case ConnectionStrategy => if ToLower(v.s) in Strategies then Some(PStr(ToLower(v.s))) else None
    case ScreenQuality => Some(PInt(Clamp(v.i, 10, 100)))
    case ScreenFps => Some(PInt(Clamp(v.i, 1, 60)))
    case _ => Some(v)
  }

  /** The new value a setter reports: the strategy as given, before it is
      lowercased; otherwise the value stored. */
  function Reported(k: Key, v: Pref): Pref
    requires OfKind(k, v) && Stored(k, v).Some?
  {
    if k == ConnectionStrategy then v else Stored(k, v).value
  }

  /** A property's setter. */
  function Set(s: Store, k: Key, v: Pref): (t: Store)
    requires WellTyped(s.prefs) && OfKind(k, v)
    ensures WellTyped(t.prefs)
    ensures t.flags == s.flags && t.flagOrder == s.flagOrder && t.listeners == s.listeners
  {
    match Stored(k, v)
    case None => s
    case Some(x) =>
      var t := s.(prefs := s.prefs[Setting(k) := x]);
      Notify(t, Change(Name(k), Some(Read(s.prefs, k)), Some(Reported(k, v))))
  }

  /** After a setter, its getter returns what was stored, every other
      getter is unchanged, and the listeners are told once each. */
  lemma SetEffect(s: Store, k: Key, v: Pref)
    requires WellTyped(s.prefs) && OfKind(k, v)
    ensures var t := Set(s, k, v);
      && (Stored(k, v).Some? ==>
            Read(t.prefs, k) == Stored(k, v).value
            && t.notices == s.notices + Deliver(s.listeners, Change(Name(k), Some(Read(s.prefs, k)), Some(Reported(k, v)))))
      && (Stored(k, v).None? ==> t == s)
      && (forall k2 :: k2 != k ==> Read(t.prefs, k2) == Read(s.prefs, k2))
  {
  }

  /** The strategy setter stores exactly the supported names, lowercased. */
  lemma StrategySetter(s: Store, name: string)
    requires WellTyped(s.prefs)
    ensures var t := Set(s, ConnectionStrategy, PStr(name));
      (ToLower(name) in Strategies ==> Read(t.prefs, ConnectionStrategy) == PStr(ToLower(name)))
      && (ToLower(name) !in Strategies ==> t == s)
  {
  }

  /** The quality and frame-rate setters keep their values in range, and
      store an in-range value unchanged. */
  lemma ClampedSetters(s: Store, v: int)
    requires WellTyped(s.prefs) && INT_MIN <= v <= INT_MAX
    ensures var q := IntOf(Set(s, ScreenQuality, PInt(v)).prefs, ScreenQuality);
      10 <= q <= 100 && (10 <= v <= 100 ==> q == v)
    ensures var f := IntOf(Set(s, ScreenFps, PInt(v)).prefs, ScreenFps);
      1 <= f <= 60 && (1 <= v <= 60 ==> f == v)
  {
  }

  /** The settings the setters guard stay guarded once they are. */
  ghost predicate Guarded(prefs: Prefs)
    requires WellTyped(prefs)
  {
    StrOf(prefs, ConnectionStrategy) in Strategies
    && 10 <= IntOf(prefs, ScreenQuality) <= 100
    && 1 <= IntOf(prefs, ScreenFps) <= 60
  }

  lemma SetKeepsGuarded(s: Store, k: Key, v: Pref)
    requires WellTyped(s.prefs) && OfKind(k, v) && Guarded(s.prefs)
    ensures Guarded(Set(s, k, v).prefs)
  {
    SetEffect(s, k, v);
    var t := Set(s, k, v).prefs;
    assert StrOf(t, ConnectionStrategy) in Strategies by {
      if k != ConnectionStrategy {
        assert Read(t, ConnectionStrategy) == Read(s.prefs, ConnectionStrategy);
      }
    }
    assert 10 <= IntOf(t, ScreenQuality) <= 100 by {
      if k != ScreenQuality {
        assert Read(t, ScreenQuality) == Read(s.prefs, ScreenQuality);
      }
    }
    assert 1 <= IntOf(t, ScreenFps) <= 60 by {
      if k != ScreenFps {
        assert Read(t, ScreenFps) == Read(s.prefs, ScreenFps);
      }
    }
  }

  // ---------------------------------------------------------------------------
  // Feature flags

  /** `isFeatureEnabled(name, default)`: the cached flag, else the stored
      one, else the default. */
  function IsFeatureEnabled(s: Store, feature: string, default: bool): (r: bool)
    ensures feature in s.flags ==> r == s.flags[feature]
    ensures feature !in s.flags && Feature(feature) in s.prefs && s.prefs[Feature(feature)].PBool? ==>
              r == s.prefs[Feature(feature)].b
    ensures feature !in s.flags && Feature(feature) !in s.prefs ==> r == default
  {
    if feature in s.flags then s.flags[feature]
    else if Feature(feature) in s.prefs && s.prefs[Feature(feature)].PBool? then s.prefs[Feature(feature)].b
    else default
  }

  /** `setFeatureEnabled(name, enabled)`: cached and stored, and reported as
      a change from `!enabled` whatever the flag was before. */
  function SetFeature(s: Store, feature: string, enabled: bool): (t: Store)
    requires Coherent(s)
    ensures Coherent(t)
    ensures t.flags == s.flags[feature := enabled]
    ensures t.prefs == s.prefs[Feature(feature) := PBool(enabled)]
    ensures t.notices == s.notices + Deliver(s.listeners, Change(FeatureName(feature), Some(PBool(!enabled)), Some(PBool(enabled))))
  {
    var order := if feature in s.flags then s.flagOrder else s.flagOrder + [feature];
    assert Seqs.Distinct(order) by {
      if feature !in s.flags {
        Seqs.SnocDistinct(s.flagOrder, feature);
      }
    }
    var prefs := s.prefs[Feature(feature) := PBool(enabled)];
    Notify(Store(prefs, s.flags[feature := enabled], order, s.listeners, s.notices),
           Change(FeatureName(feature), Some(PBool(!enabled)), Some(PBool(enabled))))
  }

  /** A flag reads back as set, whatever the default, and setting it
      leaves every setting alone. */
  lemma SetFeatureThenRead(s: Store, feature: string, enabled: bool, default: bool)
    requires Coherent(s)
    ensures IsFeatureEnabled(SetFeature(s, feature, enabled), feature, default) == enabled
    ensures forall k :: Read(SetFeature(s, feature, enabled).prefs, k) == Read(s.prefs, k)
  {
  }

  /** The change reported claims the flag flipped even when it was already
      set to the same value. */
  lemma FeatureNoticeIgnoresPrevious(s: Store, feature: string)
    requires Coherent(s) && feature in s.flags && s.flags[feature] && |s.listeners| > 0
    ensures var t := SetFeature(s, feature, true);
      t.notices[|s.notices|].change == Change(FeatureName(feature), Some(PBool(false)), Some(PBool(true)))
  {
  }

  // ---------------------------------------------------------------------------
  // Reset

  /** Each default passes its own setter unchanged. */
  lemma StoredDefault(k: Key)
    ensures Stored(k, Default(k)) == Some(Default(k))
  {
    if k == ConnectionStrategy {
      LowerIdentity("websocket");
    }
  }

  /** The setters of `keys` called with their defaults, in order. */
  function SetDefaults(s: Store, keys: seq<Key>): (t: Store)
    requires WellTyped(s.prefs)
    ensures WellTyped(t.prefs)
    ensures t.flags == s.flags && t.flagOrder == s.flagOrder && t.listeners == s.listeners
    decreases |keys|
  {
    if keys == [] then s
    else
      var k := keys[|keys| - 1];
      Set(SetDefaults(s, keys[..|keys| - 1]), k, Default(k))
  }

  lemma SetDefaultsStep(s: Store, keys: seq<Key>, i: nat)
    requires WellTyped(s.prefs) && i < |keys|
    ensures SetDefaults(s, keys[..i + 1]) == Set(SetDefaults(s, keys[..i]), keys[i], Default(keys[i]))
  {
    assert keys[..i + 1][..i] == keys[..i];
  }

  lemma {:induction false} SetDefaultsReads(s: Store, keys: seq<Key>)
    requires WellTyped(s.prefs)
    ensures forall k :: k in keys ==> Read(SetDefaults(s, keys).prefs, k) == Default(k)
    ensures forall k :: k !in keys ==> Read(SetDefaults(s, keys).prefs, k) == Read(s.prefs, k)
    ensures forall f :: (Feature(f) in SetDefaults(s, keys).prefs <==> Feature(f) in s.prefs)
              && (Feature(f) in s.prefs ==> SetDefaults(s, keys).prefs[Feature(f)] == s.prefs[Feature(f)])
    decreases |keys|
  {
    if keys != [] {
      var init, k := keys[..|keys| - 1], keys[|keys| - 1];
      SetDefaultsReads(s, init);
      var t := SetDefaults(s, init);
      SetEffect(t, k, Default(k));
      StoredDefault(k);
      forall k2 | k2 in keys ensures Read(SetDefaults(s, keys).prefs, k2) == Default(k2) {
        if k2 != k {
          assert k2 in init;
        }
      }
    }
  }

  /** `resetToDefaults()`: every setter called with its default, the cached
      flags dropped, and a last notice for `"all"`. */
  function Reset(s: Store): (t: Store)
    requires Coherent(s)
    ensures Coherent(t)
    ensures t.flags == map[] && t.flagOrder == []
  {
    var u := SetDefaults(s, AllKeys);
    Notify(u.(flags := map[], flagOrder := []), Change("all", None, None))
  }

  lemma ResetShape(s: Store)
    requires Coherent(s)
    ensures var u := SetDefaults(s, AllKeys);
      Reset(s) == Store(u.prefs, map[], [], s.listeners, u.notices + Deliver(s.listeners, Change("all", None, None)))
  {
  }

  /** After the reset every setting reads as its default. */
  lemma ResetRestoresDefaults(s: Store)
    requires Coherent(s)
    ensures forall k :: Read(Reset(s).prefs, k) == Default(k)
    ensures Guarded(Reset(s).prefs)
  {
    SetDefaultsReads(s, AllKeys);
    forall k ensures k in AllKeys {
      AllKeysComplete(k);
    }
    DefaultsGuarded(Reset(s).prefs);
  }

  lemma DefaultsGuarded(prefs: Prefs)
    requires WellTyped(prefs) && forall k :: Read(prefs, k) == Default(k)
    ensures Guarded(prefs)
  {
    assert StrOf(prefs, ConnectionStrategy) == Strategies[0] by {
      assert Read(prefs, ConnectionStrategy) == PStr("websocket");
    }
    assert Read(prefs, ScreenQuality) == PInt(80);
    assert Read(prefs, ScreenFps) == PInt(15);
  }

  /** The reset drops only the cached copies of the feature flags: a flag
      that was set keeps its stored value, so it still reads as set. */
  lemma FeatureSurvivesReset(s: Store, feature: string)
    requires Coherent(s)
    ensures IsFeatureEnabled(Reset(SetFeature(s, feature, true)), feature, false)
  {
    SetDefaultsReads(SetFeature(s, feature, true), AllKeys);
  }

  /** The reset intended: the stored flags removed with the cached ones. */
  function ResetWithFlags(s: Store): (t: Store)
    requires Coherent(s)
    ensures Coherent(t)
  {
    var u := Reset(s);
    u.(prefs := map p | p in u.prefs && p.Setting? :: u.prefs[p])
  }

  /** After it every setting is its default and every flag reads as the
      default given. */
  lemma ResetWithFlagsRestores(s: Store, feature: string, default: bool)
    requires Coherent(s)
    ensures IsFeatureEnabled(ResetWithFlags(s), feature, default) == default
    ensures forall k :: Read(ResetWithFlags(s).prefs, k) == Default(k)
  {
    ResetRestoresDefaults(s);
  }

  // ---------------------------------------------------------------------------
  // Validation

  /** `part.toIntOrNull()`: an optional sign and decimal digits, within
      `Int`. */
  function ToIntOrNull(part: string): (r: Option<int>)
    ensures r.Some? ==> INT_MIN <= r.value <= INT_MAX
  {
    var negative := part != [] && part[0] == '-';
    var digits := if part != [] && (part[0] == '-' || part[0] == '+') then part[1..] else part;
    if digits == [] || !AllDigits(digits) then None
    else
      var m: int := DigitsValue(digits);
      var v := if negative then -m else m;
      if INT_MIN <= v <= INT_MAX then Some(v) else None
  }

  /** `isValidIpAddress(ip)` */
  predicate IsValidIpAddress(ip: string)
  {
    var parts := Split(ip, '.');
    |parts| == 4 && forall i :: 0 <= i < 4 ==> ToIntOrNull(parts[i]).Some? && 0 <= ToIntOrNull(parts[i]).value <= 255
  }

  /** A group of one to three digits reads as its value. */
  lemma DigitsToInt(p: string)
    requires 1 <= |p| <= 3 && AllDigits(p)
    ensures ToIntOrNull(p) == Some(DigitsValue(p))
  {
    assert DigitsValue(p) < 1000 by {
      DigitsBelow(p);
    }
  }

  lemma {:induction false} DigitsBelow(p: string)
    requires AllDigits(p)
    ensures DigitsValue(p) < Pow10(|p|)
  {
    if p != [] {
      DigitsBelow(p[..|p| - 1]);
    }
  }

  function Pow10(n: nat): (r: nat)
    ensures r >= 1
  {
    if n == 0 then 1 else 10 * Pow10(n - 1)
  }

  /** Four groups of one to three digits, each at most 255, joined by
      dots, are valid. */
  lemma DottedBytesValid(parts: seq<string>)
    requires |parts| == 4
    requires forall i :: 0 <= i < 4 ==> 1 <= |parts[i]| <= 3 && AllDigits(parts[i]) && DigitsValue(parts[i]) <= 255
    ensures IsValidIpAddress(Join(parts, '.'))
  {
    forall i | 0 <= i < 4 ensures '.' !in parts[i] && ToIntOrNull(parts[i]) == Some(DigitsValue(parts[i])) {
      DigitsToInt(parts[i]);
    }
    SplitJoin(parts, '.');
  }

  /** A signed group passes too: `+7` reads as 7, and `-0` or `-00` as 0,
      so a group with a sign can count as an octet. */
  lemma SignedGroup(sign: char, p: string)
    requires sign == '+' || sign == '-'
    requires 1 <= |p| <= 3 && AllDigits(p)
    ensures ToIntOrNull([sign] + p) == Some(if sign == '-' then -(DigitsValue(p) as int) else DigitsValue(p))
  {
    assert ([sign] + p)[1..] == p;
    DigitsBelow(p);
  }

  /** `ConfigValidationResult` */
  datatype ValidationResult = ValidationResult(isValid: bool, errors: seq<string>, warnings: seq<string>)

  function If(c: bool, message: string): seq<string>
  {
    if c then [message] else []
  }

  predicate PortInRange(p: int) { 1 <= p <= 65535 }

  /** `validateConfig()` on the current settings. */
  function Validate(prefs: Prefs): (r: ValidationResult)
    requires WellTyped(prefs)
    ensures r.isValid <==> r.errors == []
  {
    var errors := Errors(prefs);
    ValidationResult(errors == [], errors, Warnings(prefs))
  }

  /** The checks `validateConfig` reports as errors, in order. */
  function Errors(prefs: Prefs): seq<string>
    requires WellTyped(prefs)
  {
    var strategy := StrOf(prefs, ConnectionStrategy);
    If(IsBlank(StrOf(prefs, ServerIp)), "服务器IP不能为空")
    + If(!PortInRange(IntOf(prefs, ServerPort)), "服务器端口必须在1-65535之间")
    + If(!PortInRange(IntOf(prefs, DiscoveryPort)), "设备发现端口必须在1-65535之间")
    + If(!PortInRange(IntOf(prefs, WebSocketPort)), "WebSocket端口必须在1-65535之间")
    + If(ToLower(strategy) !in Strategies, "不支持的连接策略: " + strategy)
  }

  /** The checks it reports as warnings, in order. */
  function Warnings(prefs: Prefs): seq<string>
    requires WellTyped(prefs)
  {
    var ip := StrOf(prefs, ServerIp);
    If(!IsBlank(ip) && !IsValidIpAddress(ip), "服务器IP格式可能不正确: " + ip)
    + If(IntOf(prefs, HeartbeatInterval) < 1000, "心跳间隔过短，可能影响性能")
    + If(IntOf(prefs, ConnectionTimeout) < 1000, "连接超时时间过短，可能导致连接失败")
    + If(!(10 <= IntOf(prefs, ScreenQuality) <= 100), "屏幕质量应在10-100之间")
    + If(!(1 <= IntOf(prefs, ScreenFps) <= 60), "屏幕帧率应在1-60之间")
  }

  /** The configuration is valid exactly when the address is not blank,
      the three ports are in range and the strategy is supported. Warnings
      never make it invalid. */
  lemma ValidIff(prefs: Prefs)
    requires WellTyped(prefs)
    ensures Validate(prefs).isValid <==>
      !IsBlank(StrOf(prefs, ServerIp))
      && PortInRange(IntOf(prefs, ServerPort)) && PortInRange(IntOf(prefs, DiscoveryPort)) && PortInRange(IntOf(prefs, WebSocketPort))
      && ToLower(StrOf(prefs, ConnectionStrategy)) in Strategies
  {
  }

  /** The defaults validate without errors or warnings. */
  lemma DefaultsValid(prefs: Prefs)
    requires WellTyped(prefs) && forall k :: Read(prefs, k) == Default(k)
    ensures Validate(prefs) == ValidationResult(true, [], [])
  {
    DefaultsNoErrors(prefs);
    DefaultsNoWarnings(prefs);
  }

  lemma DefaultsNoErrors(prefs: Prefs)
    requires WellTyped(prefs) && forall k :: Read(prefs, k) == Default(k)
    ensures Errors(prefs) == []
  {
    var ip, strategy := StrOf(prefs, ServerIp), StrOf(prefs, ConnectionStrategy);
    assert !IsBlank(ip) by {
      assert Read(prefs, ServerIp) == PStr("192.168.1.100");
      assert !IsSpace(ip[0]);
    }
    assert PortInRange(IntOf(prefs, ServerPort)) && PortInRange(IntOf(prefs, DiscoveryPort)) && PortInRange(IntOf(prefs, WebSocketPort)) by {
      assert Read(prefs, ServerPort) == PInt(8928) && Read(prefs, DiscoveryPort) == PInt(8190) && Read(prefs, WebSocketPort) == PInt(8781);
    }
    assert ToLower(strategy) in Strategies by {
      assert Read(prefs, ConnectionStrategy) == PStr(Strategies[0]);
      LowerIdentity(Strategies[0]);
    }
  }

  lemma DefaultsNoWarnings(prefs: Prefs)
    requires WellTyped(prefs) && forall k :: Read(prefs, k) == Default(k)
    ensures Warnings(prefs) == []
  {
    assert Read(prefs, HeartbeatInterval) == PLong(30000) && Read(prefs, ConnectionTimeout) == PLong(10000);
    assert Read(prefs, ScreenQuality) == PInt(80) && Read(prefs, ScreenFps) == PInt(15);
    var ip := StrOf(prefs, ServerIp);
    assert !IsBlank(ip) && IsValidIpAddress(ip) by {
      assert Read(prefs, ServerIp) == PStr("192.168.1.100");
      assert !IsSpace(ip[0]);
      DefaultAddressValid();
    }
  }

  /** `DEFAULT_SERVER_IP` is a well-formed address. */
  lemma DefaultAddressValid()
    ensures IsValidIpAddress("192.168.1.100")
  {
    var parts := ["192", "168", "1", "100"];
    assert Join(parts[3..], '.') == "100";
    assert Join(parts[2..], '.') == "1.100" by {
      assert parts[2..][1..] == parts[3..];
    }
    assert Join(parts[1..], '.') == "168.1.100" by {
      assert parts[1..][1..] == parts[2..];
    }
    assert Join(parts, '.') == "192.168.1.100" by {
      assert parts[1..] == parts[1..];
    }
    assert DigitsValue("192") == 192 by {
      assert "192"[..2] == "19" && "19"[..1] == "1" && "1"[..0] == "";
    }
    assert DigitsValue("168") == 168 by {
      assert "168"[..2] == "16" && "16"[..1] == "1" && "1"[..0] == "";
    }
    assert DigitsValue("100") == 100 by {
      assert "100"[..2] == "10" && "10"[..1] == "1" && "1"[..0] == "";
    }
    assert DigitsValue("1") == 1 by {
      assert "1"[..0] == "";
    }
    DottedBytesValid(parts);
  }

  // ---------------------------------------------------------------------------
  // JSON import and export

  /** A parsed `org.json` value. Numbers are integers here. */
  datatype Json = JNum(n: int) | JText(t: string) | JFlag(b: bool) | JNull | JObject(members: seq<Member>)
  datatype Member = Member(name: string, value: Json)

  /** `config.has(name)` and `config.get(name)`: a name given twice keeps
      its last value, as `put` replaces. */
  function Lookup(members: seq<Member>, name: string): (r: Option<Json>)
    ensures r.None? <==> forall i :: 0 <= i < |members| ==> members[i].name != name
  {
    if members == [] then None
    else if members[|members| - 1].name == name then Some(members[|members| - 1].value)
    else Lookup(members[..|members| - 1], name)
  }

  /** A name whose every occurrence carries the same value is found
      with that value. */
  lemma {:induction false} LookupSame(members: seq<Member>, i: nat, v: Json)
    requires i < |members|
    requires forall j :: 0 <= j < |members| && members[j].name == members[i].name ==> members[j].value == v
    ensures Lookup(members, members[i].name) == Some(v)
  {
    if i < |members| - 1 && members[|members| - 1].name != members[i].name {
      var init := members[..|members| - 1];
      LookupSame(init, i, v);
    }
  }

  /** Members that do not carry the name do not change the lookup. */
  lemma {:induction false} LookupMiss(a: seq<Member>, b: seq<Member>, name: string)
    requires forall j :: 0 <= j < |b| ==> b[j].name != name
    ensures Lookup(a + b, name) == Lookup(a, name)
    decreases |b|
  {
    if b != [] {
      var b' := b[..|b| - 1];
      assert (a + b)[..|a + b| - 1] == a + b';
      assert (a + b)[|a + b| - 1] == b[|b| - 1] && b[|b| - 1].name != name;
      LookupMiss(a, b', name);
    } else {
      assert a + b == a;
    }
  }

  /** `Long.intValue()`: the low 32 bits, as a signed number. */
  function Wrap32(n: int): (r: int)
    ensures INT_MIN <= r <= INT_MAX
    ensures INT_MIN <= n <= INT_MAX ==> r == n
  {
    (n - INT_MIN) % 0x1_0000_0000 + INT_MIN
  }

  /** `getInt`: a number narrowed to `Int` (a `Long` wraps, a larger number,
      parsed as a `Double`, saturates). */
  function GetInt(j: Json): (r: Option<int>)
    ensures r.Some? ==> INT_MIN <= r.value <= INT_MAX
    ensures j.JNum? && INT_MIN <= j.n <= INT_MAX ==> r == Some(j.n)
    ensures !j.JNum? ==> r.None?
  {
    match j
    case JNum(n) => Some(if LONG_MIN <= n <= LONG_MAX then Wrap32(n) else Clamp(n, INT_MIN, INT_MAX))
    case _ => None
  }

  /** `getLong`: a number within `Long`, a larger one saturating. */
  function GetLong(j: Json): (r: Option<int>)
    ensures r.Some? ==> LONG_MIN <= r.value <= LONG_MAX
    ensures j.JNum? && LONG_MIN <= j.n <= LONG_MAX ==> r == Some(j.n)
    ensures !j.JNum? ==> r.None?
  {
    match j
    case JNum(n) => Some(Clamp(n, LONG_MIN, LONG_MAX))
    case _ => None
  }

  /** `getString`: text as it is, any other scalar as its text (`null` for
      `JSONObject.NULL`). */
  function GetString(j: Json): (r: Option<string>)
    ensures j.JText? ==> r == Some(j.t)
    ensures r.None? <==> j.JObject?
  {
    match j
    case JText(t) => Some(t)
    case JNum(n) => Some(IntToString(n))
    case JFlag(b) => Some(if b then "true" else "false")
    case JNull => Some("null")
    case JObject(_) => None
  }

  /** `getBoolean`: a boolean, or the text `true` or `false` in any case. */
  function GetBoolean(j: Json): (r: Option<bool>)
    ensures j.JFlag? ==> r == Some(j.b)
    ensures r.Some? ==> j.JFlag? || j.JText?
  {
    match j
    case JFlag(b) => Some(b)
    case JText(t) => if ToLower(t) == "true" then Some(true) else if ToLower(t) == "false" then Some(false) else None
    case _ => None
  }

  /** The name each setting has in the exported JSON. */
  function JsonName(k: Key): string
  {
    match k
    case ServerIp => "serverIp"
    case ServerPort => "serverPort"
    case DiscoveryPort => "discoveryPort"
    case WebSocketPort => "webSocketPort"
    case ConnectionStrategy => "connectionStrategy"
    case HeartbeatInterval => "heartbeatInterval"
    case ReconnectDelay => "reconnectDelay"
    case MaxReconnectAttempts => "maxReconnectAttempts"
    case ConnectionTimeout => "connectionTimeout"
    case DebugMode => "debugMode"
    case AutoConnect => "autoConnect"
    case AutoDiscovery => "autoDiscovery"
    case ScreenQuality => "screenQuality"
    case ScreenFps => "screenFps"
    case FileChunkSize => "fileChunkSize"
  }

  /** The getter of the setting's type applied to a JSON value. */
  function Coerce(k: Key, j: Json): (r: Option<Pref>)
    ensures r.Some? ==> OfKind(k, r.value)
  {
    match k
    case ServerIp => AsText(GetString(j))
    case ConnectionStrategy => AsText(GetString(j))
    case HeartbeatInterval => AsLong(GetLong(j))
    case ReconnectDelay => AsLong(GetLong(j))
    case ConnectionTimeout => AsLong(GetLong(j))
    case DebugMode => AsFlag(GetBoolean(j))
    case AutoConnect => AsFlag(GetBoolean(j))
    case AutoDiscovery => AsFlag(GetBoolean(j))
    case _ => AsInt(GetInt(j))
  }

  function AsText(o: Option<string>): (r: Option<Pref>)
    ensures r.Some? <==> o.Some?
    ensures r.Some? ==> r.value == PStr(o.value)
  {
    if o.Some? then Some(PStr(o.value)) else None
  }

  function AsLong(o: Option<int>): (r: Option<Pref>)
    ensures r.Some? <==> o.Some?
    ensures r.Some? ==> r.value == PLong(o.value)
  {
    if o.Some? then Some(PLong(o.value)) else None
  }

  function AsInt(o: Option<int>): (r: Option<Pref>)
    ensures r.Some? <==> o.Some?
    ensures r.Some? ==> r.value == PInt(o.value)
  {
    if o.Some? then Some(PInt(o.value)) else None
  }

  function AsFlag(o: Option<bool>): (r: Option<Pref>)
    ensures r.Some? <==> o.Some?
    ensures r.Some? ==> r.value == PBool(o.value)
  {
    if o.Some? then Some(PBool(o.value)) else None
  }

  /** A setting as `put` writes it. */
  function ToJson(v: Pref): Json
  {
    match v
    case PInt(i) => JNum(i)
    case PLong(l) => JNum(l)
    case PStr(t) => JText(t)
    case PBool(b) => JFlag(b)
  }

  /** Every exported setting reads back as itself. */
  lemma CoerceToJson(k: Key, v: Pref)
    requires OfKind(k, v)
    ensures Coerce(k, ToJson(v)) == Some(v)
  {
  }

  /** `configVersion`: the stored version is never written, so it is the
      default. */
  const CONFIG_VERSION := 1

  function SettingMembers(prefs: Prefs): (ms: seq<Member>)
    requires WellTyped(prefs)
    ensures |ms| == |AllKeys|
    ensures forall i :: 0 <= i < |AllKeys| ==> ms[i] == Member(JsonName(AllKeys[i]), ToJson(Read(prefs, AllKeys[i])))
  {
    seq(|AllKeys|, i requires 0 <= i < |AllKeys| => Member(JsonName(AllKeys[i]), ToJson(Read(prefs, AllKeys[i]))))
  }

  function FlagMembers(s: Store): (ms: seq<Member>)
    requires Coherent(s)
    ensures |ms| == |s.flagOrder|
    ensures forall i :: 0 <= i < |ms| ==> ms[i] == Member(s.flagOrder[i], JFlag(s.flags[s.flagOrder[i]]))
  {
    seq(|s.flagOrder|, i requires 0 <= i < |s.flagOrder| => Member(s.flagOrder[i], JFlag(s.flags[s.flagOrder[i]])))
  }

  /** `exportToJson()`, before it is written out as text: every setting,
      the cached flags in the order they were first set, the version and
      the time given. */
  function Export(s: Store, time: int): Json
    requires Coherent(s)
  {
    JObject(SettingMembers(s.prefs)
            + [Member("featureFlags", JObject(FlagMembers(s))), Member("configVersion", JNum(CONFIG_VERSION)), Member("exportTime", JNum(time))])
  }

  /** The state reached and whether no getter threw. */
  datatype Applied = Applied(store: Store, ok: bool)

  /** The `if (config.has(name)) property = config.getX(name)` lines for
      `keys`, in order, up to the first value that does not convert. */
  function ApplyKeys(s: Store, members: seq<Member>, keys: seq<Key>): (a: Applied)
    requires WellTyped(s.prefs)
    ensures WellTyped(a.store.prefs)
    ensures a.store.flags == s.flags && a.store.flagOrder == s.flagOrder && a.store.listeners == s.listeners
    decreases |keys|
  {
    if keys == [] then Applied(s, true)
    else
      var k := keys[0];
      match Lookup(members, JsonName(k))
      case None => ApplyKeys(s, members, keys[1..])
      case Some(j) =>
        match Coerce(k, j)
        case None => Applied(s, false)
        case Some(v) => ApplyKeys(Set(s, k, v), members, keys[1..])
  }

  /** `flags.keys().forEach { setFeatureEnabled(it, flags.getBoolean(it)) }`,
      up to the first value that is not a boolean. */
  function ApplyFlags(s: Store, members: seq<Member>): (a: Applied)
    requires Coherent(s)
    ensures Coherent(a.store) && a.store.listeners == s.listeners
    decreases |members|
  {
    if members == [] then Applied(s, true)
    else
      var a := ApplyFlags(s, members[..|members| - 1]);
      var m := members[|members| - 1];
      if !a.ok then a
      else match GetBoolean(m.value)
        case None => Applied(a.store, false)
        case Some(b) => Applied(SetFeature(a.store, m.name, b), true)
  }

  lemma ApplyFlagsStep(s: Store, members: seq<Member>, i: nat)
    requires Coherent(s) && i < |members|
    ensures var a := ApplyFlags(s, members[..i]);
      var b := GetBoolean(members[i].value);
      ApplyFlags(s, members[..i + 1]) ==
        if !a.ok then a else if b.None? then Applied(a.store, false) else Applied(SetFeature(a.store, members[i].name, b.value), true)
  {
    assert members[..i + 1][..i] == members[..i];
  }

  /** Once a flag fails to convert, the rest are not applied. */
  lemma {:induction false} ApplyFlagsStaysFailed(s: Store, members: seq<Member>, i: nat)
    requires Coherent(s) && i <= |members| && !ApplyFlags(s, members[..i]).ok
    ensures ApplyFlags(s, members) == ApplyFlags(s, members[..i])
    decreases |members| - i
  {
    if i < |members| {
      ApplyFlagsStep(s, members, i);
      ApplyFlagsStaysFailed(s, members, i + 1);
    } else {
      assert members[..i] == members;
    }
  }

  /** The `featureFlags` member, if there is one. */
  function ApplyFlagMember(a: Applied, members: seq<Member>): (r: Applied)
    requires Coherent(a.store)
    ensures Coherent(r.store) && r.store.listeners == a.store.listeners
  {
    if !a.ok then a
    else match Lookup(members, "featureFlags")
      case None => a
      case Some(JObject(flags)) => ApplyFlags(a.store, flags)
      case Some(_) => Applied(a.store, false)
  }

  /** `importFromJson(json)`: every setting the object names, then its
      flags; `false` at the first value that does not convert, with what
      came before it already applied. */
  function Import(s: Store, j: Json): (a: Applied)
    requires Coherent(s)
    ensures Coherent(a.store)
  {
    if !j.JObject? then Applied(s, false)
    else
      var a := ApplyKeys(s, j.members, AllKeys);
      ApplyFlagMember(a, j.members)
  }

  /** The settings `applyRemoteConfig` reads. */
  const RemoteKeys: seq<Key> := [ServerPort, DiscoveryPort, WebSocketPort, ConnectionStrategy, HeartbeatInterval,
                                 ReconnectDelay, MaxReconnectAttempts, ScreenQuality, ScreenFps]

  /** `applyRemoteConfig(config)`: the same steps for fewer settings; a
      failure is swallowed and what was applied stays. */
  function ApplyRemote(s: Store, members: seq<Member>): (t: Store)
    requires Coherent(s)
    ensures Coherent(t)
  {
    ApplyFlagMember(ApplyKeys(s, members, RemoteKeys), members).store
  }

  /** `fetchRemoteConfig()` given the response: `true` exactly when the
      status is 200 and the body is a JSON object, which is then applied. */
  function Fetch(s: Store, status: int, body: Option<Json>): (a: Applied)
    requires Coherent(s)
    ensures Coherent(a.store)
    ensures a.ok <==> status == 200 && body.Some? && body.value.JObject?
    ensures !a.ok ==> a.store == s
  {
    if status == 200 && body.Some? && body.value.JObject? then Applied(ApplyRemote(s, body.value.members), true)
    else Applied(s, false)
  }

  lemma {:induction false} ApplyKeysKeeps(s: Store, members: seq<Member>, keys: seq<Key>)
    requires WellTyped(s.prefs)
    ensures forall k :: k !in keys ==> Read(ApplyKeys(s, members, keys).store.prefs, k) == Read(s.prefs, k)
    decreases |keys|
  {
    if keys != [] {
      var k := keys[0];
      var j := Lookup(members, JsonName(k));
      if j.Some? && Coerce(k, j.value).Some? {
        SetEffect(s, k, Coerce(k, j.value).value);
        ApplyKeysKeeps(Set(s, k, Coerce(k, j.value).value), members, keys[1..]);
      } else if j.None? {
        ApplyKeysKeeps(s, members, keys[1..]);
      }
    }
  }

  lemma {:induction false} ApplyFlagsKeeps(s: Store, members: seq<Member>)
    requires Coherent(s)
    ensures forall k :: Read(ApplyFlags(s, members).store.prefs, k) == Read(s.prefs, k)
    decreases |members|
  {
    if members != [] {
      var init := members[..|members| - 1];
      ApplyFlagsKeeps(s, init);
      var a := ApplyFlags(s, init);
      var m := members[|members| - 1];
      if a.ok && GetBoolean(m.value).Some? {
        SetFeatureThenRead(a.store, m.name, GetBoolean(m.value).value, false);
      }
    }
  }

  /** The remote configuration never changes the address, the connection
      timeout, the three switches or the chunk size. */
  lemma RemoteKeepsLocalSettings(s: Store, members: seq<Member>)
    requires Coherent(s)
    ensures forall k :: k !in RemoteKeys ==> Read(ApplyRemote(s, members).prefs, k) == Read(s.prefs, k)
  {
    ApplyKeysKeeps(s, members, RemoteKeys);
    var a := ApplyKeys(s, members, RemoteKeys);
    var f := Lookup(members, "featureFlags");
    if a.ok && f.Some? && f.value.JObject? {
      ApplyFlagsKeeps(a.store, f.value.members);
    }
  }

  /** An import that fails keeps what it applied before the failure: an
      address followed by a port that is not a number leaves the address
      set. */
  lemma ImportIsPartial(s: Store, ip: string, port: Json)
    requires Coherent(s) && !port.JNum?
    ensures var a := Import(s, JObject([Member("serverIp", JText(ip)), Member("serverPort", port)]));
      !a.ok && Read(a.store.prefs, ServerIp) == PStr(ip)
  {
    var ms := [Member("serverIp", JText(ip)), Member("serverPort", port)];
    var s1 := Set(s, ServerIp, PStr(ip));
    SetEffect(s, ServerIp, PStr(ip));
    assert Lookup(ms, "serverPort") == Some(port);
    assert Lookup(ms, "serverIp") == Some(JText(ip)) by {
      assert ms[1].name != "serverIp";
      assert ms[..1] == [ms[0]];
    }
    assert Coerce(ServerIp, JText(ip)) == Some(PStr(ip));
    assert AllKeys[0] == ServerIp && AllKeys[1] == ServerPort;
    assert ApplyKeys(s, ms, AllKeys) == ApplyKeys(s1, ms, AllKeys[1..]);
    assert ApplyKeys(s1, ms, AllKeys[1..]) == Applied(s1, false);
  }

  /** The supported strategies are written in lower case. */
  lemma StrategiesLower(t: string)
    requires t in Strategies
    ensures ToLower(t) == t
  {
    var i :| 0 <= i < |Strategies| && Strategies[i] == t;
    LowerIdentity(Strategies[i]);
  }

  /** A guarded setting passes its own setter unchanged. */
  lemma GuardedStored(prefs: Prefs, k: Key)
    requires WellTyped(prefs) && Guarded(prefs)
    ensures Stored(k, Read(prefs, k)) == Some(Read(prefs, k))
  {
    if k == ConnectionStrategy {
      StrategiesLower(Read(prefs, k).s);
    }
  }

  lemma {:induction false} ApplyKeysRestores(u: Store, members: seq<Member>, keys: seq<Key>, src: Prefs)
    requires WellTyped(u.prefs) && WellTyped(src)
    requires forall k :: k in keys ==> Lookup(members, JsonName(k)) == Some(ToJson(Read(src, k))) && Stored(k, Read(src, k)) == Some(Read(src, k))
    ensures ApplyKeys(u, members, keys).ok
    ensures forall k :: k in keys ==> Read(ApplyKeys(u, members, keys).store.prefs, k) == Read(src, k)
    decreases |keys|
  {
    if keys != [] {
      var k := keys[0];
      var v := Read(src, k);
      CoerceToJson(k, v);
      var t := Set(u, k, v);
      SetEffect(u, k, v);
      assert ApplyKeys(u, members, keys) == ApplyKeys(t, members, keys[1..]);
      ApplyKeysRestores(t, members, keys[1..], src);
      ApplyKeysKeeps(t, members, keys[1..]);
      forall k2 | k2 in keys ensures Read(ApplyKeys(u, members, keys).store.prefs, k2) == Read(src, k2) {
        if k2 !in keys[1..] {
          assert k2 == k;
        }
      }
    }
  }

  lemma {:induction false} ApplyFlagsSets(u: Store, ms: seq<Member>)
    requires Coherent(u)
    requires forall i :: 0 <= i < |ms| ==> ms[i].value.JFlag?
    requires forall i, j :: 0 <= i < j < |ms| ==> ms[i].name != ms[j].name
    ensures ApplyFlags(u, ms).ok
    ensures forall i :: 0 <= i < |ms| ==> ms[i].name in ApplyFlags(u, ms).store.flags && ApplyFlags(u, ms).store.flags[ms[i].name] == ms[i].value.b
    decreases |ms|
  {
    if ms != [] {
      var init, m := ms[..|ms| - 1], ms[|ms| - 1];
      ApplyFlagsSets(u, init);
      var a := ApplyFlags(u, init);
      var t := SetFeature(a.store, m.name, m.value.b);
      assert ApplyFlags(u, ms) == Applied(t, true);
      forall i | 0 <= i < |ms| ensures ms[i].name in t.flags && t.flags[ms[i].name] == ms[i].value.b {
        if i < |ms| - 1 {
          assert ms[i] == init[i] && ms[i].name != m.name;
        }
      }
    }
  }

  lemma JsonNamesDistinct(k1: Key, k2: Key)
    ensures JsonName(k1) == JsonName(k2) ==> k1 == k2
  {
  }

  /** The settings a JSON export holds are found under their names. */
  lemma ExportedSetting(s: Store, time: int, k: Key)
    requires Coherent(s)
    ensures Lookup(Export(s, time).members, JsonName(k)) == Some(ToJson(Read(s.prefs, k)))
  {
    var sm := SettingMembers(s.prefs);
    var tail := [Member("featureFlags", JObject(FlagMembers(s))), Member("configVersion", JNum(CONFIG_VERSION)), Member("exportTime", JNum(time))];
    assert forall j :: 0 <= j < |tail| ==> tail[j].name != JsonName(k);
    LookupMiss(sm, tail, JsonName(k));
    SettingFound(s.prefs, k);
  }

  lemma SettingFound(prefs: Prefs, k: Key)
    requires WellTyped(prefs)
    ensures Lookup(SettingMembers(prefs), JsonName(k)) == Some(ToJson(Read(prefs, k)))
  {
    var sm := SettingMembers(prefs);
    AllKeysComplete(k);
    var i :| 0 <= i < |AllKeys| && AllKeys[i] == k;
    forall j | 0 <= j < |sm| && sm[j].name == sm[i].name ensures sm[j].value == ToJson(Read(prefs, k)) {
      JsonNamesDistinct(AllKeys[j], k);
    }
    LookupSame(sm, i, ToJson(Read(prefs, k)));
  }

  /** The flags of an export are found under `featureFlags`. */
  lemma ExportedFlags(s: Store, time: int)
    requires Coherent(s)
    ensures Lookup(Export(s, time).members, "featureFlags") == Some(JObject(FlagMembers(s)))
  {
    var head := SettingMembers(s.prefs) + [Member("featureFlags", JObject(FlagMembers(s)))];
    var tail := [Member("configVersion", JNum(CONFIG_VERSION)), Member("exportTime", JNum(time))];
    assert Export(s, time).members == head + tail;
    LookupMiss(head, tail, "featureFlags");
  }

  /** Importing an export restores every setting, whatever state it is
      imported into. */
  lemma ExportedSettingsRestored(s: Store, u: Store, time: int)
    requires Coherent(s) && Coherent(u) && Guarded(s.prefs)
    ensures var a := ApplyKeys(u, Export(s, time).members, AllKeys);
      a.ok && forall k :: Read(a.store.prefs, k) == Read(s.prefs, k)
  {
    var e := Export(s, time);
    forall k | k in AllKeys
      ensures Lookup(e.members, JsonName(k)) == Some(ToJson(Read(s.prefs, k))) && Stored(k, Read(s.prefs, k)) == Some(Read(s.prefs, k))
    {
      ExportedSetting(s, time, k);
      GuardedStored(s.prefs, k);
    }
    ApplyKeysRestores(u, e.members, AllKeys, s.prefs);
    forall k ensures k in AllKeys {
      AllKeysComplete(k);
    }
  }

  /** Importing an export restores every setting and every cached flag,
      whatever state it is imported into, once the strategy, quality and
      frame rate are values their setters keep. */
  lemma ExportImport(s: Store, u: Store, time: int)
    requires Coherent(s) && Coherent(u) && Guarded(s.prefs)
    ensures var a := Import(u, Export(s, time));
      a.ok
      && (forall k :: Read(a.store.prefs, k) == Read(s.prefs, k))
      && (forall f :: f in s.flags ==> f in a.store.flags && a.store.flags[f] == s.flags[f])
  {
    var e := Export(s, time);
    var a1 := ApplyKeys(u, e.members, AllKeys);
    ExportedSettingsRestored(s, u, time);
    var fm := FlagMembers(s);
    ExportedFlags(s, time);
    var r := ApplyFlags(a1.store, fm);
    assert Import(u, e) == r;
    assert r.ok && forall i :: 0 <= i < |fm| ==> fm[i].name in r.store.flags && r.store.flags[fm[i].name] == fm[i].value.b by {
      ApplyFlagsSets(a1.store, fm);
    }
    assert forall k :: Read(r.store.prefs, k) == Read(a1.store.prefs, k) by {
      ApplyFlagsKeeps(a1.store, fm);
    }
    forall f | f in s.flags ensures f in r.store.flags && r.store.flags[f] == s.flags[f] {
      var i :| 0 <= i < |s.flagOrder| && s.flagOrder[i] == f;
      assert fm[i].name == f;
    }
  }

  // ---------------------------------------------------------------------------
  // The configuration object

  /** The `AppConfig` singleton: the preferences it writes, the cached
      flags and the listener list it updates in place. */
  class Config {
    var prefs: Prefs
    var flags: map<string, bool>
    var flagOrder: seq<string>
    var listeners: seq<nat>
    var notices: seq<Notice>

    function State(): (s: Store)
      reads this
      ensures s.prefs == prefs && s.flags == flags && s.flagOrder == flagOrder && s.listeners == listeners && s.notices == notices
    {
      Store(prefs, flags, flagOrder, listeners, notices)
    }

    ghost predicate Valid()
      reads this
    {
      Coherent(State())
    }

    /** The instance over an existing preferences file. */
    constructor (stored: Prefs)
      requires WellTyped(stored)
      ensures Valid() && State() == Store(stored, map[], [], [], [])
    {
      prefs, flags, flagOrder, listeners, notices := stored, map[], [], [], [];
    }

    /** A property's getter. */
    method Get(k: Key) returns (v: Pref)
      requires Valid()
      ensures v == Read(prefs, k) && OfKind(k, v)
    {
      v := if Setting(k) in prefs then prefs[Setting(k)] else Default(k);
    }

    /** A property's setter. */
    method Put(k: Key, v: Pref)
      requires Valid() && OfKind(k, v)
      modifies this
      ensures Valid() && State() == Set(old(State()), k, v)
    {
      var t := Set(State(), k, v);
      prefs, flags, flagOrder, listeners, notices := t.prefs, t.flags, t.flagOrder, t.listeners, t.notices;
    }

    method IsEnabled(feature: string, default: bool) returns (r: bool)
      ensures r == IsFeatureEnabled(State(), feature, default)
    {
      if feature in flags {
        r := flags[feature];
      } else if Feature(feature) in prefs && prefs[Feature(feature)].PBool? {
        r := prefs[Feature(feature)].b;
      } else {
        r := default;
      }
    }

    method SetFeatureEnabled(feature: string, enabled: bool)
      requires Valid()
      modifies this
      ensures Valid() && State() == SetFeature(old(State()), feature, enabled)
    {
      var t := SetFeature(State(), feature, enabled);
      prefs, flags, flagOrder, listeners, notices := t.prefs, t.flags, t.flagOrder, t.listeners, t.notices;
    }

    /** `resetToDefaults()`, with the stored flags removed as well as the
        cached ones. */
    method ResetToDefaults()
      requires Valid()
      modifies this
      ensures Valid() && State() == ResetWithFlags(old(State()))
    {
      ghost var s0 := State();
      for i := 0 to |AllKeys|
        invariant Valid() && State() == SetDefaults(s0, AllKeys[..i])
      {
        SetDefaultsStep(s0, AllKeys, i);
        Put(AllKeys[i], Default(AllKeys[i]));
      }
      assert AllKeys[..|AllKeys|] == AllKeys;
      flags, flagOrder := map[], [];
      notices := notices + Deliver(listeners, Change("all", None, None));
      ResetShape(s0);
      prefs := map p | p in prefs && p.Setting? :: prefs[p];
    }

    /** `configListeners.add(listener)` */
    method AddListener(listener: nat)
      requires Valid()
      modifies this
      ensures Valid() && State() == old(State()).(listeners := old(listeners) + [listener])
    {
      listeners := listeners + [listener];
    }

    /** `configListeners.remove(listener)`: its first occurrence. */
    method RemoveListener(listener: nat)
      requires Valid()
      modifies this
      ensures Valid() && State() == old(State()).(listeners := Seqs.RemoveFirst(old(listeners), listener))
    {
      listeners := Seqs.RemoveFirst(listeners, listener);
    }

    /** `cleanup()`: the listeners are dropped (the coroutine scope is not
        part of this model). */
    method Cleanup()
      requires Valid()
      modifies this
      ensures Valid() && State() == old(State()).(listeners := [])
    {
      listeners := [];
    }

    method ValidateConfig() returns (r: ValidationResult)
      requires Valid()
      ensures r == Validate(prefs)
      ensures r.isValid <==> r.errors == []
    {
      r := Validate(prefs);
    }

    method ExportToJson(time: int) returns (j: Json)
      requires Valid()
      ensures j == Export(State(), time)
    {
      j := Export(State(), time);
    }

    /** The `forEach` over a `featureFlags` object. */
    method ApplyFeatureFlags(members: seq<Member>) returns (ok: bool)
      requires Valid()
      modifies this
      ensures Valid() && ApplyFlags(old(State()), members) == Applied(State(), ok)
    {
      ghost var start := State();
      for i := 0 to |members|
        invariant Valid() && State().listeners == start.listeners
        invariant ApplyFlags(start, members[..i]) == Applied(State(), true)
      {
        ApplyFlagsStep(start, members, i);
        var b := GetBoolean(members[i].value);
        if b.None? {
          ApplyFlagsStaysFailed(start, members, i + 1);
          return false;
        }
        SetFeatureEnabled(members[i].name, b.value);
      }
      assert members[..|members|] == members;
      return true;
    }

    method ApplyFlagObject(members: seq<Member>) returns (ok: bool)
      requires Valid()
      modifies this
      ensures Valid() && ApplyFlagMember(Applied(old(State()), true), members) == Applied(State(), ok)
    {
      var f := Lookup(members, "featureFlags");
      if f.None? {
        return true;
      }
      if !f.value.JObject? {
        return false;
      }
      ok := ApplyFeatureFlags(f.value.members);
    }

    method ImportFromJson(j: Json) returns (ok: bool)
      requires Valid()
      modifies this
      ensures Valid() && Import(old(State()), j) == Applied(State(), ok)
    {
      if !j.JObject? {
        return false;
      }
      var a := ApplyKeys(State(), j.members, AllKeys);
      prefs, flags, flagOrder, listeners, notices := a.store.prefs, a.store.flags, a.store.flagOrder, a.store.listeners, a.store.notices;
      if !a.ok {
        return false;
      }
      ok := ApplyFlagObject(j.members);
    }

    /** `applyRemoteConfig(config)`: failures are swallowed. */
    method ApplyRemoteConfig(members: seq<Member>)
      requires Valid()
      modifies this
      ensures Valid() && State() == ApplyRemote(old(State()), members)
    {
      var a := ApplyKeys(State(), members, RemoteKeys);
      prefs, flags, flagOrder, listeners, notices := a.store.prefs, a.store.flags, a.store.flagOrder, a.store.listeners, a.store.notices;
      if a.ok {
        var _ := ApplyFlagObject(members);
      }
    }

    /** `fetchRemoteConfig()` given the status and the parsed body. */
    method FetchRemoteConfig(status: int, body: Option<Json>) returns (ok: bool)
      requires Valid()
      modifies this
      ensures Valid() && Fetch(old(State()), status, body) == Applied(State(), ok)
    {
      if status == 200 && body.Some? && body.value.JObject? {
        ApplyRemoteConfig(body.value.members);
        return true;
      }
      return false;
    }
  }
}
