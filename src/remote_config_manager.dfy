// The remote configuration manager of the Android client: it reads the
// server's configuration document, keeps the last one fetched and
// applies its settings and feature flags to the local configuration.

module RemoteConfigManager {
  import opened Wrappers
  import opened Text
  import opened AppConfig

  const DEFAULT_REFRESH_INTERVAL: int := 300000
  const MIN_REFRESH_INTERVAL: int := 60000

  // ---------------------------------------------------------------------------
  // The configuration document

  datatype ServerSettings = ServerSettings(serverPort: Option<int>, discoveryPort: Option<int>, webSocketPort: Option<int>)

  datatype ConnectionSettings = ConnectionSettings(strategy: Option<string>, heartbeatInterval: Option<int>,
                                                   reconnectDelay: Option<int>, maxReconnectAttempts: Option<int>,
                                                   connectionTimeout: Option<int>)

  datatype ScreenSettings = ScreenSettings(quality: Option<int>, fps: Option<int>, maxResolution: Option<int>)

  datatype UpdateInfo = UpdateInfo(latestVersion: Option<string>, updateUrl: Option<string>,
                                   isForceUpdate: bool, releaseNotes: Option<string>)

  /** One entry of the feature-flag map. */
  datatype Flag = Flag(name: string, enabled: bool)

  datatype RemoteConfig = RemoteConfig(version: int, server: Option<ServerSettings>,
                                       connection: Option<ConnectionSettings>, screen: Option<ScreenSettings>,
                                       flags: seq<Flag>, update: Option<UpdateInfo>, fetchTime: int)

  predicate IntOpt(o: Option<int>) { o.Some? ==> INT_MIN <= o.value <= INT_MAX }
  predicate LongOpt(o: Option<int>) { o.Some? ==> LONG_MIN <= o.value <= LONG_MAX }

  predicate ServerTyped(v: ServerSettings) { IntOpt(v.serverPort) && IntOpt(v.discoveryPort) && IntOpt(v.webSocketPort) }
  predicate ConnectionTyped(v: ConnectionSettings)
  {
    LongOpt(v.heartbeatInterval) && LongOpt(v.reconnectDelay) && IntOpt(v.maxReconnectAttempts) && LongOpt(v.connectionTimeout)
  }
  predicate ScreenTyped(v: ScreenSettings) { IntOpt(v.quality) && IntOpt(v.fps) && IntOpt(v.maxResolution) }

  /** The Kotlin types of the fields: `Int?` and `Long?` within their
      widths. */
  predicate Typed(c: RemoteConfig)
  {
    && (c.server.Some? ==> ServerTyped(c.server.value))
    && (c.connection.Some? ==> ConnectionTyped(c.connection.value))
    && (c.screen.Some? ==> ScreenTyped(c.screen.value))
  }

  predicate PositiveOpt(o: Option<int>) { o.Some? ==> o.value > 0 }
  predicate TextOpt(o: Option<string>) { o.Some? ==> o.value != [] }

  predicate ServerParsed(v: ServerSettings)
  {
    PositiveOpt(v.serverPort) && PositiveOpt(v.discoveryPort) && PositiveOpt(v.webSocketPort)
  }
  predicate ConnectionParsed(v: ConnectionSettings)
  {
    TextOpt(v.strategy) && PositiveOpt(v.heartbeatInterval) && PositiveOpt(v.reconnectDelay)
    && PositiveOpt(v.maxReconnectAttempts) && PositiveOpt(v.connectionTimeout)
  }
  predicate ScreenParsed(v: ScreenSettings) { PositiveOpt(v.quality) && PositiveOpt(v.fps) && PositiveOpt(v.maxResolution) }
  predicate UpdateParsed(v: UpdateInfo) { TextOpt(v.latestVersion) && TextOpt(v.updateUrl) && TextOpt(v.releaseNotes) }

  /** What parsing guarantees: no number it keeps is zero or negative and
      no text it keeps is empty. */
  predicate Parsed(c: RemoteConfig)
  {
    && (c.server.Some? ==> ServerParsed(c.server.value))
    && (c.connection.Some? ==> ConnectionParsed(c.connection.value))
    && (c.screen.Some? ==> ScreenParsed(c.screen.value))
    && (c.update.Some? ==> UpdateParsed(c.update.value))
  }

  // ---------------------------------------------------------------------------
  // Reading a JSON object

  /** `optInt(name, fallback)`: the member as an `Int`, or the fallback when
      it is missing or not a number. */
  function OptInt(ms: seq<Member>, name: string, fallback: int): (r: int)
    requires INT_MIN <= fallback <= INT_MAX
    ensures INT_MIN <= r <= INT_MAX
    ensures Lookup(ms, name).None? ==> r == fallback
    ensures Lookup(ms, name).Some? && !Lookup(ms, name).value.JNum? ==> r == fallback
    ensures forall n :: Lookup(ms, name) == Some(JNum(n)) && INT_MIN <= n <= INT_MAX ==> r == n
  {
    match Lookup(ms, name)
    case None => fallback
    case Some(j) => GetInt(j).GetOr(fallback)
  }

  /** `optLong(name, fallback)` */
  function OptLong(ms: seq<Member>, name: string, fallback: int): (r: int)
    requires LONG_MIN <= fallback <= LONG_MAX
    ensures LONG_MIN <= r <= LONG_MAX
    ensures Lookup(ms, name).None? ==> r == fallback
    ensures Lookup(ms, name).Some? && !Lookup(ms, name).value.JNum? ==> r == fallback
    ensures forall n :: Lookup(ms, name) == Some(JNum(n)) && LONG_MIN <= n <= LONG_MAX ==> r == n
  {
    match Lookup(ms, name)
    case None => fallback
    case Some(j) => GetLong(j).GetOr(fallback)
  }

  /** `optString(name)`: the member's text, the empty text when it is
      missing. A nested object reads as `{}`. */
  function OptString(ms: seq<Member>, name: string): (r: string)
    ensures Lookup(ms, name).None? ==> r == ""
    ensures forall t :: Lookup(ms, name) == Some(JText(t)) ==> r == t
    ensures Lookup(ms, name).Some? && !Lookup(ms, name).value.JText? ==> r != ""
  {
    match Lookup(ms, name)
    case None => ""
    case Some(j) =>
      match j
      case JText(t) => t
      case JNum(n) => IntToString(n)
      case JFlag(b) => if b then "true" else "false"
      case JNull => "null"
      case JObject(_) => "{}"
  }

  /** `optBoolean(name, false)`: a boolean, or the text `true` or `false`, and
      otherwise false. */
  function OptBoolean(ms: seq<Member>, name: string): (r: bool)
    ensures Lookup(ms, name).None? ==> !r
    ensures forall b :: Lookup(ms, name) == Some(JFlag(b)) ==> r == b
  {
    match Lookup(ms, name)
    case None => false
    case Some(j) => GetBoolean(j).GetOr(false)
  }

  /** `optInt(name, -1).takeIf { it > 0 }` */
  function PositiveInt(ms: seq<Member>, name: string): (r: Option<int>)
    ensures r.Some? ==> 0 < r.value <= INT_MAX
  {
    var n := OptInt(ms, name, -1);
    if n > 0 then Some(n) else None
  }

  /** `optLong(name, -1).takeIf { it > 0 }` */
  function PositiveLong(ms: seq<Member>, name: string): (r: Option<int>)
    ensures r.Some? ==> 0 < r.value <= LONG_MAX
  {
    var n := OptLong(ms, name, -1);
    if n > 0 then Some(n) else None
  }

  /** `optString(name).takeIf { it.isNotEmpty() }` */
  function NonEmpty(ms: seq<Member>, name: string): (r: Option<string>)
    ensures r.Some? ==> r.value != []
  {
    var t := OptString(ms, name);
    if t != [] then Some(t) else None
  }

  /** `has(name)` followed by `getJSONObject(name)`, which throws for a
      value that is not an object (`null` included). */
  datatype Section = Absent | Object(members: seq<Member>) | NotObject

  function GetSection(ms: seq<Member>, name: string): (r: Section)
    ensures r.Absent? <==> Lookup(ms, name).None?
    ensures r.Object? <==> Lookup(ms, name).Some? && Lookup(ms, name).value.JObject?
  {
    match Lookup(ms, name)
    case None => Absent
    case Some(j) => if j.JObject? then Object(j.members) else NotObject
  }

  // ---------------------------------------------------------------------------
  // parseRemoteConfig

  function ParseServer(ms: seq<Member>): (v: ServerSettings)
    ensures ServerTyped(v) && ServerParsed(v)
  {
    ServerSettings(PositiveInt(ms, "serverPort"), PositiveInt(ms, "discoveryPort"), PositiveInt(ms, "webSocketPort"))
  }

  function ParseConnection(ms: seq<Member>): (v: ConnectionSettings)
    ensures ConnectionTyped(v) && ConnectionParsed(v)
  {
    ConnectionSettings(NonEmpty(ms, "strategy"), PositiveLong(ms, "heartbeatInterval"), PositiveLong(ms, "reconnectDelay"),
                       PositiveInt(ms, "maxReconnectAttempts"), PositiveLong(ms, "connectionTimeout"))
  }

  function ParseScreen(ms: seq<Member>): (v: ScreenSettings)
    ensures ScreenTyped(v) && ScreenParsed(v)
  {
    ScreenSettings(PositiveInt(ms, "quality"), PositiveInt(ms, "fps"), PositiveInt(ms, "maxResolution"))
  }

  function ParseUpdate(ms: seq<Member>): (v: UpdateInfo)
    ensures UpdateParsed(v)
  {
    UpdateInfo(NonEmpty(ms, "latestVersion"), NonEmpty(ms, "updateUrl"), OptBoolean(ms, "isForceUpdate"), NonEmpty(ms, "releaseNotes"))
  }

  /** The member names of an object, each once. */
  function Names(ms: seq<Member>): set<string>
  {
    if ms == [] then {} else {ms[0].name} + Names(ms[1..])
  }

  /** The names of a list of flags. */
  function FlagNames(fs: seq<Flag>): set<string>
  {
    if fs == [] then {} else {fs[0].name} + FlagNames(fs[1..])
  }

  /** No name occurs twice. */
  predicate UniqueNames(fs: seq<Flag>)
  {
    forall i, j :: 0 <= i < j < |fs| ==> fs[i].name != fs[j].name
  }

  /** `getBoolean(name)` succeeds on the object: the name is there and its
      (last) value is a boolean or boolean text. */
  predicate BoolAt(ms: seq<Member>, name: string)
  {
    Lookup(ms, name).Some? && GetBoolean(Lookup(ms, name).value).Some?
  }

  /** Every key of the object reads as a boolean. */
  predicate AllBoolean(ms: seq<Member>)
  {
    forall name :: name in Names(ms) ==> BoolAt(ms, name)
  }

  /** `Lookup` on a list with one more member in front: a later occurrence
      of the name still wins. */
  lemma {:induction false} LookupCons(m: Member, t: seq<Member>, name: string)
    ensures Lookup([m] + t, name) == if Lookup(t, name).Some? then Lookup(t, name)
                                     else if m.name == name then Some(m.value) else None
    decreases |t|
  {
    var s := [m] + t;
    if t == [] {
      assert s[..0] == [];
    } else {
      assert s[|s| - 1] == t[|t| - 1];
      assert s[..|s| - 1] == [m] + t[..|t| - 1];
      if t[|t| - 1].name != name {
        LookupCons(m, t[..|t| - 1], name);
      }
    }
  }

  /** A name is found exactly when some member carries it. */
  lemma {:induction false} LookupNames(ms: seq<Member>, name: string)
    ensures Lookup(ms, name).Some? <==> name in Names(ms)
    decreases |ms|
  {
    if ms != [] {
      assert ms == [ms[0]] + ms[1..];
      LookupCons(ms[0], ms[1..], name);
      LookupNames(ms[1..], name);
    }
  }

  /** `Lookup` past a front member whose name occurs again later. */
  lemma LookupBehind(ms: seq<Member>, name: string)
    requires ms != [] && name in Names(ms[1..])
    ensures Lookup(ms, name) == Lookup(ms[1..], name)
  {
    assert ms == [ms[0]] + ms[1..];
    LookupCons(ms[0], ms[1..], name);
    LookupNames(ms[1..], name);
  }

  /** `Lookup` of a front member whose name does not occur again. */
  lemma LookupFront(ms: seq<Member>)
    requires ms != [] && ms[0].name !in Names(ms[1..])
    ensures Lookup(ms, ms[0].name) == Some(ms[0].value)
  {
    assert ms == [ms[0]] + ms[1..];
    LookupCons(ms[0], ms[1..], ms[0].name);
    LookupNames(ms[1..], ms[0].name);
  }

  /** `flags.keys().forEach { featureFlags[key] = flags.getBoolean(key) }`:
      each distinct name once, read from its last occurrence (`put`
      replaces an earlier one); `None` where a `getBoolean` throws. The
      flags are listed in the order of those last occurrences, while
      `keys()` itself follows a hash order. */
  function ParseFlags(ms: seq<Member>): (r: Option<seq<Flag>>)
    ensures r.Some? ==> |r.value| <= |ms|
  {
    if ms == [] then Some([])
    else if ms[0].name in Names(ms[1..]) then ParseFlags(ms[1..])
    else
      match GetBoolean(ms[0].value)
      case None => None
      case Some(b) =>
        match ParseFlags(ms[1..])
        case None => None
        case Some(rest) => Some([Flag(ms[0].name, b)] + rest)
  }

  /** The flags parse exactly when every key reads as a boolean. */
  lemma {:induction false} ParseFlagsSucceeds(ms: seq<Member>)
    ensures ParseFlags(ms).Some? <==> AllBoolean(ms)
    decreases |ms|
  {
    if ms != [] {
      var m, t := ms[0], ms[1..];
      ParseFlagsSucceeds(t);
      assert Names(ms) == {m.name} + Names(t);
      forall name | name in Names(t) ensures BoolAt(ms, name) == BoolAt(t, name) {
        LookupBehind(ms, name);
      }
      if m.name !in Names(t) {
        LookupFront(ms);
      }
    }
  }

  /** The flags carry each key of the object once, and no other name. */
  lemma {:induction false} ParseFlagsNames(ms: seq<Member>)
    requires ParseFlags(ms).Some?
    ensures FlagNames(ParseFlags(ms).value) == Names(ms)
    ensures UniqueNames(ParseFlags(ms).value)
    decreases |ms|
  {
    if ms != [] {
      ParseFlagsNames(ms[1..]);
      if ms[0].name !in Names(ms[1..]) {
        var fs := ParseFlags(ms).value;
        var rest := ParseFlags(ms[1..]).value;
        assert fs == [fs[0]] + rest && fs[1..] == rest;
        forall k | 0 <= k < |rest| ensures rest[k].name != ms[0].name {
          FlagNameAt(rest, k);
        }
      }
    }
  }

  lemma {:induction false} FlagNameAt(fs: seq<Flag>, k: nat)
    requires k < |fs|
    ensures fs[k].name in FlagNames(fs)
    decreases k
  {
    if k > 0 {
      FlagNameAt(fs[1..], k - 1);
    }
  }

  /** Each flag's value is the `getBoolean` of its key's last value. */
  lemma {:induction false} ParseFlagsValues(ms: seq<Member>)
    requires ParseFlags(ms).Some?
    ensures forall k :: 0 <= k < |ParseFlags(ms).value| ==>
              Lookup(ms, ParseFlags(ms).value[k].name).Some?
              && GetBoolean(Lookup(ms, ParseFlags(ms).value[k].name).value) == Some(ParseFlags(ms).value[k].enabled)
    decreases |ms|
  {
    if ms != [] {
      var t := ms[1..];
      ParseFlagsValues(t);
      ParseFlagsNames(t);
      var fs, rest := ParseFlags(ms).value, ParseFlags(t).value;
      forall k | 0 <= k < |rest| ensures Lookup(ms, rest[k].name) == Lookup(t, rest[k].name) {
        FlagNameAt(rest, k);
        LookupBehind(ms, rest[k].name);
      }
      if ms[0].name !in Names(t) {
        LookupFront(ms);
        assert fs == [fs[0]] + rest;
        forall k | 0 <= k < |fs|
          ensures Lookup(ms, fs[k].name).Some? && GetBoolean(Lookup(ms, fs[k].name).value) == Some(fs[k].enabled)
        {
          if k > 0 {
            assert fs[k] == rest[k - 1];
          }
        }
      }
    }
  }

  /** A section: `None` for a throw, `Some(None)` when it is absent. */
  function ServerSection(ms: seq<Member>): (r: Option<Option<ServerSettings>>)
    ensures r.None? <==> GetSection(ms, "serverSettings").NotObject?
    ensures r.Some? && r.value.Some? ==> ServerTyped(r.value.value) && ServerParsed(r.value.value)
  {
    match GetSection(ms, "serverSettings")
    case Absent => Some(None)
    case Object(fs) => Some(Some(ParseServer(fs)))
    case NotObject => None
  }

  function ConnectionSection(ms: seq<Member>): (r: Option<Option<ConnectionSettings>>)
    ensures r.None? <==> GetSection(ms, "connectionSettings").NotObject?
    ensures r.Some? && r.value.Some? ==> ConnectionTyped(r.value.value) && ConnectionParsed(r.value.value)
  {
    match GetSection(ms, "connectionSettings")
    case Absent => Some(None)
    case Object(fs) => Some(Some(ParseConnection(fs)))
    case NotObject => None
  }

  function ScreenSection(ms: seq<Member>): (r: Option<Option<ScreenSettings>>)
    ensures r.None? <==> GetSection(ms, "screenSettings").NotObject?
    ensures r.Some? && r.value.Some? ==> ScreenTyped(r.value.value) && ScreenParsed(r.value.value)
  {
    match GetSection(ms, "screenSettings")
    case Absent => Some(None)
    case Object(fs) => Some(Some(ParseScreen(fs)))
    case NotObject => None
  }

  function UpdateSection(ms: seq<Member>): (r: Option<Option<UpdateInfo>>)
    ensures r.None? <==> GetSection(ms, "updateInfo").NotObject?
    ensures r.Some? && r.value.Some? ==> UpdateParsed(r.value.value)
  {
    match GetSection(ms, "updateInfo")
    case Absent => Some(None)
    case Object(fs) => Some(Some(ParseUpdate(fs)))
    case NotObject => None
  }

  /** The feature flags: none when absent, a throw when not an object or
      when one is not a boolean. */
  function FlagsSection(ms: seq<Member>): (r: Option<seq<Flag>>)
    ensures GetSection(ms, "featureFlags").Absent? ==> r == Some([])
    ensures GetSection(ms, "featureFlags").NotObject? ==> r.None?
    ensures GetSection(ms, "featureFlags").Object? ==> r == ParseFlags(GetSection(ms, "featureFlags").members)
  {
    match GetSection(ms, "featureFlags")
    case Absent => Some([])
    case Object(fs) => ParseFlags(fs)
    case NotObject => None
  }

  /** `parseRemoteConfig(json)` for an already decoded document, fetched at
      `now`; `None` where the source throws. */
  function Parse(j: Json, now: int): (r: Option<RemoteConfig>)
    ensures r.Some? ==> Typed(r.value) && Parsed(r.value) && r.value.fetchTime == now
    ensures r.Some? ==> j.JObject?
  {
    if !j.JObject? then None
    else
      var ms := j.members;
      var server, connection, screen := ServerSection(ms), ConnectionSection(ms), ScreenSection(ms);
      var flags, update := FlagsSection(ms), UpdateSection(ms);
      if server.None? || connection.None? || screen.None? || flags.None? || update.None? then None
      else Some(RemoteConfig(OptInt(ms, "version", 1), server.value, connection.value, screen.value,
                             flags.value, update.value, now))
  }

  /** A numeric setting that is missing, zero or negative parses to no
      value; a positive one to itself. */
  lemma PositiveRule(ms: seq<Member>, name: string)
    ensures Lookup(ms, name).None? ==> PositiveInt(ms, name).None? && PositiveLong(ms, name).None?
    ensures forall n :: Lookup(ms, name) == Some(JNum(n)) && INT_MIN <= n <= INT_MAX ==>
              PositiveInt(ms, name) == (if n > 0 then Some(n) else None)
    ensures forall n :: Lookup(ms, name) == Some(JNum(n)) && LONG_MIN <= n <= LONG_MAX ==>
              PositiveLong(ms, name) == (if n > 0 then Some(n) else None)
  {
  }

  /** A missing or empty text parses to no value, any other text to
      itself. */
  lemma TextRule(ms: seq<Member>, name: string)
    ensures Lookup(ms, name).None? ==> NonEmpty(ms, name).None?
    ensures forall t :: Lookup(ms, name) == Some(JText(t)) ==> NonEmpty(ms, name) == (if t == "" then None else Some(t))
  {
  }

  /** Without a `version` member the version is 1. */
  lemma VersionDefault(ms: seq<Member>, now: int)
    requires Lookup(ms, "version").None?
    requires Parse(JObject(ms), now).Some?
    ensures Parse(JObject(ms), now).value.version == 1
  {
  }

  /** The parse fails exactly where `getJSONObject` or `getBoolean` throws. */
  lemma ParseFails(ms: seq<Member>, now: int)
    ensures Parse(JObject(ms), now).None? <==>
              || GetSection(ms, "serverSettings").NotObject?
              || GetSection(ms, "connectionSettings").NotObject?
              || GetSection(ms, "screenSettings").NotObject?
              || GetSection(ms, "updateInfo").NotObject?
              || GetSection(ms, "featureFlags").NotObject?
              || (GetSection(ms, "featureFlags").Object? && !AllBoolean(GetSection(ms, "featureFlags").members))
  {
    if GetSection(ms, "featureFlags").Object? {
      ParseFlagsSucceeds(GetSection(ms, "featureFlags").members);
    }
  }

  /** An empty document parses to version 1 with nothing else in it. */
  lemma EmptyDocument(now: int)
    ensures Parse(JObject([]), now) == Some(RemoteConfig(1, None, None, None, [], None, now))
  {
  }

  // ---------------------------------------------------------------------------
  // applyConfig

  /** The settings `applyConfig` writes, in its order. */
  const ApplyOrder: seq<Key> := [ServerPort, DiscoveryPort, WebSocketPort, ConnectionStrategy, HeartbeatInterval,
                                 ReconnectDelay, MaxReconnectAttempts, ConnectionTimeout, ScreenQuality, ScreenFps]

  function IntPref(o: Option<int>): Option<Pref>
  {
    match o
    case None => None
    case Some(n) => Some(PInt(n))
  }

  function LongPref(o: Option<int>): Option<Pref>
  {
    match o
    case None => None
    case Some(n) => Some(PLong(n))
  }

  /** The value `c` carries for setting `k`, if any; the maximum
      resolution has no setting. */
  function Carried(c: RemoteConfig, k: Key): (r: Option<Pref>)
    requires Typed(c)
    ensures r.Some? ==> OfKind(k, r.value)
    ensures r.Some? ==> k in ApplyOrder
  {
    match k
    case ServerPort => if c.server.Some? then IntPref(c.server.value.serverPort) else None
    case DiscoveryPort => if c.server.Some? then IntPref(c.server.value.discoveryPort) else None
    case WebSocketPort => if c.server.Some? then IntPref(c.server.value.webSocketPort) else None
    case ConnectionStrategy =>
      if c.connection.Some? && c.connection.value.strategy.Some? then Some(PStr(c.connection.value.strategy.value)) else None
    case HeartbeatInterval => if c.connection.Some? then LongPref(c.connection.value.heartbeatInterval) else None
    case ReconnectDelay => if c.connection.Some? then LongPref(c.connection.value.reconnectDelay) else None
    case MaxReconnectAttempts => if c.connection.Some? then IntPref(c.connection.value.maxReconnectAttempts) else None
    case ConnectionTimeout => if c.connection.Some? then LongPref(c.connection.value.connectionTimeout) else None
    case ScreenQuality => if c.screen.Some? then IntPref(c.screen.value.quality) else None
    case ScreenFps => if c.screen.Some? then IntPref(c.screen.value.fps) else None
    case _ => None
  }

  /** A setter called only when there is a value. */
  function SetIf(s: Store, k: Key, o: Option<Pref>): (t: Store)
    requires Coherent(s)
    requires o.Some? ==> OfKind(k, o.value)
    ensures Coherent(t)
  {
    if o.Some? then Set(s, k, o.value) else s
  }

  /** The setters of `keys`, in order, each with the value `c` carries. */
  function ApplySettings(s: Store, c: RemoteConfig, keys: seq<Key>): (t: Store)
    requires Coherent(s) && Typed(c)
    ensures Coherent(t)
  {
    if keys == [] then s
    else
      var k := keys[|keys| - 1];
      SetIf(ApplySettings(s, c, keys[..|keys| - 1]), k, Carried(c, k))
  }

  /** `setFeatureEnabled` for each flag, in order. */
  function ApplyFlagList(s: Store, flags: seq<Flag>): (t: Store)
    requires Coherent(s)
    ensures Coherent(t)
  {
    if flags == [] then s
    else
      var f := flags[|flags| - 1];
      SetFeature(ApplyFlagList(s, flags[..|flags| - 1]), f.name, f.enabled)
  }

  /** `applyConfig(config)` */
  function Apply(s: Store, c: RemoteConfig): (t: Store)
    requires Coherent(s) && Typed(c)
    ensures Coherent(t)
  {
    ApplyFlagList(ApplySettings(s, c, ApplyOrder), c.flags)
  }

  lemma ApplySettingsStep(s: Store, c: RemoteConfig, keys: seq<Key>, i: nat)
    requires Coherent(s) && Typed(c) && i < |keys|
    ensures ApplySettings(s, c, keys[..i + 1]) == SetIf(ApplySettings(s, c, keys[..i]), keys[i], Carried(c, keys[i]))
  {
    assert keys[..i + 1][..i] == keys[..i];
  }

  lemma ApplyFlagListStep(s: Store, flags: seq<Flag>, i: nat)
    requires Coherent(s) && i < |flags|
    ensures ApplyFlagList(s, flags[..i + 1]) == SetFeature(ApplyFlagList(s, flags[..i]), flags[i].name, flags[i].enabled)
  {
    assert flags[..i + 1][..i] == flags[..i];
  }

  /** What a setting reads after the setters of `keys`: the value its
      setter stores when `c` carries one, otherwise what it read before. */
  lemma {:induction false} ApplySettingsReads(s: Store, c: RemoteConfig, keys: seq<Key>, k: Key)
    requires Coherent(s) && Typed(c)
    ensures Read(ApplySettings(s, c, keys).prefs, k) ==
              if k in keys && Carried(c, k).Some? && Stored(k, Carried(c, k).value).Some?
              then Stored(k, Carried(c, k).value).value
              else Read(s.prefs, k)
  {
    if keys != [] {
      var init := keys[..|keys| - 1];
      var last := keys[|keys| - 1];
      assert keys == init + [last];
      ApplySettingsReads(s, c, init, k);
      var u := ApplySettings(s, c, init);
      assert ApplySettings(s, c, keys) == SetIf(u, last, Carried(c, last));
      assert k in keys <==> k in init || k == last;
      if Carried(c, last).Some? {
        SetEffect(u, last, Carried(c, last).value);
        if k != last {
          assert Read(ApplySettings(s, c, keys).prefs, k) == Read(u.prefs, k);
        }
      }
    }
  }

  /** Flags leave every setting as it was. */
  lemma {:induction false} ApplyFlagListKeepsSettings(s: Store, flags: seq<Flag>, k: Key)
    requires Coherent(s)
    ensures Read(ApplyFlagList(s, flags).prefs, k) == Read(s.prefs, k)
  {
    if flags != [] {
      var u := ApplyFlagList(s, flags[..|flags| - 1]);
      ApplyFlagListKeepsSettings(s, flags[..|flags| - 1], k);
      SetFeatureThenRead(u, flags[|flags| - 1].name, flags[|flags| - 1].enabled, false);
    }
  }

  /** A flag the list does not name reads as it did before. */
  lemma {:induction false} ApplyFlagListOthers(s: Store, flags: seq<Flag>, feature: string, default: bool)
    requires Coherent(s)
    requires forall i :: 0 <= i < |flags| ==> flags[i].name != feature
    ensures IsFeatureEnabled(ApplyFlagList(s, flags), feature, default) == IsFeatureEnabled(s, feature, default)
  {
    if flags != [] {
      var init := flags[..|flags| - 1];
      ApplyFlagListOthers(s, init, feature, default);
    }
  }

  /** A flag reads as the last entry that names it. */
  lemma {:induction false} ApplyFlagListLast(s: Store, flags: seq<Flag>, i: nat, default: bool)
    requires Coherent(s) && i < |flags|
    requires forall j :: i < j < |flags| ==> flags[j].name != flags[i].name
    ensures IsFeatureEnabled(ApplyFlagList(s, flags), flags[i].name, default) == flags[i].enabled
  {
    var f := flags[i].name;
    if i == |flags| - 1 {
      SetFeatureThenRead(ApplyFlagList(s, flags[..i]), f, flags[i].enabled, default);
    } else {
      var init := flags[..|flags| - 1];
      assert init[i] == flags[i];
      ApplyFlagListLast(s, init, i, default);
    }
  }

  /** `applyConfig` writes exactly the settings the document carries,
      through their setters, and leaves every other setting alone. */
  lemma ApplyOnlyCarried(s: Store, c: RemoteConfig, k: Key)
    requires Coherent(s) && Typed(c)
    ensures Read(Apply(s, c).prefs, k) ==
              if Carried(c, k).Some? && Stored(k, Carried(c, k).value).Some?
              then Stored(k, Carried(c, k).value).value
              else Read(s.prefs, k)
  {
    ApplySettingsReads(s, c, ApplyOrder, k);
    ApplyFlagListKeepsSettings(ApplySettings(s, c, ApplyOrder), c.flags, k);
  }

  /** The server address, the switches and the chunk size are never
      written. */
  lemma ApplyKeepsLocal(s: Store, c: RemoteConfig)
    requires Coherent(s) && Typed(c)
    ensures forall k :: k !in ApplyOrder ==> Read(Apply(s, c).prefs, k) == Read(s.prefs, k)
  {
    forall k | k !in ApplyOrder
      ensures Read(Apply(s, c).prefs, k) == Read(s.prefs, k)
    {
      ApplyOnlyCarried(s, c, k);
    }
  }

  /** The flags the document names read as it says. */
  lemma ApplySetsFlags(s: Store, c: RemoteConfig, i: nat, default: bool)
    requires Coherent(s) && Typed(c) && i < |c.flags|
    requires forall j :: i < j < |c.flags| ==> c.flags[j].name != c.flags[i].name
    ensures IsFeatureEnabled(Apply(s, c), c.flags[i].name, default) == c.flags[i].enabled
  {
    ApplyFlagListLast(ApplySettings(s, c, ApplyOrder), c.flags, i, default);
  }

  /** Every key of a parsed document's flag object reads, after
      `applyConfig`, as the `getBoolean` of its last value. */
  lemma ParsedFlagsApply(s: Store, ms: seq<Member>, now: int, name: string, default: bool)
    requires Coherent(s) && Parse(JObject(ms), now).Some?
    requires GetSection(ms, "featureFlags").Object? && name in Names(GetSection(ms, "featureFlags").members)
    ensures BoolAt(GetSection(ms, "featureFlags").members, name)
    ensures IsFeatureEnabled(Apply(s, Parse(JObject(ms), now).value), name, default)
            == GetBoolean(Lookup(GetSection(ms, "featureFlags").members, name).value).value
  {
    var fs := GetSection(ms, "featureFlags").members;
    var c := Parse(JObject(ms), now).value;
    assert c.flags == ParseFlags(fs).value;
    ParseFlagsNames(fs);
    ParseFlagsValues(fs);
    ParseFlagsSucceeds(fs);
    var k := FlagIndex(c.flags, name);
    ApplySetsFlags(s, c, k, default);
  }

  /** A position of a flag name. */
  lemma {:induction false} FlagIndex(fs: seq<Flag>, name: string) returns (k: nat)
    requires name in FlagNames(fs)
    ensures k < |fs| && fs[k].name == name
    decreases |fs|
  {
    if fs[0].name == name {
      k := 0;
    } else {
      var j := FlagIndex(fs[1..], name);
      k := j + 1;
    }
  }

  lemma {:induction false} ApplySettingsSameCarried(s: Store, c: RemoteConfig, d: RemoteConfig, keys: seq<Key>)
    requires Coherent(s) && Typed(c) && Typed(d)
    requires forall k :: Carried(c, k) == Carried(d, k)
    ensures ApplySettings(s, c, keys) == ApplySettings(s, d, keys)
  {
    if keys != [] {
      ApplySettingsSameCarried(s, c, d, keys[..|keys| - 1]);
    }
  }

  /** The maximum resolution is parsed but never applied: changing it
      changes nothing `applyConfig` does. */
  lemma MaxResolutionIgnored(s: Store, c: RemoteConfig, m: Option<int>)
    requires Coherent(s) && Typed(c) && c.screen.Some? && IntOpt(m)
    ensures var d := c.(screen := Some(c.screen.value.(maxResolution := m)));
      Typed(d) && Apply(s, d) == Apply(s, c)
  {
    var d := c.(screen := Some(c.screen.value.(maxResolution := m)));
    assert forall k :: Carried(c, k) == Carried(d, k);
    ApplySettingsSameCarried(s, c, d, ApplyOrder);
  }

  // ---------------------------------------------------------------------------
  // Fetching

  /** What the request ends in: no response (an exception), or a status
      with a body that is `None` when it is not JSON. */
  datatype Response = NoResponse | Reply(status: int, body: Option<Json>)

  /** `fetchRemoteConfig`: success exactly for status 200 with a body that
      parses. */
  function Fetched(r: Response, now: int): (c: Option<RemoteConfig>)
    ensures c.Some? ==> r.Reply? && r.status == 200 && r.body.Some? && c == Parse(r.body.value, now)
    ensures r.Reply? && r.status == 200 && r.body.Some? ==> c == Parse(r.body.value, now)
  {
    match r
    case NoResponse => None
    case Reply(status, body) => if status == 200 && body.Some? then Parse(body.value, now) else None
  }

  /** `maxOf(intervalMs, MIN_REFRESH_INTERVAL)` */
  function RefreshInterval(requested: int): (r: int)
    ensures r >= MIN_REFRESH_INTERVAL && r >= requested
    ensures r == requested || r == MIN_REFRESH_INTERVAL
  {
    if requested >= MIN_REFRESH_INTERVAL then requested else MIN_REFRESH_INTERVAL
  }

  class Manager {
    const appConfig: Config
    var cachedConfig: Option<RemoteConfig>
    var lastFetchTime: int
    /** The interval of the running refresh job, `None` when there is none. */
    var refresh: Option<int>

    ghost predicate Valid()
      reads this, appConfig
    {
      appConfig.Valid()
    }

    constructor (config: Config)
      requires config.Valid()
      ensures Valid() && appConfig == config
      ensures cachedConfig == None && lastFetchTime == 0 && refresh == None
    {
      appConfig := config;
      cachedConfig, lastFetchTime, refresh := None, 0, None;
    }

    /** `applyConfig(config)` */
    method ApplyConfig(c: RemoteConfig)
      requires Valid() && Typed(c)
      modifies appConfig
      ensures Valid() && appConfig.State() == Apply(old(appConfig.State()), c)
    {
      ghost var s0 := appConfig.State();
      for i := 0 to |ApplyOrder|
        invariant appConfig.Valid() && appConfig.State() == ApplySettings(s0, c, ApplyOrder[..i])
      {
        ApplySettingsStep(s0, c, ApplyOrder, i);
        var v := Carried(c, ApplyOrder[i]);
        if v.Some? {
          appConfig.Put(ApplyOrder[i], v.value);
        }
      }
      assert ApplyOrder[..|ApplyOrder|] == ApplyOrder;
      ghost var s1 := appConfig.State();
      for i := 0 to |c.flags|
        invariant appConfig.Valid() && appConfig.State() == ApplyFlagList(s1, c.flags[..i])
      {
        ApplyFlagListStep(s1, c.flags, i);
        appConfig.SetFeatureEnabled(c.flags[i].name, c.flags[i].enabled);
      }
      assert c.flags[..|c.flags|] == c.flags;
    }

    /** `fetchRemoteConfig()` given the response and the clock: a success
        is cached with its time, a failure changes nothing. */
    method FetchRemoteConfig(response: Response, now: int) returns (r: Option<RemoteConfig>)
      modifies this
      ensures r == Fetched(response, now) && refresh == old(refresh)
      ensures r.Some? ==> cachedConfig == r && lastFetchTime == now
      ensures r.None? ==> cachedConfig == old(cachedConfig) && lastFetchTime == old(lastFetchTime)
    {
      r := Fetched(response, now);
      if r.Some? {
        cachedConfig := r;
        lastFetchTime := now;
      }
    }

    /** `fetchAndApplyConfig()`: true exactly when the fetch succeeds, and
        only then is anything applied. */
    method FetchAndApplyConfig(response: Response, now: int) returns (ok: bool)
      requires Valid()
      modifies this, appConfig
      ensures Valid()
      ensures ok <==> Fetched(response, now).Some?
      ensures ok ==> appConfig.State() == Apply(old(appConfig.State()), Fetched(response, now).value)
      ensures !ok ==> appConfig.State() == old(appConfig.State()) && cachedConfig == old(cachedConfig)
      ensures ok ==> cachedConfig == Fetched(response, now) && lastFetchTime == now
      ensures !ok ==> lastFetchTime == old(lastFetchTime)
      ensures refresh == old(refresh)
    {
      var r := FetchRemoteConfig(response, now);
      if r.Some? {
        ApplyConfig(r.value);
        ok := true;
      } else {
        ok := false;
      }
    }

    /** `startPeriodicRefresh(intervalMs)`: any earlier job is replaced by
        one at the bounded interval. */
    method StartPeriodicRefresh(intervalMs: int)
      modifies this
      ensures refresh == Some(RefreshInterval(intervalMs))
      ensures cachedConfig == old(cachedConfig) && lastFetchTime == old(lastFetchTime)
    {
      StopPeriodicRefresh();
      refresh := Some(RefreshInterval(intervalMs));
    }

    method StopPeriodicRefresh()
      modifies this
      ensures refresh == None
      ensures cachedConfig == old(cachedConfig) && lastFetchTime == old(lastFetchTime)
    {
      refresh := None;
    }

    method GetCachedConfig() returns (c: Option<RemoteConfig>)
      ensures c == cachedConfig
    {
      c := cachedConfig;
    }

    method GetLastFetchTime() returns (t: int)
      ensures t == lastFetchTime
    {
      t := lastFetchTime;
    }

    /** `checkForUpdate()`: the update information of the cached document. */
    method CheckForUpdate() returns (u: Option<UpdateInfo>)
      ensures cachedConfig.None? ==> u.None?
      ensures cachedConfig.Some? ==> u == cachedConfig.value.update
    {
      u := if cachedConfig.Some? then cachedConfig.value.update else None;
    }

    /** `cleanup()`: the job stopped and the cache dropped. */
    method Cleanup()
      modifies this
      ensures refresh == None && cachedConfig == None && lastFetchTime == old(lastFetchTime)
    {
      StopPeriodicRefresh();
      cachedConfig := None;
    }
  }
}
