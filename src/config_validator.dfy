/** The backend's configuration checks (`backend/src/utils/config-validator.js`):
    single-value validators that either return the value read or throw, one
    validator per configuration section that gathers its fields' errors,
    and `validateConfig`, which gathers every section's error and every
    port conflict into one error. A thrown error is `Err(message)`. */
module ConfigValidator {
  import opened Wrappers
  import opened Text
  import opened JsValues

  // ---------------------------------------------------------------------------
  // Single values

  /** `validatePort(port, name)` */
  function ValidatePort(port: JsValue, name: string): (r: Result<int>)
    ensures r.Ok? <==> ParseInt(port).Some? && 1 <= ParseInt(port).value <= 65535
    ensures r.Ok? ==> r.value == ParseInt(port).value
  {
    var p := ParseInt(port);
    if p.None? || p.value < 1 || p.value > 65535 then
      Err("无效的" + name + ": " + ToStr(port) + "，端口号必须在 1-65535 之间")
    else Ok(p.value)
  }

  /** A port given as a number is accepted exactly in 1..65535. */
  lemma NumericPort(n: int, name: string)
    ensures ValidatePort(Num(n), name).Ok? <==> 1 <= n <= 65535
    ensures ValidatePort(Num(n), name).Ok? ==> ValidatePort(Num(n), name).value == n
  {
    ParseIntOfNum(n);
  }

  /** `parseInt` reads a leading number, so a port followed by any text
      that does not start with a digit passes as the number alone. */
  lemma PortIgnoresTrailingText(digits: string, rest: string, name: string)
    requires |digits| >= 1 && AllDigits(digits)
    requires rest == [] || DigitValue(rest[0], 10).None?
    requires |digits| == 1 && rest != [] ==> rest[0] != 'x' && rest[0] != 'X'
    ensures ValidatePort(Str(digits + rest), name).Ok? <==> 1 <= DigitsValue(digits) <= 65535
    ensures ValidatePort(Str(digits + rest), name).Ok? ==> ValidatePort(Str(digits + rest), name).value == DigitsValue(digits)
  {
    ParseIntTrailing(digits, rest);
  }

  /** A port may also be written in hexadecimal, such as `0x1F90` for 8080. */
  lemma HexPortAccepted(h: string, name: string)
    requires |h| >= 1 && AllRadixDigits(h, 16)
    ensures ValidatePort(Str("0x" + h), name).Ok? <==> 1 <= RadixValue(h, 16) <= 65535
    ensures ValidatePort(Str("0x" + h), name).Ok? ==> ValidatePort(Str("0x" + h), name).value == RadixValue(h, 16)
  {
    ParseIntHex(h);
  }

  /** `validateTimeout(timeout, name)`: any integer read that is not negative. */
  function ValidateTimeout(timeout: JsValue, name: string): (r: Result<int>)
    ensures r.Ok? <==> ParseInt(timeout).Some? && ParseInt(timeout).value >= 0
    ensures r.Ok? ==> r.value == ParseInt(timeout).value
  {
    var t := ParseInt(timeout);
    if t.None? || t.value < 0 then Err("无效的" + name + ": " + ToStr(timeout) + "，必须是非负整数")
    else Ok(t.value)
  }

  /** `validateFileSize(size, name)`: any integer read that is positive. */
  function ValidateFileSize(size: JsValue, name: string): (r: Result<int>)
    ensures r.Ok? <==> ParseInt(size).Some? && ParseInt(size).value > 0
    ensures r.Ok? ==> r.value == ParseInt(size).value
  {
    var s := ParseInt(size);
    if s.None? || s.value <= 0 then Err("无效的" + name + ": " + ToStr(size) + "，必须是正整数")
    else Ok(s.value)
  }

  // ---------------------------------------------------------------------------
  // Host names

  predicate AsciiAlnum(c: char)
  {
    '0' <= c <= '9' || 'a' <= c <= 'z' || 'A' <= c <= 'Z'
  }

  /** One label of the host-name pattern: one to 63 letters, digits and
      hyphens, starting and ending with a letter or digit. */
  predicate Label(l: string)
  {
    1 <= |l| <= 63 && AsciiAlnum(l[0]) && AsciiAlnum(l[|l| - 1])
    && forall i :: 0 <= i < |l| ==> AsciiAlnum(l[i]) || l[i] == '-'
  }

  /** The fourth pattern: labels separated by single dots. */
  predicate HostName(s: string)
  {
    var labels := Split(s, '.');
    forall i :: 0 <= i < |labels| ==> Label(labels[i])
  }

  /** The third pattern: four dot-separated groups of one to three digits. */
  predicate DottedDigits(s: string)
  {
    var parts := Split(s, '.');
    |parts| == 4 && forall i :: 0 <= i < 4 ==> 1 <= |parts[i]| <= 3 && AllDigits(parts[i])
  }

  /** The four patterns `validateHost` tries, in order. */
  predicate HostPattern(s: string)
  {
    ToLower(s) == "localhost" || s == "0.0.0.0" || DottedDigits(s) || HostName(s)
  }

  /** `validateHost(host, name)` */
  function ValidateHost(host: JsValue, name: string): (r: Result<string>)
    ensures r.Ok? <==> host.Str? && host.s != "" && HostPattern(host.s)
    ensures r.Ok? ==> r.value == host.s
  {
    if !Truthy(host) || TypeOf(host) != "string" then Err("无效的" + name + ": " + ToStr(host))
    else if !HostPattern(host.s) then Err("无效的" + name + "格式: " + host.s)
    else Ok(host.s)
  }

  /** Every dotted quad of digit groups is a host name too. */
  lemma DottedDigitsAreHostNames(s: string)
    requires DottedDigits(s)
    ensures HostName(s)
  {
    var parts := Split(s, '.');
    forall i | 0 <= i < |parts| ensures Label(parts[i]) {
      assert forall j :: 0 <= j < |parts[i]| ==> IsDigit(parts[i][j]);
    }
  }

  /** Groups of one to three digits, joined by dots. */
  predicate DigitGroups(parts: seq<string>)
  {
    |parts| == 4 && forall i :: 0 <= i < 4 ==> 1 <= |parts[i]| <= 3 && AllDigits(parts[i])
  }

  lemma DigitGroupsDotted(parts: seq<string>)
    requires DigitGroups(parts)
    ensures DottedDigits(Join(parts, '.'))
  {
    forall i | 0 <= i < |parts| ensures '.' !in parts[i] {
      assert forall j :: 0 <= j < |parts[i]| ==> IsDigit(parts[i][j]);
    }
    SplitJoin(parts, '.');
  }

  /** `0.0.0.0` is a host name. */
  lemma ZeroAddressIsHostName()
    ensures HostName("0.0.0.0")
  {
    var zeros := ["0", "0", "0", "0"];
    assert DigitGroups(zeros) by {
      assert AllDigits("0");
    }
    assert Join(zeros, '.') == "0.0.0.0";
    DigitGroupsDotted(zeros);
    DottedDigitsAreHostNames("0.0.0.0");
  }

  /** The second and third patterns add nothing: every address they match
      is a host name too. */
  lemma HostPatternsCollapse(s: string)
    ensures HostPattern(s) <==> ToLower(s) == "localhost" || HostName(s)
  {
    if s == "0.0.0.0" {
      ZeroAddressIsHostName();
    }
    if DottedDigits(s) {
      DottedDigitsAreHostNames(s);
    }
  }

  /** A dotted quad is never checked against 255: any four groups of one
      to three digits make a valid host, `999.999.999.999` among them. */
  lemma AnyDigitQuadAccepted(parts: seq<string>)
    requires DigitGroups(parts)
    ensures ValidateHost(Str(Join(parts, '.')), "host").Ok?
  {
    DigitGroupsDotted(parts);
    assert Join(parts, '.') != [] by {
      assert |Join(parts, '.')| >= |parts[0]|;
    }
  }

  /** A host name may not start with a hyphen. */
  lemma LeadingHyphenRejected(rest: string)
    requires '.' !in rest
    ensures ValidateHost(Str("-" + rest), "host").Err?
  {
    var s := "-" + rest;
    assert '.' !in s;
    SplitNone(s, '.');
    assert !Label(Split(s, '.')[0]) by {
      assert s[0] == '-';
    }
    assert ToLower(s) != "localhost" by {
      assert ToLower(s)[0] == LowerChar(s[0]);
    }
    assert !HostPattern(s);
  }

  /** A name holding a dot is not `localhost`, in any case. */
  lemma DotNotLocalhost(s: string, i: nat)
    requires i < |s| && s[i] == '.'
    ensures ToLower(s) != "localhost"
  {
    var w := "localhost";
    assert forall j :: 0 <= j < |w| ==> w[j] != '.';
    assert ToLower(s)[i] == '.';
  }

  lemma EmptySecondLabel(a: string, b: string)
    requires '.' !in a
    ensures var parts := Split(a + ".." + b, '.'); |parts| >= 2 && parts[1] == []
  {
    var r := "." + b;
    assert a + ".." + b == a + "." + r;
    SplitFirst(a, r, '.');
    assert r == [] + "." + b;
    SplitFirst([], b, '.');
  }

  /** A host name may not hold an empty label. */
  lemma EmptyLabelRejected(a: string, b: string)
    requires '.' !in a
    ensures ValidateHost(Str(a + ".." + b), "host").Err?
  {
    var s := a + ".." + b;
    EmptySecondLabel(a, b);
    var parts := Split(s, '.');
    assert !HostName(s) by {
      assert !Label(parts[1]);
    }
    assert !DottedDigits(s) by {
      assert |parts[1]| == 0;
    }
    DotNotLocalhost(s, |a|);
  }

  // ---------------------------------------------------------------------------
  // Sections

  /** The message of a failed check, as the `catch` blocks collect it. */
  function ErrorsOf<T>(r: Result<T>): (e: seq<string>)
    ensures e == [] <==> r.Ok?
  {
    if r.Err? then [r.error] else []
  }

  // A field read inside a `try`: a read on `null` or `undefined` is an
  // error of the check like any other.

  function PortField(config: JsValue, key: string, name: string): (r: Result<int>)
    ensures (config.Undefined? || config.Null?) ==> r.Err?
  {
    match Get(config, key)
    case Err(e) => Err(e)
    case Ok(v) => ValidatePort(v, name)
  }

  function HostField(config: JsValue, key: string, name: string): (r: Result<string>)
    ensures (config.Undefined? || config.Null?) ==> r.Err?
  {
    match Get(config, key)
    case Err(e) => Err(e)
    case Ok(v) => ValidateHost(v, name)
  }

  function TimeoutField(config: JsValue, key: string, name: string): (r: Result<int>)
  {
    match Get(config, key)
    case Err(e) => Err(e)
    case Ok(v) => ValidateTimeout(v, name)
  }

  function SizeField(config: JsValue, key: string, name: string): (r: Result<int>)
  {
    match Get(config, key)
    case Err(e) => Err(e)
    case Ok(v) => ValidateFileSize(v, name)
  }

  /** A section's verdict: `true`, or one error listing its errors. */
  function Verdict(title: string, errors: seq<string>): (r: Result<bool>)
    ensures r.Ok? <==> errors == []
    ensures r.Ok? ==> r.value
    ensures r.Err? ==> forall e :: e in errors ==> Contains(r.error, e)
  {
    if errors == [] then Ok(true)
    else
      var msg := title + "配置验证失败:\n" + Join(errors, '\n');
      assert forall e :: e in errors ==> Contains(msg, e) by {
        forall e | e in errors ensures Contains(msg, e) {
          JoinContains(errors, '\n', e);
          ContainsSuffix(title + "配置验证失败:\n", Join(errors, '\n'), e);
        }
      }
      Err(msg)
  }

  /** Every part of a join occurs in it. */
  lemma {:induction false} JoinContains(parts: seq<string>, c: char, e: string)
    requires e in parts
    ensures Contains(Join(parts, c), e)
    decreases |parts|
  {
    if parts[0] == e {
      var j := Join(parts, c);
      assert j[0..|e|] == e;
      ContainsAt(j, e, 0);
    } else {
      JoinContains(parts[1..], c, e);
      ContainsSuffix(parts[0] + [c], Join(parts[1..], c), e);
    }
  }

  /** What occurs in `b` occurs in `a + b`. */
  lemma {:induction false} ContainsSuffix(a: string, b: string, e: string)
    requires Contains(b, e)
    ensures Contains(a + b, e)
    decreases |a|
  {
    if a != [] {
      assert (a + b)[1..] == a[1..] + b;
      ContainsSuffix(a[1..], b, e);
      assert Contains((a + b)[1..], e);
    } else {
      assert a + b == b;
    }
  }

  function ServerErrors(config: JsValue): seq<string>
  {
    ErrorsOf(PortField(config, "port", "服务器端口")) + ErrorsOf(HostField(config, "host", "服务器主机"))
  }

  /** `validateServerConfig(config)` */
  function ValidateServerConfig(config: JsValue): (r: Result<bool>)
    ensures r.Ok? <==> PortField(config, "port", "服务器端口").Ok? && HostField(config, "host", "服务器主机").Ok?
  {
    Verdict("服务器", ServerErrors(config))
  }

  function ViteErrors(config: JsValue): seq<string>
  {
    ErrorsOf(PortField(config, "port", "Vite端口")) + ErrorsOf(HostField(config, "host", "Vite主机"))
  }

  /** `validateViteConfig(config)` */
  function ValidateViteConfig(config: JsValue): (r: Result<bool>)
    ensures r.Ok? <==> PortField(config, "port", "Vite端口").Ok? && HostField(config, "host", "Vite主机").Ok?
  {
    Verdict("Vite", ViteErrors(config))
  }

  function DiscoveryErrors(config: JsValue): seq<string>
  {
    ErrorsOf(PortField(config, "port", "设备发现端口")) + ErrorsOf(TimeoutField(config, "broadcastInterval", "广播间隔"))
  }

  /** `validateDiscoveryConfig(config)` */
  function ValidateDiscoveryConfig(config: JsValue): (r: Result<bool>)
    ensures r.Ok? <==> PortField(config, "port", "设备发现端口").Ok?
                       && TimeoutField(config, "broadcastInterval", "广播间隔").Ok?
  {
    Verdict("设备发现", DiscoveryErrors(config))
  }

  /** The retry count is read outside any `try`: on a `null` or `undefined`
      section the read throws out of the validator. */
  function RetryErrors(config: JsValue): (r: Result<seq<string>>)
    ensures r.Err? <==> config.Undefined? || config.Null?
  {
    match Get(config, "retryAttempts")
    case Err(e) => Err(e)
    case Ok(v) =>
      var n := ParseInt(v);
      Ok(if n.None? || n.value < 0 then ["无效的重试次数: " + ToStr(v)] else [])
  }

  /** `validateNetworkConfig(config)` */
  function ValidateNetworkConfig(config: JsValue): (r: Result<bool>)
    ensures r.Ok? <==> TimeoutField(config, "timeout", "网络超时").Ok? && TimeoutField(config, "retryDelay", "重试延迟").Ok?
                       && RetryErrors(config) == Ok([])
  {
    match RetryErrors(config)
    case Err(e) => Err(e)
    case Ok(retry) =>
      Verdict("网络", ErrorsOf(TimeoutField(config, "timeout", "网络超时")) + retry
                      + ErrorsOf(TimeoutField(config, "retryDelay", "重试延迟")))
  }

  /** `validateFileTransferConfig(config)`: both sizes positive, and the
      chunk size not greater than the largest file (compared with `>`, so
      as strings when both are strings). The comparison is outside any
      `try`. */
  function ValidateFileTransferConfig(config: JsValue): (r: Result<bool>)
    ensures r.Ok? <==> !config.Undefined? && !config.Null?
                       && SizeField(config, "chunkSize", "分块大小").Ok?
                       && SizeField(config, "maxFileSize", "最大文件大小").Ok?
                       && !Greater(Get(config, "chunkSize").value, Get(config, "maxFileSize").value)
  {
    match (Get(config, "chunkSize"), Get(config, "maxFileSize"))
    case (Ok(chunk), Ok(max)) =>
      Verdict("文件传输", ErrorsOf(SizeField(config, "chunkSize", "分块大小"))
                          + ErrorsOf(SizeField(config, "maxFileSize", "最大文件大小"))
                          + (if Greater(chunk, max) then ["分块大小不能大于最大文件大小"] else []))
    case (Err(e), _) => Err(e)
    case (_, Err(e)) => Err(e)
  }

  /** A chunk bigger than the largest file is refused, as numbers. */
  lemma ChunkLargerThanFileRejected(chunk: int, max: int)
    requires chunk > max
    ensures ValidateFileTransferConfig(Obj(map["chunkSize" := Num(chunk), "maxFileSize" := Num(max)])).Err?
  {
    GreaterNums(chunk, max);
  }

  /** Compared as strings, a smaller chunk can still be "greater": "9" > "10". */
  lemma ChunkComparedAsStrings()
    ensures ValidateFileTransferConfig(Obj(map["chunkSize" := Str("9"), "maxFileSize" := Str("10")])).Err?
  {
    assert Greater(Str("9"), Str("10")) by {
      assert StrLess("10", "9");
    }
  }

  // ---------------------------------------------------------------------------
  // The whole configuration

  /** A port taking part in the conflict check, with the section's name. */
  datatype Named = Named(name: string, port: JsValue)

  /** The conflict loop's state after some ports: the conflicts reported and
      the first section seen with each port value. */
  datatype Scan = Scan(errors: seq<string>, seen: map<JsValue, string>)

  function ConflictMessage(name: string, port: JsValue, first: string): string
  {
    "端口冲突: " + name + "端口(" + ToStr(port) + ")与" + first + "端口相同"
  }

  /** The conflict loop over the first `n` ports. */
  function ConflictScan(ports: seq<Named>, n: nat): (r: Scan)
    requires n <= |ports|
    ensures |r.errors| <= n
  {
    if n == 0 then Scan([], map[])
    else
      var s := ConflictScan(ports, n - 1);
      var p := ports[n - 1];
      if p.port in s.seen then Scan(s.errors + [ConflictMessage(p.name, p.port, s.seen[p.port])], s.seen)
      else Scan(s.errors, s.seen[p.port := p.name])
  }

  /** The index of the first of the first `n` ports with value `v`, or `n`. */
  function FirstWith(ports: seq<Named>, v: JsValue, n: nat): (k: nat)
    requires n <= |ports|
    ensures k <= n && (k < n ==> ports[k].port == v)
    ensures forall j :: 0 <= j < k ==> ports[j].port != v
  {
    if n == 0 then 0
    else
      var k := FirstWith(ports, v, n - 1);
      if k < n - 1 then k else if ports[n - 1].port == v then n - 1 else n
  }

  /** The loop remembers, for each port value, the section that used it
      first, and reports one conflict per later use. */
  lemma {:induction false} ConflictScanSeen(ports: seq<Named>, n: nat)
    requires n <= |ports|
    ensures var s := ConflictScan(ports, n);
      forall v :: (v in s.seen <==> FirstWith(ports, v, n) < n)
                  && (v in s.seen ==> s.seen[v] == ports[FirstWith(ports, v, n)].name)
  {
    if n > 0 {
      ConflictScanSeen(ports, n - 1);
    }
  }

  lemma MapAddCard<K, V>(m: map<K, V>, k: K, v: V)
    requires k !in m
    ensures |m[k := v]| == |m| + 1
  {
    assert m[k := v].Keys == m.Keys + {k};
  }

  /** One conflict per port that repeats an earlier value. */
  lemma {:induction false} ConflictScanCounts(ports: seq<Named>, n: nat)
    requires n <= |ports|
    ensures var s := ConflictScan(ports, n); |s.errors| + |s.seen| == n
  {
    if n > 0 {
      ConflictScanCounts(ports, n - 1);
      var s := ConflictScan(ports, n - 1);
      if ports[n - 1].port !in s.seen {
        MapAddCard(s.seen, ports[n - 1].port, ports[n - 1].name);
      }
    }
  }

  predicate DistinctPorts(ports: seq<Named>, n: nat)
    requires n <= |ports|
  {
    forall i, j :: 0 <= i < j < n ==> ports[i].port != ports[j].port
  }

  /** No conflict is reported exactly when the port values differ. */
  lemma {:induction false} NoConflictIffDistinct(ports: seq<Named>, n: nat)
    requires n <= |ports|
    ensures ConflictScan(ports, n).errors == [] <==> DistinctPorts(ports, n)
  {
    if n > 0 {
      NoConflictIffDistinct(ports, n - 1);
      ConflictScanSeen(ports, n - 1);
      var s := ConflictScan(ports, n - 1);
      var v := ports[n - 1].port;
      if v in s.seen {
        var k := FirstWith(ports, v, n - 1);
        assert ports[k].port == ports[n - 1].port;
      } else if DistinctPorts(ports, n - 1) {
        assert forall i :: 0 <= i < n - 1 ==> ports[i].port != v;
      }
    }
  }

  /** The conflict loop of `validateConfig`. */
  method CheckPortConflicts(ports: seq<Named>) returns (errors: seq<string>)
    ensures errors == ConflictScan(ports, |ports|).errors
  {
    errors := [];
    var seen: map<JsValue, string> := map[];
    for i := 0 to |ports|
      invariant Scan(errors, seen) == ConflictScan(ports, i)
    {
      var p := ports[i];
      if p.port in seen {
        errors := errors + [ConflictMessage(p.name, p.port, seen[p.port])];
      } else {
        seen := seen[p.port := p.name];
      }
    }
  }

  /** A section validated inside a `try`: reading the section itself from a
      `null` or `undefined` configuration is caught too. */
  function SectionErrors(config: JsValue, key: string, check: JsValue -> Result<bool>): seq<string>
  {
    match Get(config, key)
    case Err(e) => [e]
    case Ok(section) => ErrorsOf(check(section))
  }

  /** An optional section, checked when present: the read deciding
      whether it is present is outside any `try`. */
  function OptionalErrors(config: JsValue, key: string, check: JsValue -> Result<bool>): Result<seq<string>>
  {
    match Get(config, key)
    case Err(e) => Err(e)
    case Ok(section) => Ok(if Truthy(section) then ErrorsOf(check(section)) else [])
  }

  /** A section's port, read outside any `try`. */
  function PortOf(config: JsValue, key: string): Result<JsValue>
  {
    match Get(config, key)
    case Err(e) => Err(e)
    case Ok(section) => Get(section, "port")
  }

  /** What `validateConfig` collects before the conflict loop: every
      section's error and the ports to compare, or the error thrown while
      reading them. */
  datatype Collected = Collected(errors: seq<string>, ports: seq<Named>)

  function Collect(config: JsValue): (r: Result<Collected>)
    ensures r.Ok? ==> 3 <= |r.value.ports| <= 4
  {
    var sections := SectionErrors(config, "server", ValidateServerConfig)
                    + SectionErrors(config, "vite", ValidateViteConfig)
                    + SectionErrors(config, "discovery", ValidateDiscoveryConfig);
    match (OptionalErrors(config, "network", ValidateNetworkConfig),
           OptionalErrors(config, "fileTransfer", ValidateFileTransferConfig))
    case (Err(e), _) => Err(e)
    case (Ok(_), Err(e)) => Err(e)
    case (Ok(network), Ok(transfer)) =>
      match (PortOf(config, "server"), PortOf(config, "vite"), PortOf(config, "discovery"))
      case (Err(e), _, _) => Err(e)
      case (Ok(_), Err(e), _) => Err(e)
      case (Ok(_), Ok(_), Err(e)) => Err(e)
      case (Ok(server), Ok(vite), Ok(discovery)) =>
        var ports := [Named("服务器", server), Named("Vite", vite), Named("设备发现", discovery)];
        match Get(config, "debug")
        case Err(e) => Err(e)
        case Ok(debug) =>
          var debugPort := if Truthy(debug) then Get(debug, "port") else Ok(Undefined);
          var extra := if debugPort.Ok? && Truthy(debugPort.value) then [Named("调试", debugPort.value)] else [];
          Ok(Collected(sections + network + transfer, ports + extra))
  }

  /** `validateConfig(config)` */
  method ValidateConfig(config: JsValue) returns (r: Result<bool>)
    ensures Collect(config).Err? ==> r == Err(Collect(config).error)
    ensures Collect(config).Ok? ==>
      var c := Collect(config).value;
      r == Verdict("", c.errors + ConflictScan(c.ports, |c.ports|).errors)
  {
    var collected := Collect(config);
    if collected.Err? {
      return Err(collected.error);
    }
    var conflicts := CheckPortConflicts(collected.value.ports);
    r := Verdict("", collected.value.errors + conflicts);
  }

  /** `validateConfig` accepts a configuration exactly when every section
      it checks passes and no two ports are equal. */
  lemma ConfigAccepted(config: JsValue)
    requires Collect(config).Ok?
    ensures var c := Collect(config).value;
      Verdict("", c.errors + ConflictScan(c.ports, |c.ports|).errors) == Ok(true)
      <==> (SectionErrors(config, "server", ValidateServerConfig) == []
            && SectionErrors(config, "vite", ValidateViteConfig) == []
            && SectionErrors(config, "discovery", ValidateDiscoveryConfig) == []
            && OptionalErrors(config, "network", ValidateNetworkConfig) == Ok([])
            && OptionalErrors(config, "fileTransfer", ValidateFileTransferConfig) == Ok([])
            && DistinctPorts(c.ports, |c.ports|))
  {
    var c := Collect(config).value;
    NoConflictIffDistinct(c.ports, |c.ports|);
  }

  /** Two sections on one port make the whole configuration fail. */
  lemma SharedPortRejected(server: JsValue, vite: JsValue, discovery: JsValue)
    requires server.Obj? && vite.Obj? && discovery.Obj?
    requires "port" in server.fields && "port" in vite.fields && server.fields["port"] == vite.fields["port"]
    ensures var config := Obj(map["server" := server, "vite" := vite, "discovery" := discovery]);
      Collect(config).Ok? && Verdict("", Collect(config).value.errors
                                         + ConflictScan(Collect(config).value.ports, |Collect(config).value.ports|).errors).Err?
  {
    var config := Obj(map["server" := server, "vite" := vite, "discovery" := discovery]);
    var c := Collect(config).value;
    NoConflictIffDistinct(c.ports, |c.ports|);
    assert c.ports[0].port == c.ports[1].port;
  }
}
