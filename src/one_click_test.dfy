/** The one-click test runner's own logic: the command-line parser that
    builds its configuration, the mock registry keyed by method and path,
    the bookkeeping of `runTest` (a name is counted once; every counted
    test either passes or fails and leaves one record), the summary's
    success rate and status, and the coverage class of a file in the HTML
    report. Spawning test files, the network tests, and writing reports
    are not modelled. */
module OneClickTest {
  import opened Wrappers
  import opened Text
  import opened Arith
  import opened JsValues

  // ---------------------------------------------------------------------
  // Command-line arguments
  // ---------------------------------------------------------------------

  /** The runner's configuration. `host`, `testFilter` and `testType` can
      hold `undefined` when their option is the last argument; `port` and
      `timeout` are the result of `parseInt`, `None` standing for `NaN`.
      The report and test-file paths, derived from the script's own
      directory, are not modelled. */
  datatype Options = Options(
    host: JsValue,
    port: Option<int>,
    url: string,
    discoveryPort: int,
    broadcastAddress: string,
    timeout: Option<int>,
    retries: int,
    mockEnabled: bool,
    coverageEnabled: bool,
    testEnvironment: string,
    testFilter: JsValue,
    testType: JsValue,
    verbose: bool,
    onlyFailed: bool,
    reportFormats: seq<string>)

  /** A number in a template literal: `NaN` spelled out. */
  function NumberText(n: Option<int>): string
  {
    match n
    case None => "NaN"
    case Some(v) => IntToString(v)
  }

  /** `ws://${host}:${port}` */
  function Url(host: JsValue, port: Option<int>): string
  {
    "ws://" + ToStr(host) + ":" + NumberText(port)
  }

  const Defaults := Options(
    Str("127.0.0.1"), Some(8928), "ws://127.0.0.1:8928", 8091, "255.255.255.255",
    Some(5000), 3, true, true, "development", Null, Null, false, false,
    ["html", "json", "junit"])

  /** The websocket URL is the one built from the current host and port. */
  predicate UrlAgrees(o: Options)
  {
    o.url == Url(o.host, o.port)
  }

  /** What parsing ends with: the options together with the unknown
      arguments it warned about; the help text (after which the process
      exits with status 0); or the `TypeError` thrown by
      `undefined.split(',')` when `--report-formats` is the last argument. */
  datatype Parsed =
    | Parsed(options: Options, warned: seq<string>)
    | Help(warned: seq<string>)
    | Crashed(warned: seq<string>)

  /** `args[++i]`: the token after position `i`, `undefined` past the end. */
  function Next(args: seq<string>, i: nat): (v: JsValue)
    ensures v.Str? || v.Undefined?
    ensures v.Str? <==> i + 1 < |args|
  {
    if i + 1 < |args| then Str(args[i + 1]) else Undefined
  }

  /** The options the parser recognises. */
  predicate Known(a: string)
  {
    a in {"--host", "--port", "--timeout", "--mock", "--coverage", "--filter",
          "--type", "--verbose", "--only-failed", "--report-formats", "--help"}
  }

  /** The options that consume the token after them. */
  predicate TakesValue(a: string)
  {
    a in {"--host", "--port", "--timeout", "--mock", "--coverage", "--filter",
          "--type", "--report-formats"}
  }

  /** One pass of the parsing loop at position `i < |args|`: the options
      after the argument and the position of the next argument, or the
      end of parsing. */
  datatype Step = Go(o: Options, next: nat, warned: seq<string>) | Stop(r: Parsed)

  function ParseStep(args: seq<string>, i: nat, o: Options, warned: seq<string>): (s: Step)
    requires i < |args|
    ensures s.Go? ==> s.next == i + (if TakesValue(args[i]) then 2 else 1)
    ensures s.Go? && !Known(args[i]) ==> s.o == o && s.warned == warned + [args[i]]
    ensures s.Go? && Known(args[i]) ==> s.warned == warned
    ensures s.Stop? <==> args[i] == "--help" || (args[i] == "--report-formats" && i + 1 == |args|)
    ensures s.Go? && UrlAgrees(o) ==> UrlAgrees(s.o)
  {
    var a, v := args[i], Next(args, i);
    if a == "--host" then Go(o.(host := v, url := Url(v, o.port)), i + 2, warned)
    else if a == "--port" then
      var p := ParseInt(v); Go(o.(port := p, url := Url(o.host, p)), i + 2, warned)
    else if a == "--timeout" then Go(o.(timeout := ParseInt(v)), i + 2, warned)
    else if a == "--mock" then Go(o.(mockEnabled := v == Str("true")), i + 2, warned)
    else if a == "--coverage" then Go(o.(coverageEnabled := v == Str("true")), i + 2, warned)
    else if a == "--filter" then Go(o.(testFilter := v), i + 2, warned)
    else if a == "--type" then Go(o.(testType := v), i + 2, warned)
    else if a == "--verbose" then Go(o.(verbose := true), i + 1, warned)
    else if a == "--only-failed" then Go(o.(onlyFailed := true), i + 1, warned)
    else if a == "--report-formats" then
      (if v.Str? then Go(o.(reportFormats := Split(v.s, ',')), i + 2, warned) else Stop(Crashed(warned)))
    else if a == "--help" then Stop(Help(warned))
    else Go(o, i + 1, warned + [a])
  }

  /** Parsing from position `i` on, starting from options `o`. */
  function ParseFrom(args: seq<string>, i: nat, o: Options, warned: seq<string>): Parsed
    decreases |args| + 1 - i
  {
    if i >= |args| then Parsed(o, warned)
    else
      match ParseStep(args, i, o, warned)
      case Go(o', next, warned') => ParseFrom(args, next, o', warned')
      case Stop(r) => r
  }

  /** `parseCommandLineArgs()` over `process.argv.slice(2)`. */
  function Parse(args: seq<string>): Parsed
  {
    ParseFrom(args, 0, Defaults, [])
  }

  /** The argument loop, with `args[++i]` moving the index past a value. */
  method ParseCommandLineArgs(args: seq<string>) returns (r: Parsed)
    ensures r == Parse(args)
  {
    var o, warned := Defaults, [];
    var i: nat := 0;
    while i < |args|
      invariant i <= |args| + 1
      invariant ParseFrom(args, i, o, warned) == Parse(args)
      decreases |args| + 1 - i
    {
      var a := args[i];
      if a == "--host" {
        var v := Next(args, i);
        i := i + 1;
        o := o.(host := v);
        o := o.(url := Url(o.host, o.port));
      } else if a == "--port" {
        var v := Next(args, i);
        i := i + 1;
        o := o.(port := ParseInt(v));
        o := o.(url := Url(o.host, o.port));
      } else if a == "--timeout" {
        var v := Next(args, i);
        i := i + 1;
        o := o.(timeout := ParseInt(v));
      } else if a == "--mock" {
        var v := Next(args, i);
        i := i + 1;
        o := o.(mockEnabled := v == Str("true"));
      } else if a == "--coverage" {
        var v := Next(args, i);
        i := i + 1;
        o := o.(coverageEnabled := v == Str("true"));
      } else if a == "--filter" {
        var v := Next(args, i);
        i := i + 1;
        o := o.(testFilter := v);
      } else if a == "--type" {
        var v := Next(args, i);
        i := i + 1;
        o := o.(testType := v);
      } else if a == "--verbose" {
        o := o.(verbose := true);
      } else if a == "--only-failed" {
        o := o.(onlyFailed := true);
      } else if a == "--report-formats" {
        var v := Next(args, i);
        i := i + 1;
        if !v.Str? {
          return Crashed(warned);
        }
        o := o.(reportFormats := Split(v.s, ','));
      } else if a == "--help" {
        return Help(warned);
      } else {
        warned := warned + [a];
      }
      i := i + 1;
    }
    r := Parsed(o, warned);
  }

  lemma DefaultPortText()
    ensures NumberText(Some(8928)) == "8928"
  {
    assert NatToString(89) == "89";
    assert NatToString(892) == "892";
  }

  /** The default URL is the one built from the default host and port. */
  lemma DefaultsAgree()
    ensures UrlAgrees(Defaults)
  {
    DefaultPortText();
    assert Url(Defaults.host, Defaults.port) == "ws://" + "127.0.0.1" + ":" + "8928";
  }

  /** Whatever the arguments, the websocket URL parsing returns is built
      from the host and port it returns. */
  lemma {:induction false} ParsedUrlAgrees(args: seq<string>, i: nat, o: Options, warned: seq<string>)
    requires UrlAgrees(o)
    ensures ParseFrom(args, i, o, warned).Parsed? ==> UrlAgrees(ParseFrom(args, i, o, warned).options)
    decreases |args| + 1 - i
  {
    if i < |args| {
      match ParseStep(args, i, o, warned)
      case Go(o', next, warned') => ParsedUrlAgrees(args, next, o', warned');
      case Stop(_) =>
    }
  }

  lemma ParseUrlAgrees(args: seq<string>)
    ensures Parse(args).Parsed? ==> UrlAgrees(Parse(args).options)
  {
    DefaultsAgree();
    ParsedUrlAgrees(args, 0, Defaults, []);
  }

  /** A pass of the loop that goes on leaves the rest to the next one. */
  lemma Advance(args: seq<string>, i: nat, o: Options, warned: seq<string>)
    requires i < |args| && ParseStep(args, i, o, warned).Go?
    ensures var s := ParseStep(args, i, o, warned); ParseFrom(args, i, o, warned) == ParseFrom(args, s.next, s.o, s.warned)
  {
  }

  /** `--host` takes the next token as the host and rebuilds the URL. */
  lemma HostStep(args: seq<string>, i: nat, o: Options, warned: seq<string>)
    requires i < |args| && args[i] == "--host"
    ensures ParseFrom(args, i, o, warned)
         == ParseFrom(args, i + 2, o.(host := Next(args, i), url := Url(Next(args, i), o.port)), warned)
  {
  }

  /** `--port` takes `parseInt` of the next token as the port and
      rebuilds the URL. */
  lemma PortStep(args: seq<string>, i: nat, o: Options, warned: seq<string>)
    requires i < |args| && args[i] == "--port"
    ensures ParseFrom(args, i, o, warned)
         == ParseFrom(args, i + 2, o.(port := ParseInt(Next(args, i)), url := Url(o.host, ParseInt(Next(args, i)))), warned)
  {
    Advance(args, i, o, warned);
  }

  /** `--host h --port p` sets the URL to `ws://h:<parseInt(p)>`. */
  lemma HostThenPort(h: string, p: string, a: seq<string>)
    requires a == ["--host", h, "--port", p]
    ensures Parse(a) == Parsed(Defaults.(host := Str(h), port := ParseIntString(p),
                                         url := Url(Str(h), ParseIntString(p))), [])
    ensures Parse(a).options.url == "ws://" + h + ":" + NumberText(ParseIntString(p))
  {
    HostStep(a, 0, Defaults, []);
    var o := Defaults.(host := Str(h), url := Url(Str(h), Some(8928)));
    PortStep(a, 2, o, []);
  }

  /** `--port p --host h` gives the same options as `--host h --port p`:
      whichever comes last, the URL is built from both. */
  lemma PortThenHost(h: string, p: string, b: seq<string>)
    requires b == ["--port", p, "--host", h]
    ensures Parse(b) == Parsed(Defaults.(host := Str(h), port := ParseIntString(p),
                                         url := Url(Str(h), ParseIntString(p))), [])
  {
    var n := ParseIntString(p);
    assert Next(b, 0) == Str(p) && ParseInt(Str(p)) == n;
    PortStep(b, 0, Defaults, []);
    var o := Defaults.(port := n, url := Url(Str("127.0.0.1"), n));
    assert Parse(b) == ParseFrom(b, 2, o, []);
    assert Next(b, 2) == Str(h);
    HostStep(b, 2, o, []);
    var e := o.(host := Str(h), url := Url(Str(h), n));
    assert Parse(b) == ParseFrom(b, 4, e, []) == Parsed(e, []);
  }

  /** `--mock` and `--coverage` are turned on only by a next token that
      is exactly `true`, and consume that token. */
  lemma {:induction false} FlagOnlyTrue(args: seq<string>, i: nat, o: Options, warned: seq<string>)
    requires i < |args| && (args[i] == "--mock" || args[i] == "--coverage")
    ensures ParseFrom(args, i, o, warned)
         == ParseFrom(args, i + 2,
              if args[i] == "--mock" then o.(mockEnabled := i + 1 < |args| && args[i + 1] == "true")
              else o.(coverageEnabled := i + 1 < |args| && args[i + 1] == "true"),
              warned)
  {
    var v := Next(args, i);
    assert v == Str("true") <==> i + 1 < |args| && args[i + 1] == "true";
  }

  /** As the whole command line: `--mock v` leaves the mock layer on
      exactly when `v` is `true`, and `--mock` alone turns it off. */
  lemma MockOnlyTrue(v: string)
    ensures Parse(["--mock", v]) == Parsed(Defaults.(mockEnabled := v == "true"), [])
    ensures Parse(["--mock"]) == Parsed(Defaults.(mockEnabled := false), [])
  {
    FlagOnlyTrue(["--mock", v], 0, Defaults, []);
    FlagOnlyTrue(["--mock"], 0, Defaults, []);
  }

  /** `--report-formats s` sets the formats to the pieces of `s` between
      commas, which joined with commas give `s` back; with nothing after
      it, parsing throws. */
  lemma ReportFormatsSplit(s: string)
    ensures Parse(["--report-formats", s]) == Parsed(Defaults.(reportFormats := Split(s, ',')), [])
    ensures Join(Parse(["--report-formats", s]).options.reportFormats, ',') == s
    ensures Parse(["--report-formats"]) == Crashed([])
  {
    var a := ["--report-formats", s];
    var o := Defaults.(reportFormats := Split(s, ','));
    assert ParseStep(a, 0, Defaults, []) == Go(o, 2, []);
    assert ParseFrom(a, 2, o, []) == Parsed(o, []);
    assert ParseStep(["--report-formats"], 0, Defaults, []) == Stop(Crashed([]));
    JoinSplit(s, ',');
  }

  /** An unknown argument is only warned about: it consumes no value and
      changes no option. */
  lemma UnknownOnlyWarns(args: seq<string>, i: nat, o: Options, warned: seq<string>)
    requires i < |args| && !Known(args[i])
    ensures ParseFrom(args, i, o, warned) == ParseFrom(args, i + 1, o, warned + [args[i]])
  {
  }

  /** A command line of unknown arguments only leaves the defaults and a
      warning for each argument, in order. */
  lemma {:induction false} AllUnknown(args: seq<string>, i: nat, o: Options, warned: seq<string>)
    requires i <= |args|
    requires forall k :: i <= k < |args| ==> !Known(args[k])
    ensures ParseFrom(args, i, o, warned) == Parsed(o, warned + args[i..])
    decreases |args| - i
  {
    if i < |args| {
      AllUnknown(args, i + 1, o, warned + [args[i]]);
      assert warned + [args[i]] + args[i + 1..] == warned + args[i..];
    }
  }

  lemma UnknownKeepsDefaults(args: seq<string>)
    requires forall k :: 0 <= k < |args| ==> !Known(args[k])
    ensures Parse(args) == Parsed(Defaults, args)
  {
    AllUnknown(args, 0, Defaults, []);
    assert [] + args[0..] == args;
  }

  // ---------------------------------------------------------------------
  // Mock registry
  // ---------------------------------------------------------------------

  /** A registered mock: the response and its options (`{}` by default). */
  datatype Mock = Mock(response: JsValue, options: JsValue)

  /** `${method.toUpperCase()}:${path}` */
  function Key(path: string, verb: string): (k: string)
    ensures |k| == |verb| + 1 + |path| && k[|verb|] == ':'
    ensures k[..|verb|] == ToUpper(verb) && k[|verb| + 1..] == path
  {
    ToUpper(verb) + ":" + path
  }

  /** The verb's case never matters. */
  lemma KeyIgnoresCase(path: string, m1: string, m2: string)
    requires ToUpper(m1) == ToUpper(m2)
    ensures Key(path, m1) == Key(path, m2)
  {
  }

  /** For methods without a colon, the key determines the path and the
      upper-cased method. */
  lemma KeyInjective(p1: string, m1: string, p2: string, m2: string)
    requires ':' !in m1 && ':' !in m2
    requires Key(p1, m1) == Key(p2, m2)
    ensures p1 == p2 && ToUpper(m1) == ToUpper(m2)
  {
    var k := Key(p1, m1);
    assert |m1| == |m2| by {
      if |m1| < |m2| {
        ColonInUpper(m2, |m1|);
      } else if |m2| < |m1| {
        ColonInUpper(m1, |m2|);
      }
    }
  }

  /** Upper-casing makes no colon out of any other character. */
  lemma ColonInUpper(s: string, i: nat)
    requires i < |s| && ToUpper(s)[i] == ':'
    ensures ':' in s
  {
    assert s[i] == ':';
  }

  class MockService {
    var mocks: map<string, Mock>

    constructor()
      ensures mocks == map[]
    {
      mocks := map[];
    }

    /** `registerMock(path, verb, response, options)`: overwrites any
        mock under the same key. */
    method RegisterMock(path: string, verb: string, response: JsValue, options: JsValue)
      modifies this
      ensures mocks == old(mocks)[Key(path, verb) := Mock(response, options)]
    {
      mocks := mocks[Key(path, verb) := Mock(response, options)];
    }

    method ClearAllMocks()
      modifies this
      ensures mocks == map[]
    {
      mocks := map[];
    }

    /** `getMock(path, verb)`: the mock, or `undefined`. */
    method GetMock(path: string, verb: string) returns (r: Option<Mock>)
      ensures r == Lookup(mocks, path, verb)
    {
      var k := Key(path, verb);
      r := if k in mocks then Some(mocks[k]) else None;
    }

    method HasMock(path: string, verb: string) returns (b: bool)
      ensures b <==> Lookup(mocks, path, verb).Some?
    {
      b := Key(path, verb) in mocks;
    }
  }

  /** The mock a registry holds for a path and method. */
  function Lookup(mocks: map<string, Mock>, path: string, verb: string): Option<Mock>
  {
    var k := Key(path, verb);
    if k in mocks then Some(mocks[k]) else None
  }

  /** After registering, every spelling of the method finds the mock just
      registered, which replaced any earlier one; a colon-free method on a
      different path or method finds what it found before. */
  lemma LookupAfterRegister(mocks: map<string, Mock>, path: string, verb: string, m: Mock,
                            path': string, verb': string)
    ensures ToUpper(verb') == ToUpper(verb) ==>
      Lookup(mocks[Key(path, verb) := m], path, verb') == Some(m)
    ensures ':' !in verb && ':' !in verb' && (path' != path || ToUpper(verb') != ToUpper(verb)) ==>
      Lookup(mocks[Key(path, verb) := m], path', verb') == Lookup(mocks, path', verb')
  {
    if ToUpper(verb') == ToUpper(verb) {
      KeyIgnoresCase(path, verb, verb');
    }
    if ':' !in verb && ':' !in verb' && Key(path', verb') == Key(path, verb) {
      KeyInjective(path', verb', path, verb);
    }
  }

  // ---------------------------------------------------------------------
  // Test results
  // ---------------------------------------------------------------------

  /** A counted test either passed or failed; `runTest` never records a
      skipped one. */
  datatype Status = Passed | Failed

  datatype TestRecord = TestRecord(
    name: string, testType: string, status: Status, error: Option<string>,
    startTime: int, endTime: int, duration: int)

  /** `tests.some(test => test.name === name)` */
  predicate Recorded(tests: seq<TestRecord>, name: string)
  {
    exists k :: 0 <= k < |tests| && tests[k].name == name
  }

  /** No two records share a name. */
  predicate DistinctNames(tests: seq<TestRecord>)
  {
    forall j, k :: 0 <= j < k < |tests| ==> tests[j].name != tests[k].name
  }

  function CountStatus(tests: seq<TestRecord>, s: Status): (n: nat)
    ensures n <= |tests|
  {
    if tests == [] then 0
    else CountStatus(tests[..|tests| - 1], s) + (if tests[|tests| - 1].status == s then 1 else 0)
  }

  /** Every record is either a pass or a failure. */
  lemma {:induction false} CountsCover(tests: seq<TestRecord>)
    ensures CountStatus(tests, Passed) + CountStatus(tests, Failed) == |tests|
  {
    if tests != [] {
      CountsCover(tests[..|tests| - 1]);
    }
  }

  lemma CountAppend(tests: seq<TestRecord>, t: TestRecord, s: Status)
    ensures CountStatus(tests + [t], s) == CountStatus(tests, s) + (if t.status == s then 1 else 0)
  {
    assert (tests + [t])[..|tests|] == tests;
  }

  /** The module-level `testResults` object. */
  class TestResults {
    var totalTests: nat
    var passedTests: nat
    var failedTests: nat
    var skippedTests: nat
    var tests: seq<TestRecord>

    /** The counters agree with the records: each name is counted once,
        and the total is the passes plus the failures. */
    predicate Valid()
      reads this
    {
      && totalTests == |tests|
      && passedTests == CountStatus(tests, Passed)
      && failedTests == CountStatus(tests, Failed)
      && skippedTests == 0
      && DistinctNames(tests)
    }

    constructor()
      ensures Valid() && tests == [] && totalTests == 0
    {
      totalTests, passedTests, failedTests, skippedTests := 0, 0, 0, 0;
      tests := [];
    }

    /** `runTest(name, type, testFn)` once `testFn` has settled: `error`
        is the message it threw, if any. The clock readings are
        parameters. */
    method RunTest(name: string, testType: string, error: Option<string>, testStart: int, testEnd: int)
      requires Valid()
      modifies this
      ensures Valid()
      ensures Recorded(old(tests), name) ==>
        tests == old(tests) && totalTests == old(totalTests)
        && passedTests == old(passedTests) && failedTests == old(failedTests)
      ensures !Recorded(old(tests), name) ==>
        && tests == old(tests) + [TestRecord(name, testType, if error.None? then Passed else Failed,
                                             error, testStart, testEnd, testEnd - testStart)]
        && totalTests == old(totalTests) + 1
        && passedTests == old(passedTests) + (if error.None? then 1 else 0)
        && failedTests == old(failedTests) + (if error.Some? then 1 else 0)
      ensures skippedTests == old(skippedTests)
      ensures totalTests == passedTests + failedTests
    {
      if Recorded(tests, name) {
        CountsCover(tests);
        return;
      }
      totalTests := totalTests + 1;
      var status := Passed;
      if error.None? {
        passedTests := passedTests + 1;
      } else {
        status := Failed;
        failedTests := failedTests + 1;
      }
      var t := TestRecord(name, testType, status, error, testStart, testEnd, testEnd - testStart);
      CountAppend(tests, t, Passed);
      CountAppend(tests, t, Failed);
      tests := tests + [t];
      CountsCover(tests);
    }
  }

  /** The summary's `Math.round(passed / total * 100) + '%'`; with no test
      at all the division gives `NaN`. */
  function SuccessRate(passed: nat, total: nat): (r: Option<int>)
    ensures r.None? <==> total == 0
    ensures r.Some? && passed <= total ==> 0 <= r.value <= 100
    ensures r.Some? && passed == total ==> r.value == 100
    ensures r.Some? && passed == 0 ==> r.value == 0
  {
    if total == 0 then None
    else
      var x := passed as real / total as real * 100.0;
      assert passed <= total ==> x <= 100.0 by {
        if passed <= total {
          assert passed as real / total as real <= 1.0;
        }
      }
      assert passed == total ==> x == 100.0;
      assert (100.0 + 0.5).Floor == 100;
      Some(RoundReal(x))
  }

  /** The summary's status, and the process exit code it implies. */
  function Verdict(failed: nat): (r: (string, int))
    ensures r.0 == "PASSED" <==> failed == 0
    ensures r.1 == 0 <==> r.0 == "PASSED"
  {
    if failed == 0 then ("PASSED", 0) else ("FAILED", 1)
  }

  // ---------------------------------------------------------------------
  // Coverage report
  // ---------------------------------------------------------------------

  /** The CSS class of a file's coverage row. */
  function CoverageClass(rate: real): (c: string)
    ensures c == "low" <==> rate < 60.0
    ensures c == "medium" <==> 60.0 <= rate < 80.0
    ensures c == "high" <==> 80.0 <= rate
  {
    if rate < 60.0 then "low" else if rate < 80.0 then "medium" else "high"
  }

  function ClassRank(c: string): nat
  {
    if c == "low" then 0 else if c == "medium" then 1 else 2
  }

  /** A higher rate never gets a lower class. */
  lemma CoverageClassMonotone(r1: real, r2: real)
    requires r1 <= r2
    ensures ClassRank(CoverageClass(r1)) <= ClassRank(CoverageClass(r2))
  {
  }
}
