/** The Android self-test framework `TestFramework`: test cases registered
    with ids "test-1", "test-2", ...; runs that execute a list of cases in
    descending priority and record one result per case id; mock services
    started before and stopped after a run; reports that count the results.

    A run is a suspending coroutine: while a test function runs, other
    callers can reach the framework and find it running. The model therefore
    splits a run at its suspension points (begin, start of a case, end of a
    case, end), and `RunTests` is the uninterrupted composition of those
    steps. What a case's setup, function and teardown do, and what the clock
    reads, are parameters (`Execution`). */
module TestFramework {
  import opened Wrappers
  import opened Seqs
  import opened Sorting
  import opened Text

  const RETURNED_FALSE := "测试函数返回false"
  const UNKNOWN_ERROR := "测试执行过程中发生未知错误"

  datatype TestType = UnitTest | IntegrationTest | ApiTest | WebSocketTest | DiscoveryTest | SystemTest | PerformanceTest

  /** `Priority`, compared by declaration order. */
  datatype Priority = Low | Medium | High | Critical

  function Rank(p: Priority): int
  {
    match p
    case Low => 0
    case Medium => 1
    case High => 2
    case Critical => 3
  }

  datatype Status = Passed | Failed | Skipped | Running

  /** A registered case; its setup, function and teardown are represented
      by the `Execution` a run gives it. */
  datatype TestCase = TestCase(id: string, name: string, kind: TestType, description: string, priority: Priority)

  datatype TestResult = TestResult(
    testId: string,
    testName: string,
    testType: TestType,
    status: Status,
    startTime: int,
    endTime: int,
    duration: int,
    errorMessage: Option<string>)

  /** A setup or teardown: absent or returning normally, or throwing an
      exception with the given (possibly null) message. */
  datatype Step = Completes | Raises(message: Option<string>)

  /** The test function: returns a verdict or throws. */
  datatype Body = Returns(passed: bool) | Throws(message: Option<string>)

  /** One execution of a case: what its parts do and the clock readings
      taken when its result is created, before setup, and after teardown. */
  datatype Execution = Execution(created: int, setup: Step, body: Body, teardown: Step, started: int, ended: int)

  /** A calls-to-mocks record: the names of the mock services started or
      stopped together. */
  datatype MockEvent = MocksStarted(names: set<string>) | MocksStopped(names: set<string>)

  /** `testCases`, `testCounter`, `testResults` (with `order` listing its
      keys), `mockServices`, `testSessionId`, `isRunning`, and where a run
      is: the cases still to run and the result of the case under way. */
  datatype State = State(
    cases: seq<TestCase>,
    counter: nat,
    results: map<string, TestResult>,
    order: seq<string>,
    mocks: map<string, nat>,
    session: string,
    running: bool,
    pending: seq<TestCase>,
    inFlight: Option<TestResult>,
    events: seq<MockEvent>)

  /** `"test-${n}"`. */
  function TestId(n: nat): string
  {
    "test-" + NatToString(n)
  }

  function Ids(cs: seq<TestCase>): (r: seq<string>)
    ensures |r| == |cs| && forall i :: 0 <= i < |cs| ==> r[i] == cs[i].id
  {
    seq(|cs|, i requires 0 <= i < |cs| => cs[i].id)
  }

  /** Registered cases carry the ids 1..counter in order. */
  ghost predicate Numbered(cases: seq<TestCase>, counter: nat)
  {
    |cases| == counter && forall i :: 0 <= i < |cases| ==> cases[i].id == TestId(i + 1)
  }

  /** The result keys are listed once each. */
  ghost predicate Listing(results: map<string, TestResult>, order: seq<string>)
  {
    (forall k :: k in results <==> k in order) && Distinct(order)
  }

  /** No result is SKIPPED; the only RUNNING result is the one of the case
      under way, which happens during a run. */
  ghost predicate Statuses(s: State)
  {
    && (forall k :: k in s.results ==> s.results[k].status != Skipped)
    && (forall k :: k in s.results && s.results[k].status == Running ==> s.inFlight.Some? && s.inFlight.value.testId == k)
    && (s.inFlight.Some? ==>
          && s.running && s.inFlight.value.status == Running
          && s.inFlight.value.testId in s.results && s.results[s.inFlight.value.testId] == s.inFlight.value)
  }

  /** The framework's invariant; outside a run nothing is pending. */
  ghost predicate Valid(s: State)
  {
    && Numbered(s.cases, s.counter)
    && Listing(s.results, s.order)
    && Statuses(s)
    && (!s.running ==> s.pending == [])
  }

  /** A new framework with the given session id. */
  function Fresh(session: string): State
  {
    State([], 0, map[], [], map[], session, false, [], None, [])
  }

  // ---------------------------------------------------------------------
  // Registration

  datatype Registered = Registered(id: string, after: State)

  /** `registerTestCase(...)`. */
  function Register(s: State, name: string, kind: TestType, description: string, priority: Priority): Registered
  {
    var id := TestId(s.counter + 1);
    Registered(id, s.(cases := s.cases + [TestCase(id, name, kind, description, priority)], counter := s.counter + 1))
  }

  /** `registerMockService(service)`: keyed by its name, replacing one of
      the same name. */
  function RegisterMock(s: State, name: string, service: nat): State
  {
    s.(mocks := s.mocks[name := service])
  }

  // ---------------------------------------------------------------------
  // Running one case

  datatype Verdict = Verdict(status: Status, message: Option<string>)

  /** The status and message of `runTestCase`'s try/catch/finally. */
  function Judge(e: Execution): Verdict
  {
    if e.setup.Raises? then Verdict(Failed, Some(e.setup.message.GetOr(UNKNOWN_ERROR)))
    else match e.body
      case Returns(true) => Verdict(Passed, None)
      case Returns(false) => Verdict(Failed, Some(RETURNED_FALSE))
      case Throws(m) => Verdict(Failed, Some(m.GetOr(UNKNOWN_ERROR)))
  }

  /** The RUNNING result stored when a case starts. */
  function Placeholder(c: TestCase, at: int): TestResult
  {
    TestResult(c.id, c.name, c.kind, Running, at, at, 0, None)
  }

  /** `result.copy(status, endTime, duration, errorMessage)`. */
  function Completed(p: TestResult, e: Execution): TestResult
  {
    var v := Judge(e);
    p.(status := v.status, endTime := e.ended, duration := e.ended - e.started, errorMessage := v.message)
  }

  /** The final result of a case run as `e` describes. */
  function FinalOf(c: TestCase, e: Execution): TestResult
  {
    Completed(Placeholder(c, e.created), e)
  }

  /** `testResults[id] = r`. */
  function Store(s: State, r: TestResult): State
  {
    s.(results := s.results[r.testId := r],
       order := if r.testId in s.results then s.order else s.order + [r.testId])
  }

  // ---------------------------------------------------------------------
  // The steps of a run

  /** `sortedByDescending { it.priority }`. */
  function PriorityKey(c: TestCase): int
  {
    Rank(c.priority)
  }

  function RunOrder(list: seq<TestCase>): (r: seq<TestCase>)
    ensures SortedBy(r, PriorityKey, true) && multiset(r) == multiset(list)
  {
    SortBy(list, PriorityKey, true)
  }

  /** `runTests(list)` up to the first case: running, a new session id,
      results cleared, mocks started, the cases in priority order. */
  function Begin(s: State, list: seq<TestCase>, session: string): State
  {
    s.(running := true, session := session, results := map[], order := [],
       events := s.events + [MocksStarted(s.mocks.Keys)], pending := RunOrder(list))
  }

  /** `runTestCase(c)` up to the test: the RUNNING result is stored. */
  function StartCase(s: State, at: int): State
    requires s.pending != []
  {
    var p := Placeholder(s.pending[0], at);
    Store(s, p).(pending := s.pending[1..], inFlight := Some(p))
  }

  /** `runTestCase(c)` after the test: the final result replaces it. */
  function FinishCase(s: State, e: Execution): State
    requires s.inFlight.Some?
  {
    Store(s, Completed(s.inFlight.value, e)).(inFlight := None)
  }

  /** `runTests(list)` after the last case: mocks stopped, not running. */
  function End(s: State): State
  {
    s.(running := false, events := s.events + [MocksStopped(s.mocks.Keys)])
  }

  /** The remaining cases, the `i`-th of the run executed as `execOf(i)`. */
  function Drain(s: State, execOf: nat -> Execution, i: nat): State
    decreases |s.pending|
  {
    if s.pending == [] then s
    else
      var s1 := StartCase(s, execOf(i).created);
      Drain(FinishCase(s1, execOf(i)), execOf, i + 1)
  }

  /** `runTests(list)`: while running nothing happens; otherwise the whole run. */
  function Run(s: State, list: seq<TestCase>, session: string, execOf: nat -> Execution): State
  {
    if s.running then s else End(Drain(Begin(s, list, session), execOf, 0))
  }

  /** `it.priority >= priority`. */
  function AtLeast(p: Priority): TestCase -> bool
  {
    (c: TestCase) => Rank(c.priority) >= Rank(p)
  }

  /** `it.type == type`. */
  function OfType(t: TestType): TestCase -> bool
  {
    (c: TestCase) => c.kind == t
  }

  /** `reset()`: refused while running. */
  function Cleared(s: State, session: string): State
  {
    if s.running then s
    else s.(cases := [], counter := 0, results := map[], order := [], mocks := map[], session := session)
  }

  // ---------------------------------------------------------------------
  // Reports

  datatype TestReport = TestReport(
    sessionId: string,
    timestamp: int,
    totalTests: nat,
    passedTests: nat,
    failedTests: nat,
    skippedTests: nat,
    totalDuration: int,
    testResults: seq<TestResult>,
    summary: string)

  function HasStatus(st: Status): TestResult -> bool
  {
    (r: TestResult) => r.status == st
  }

  function DurationOf(r: TestResult): int
  {
    r.duration
  }

  /** The report's one-line summary. */
  function Summary(total: nat, passed: nat, failed: nat, skipped: nat, duration: int): string
  {
    "测试报告: 共 " + NatToString(total) + " 个测试用例，通过 " + NatToString(passed)
    + " 个，失败 " + NatToString(failed) + " 个，跳过 " + NatToString(skipped)
    + " 个，总耗时 " + IntToString(duration) + " ms"
  }

  /** `TestReport.generate(sessionId, results)` at time `timestamp`. */
  function Generate(sessionId: string, timestamp: int, rs: seq<TestResult>): TestReport
  {
    var total, passed := |rs|, Count(rs, HasStatus(Passed));
    var failed, skipped := Count(rs, HasStatus(Failed)), Count(rs, HasStatus(Skipped));
    var duration := Sum(rs, DurationOf);
    TestReport(sessionId, timestamp, total, passed, failed, skipped, duration, rs,
      Summary(total, passed, failed, skipped, duration))
  }

  /** The stored results, listed by `order`. */
  function Listed(results: map<string, TestResult>, order: seq<string>): (r: seq<TestResult>)
    requires forall i :: 0 <= i < |order| ==> order[i] in results
    ensures |r| == |order| && forall i :: 0 <= i < |order| ==> r[i] == results[order[i]]
  {
    if order == [] then [] else [results[order[0]]] + Listed(results, order[1..])
  }

  /** `generateReport()`. */
  function Report(s: State, now: int): TestReport
    requires Listing(s.results, s.order)
  {
    Generate(s.session, now, Listed(s.results, s.order))
  }

  // ---------------------------------------------------------------------
  // Properties: registration

  /** Distinct numbers give distinct ids. */
  lemma TestIdInjective(a: nat, b: nat)
    ensures TestId(a) == TestId(b) <==> a == b
  {
    if TestId(a) == TestId(b) {
      assert NatToString(a) == TestId(a)[5..];
      assert NatToString(b) == TestId(b)[5..];
      ParseNatToString(a);
      ParseNatToString(b);
    }
  }

  /** The n-th registered case gets "test-n", an id no earlier case has. */
  lemma RegisterIds(s: State, name: string, kind: TestType, description: string, priority: Priority)
    requires Numbered(s.cases, s.counter)
    ensures var r := Register(s, name, kind, description, priority);
      && Numbered(r.after.cases, r.after.counter)
      && r.id == TestId(|s.cases| + 1)
      && r.id !in Ids(s.cases)
      && r.after.cases == s.cases + [TestCase(r.id, name, kind, description, priority)]
  {
    var id := TestId(|s.cases| + 1);
    if id in Ids(s.cases) {
      var i :| 0 <= i < |s.cases| && Ids(s.cases)[i] == id;
      TestIdInjective(i + 1, |s.cases| + 1);
    }
  }

  /** Registering a case keeps the invariant. */
  lemma RegisterValid(s: State, name: string, kind: TestType, description: string, priority: Priority)
    requires Valid(s)
    ensures Valid(Register(s, name, kind, description, priority).after)
  {
    RegisterIds(s, name, kind, description, priority);
  }

  /** The first case registered after a fresh start or a reset is "test-1". */
  lemma FirstId(s: State, name: string, kind: TestType, description: string, priority: Priority)
    requires s.counter == 0
    ensures Register(s, name, kind, description, priority).id == "test-1"
  {
    assert NatToString(1) == "1";
  }

  /** The registered cases have distinct ids. */
  lemma RegisteredDistinct(s: State)
    requires Numbered(s.cases, s.counter)
    ensures Distinct(Ids(s.cases))
  {
    forall i, j | 0 <= i < j < |s.cases| ensures Ids(s.cases)[i] != Ids(s.cases)[j] {
      TestIdInjective(i + 1, j + 1);
    }
  }

  // ---------------------------------------------------------------------
  // Properties: one case

  /** A case passes exactly when its setup completes and its function
      returns true; a FAILED result always carries a message, and a
      throwing setup's message is reported even if the function would pass. */
  lemma JudgeCases(e: Execution)
    ensures Judge(e).status == Passed <==> e.setup.Completes? && e.body == Returns(true)
    ensures Judge(e).status == Passed || Judge(e).status == Failed
    ensures Judge(e).status == Passed <==> Judge(e).message.None?
    ensures e.setup.Raises? ==> Judge(e).message == Some(e.setup.message.GetOr(UNKNOWN_ERROR))
    ensures e.setup.Completes? && e.body == Returns(false) ==> Judge(e).message == Some(RETURNED_FALSE)
  {
  }

  /** A throwing teardown changes nothing, and after a throwing setup the
      function's outcome does not matter. */
  lemma TeardownIgnored(e: Execution, t: Step, b: Body)
    ensures Judge(e.(teardown := t)) == Judge(e)
    ensures e.setup.Raises? ==> Judge(e.(body := b)) == Judge(e)
  {
  }

  /** The final result names the case, keeps the start time of its RUNNING
      result, and measures the duration from before setup to after teardown. */
  lemma FinalFields(c: TestCase, e: Execution)
    ensures var r := FinalOf(c, e);
      && r.testId == c.id && r.testName == c.name && r.testType == c.kind
      && r.startTime == e.created && r.endTime == e.ended && r.duration == e.ended - e.started
      && r.status == Judge(e).status && r.errorMessage == Judge(e).message
      && r.status != Running && r.status != Skipped
  {
  }

  // ---------------------------------------------------------------------
  // Properties: the steps keep the invariant

  lemma BeginValid(s: State, list: seq<TestCase>, session: string)
    requires Valid(s) && !s.running
    ensures var b := Begin(s, list, session);
      Valid(b) && b.running && b.inFlight.None? && b.results == map[]
  {
  }

  lemma StartValid(s: State, at: int)
    requires Valid(s) && s.running && s.pending != [] && s.inFlight.None?
    ensures Valid(StartCase(s, at)) && StartCase(s, at).inFlight.Some?
  {
    var p := Placeholder(s.pending[0], at);
    if p.testId !in s.results {
      SnocDistinct(s.order, p.testId);
    }
  }

  lemma FinishValid(s: State, e: Execution)
    requires Valid(s) && s.inFlight.Some?
    ensures Valid(FinishCase(s, e)) && FinishCase(s, e).running && FinishCase(s, e).inFlight.None?
  {
  }

  lemma EndValid(s: State)
    requires Valid(s) && s.pending == [] && s.inFlight.None?
    ensures Valid(End(s)) && !End(s).running
  {
  }

  lemma {:induction false} DrainValid(s: State, execOf: nat -> Execution, i: nat)
    requires Valid(s) && s.running && s.inFlight.None?
    ensures var d := Drain(s, execOf, i);
      Valid(d) && d.running && d.inFlight.None? && d.pending == []
    decreases |s.pending|
  {
    if s.pending != [] {
      var s1 := StartCase(s, execOf(i).created);
      StartValid(s, execOf(i).created);
      FinishValid(s1, execOf(i));
      DrainValid(FinishCase(s1, execOf(i)), execOf, i + 1);
    }
  }

  // ---------------------------------------------------------------------
  // Properties: what a run records

  /** One case run, from the case's start to its end. */
  lemma StepEffect(s: State, e: Execution)
    requires s.pending != []
    ensures var c := s.pending[0]; var t := FinishCase(StartCase(s, e.created), e);
      && t.inFlight.None? && t.pending == s.pending[1..] && t.running == s.running
      && t.results == s.results[c.id := FinalOf(c, e)]
      && t.order == (if c.id in s.results then s.order else s.order + [c.id])
      && t.cases == s.cases && t.counter == s.counter && t.mocks == s.mocks
      && t.session == s.session && t.events == s.events
  {
  }

  /** Running cases touches only the results. */
  lemma {:induction false} DrainFrame(s: State, execOf: nat -> Execution, i: nat)
    ensures var d := Drain(s, execOf, i);
      && d.cases == s.cases && d.counter == s.counter && d.mocks == s.mocks
      && d.session == s.session && d.events == s.events && d.running == s.running
    decreases |s.pending|
  {
    if s.pending != [] {
      StepEffect(s, execOf(i));
      DrainFrame(FinishCase(StartCase(s, execOf(i).created), execOf(i)), execOf, i + 1);
    }
  }

  /** Running the remaining cases gives a result to every remaining case
      id and keeps the earlier keys, and no others. */
  lemma {:induction false} DrainKeys(s: State, execOf: nat -> Execution, i: nat, k: string)
    ensures k in Drain(s, execOf, i).results <==> k in s.results || k in Ids(s.pending)
    decreases |s.pending|
  {
    if s.pending != [] {
      var e := execOf(i);
      StepEffect(s, e);
      DrainKeys(FinishCase(StartCase(s, e.created), e), execOf, i + 1, k);
      assert Ids(s.pending) == [s.pending[0].id] + Ids(s.pending[1..]);
    }
  }

  /** The ids after the first are distinct and differ from the first. */
  lemma DistinctTail(p: seq<TestCase>)
    requires p != [] && Distinct(Ids(p))
    ensures Ids(p) == [p[0].id] + Ids(p[1..])
    ensures Distinct(Ids(p[1..])) && p[0].id !in Ids(p[1..])
  {
    var rest := p[1..];
    assert Ids(p) == [p[0].id] + Ids(rest);
    forall a, b | 0 <= a < b < |rest| ensures Ids(rest)[a] != Ids(rest)[b] {
      assert Ids(p)[a + 1] == Ids(rest)[a] && Ids(p)[b + 1] == Ids(rest)[b];
    }
    forall a | 0 <= a < |rest| ensures Ids(rest)[a] != p[0].id {
      assert Ids(p)[0] != Ids(p)[a + 1];
    }
  }

  /** A result whose id does not come up again is kept. */
  lemma {:induction false} DrainKeeps(s: State, execOf: nat -> Execution, i: nat, k: string)
    requires k in s.results && k !in Ids(s.pending)
    ensures k in Drain(s, execOf, i).results && Drain(s, execOf, i).results[k] == s.results[k]
    decreases |s.pending|
  {
    if s.pending != [] {
      var e := execOf(i);
      StepEffect(s, e);
      assert Ids(s.pending) == [s.pending[0].id] + Ids(s.pending[1..]);
      DrainKeeps(FinishCase(StartCase(s, e.created), e), execOf, i + 1, k);
    }
  }

  /** The ids still to run are new and distinct. */
  ghost predicate FreshIds(s: State)
  {
    Distinct(Ids(s.pending)) && forall j :: 0 <= j < |s.pending| ==> s.pending[j].id !in s.results
  }

  /** One step keeps the remaining ids new and distinct. */
  lemma StepFresh(s: State, e: Execution)
    requires s.pending != [] && FreshIds(s)
    ensures FreshIds(FinishCase(StartCase(s, e.created), e)) && s.pending[0].id !in s.results
    ensures s.pending[0].id !in Ids(s.pending[1..]) && Ids(s.pending) == [s.pending[0].id] + Ids(s.pending[1..])
  {
    var t := FinishCase(StartCase(s, e.created), e);
    var rest := s.pending[1..];
    StepEffect(s, e);
    DistinctTail(s.pending);
    forall j | 0 <= j < |rest| ensures rest[j].id !in t.results {
      assert rest[j].id == Ids(rest)[j] && s.pending[j + 1] == rest[j];
    }
  }

  /** When the remaining ids are new and distinct, their keys are listed
      in run order after the earlier ones. */
  lemma {:induction false} DrainOrder(s: State, execOf: nat -> Execution, i: nat)
    requires FreshIds(s)
    ensures Drain(s, execOf, i).order == s.order + Ids(s.pending)
    decreases |s.pending|
  {
    if s.pending != [] {
      var e := execOf(i);
      var t := FinishCase(StartCase(s, e.created), e);
      StepFresh(s, e);
      StepOrder(s, e);
      DrainOrder(t, execOf, i + 1);
    }
  }

  /** One step on a new key lists it, so the keys listed and still to
      come are unchanged. */
  lemma StepOrder(s: State, e: Execution)
    requires s.pending != [] && s.pending[0].id !in s.results
    ensures var t := FinishCase(StartCase(s, e.created), e);
      t.order + Ids(t.pending) == s.order + Ids(s.pending)
  {
    var c := s.pending[0];
    var t := FinishCase(StartCase(s, e.created), e);
    StepEffect(s, e);
    assert t.order == s.order + [c.id];
    assert Ids(s.pending) == [c.id] + Ids(t.pending);
    AppendRegroup(s.order, c.id, Ids(t.pending));
  }

  lemma AppendRegroup(a: seq<string>, x: string, b: seq<string>)
    ensures (a + [x]) + b == a + ([x] + b)
  {
  }

  /** `c` has the result of running as `e`. */
  ghost predicate Recorded(s: State, c: TestCase, e: Execution)
  {
    c.id in s.results && s.results[c.id] == FinalOf(c, e)
  }

  /** The results after storing, for each of `cs` in turn, the `j`-th
      of them as `f(cs[j], i + j)`. */
  function Applied(results: map<string, TestResult>, cs: seq<TestCase>, f: (TestCase, nat) -> TestResult, i: nat): map<string, TestResult>
    decreases |cs|
  {
    if cs == [] then results
    else Applied(results[cs[0].id := f(cs[0], i)], cs[1..], f, i + 1)
  }

  /** The final result of a case run as the `n`-th execution. */
  function FinalAt(execOf: nat -> Execution): (TestCase, nat) -> TestResult
  {
    (c: TestCase, n: nat) => FinalOf(c, execOf(n))
  }

  /** Running the remaining cases stores their final results in turn. */
  lemma {:induction false} DrainApplied(s: State, execOf: nat -> Execution, i: nat)
    ensures Drain(s, execOf, i).results == Applied(s.results, s.pending, FinalAt(execOf), i)
    decreases |s.pending|
  {
    if s.pending != [] {
      var e := execOf(i);
      StepEffect(s, e);
      DrainApplied(FinishCase(StartCase(s, e.created), e), execOf, i + 1);
    }
  }

  /** With distinct ids, the `j`-th case ends with its own value, the
      `n`-th stored. */
  lemma {:induction false} AppliedAt(results: map<string, TestResult>, cs: seq<TestCase>, f: (TestCase, nat) -> TestResult, i: nat, j: nat, n: nat)
    requires Distinct(Ids(cs)) && j < |cs| && n == i + j
    ensures var m := Applied(results, cs, f, i); cs[j].id in m && m[cs[j].id] == f(cs[j], n)
    decreases |cs|
  {
    if j == 0 {
      AppliedFirst(results, cs, f, i);
    } else {
      DistinctTail(cs);
      assert cs[1..][j - 1] == cs[j];
      AppliedAt(results[cs[0].id := f(cs[0], i)], cs[1..], f, i + 1, j - 1, n);
    }
  }

  /** With distinct ids, the first case ends with the first value. */
  lemma AppliedFirst(results: map<string, TestResult>, cs: seq<TestCase>, f: (TestCase, nat) -> TestResult, i: nat)
    requires Distinct(Ids(cs)) && cs != []
    ensures var m := Applied(results, cs, f, i); cs[0].id in m && m[cs[0].id] == f(cs[0], i)
  {
    DistinctTail(cs);
    AppliedKeeps(results[cs[0].id := f(cs[0], i)], cs[1..], f, i + 1, cs[0].id);
  }

  /** A key no case of `cs` carries keeps its value. */
  lemma {:induction false} AppliedKeeps(results: map<string, TestResult>, cs: seq<TestCase>, f: (TestCase, nat) -> TestResult, i: nat, k: string)
    requires k in results && k !in Ids(cs)
    ensures var m := Applied(results, cs, f, i); k in m && m[k] == results[k]
    decreases |cs|
  {
    if cs != [] {
      assert Ids(cs) == [cs[0].id] + Ids(cs[1..]);
      AppliedKeeps(results[cs[0].id := f(cs[0], i)], cs[1..], f, i + 1, k);
    }
  }

  /** When the remaining ids are distinct, the `j`-th remaining case
      gets exactly the result of the `(i + j)`-th execution. */
  lemma DrainResultAt(s: State, execOf: nat -> Execution, i: nat, j: nat)
    requires Distinct(Ids(s.pending)) && j < |s.pending|
    ensures Recorded(Drain(s, execOf, i), s.pending[j], execOf(i + j))
  {
    DrainApplied(s, execOf, i);
    AppliedAt(s.results, s.pending, FinalAt(execOf), i, j, i + j);
  }

  lemma DrainResults(s: State, execOf: nat -> Execution, i: nat)
    requires FreshIds(s)
    ensures forall j :: 0 <= j < |s.pending| ==> Recorded(Drain(s, execOf, i), s.pending[j], execOf(i + j))
  {
    forall j | 0 <= j < |s.pending| ensures Recorded(Drain(s, execOf, i), s.pending[j], execOf(i + j)) {
      DrainResultAt(s, execOf, i, j);
    }
  }

  // ---------------------------------------------------------------------
  // Properties: runs

  /** A case id occurs in the run order exactly when it occurs in the list. */
  lemma RunOrderIds(list: seq<TestCase>, k: string)
    ensures k in Ids(RunOrder(list)) <==> k in Ids(list)
  {
    var sorted := RunOrder(list);
    if k in Ids(sorted) {
      var j :| 0 <= j < |sorted| && Ids(sorted)[j] == k;
      SortByMembers(list, PriorityKey, true, sorted[j]);
      var m :| 0 <= m < |list| && list[m] == sorted[j];
      assert Ids(list)[m] == k;
    }
    if k in Ids(list) {
      var m :| 0 <= m < |list| && Ids(list)[m] == k;
      SortByMembers(list, PriorityKey, true, list[m]);
      var j :| 0 <= j < |sorted| && sorted[j] == list[m];
      assert Ids(sorted)[j] == k;
    }
  }

  /** The ids of a reordering are distinct when the original's are. */
  lemma IdsPermutation(list: seq<TestCase>, other: seq<TestCase>)
    requires multiset(list) == multiset(other) && Distinct(Ids(list))
    ensures Distinct(Ids(other))
  {
    assert Distinct(list) by {
      forall x, y | 0 <= x < y < |list| ensures list[x] != list[y] {
        assert Ids(list)[x] != Ids(list)[y];
      }
    }
    DistinctPermutation(list, other);
    forall a, b | 0 <= a < b < |other| ensures Ids(other)[a] != Ids(other)[b] {
      assert other[a] in multiset(list) && other[b] in multiset(list);
      SameIdSameCase(list, other[a], other[b]);
    }
  }

  /** Among cases with distinct ids, equal ids mean the same case. */
  lemma SameIdSameCase(list: seq<TestCase>, x: TestCase, y: TestCase)
    requires x in list && y in list && Distinct(Ids(list))
    ensures x.id == y.id ==> x == y
  {
    var i :| 0 <= i < |list| && list[i] == x;
    var j :| 0 <= j < |list| && list[j] == y;
    assert Ids(list)[i] == x.id && Ids(list)[j] == y.id;
  }

  /** `runTests(list)` keeps the invariant and, when not running, ends
      not running. */
  lemma RunValid(s: State, list: seq<TestCase>, session: string, execOf: nat -> Execution)
    requires Valid(s)
    ensures Valid(Run(s, list, session, execOf))
    ensures !s.running ==> !Run(s, list, session, execOf).running
  {
    if !s.running {
      var b := Begin(s, list, session);
      BeginValid(s, list, session);
      DrainValid(b, execOf, 0);
      EndValid(Drain(b, execOf, 0));
    }
  }

  /** `runTests(list)` when not running keeps the cases, the counter and the
      mocks, takes the new session id, and starts the mocks and then stops
      them. */
  lemma RunFrame(s: State, list: seq<TestCase>, session: string, execOf: nat -> Execution)
    requires !s.running
    ensures var r := Run(s, list, session, execOf);
      && r.session == session && r.cases == s.cases && r.counter == s.counter && r.mocks == s.mocks
      && r.events == s.events + [MocksStarted(s.mocks.Keys), MocksStopped(s.mocks.Keys)]
  {
    DrainFrame(Begin(s, list, session), execOf, 0);
  }

  /** `runTests(list)` when not running: the previous results are gone and
      every case of the list, and nothing else, has a result. */
  lemma RunKeys(s: State, list: seq<TestCase>, session: string, execOf: nat -> Execution, k: string)
    requires !s.running
    ensures k in Run(s, list, session, execOf).results <==> k in Ids(list)
  {
    DrainKeys(Begin(s, list, session), execOf, 0, k);
    RunOrderIds(list, k);
  }

  /** With distinct ids, the cases run in descending priority, and the
      case run `j`-th gets the result of the `j`-th execution. */
  lemma RunResults(s: State, list: seq<TestCase>, session: string, execOf: nat -> Execution)
    requires !s.running && Distinct(Ids(list))
    ensures var r := Run(s, list, session, execOf); var sorted := RunOrder(list);
      && r.order == Ids(sorted)
      && (forall j :: 0 <= j < |sorted| ==> Recorded(r, sorted[j], execOf(j)))
      && (forall a, b :: 0 <= a < b < |sorted| ==> Rank(sorted[a].priority) >= Rank(sorted[b].priority))
  {
    var b := Begin(s, list, session);
    IdsPermutation(list, RunOrder(list));
    DrainOrder(b, execOf, 0);
    DrainResults(b, execOf, 0);
    RunOrderDescending(list);
  }

  /** The run order puts higher priorities first. */
  lemma RunOrderDescending(list: seq<TestCase>)
    ensures var sorted := RunOrder(list);
      forall a, b :: 0 <= a < b < |sorted| ==> Rank(sorted[a].priority) >= Rank(sorted[b].priority)
  {
    var sorted := RunOrder(list);
    forall a, c | 0 <= a < c < |sorted| ensures Rank(sorted[a].priority) >= Rank(sorted[c].priority) {
      assert InOrder(PriorityKey(sorted[a]), PriorityKey(sorted[c]), true);
    }
  }

  /** Cases of equal priority keep their list order. */
  lemma SamePriorityKeepsOrder(list: seq<TestCase>, p: Priority)
    requires forall i :: 0 <= i < |list| ==> list[i].priority == p
    ensures RunOrder(list) == list
  {
    SortByIdentity(list, PriorityKey, true);
  }

  /** An id occurs in the ids of the cases carrying it. */
  lemma IdMember(list: seq<TestCase>, k: string)
    ensures k in Ids(list) <==> exists j :: 0 <= j < |list| && list[j].id == k
  {
    var ids := Ids(list);
    if k in ids {
      var j :| 0 <= j < |ids| && ids[j] == k;
      assert list[j].id == k;
    }
  }

  /** The ids of the cases `f` keeps. */
  lemma IdsFilter(cs: seq<TestCase>, f: TestCase -> bool, k: string)
    ensures k in Ids(Filter(cs, f)) <==> exists c :: c in cs && c.id == k && f(c)
  {
    var list := Filter(cs, f);
    if k in Ids(list) {
      IdMember(list, k);
      var j :| 0 <= j < |list| && list[j].id == k;
      assert list[j] in cs && f(list[j]);
    }
    if exists c :: c in cs && c.id == k && f(c) {
      var c :| c in cs && c.id == k && f(c);
      FilterMember(cs, f, c);
      KeptId(list, c);
    }
  }

  /** A listed case's id is listed. */
  lemma KeptId(list: seq<TestCase>, c: TestCase)
    requires c in list
    ensures c.id in Ids(list)
  {
    var j :| 0 <= j < |list| && list[j] == c;
    IdMember(list, c.id);
  }

  /** `runTestsByPriority(p)`: exactly the registered cases of priority at
      least `p` get results. */
  lemma PriorityRunSelects(s: State, p: Priority, session: string, execOf: nat -> Execution, k: string)
    requires !s.running
    ensures k in Run(s, Filter(s.cases, AtLeast(p)), session, execOf).results
      <==> exists c :: c in s.cases && c.id == k && Rank(c.priority) >= Rank(p)
  {
    RunKeys(s, Filter(s.cases, AtLeast(p)), session, execOf, k);
    IdsFilter(s.cases, AtLeast(p), k);
  }

  /** `runTestsByType(t)`: exactly the registered cases of that type get results. */
  lemma TypeRunSelects(s: State, t: TestType, session: string, execOf: nat -> Execution, k: string)
    requires !s.running
    ensures k in Run(s, Filter(s.cases, OfType(t)), session, execOf).results
      <==> exists c :: c in s.cases && c.id == k && c.kind == t
  {
    RunKeys(s, Filter(s.cases, OfType(t)), session, execOf, k);
    IdsFilter(s.cases, OfType(t), k);
  }

  /** `runAllTests()`: every registered case gets the result of its
      execution, and there are as many results as cases. */
  lemma RunAllResults(s: State, session: string, execOf: nat -> Execution)
    requires Valid(s) && !s.running
    ensures var r := Run(s, s.cases, session, execOf); var sorted := RunOrder(s.cases);
      && |r.results| == |s.cases|
      && forall j :: 0 <= j < |sorted| ==> Recorded(r, sorted[j], execOf(j))
  {
    RegisteredDistinct(s);
    RunResults(s, s.cases, session, execOf);
    RunValid(s, s.cases, session, execOf);
    var r := Run(s, s.cases, session, execOf);
    KeysOfListed(r.results, r.order);
  }

  /** A map with keys listed once each has as many keys as the list. */
  lemma KeysOfListed(m: map<string, TestResult>, order: seq<string>)
    requires Listing(m, order)
    ensures |m| == |order|
  {
    DistinctCard(order);
    assert m.Keys == set k | k in order;
  }

  /** The elements of a repetition-free sequence are as many as its length. */
  lemma {:induction false} DistinctCard(order: seq<string>)
    requires Distinct(order)
    ensures |set k | k in order| == |order|
  {
    if order != [] {
      var rest := order[1..];
      assert Distinct(rest) by {
        forall a, b | 0 <= a < b < |rest| ensures rest[a] != rest[b] {
          assert rest[a] == order[a + 1] && rest[b] == order[b + 1];
        }
      }
      DistinctCard(rest);
      assert order[0] !in rest by {
        forall a | 0 <= a < |rest| ensures rest[a] != order[0] {
          assert rest[a] == order[a + 1];
        }
      }
      assert (set k | k in order) == (set k | k in rest) + {order[0]};
    }
  }

  /** `reset()` while running does nothing; otherwise it clears cases,
      results and mocks, and numbering starts again. */
  lemma ResetEffect(s: State, session: string)
    requires Valid(s)
    ensures Valid(Cleared(s, session))
    ensures s.running ==> Cleared(s, session) == s
    ensures !s.running ==> Cleared(s, session).cases == [] && Cleared(s, session).results == map[]
                           && Cleared(s, session).mocks == map[] && Cleared(s, session).counter == 0
  {
  }

  // ---------------------------------------------------------------------
  // Properties: reports

  /** Every result is counted once: PASSED, FAILED, SKIPPED or RUNNING. */
  lemma {:induction false} StatusPartition(rs: seq<TestResult>)
    ensures Count(rs, HasStatus(Passed)) + Count(rs, HasStatus(Failed)) + Count(rs, HasStatus(Skipped))
            + Count(rs, HasStatus(Running)) == |rs|
  {
    if rs != [] {
      StatusPartition(rs[1..]);
    }
  }

  /** The report's counts and total duration do not depend on the order in
      which the results are listed (a `ConcurrentHashMap` has none). */
  lemma GenerateIgnoresOrder(id: string, now: int, a: seq<TestResult>, b: seq<TestResult>)
    requires multiset(a) == multiset(b)
    ensures var x, y := Generate(id, now, a), Generate(id, now, b);
      && x.totalTests == y.totalTests && x.passedTests == y.passedTests
      && x.failedTests == y.failedTests && x.skippedTests == y.skippedTests
      && x.totalDuration == y.totalDuration && x.summary == y.summary
  {
    assert |a| == |multiset(a)| == |multiset(b)| == |b|;
    CountPermutation(a, b, HasStatus(Passed));
    CountPermutation(a, b, HasStatus(Failed));
    CountPermutation(a, b, HasStatus(Skipped));
    SumPermutation(a, b, DurationOf);
  }

  /** The report counts every stored result, and never a skipped one. */
  lemma ReportTotals(s: State, now: int)
    requires Valid(s)
    ensures Report(s, now).totalTests == |s.results| && Report(s, now).skippedTests == 0
  {
    var rs := Listed(s.results, s.order);
    KeysOfListed(s.results, s.order);
    CountZero(rs, HasStatus(Skipped));
  }

  /** Between cases every listed result passed or failed. */
  lemma ReportSettled(s: State, now: int)
    requires Valid(s) && s.inFlight.None?
    ensures Report(s, now).passedTests + Report(s, now).failedTests == Report(s, now).totalTests
  {
    var rs := Listed(s.results, s.order);
    forall i | 0 <= i < |rs| ensures !HasStatus(Skipped)(rs[i]) && !HasStatus(Running)(rs[i]) {
      assert rs[i] == s.results[s.order[i]];
    }
    SettledCounts(rs);
  }

  /** Results that are neither SKIPPED nor RUNNING each passed or failed. */
  lemma SettledCounts(rs: seq<TestResult>)
    requires forall i :: 0 <= i < |rs| ==> !HasStatus(Skipped)(rs[i]) && !HasStatus(Running)(rs[i])
    ensures Count(rs, HasStatus(Passed)) + Count(rs, HasStatus(Failed)) == |rs|
  {
    StatusPartition(rs);
    CountZero(rs, HasStatus(Skipped));
    CountZero(rs, HasStatus(Running));
  }

  /** During a case the report lists its RUNNING result, counted in the
      total only. */
  lemma ReportInFlight(s: State, now: int)
    requires Valid(s) && s.inFlight.Some?
    ensures s.inFlight.value in Report(s, now).testResults
    ensures Report(s, now).passedTests + Report(s, now).failedTests < Report(s, now).totalTests
  {
    var rs := Listed(s.results, s.order);
    StatusPartition(rs);
    var j :| 0 <= j < |s.order| && s.order[j] == s.inFlight.value.testId;
    assert rs[j] == s.inFlight.value;
    CountZero(rs, HasStatus(Running));
  }

  // ---------------------------------------------------------------------
  // The framework object

  class Framework {
    var cases: seq<TestCase>
    var counter: nat
    var results: map<string, TestResult>
    var order: seq<string>
    var mocks: map<string, nat>
    var session: string
    var running: bool
    var pending: seq<TestCase>
    var inFlight: Option<TestResult>
    var events: seq<MockEvent>

    function Current(): State
      reads this
    {
      State(cases, counter, results, order, mocks, session, running, pending, inFlight, events)
    }

    /** The private constructor behind `getInstance()`. */
    constructor (session_: string)
      ensures Current() == Fresh(session_) && Valid(Current())
    {
      cases, counter, results, order, mocks := [], 0, map[], [], map[];
      session, running, pending, inFlight, events := session_, false, [], None, [];
    }

    method RegisterTestCase(name: string, kind: TestType, description: string, priority: Priority) returns (id: string)
      requires Valid(Current())
      modifies this
      ensures Registered(id, Current()) == Register(old(Current()), name, kind, description, priority)
      ensures Valid(Current()) && id == TestId(|old(cases)| + 1)
    {
      RegisterIds(Current(), name, kind, description, priority);
      RegisterValid(Current(), name, kind, description, priority);
      counter := counter + 1;
      id := TestId(counter);
      cases := cases + [TestCase(id, name, kind, description, priority)];
    }

    method RegisterMockService(name: string, service: nat)
      requires Valid(Current())
      modifies this
      ensures Current() == RegisterMock(old(Current()), name, service) && Valid(Current())
    {
      mocks := mocks[name := service];
    }

    method GenerateReport(now: int) returns (report: TestReport)
      requires Valid(Current())
      ensures report == Report(Current(), now)
    {
      report := Report(Current(), now);
    }

    method IsRunning() returns (r: bool)
      ensures r == running
    {
      r := running;
    }

    /** The first part of `runTests`, up to the first case. */
    method BeginRun(list: seq<TestCase>, session_: string)
      requires Valid(Current()) && !running
      modifies this
      ensures Current() == Begin(old(Current()), list, session_) && Valid(Current())
    {
      BeginValid(Current(), list, session_);
      running := true;
      session := session_;
      results, order := map[], [];
      events := events + [MocksStarted(mocks.Keys)];
      pending := RunOrder(list);
    }

    /** `runTestCase` up to the call of the test. */
    method StartNextCase(at: int)
      requires Valid(Current()) && running && pending != [] && inFlight.None?
      modifies this
      ensures Current() == StartCase(old(Current()), at) && Valid(Current())
    {
      StartValid(Current(), at);
      var p := Placeholder(pending[0], at);
      if p.testId !in results {
        order := order + [p.testId];
      }
      results := results[p.testId := p];
      pending := pending[1..];
      inFlight := Some(p);
    }

    /** `runTestCase` after the test returned or threw. */
    method FinishCurrentCase(e: Execution)
      requires Valid(Current()) && inFlight.Some?
      modifies this
      ensures Current() == FinishCase(old(Current()), e) && Valid(Current())
    {
      FinishValid(Current(), e);
      var r := Completed(inFlight.value, e);
      results := results[r.testId := r];
      inFlight := None;
    }

    /** The last part of `runTests`, after the last case. */
    method EndRun()
      requires Valid(Current()) && running && pending == [] && inFlight.None?
      modifies this
      ensures Current() == End(old(Current())) && Valid(Current())
    {
      EndValid(Current());
      events := events + [MocksStopped(mocks.Keys)];
      running := false;
    }

    /** `runTests(list)`, uninterrupted; `execOf(i)` is the `i`-th case's
        execution and `now` the clock when the report is made. */
    method RunTests(list: seq<TestCase>, session_: string, execOf: nat -> Execution, now: int) returns (report: TestReport)
      requires Valid(Current())
      modifies this
      ensures Current() == Run(old(Current()), list, session_, execOf) && Valid(Current())
      ensures report == Report(Current(), now)
    {
      if running {
        report := GenerateReport(now);
        return;
      }
      ghost var target := Run(Current(), list, session_, execOf);
      BeginRun(list, session_);
      var i := 0;
      while pending != []
        invariant Valid(Current()) && running && inFlight.None?
        invariant End(Drain(Current(), execOf, i)) == target
        decreases |pending|
      {
        StartNextCase(execOf(i).created);
        FinishCurrentCase(execOf(i));
        i := i + 1;
      }
      EndRun();
      report := GenerateReport(now);
    }

    method RunAllTests(session_: string, execOf: nat -> Execution, now: int) returns (report: TestReport)
      requires Valid(Current())
      modifies this
      ensures Current() == Run(old(Current()), old(cases), session_, execOf) && Valid(Current())
      ensures report == Report(Current(), now)
    {
      report := RunTests(cases, session_, execOf, now);
    }

    method RunTestsByType(t: TestType, session_: string, execOf: nat -> Execution, now: int) returns (report: TestReport)
      requires Valid(Current())
      modifies this
      ensures Current() == Run(old(Current()), Filter(old(cases), OfType(t)), session_, execOf)
      ensures Valid(Current()) && report == Report(Current(), now)
    {
      report := RunTests(Filter(cases, OfType(t)), session_, execOf, now);
    }

    method RunTestsByPriority(p: Priority, session_: string, execOf: nat -> Execution, now: int) returns (report: TestReport)
      requires Valid(Current())
      modifies this
      ensures Current() == Run(old(Current()), Filter(old(cases), AtLeast(p)), session_, execOf)
      ensures Valid(Current()) && report == Report(Current(), now)
    {
      report := RunTests(Filter(cases, AtLeast(p)), session_, execOf, now);
    }

    method Reset(session_: string)
      requires Valid(Current())
      modifies this
      ensures Current() == Cleared(old(Current()), session_) && Valid(Current())
    {
      if running {
        return;
      }
      cases, results, order, mocks := [], map[], [], map[];
      counter := 0;
      session := session_;
    }
  }
}
