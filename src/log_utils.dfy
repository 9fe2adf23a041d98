/** The Android logging facade `LogUtils`: categories and their prefixes, the
    one-time choice between a debug tree and a release tree, the debug tree's
    tag and thread enrichment, the release tree's ERROR filter, report and
    4000-character chunker. Platform sinks are recorded as `Output` values. */
module LogUtils {
  import opened Wrappers
  import opened Text

  // android.util.Log priorities
  const VERBOSE := 2
  const DEBUG := 3
  const INFO := 4
  const WARN := 5
  const ERROR := 6
  const ASSERT := 7

  /** ReleaseTree.MAX_LOG_LENGTH */
  const MAX_LOG_LENGTH := 4000

  datatype LogCategory = NETWORK | DATABASE | UI | BUSINESS | SECURITY | PERFORMANCE | DEFAULT {
    function Name(): (n: string)
      ensures |n| > 0 && ']' !in n
    {
      match this
      case NETWORK => "NETWORK"
      case DATABASE => "DATABASE"
      case UI => "UI"
      case BUSINESS => "BUSINESS"
      case SECURITY => "SECURITY"
      case PERFORMANCE => "PERFORMANCE"
      case DEFAULT => "DEFAULT"
    }

    /** The fixed display prefix of the category. */
    function Prefix(): (p: string)
      ensures p == "[" + Name() + "] "
    {
      match this
      case NETWORK => "[NETWORK] "
      case DATABASE => "[DATABASE] "
      case UI => "[UI] "
      case BUSINESS => "[BUSINESS] "
      case SECURITY => "[SECURITY] "
      case PERFORMANCE => "[PERFORMANCE] "
      case DEFAULT => "[DEFAULT] "
    }
  }

  /** The cause attached to a record, by its description. */
  datatype Cause = Cause(description: string)

  /** One call into a sink: the platform log (through Timber's debug tree)
      or the release tree's error report. */
  datatype Output =
    | PlatformLog(priority: int, fullTag: string, message: string, cause: Option<Cause>)
    | ErrorReport(tag: Option<string>, message: string, cause: Option<Cause>)

  datatype Tree = DebugTree | ReleaseTree

  /** A stack frame as `createStackElementTag` sees it. */
  datatype StackFrame = StackFrame(className: string, methodName: string, lineNumber: int)

  /** What the platform supplies to one call: the current thread's name and
      the call stack, each frame already rendered by Timber's default
      `createStackElementTag` (the one `createFullTag` calls through `super`). */
  datatype CallSite = CallSite(threadName: string, frameTags: seq<string>)

  // ---------------------------------------------------------------- categories

  /** `addCategoryPrefix`: a null category leaves the message alone. */
  function AddCategoryPrefix(category: Option<LogCategory>, message: string): (r: string)
    ensures category.None? ==> r == message
    ensures category.Some? ==> IsPrefix(category.value.Prefix(), r) && r[|category.value.Prefix()|..] == message
  {
    if category.None? then message else category.value.Prefix() + message
  }

  /** Prefixed messages are unambiguous: the category and the message can be
      read back from the result. */
  lemma CategoryPrefixInjective(c1: LogCategory, m1: string, c2: LogCategory, m2: string)
    requires AddCategoryPrefix(Some(c1), m1) == AddCategoryPrefix(Some(c2), m2)
    ensures c1 == c2 && m1 == m2
  {
    BracketedNameInjective(c1.Name(), m1, c2.Name(), m2);
  }

  /** A `[name] ` prefix whose name holds no `]` can be split off uniquely. */
  lemma BracketedNameInjective(n1: string, m1: string, n2: string, m2: string)
    requires ']' !in n1 && ']' !in n2
    requires "[" + n1 + "] " + m1 == "[" + n2 + "] " + m2
    ensures n1 == n2 && m1 == m2
  {
    var r := "[" + n1 + "] " + m1;
    assert r[1..] == n1 + ("] " + m1) == n2 + ("] " + m2);
    IndexOfFirst(n1, "] " + m1, ']');
    IndexOfFirst(n2, "] " + m2, ']');
    assert n1 == r[1..1 + |n1|] == n2;
    assert m1 == r[|n1| + 3..] == m2;
  }

  // ---------------------------------------------------------------- mode

  /** `isDebugBuild`: the value of `BuildConfig.DEBUG`, read by reflection;
      `None` stands for a lookup that threw, which counts as a debug build. */
  function IsDebugBuild(buildConfigDebug: Option<bool>): (debug: bool)
    ensures buildConfigDebug.None? ==> debug
    ensures buildConfigDebug == Some(false) ==> !debug
  {
    buildConfigDebug.GetOr(true)
  }

  /** The tree `init` plants for a build-configuration lookup outcome. */
  function TreeFor(buildConfigDebug: Option<bool>): (t: Tree)
    ensures t == ReleaseTree <==> buildConfigDebug == Some(false)
  {
    if IsDebugBuild(buildConfigDebug) then DebugTree else ReleaseTree
  }

  /** The process-wide facade state: `isInitialized` and the trees planted in Timber. */
  datatype FacadeState = FacadeState(isInitialized: bool, planted: seq<Tree>)

  /** One call of `init`. */
  function InitStep(s: FacadeState, buildConfigDebug: Option<bool>): FacadeState
  {
    if s.isInitialized then s else FacadeState(true, s.planted + [TreeFor(buildConfigDebug)])
  }

  /** `init` called any number of times (each seeing its own lookup outcome). */
  function InitCalls(s: FacadeState, lookups: seq<Option<bool>>): FacadeState
    decreases |lookups|
  {
    if lookups == [] then s else InitCalls(InitStep(s, lookups[0]), lookups[1..])
  }

  /** From a fresh process, one or more calls of `init` plant exactly one
      tree, chosen by the first call, and leave the facade initialised. */
  lemma {:induction false} InitPlantsOnce(lookups: seq<Option<bool>>)
    requires |lookups| >= 1
    ensures InitCalls(FacadeState(false, []), lookups) == FacadeState(true, [TreeFor(lookups[0])])
  {
    assert InitStep(FacadeState(false, []), lookups[0]) == FacadeState(true, [TreeFor(lookups[0])]);
    InitCallsInitialised(FacadeState(true, [TreeFor(lookups[0])]), lookups[1..]);
  }

  /** Once initialised, later calls of `init` change nothing. */
  lemma {:induction false} InitCallsInitialised(s: FacadeState, lookups: seq<Option<bool>>)
    requires s.isInitialized
    ensures InitCalls(s, lookups) == s
    decreases |lookups|
  {
    if lookups != [] {
      InitCallsInitialised(s, lookups[1..]);
    }
  }

  /** The static fields of `LogUtils` together with the trees Timber holds. */
  class Facade {
    var isInitialized: bool
    var planted: seq<Tree>

    ghost predicate Valid()
      reads this
    {
      if isInitialized then |planted| == 1 else planted == []
    }

    constructor ()
      ensures Valid() && !isInitialized && planted == []
    {
      isInitialized := false;
      planted := [];
    }

    /** `init`: plants a tree on the first call only. */
    method Init(buildConfigDebug: Option<bool>)
      requires Valid()
      modifies this
      ensures Valid() && isInitialized
      ensures FacadeState(isInitialized, planted)
           == InitStep(FacadeState(old(isInitialized), old(planted)), buildConfigDebug)
    {
      if !isInitialized {
        if IsDebugBuild(buildConfigDebug) {
          planted := planted + [DebugTree];
        } else {
          planted := planted + [ReleaseTree];
        }
        isInitialized := true;
      }
    }
  }

  // ---------------------------------------------------------------- debug tree

  /** DebugTree.createStackElementTag: `[Class.method():line]`. */
  function CreateStackElementTag(frame: StackFrame): (tag: string)
    ensures IsPrefix("[" + frame.className + "." + frame.methodName + "():", tag)
    ensures tag[|tag| - 1] == ']'
  {
    "[" + frame.className + "." + frame.methodName + "():" + IntToString(frame.lineNumber) + "]"
  }

  /** DebugTree.createFullTag. */
  function CreateFullTag(tag: Option<string>, frameTags: seq<string>): (r: string)
    ensures tag.Some? ==> r == tag.value
    ensures tag.None? && |frameTags| > 6 ==> r == frameTags[6]
    ensures tag.None? && 0 < |frameTags| <= 6 ==> r == frameTags[|frameTags| - 1]
    ensures tag.None? && frameTags == [] ==> r == "LogUtils"
  {
    if tag.None? then
      if |frameTags| > 6 then frameTags[6]
      else if |frameTags| > 0 then frameTags[|frameTags| - 1]
      else "LogUtils"
    else tag.value
  }

  /** DebugTree.formatMessage: the thread name in front of the message. */
  function FormatMessage(threadName: string, message: string): (r: string)
    ensures IsPrefix("[Thread: " + threadName + "] ", r)
    ensures r[|threadName| + 11..] == message
  {
    "[Thread: " + threadName + "] " + message
  }

  /** DebugTree.log: every record goes to the platform log, tagged and enriched. */
  function DebugLog(priority: int, tag: Option<string>, message: string, cause: Option<Cause>, site: CallSite): (out: seq<Output>)
    ensures |out| == 1 && out[0].PlatformLog?
    ensures out[0].priority == priority && out[0].cause == cause
  {
    [PlatformLog(priority, CreateFullTag(tag, site.frameTags), FormatMessage(site.threadName, message), cause)]
  }

  // ---------------------------------------------------------------- release tree

  /** ReleaseTree.isLoggable: ERROR and ASSERT only. */
  predicate IsLoggable(priority: int) { priority >= ERROR }

  /** ReleaseTree.log: below ERROR nothing happens; otherwise exactly one
      error report and no console output (`logChunk` is disabled). */
  function ReleaseLog(priority: int, tag: Option<string>, message: string, cause: Option<Cause>): (out: seq<Output>)
    ensures priority < ERROR ==> out == []
    ensures priority >= ERROR ==> out == [ErrorReport(tag, message, cause)]
  {
    if !IsLoggable(priority) then []
    else if priority >= ERROR then [ErrorReport(tag, message, cause)]
    else []
  }

  /** Concatenation of a sequence of strings. */
  function Concat(parts: seq<string>): string
  {
    if parts == [] then "" else Concat(parts[..|parts| - 1]) + parts[|parts| - 1]
  }

  /** ReleaseTree.logChunk: the pieces handed to `Log.println`, in order. */
  method LogChunk(msg: string) returns (printed: seq<string>)
    ensures |msg| <= MAX_LOG_LENGTH ==> printed == [msg]
    ensures |msg| > MAX_LOG_LENGTH ==> |printed| == (|msg| + MAX_LOG_LENGTH - 1) / MAX_LOG_LENGTH
    ensures forall k :: 0 <= k < |printed| ==> 0 < |printed[k]| <= MAX_LOG_LENGTH || msg == []
    ensures forall k :: 0 <= k < |printed| - 1 ==> |printed[k]| == MAX_LOG_LENGTH
    ensures Concat(printed) == msg
  {
    if |msg| <= MAX_LOG_LENGTH {
      printed := [msg];
      assert Concat(printed) == Concat([]) + msg;
      return;
    }
    printed := [];
    var i := 0;
    while i < |msg|
      invariant i == MAX_LOG_LENGTH * |printed|
      invariant i <= |msg| || (printed != [] && i - MAX_LOG_LENGTH < |msg|)
      invariant i >= |msg| ==> Concat(printed) == msg
      invariant i < |msg| ==> Concat(printed) == msg[..i]
      invariant forall k :: 0 <= k < |printed| ==> 0 < |printed[k]| <= MAX_LOG_LENGTH
      invariant forall k :: 0 <= k < |printed| - 1 ==> |printed[k]| == MAX_LOG_LENGTH
      invariant printed != [] && i < |msg| ==> |printed[|printed| - 1]| == MAX_LOG_LENGTH
      decreases |msg| - i
    {
      var end := if |msg| < i + MAX_LOG_LENGTH then |msg| else i + MAX_LOG_LENGTH;
      var piece := msg[i..end];
      assert Concat(printed + [piece]) == Concat(printed) + piece by {
        assert (printed + [piece])[..|printed|] == printed;
      }
      assert msg[..i] + msg[i..end] == msg[..end];
      printed := printed + [piece];
      i := i + MAX_LOG_LENGTH;
    }
  }

  // ---------------------------------------------------------------- facade

  /** A record after the facade has built it: priority, explicit tag (set
      with `tag(...)`), the category-prefixed message and the cause. */
  datatype Record = Record(priority: int, tag: Option<string>, message: string, cause: Option<Cause>)

  /** The per-level methods `v`/`d`/`i`/`w`/`e`/`wtf`, category variants included. */
  function MakeRecord(priority: int, category: Option<LogCategory>, tag: Option<string>, message: string, cause: Option<Cause>): Record
  {
    Record(priority, tag, AddCategoryPrefix(category, message), cause)
  }

  /** What one planted tree does with a record. */
  function TreeLog(t: Tree, r: Record, site: CallSite): seq<Output>
  {
    match t
    case DebugTree => DebugLog(r.priority, r.tag, r.message, r.cause, site)
    case ReleaseTree => ReleaseLog(r.priority, r.tag, r.message, r.cause)
  }

  /** Timber hands the record to every planted tree, in planting order. */
  function Dispatch(planted: seq<Tree>, r: Record, site: CallSite): seq<Output>
  {
    if planted == [] then [] else TreeLog(planted[0], r, site) + Dispatch(planted[1..], r, site)
  }

  /** Under the debug tree, the message is the thread prefix, then the
      category prefix, then the caller's message. */
  lemma DebugDispatchShape(priority: int, category: LogCategory, message: string, site: CallSite)
    ensures Dispatch([DebugTree], MakeRecord(priority, Some(category), None, message, None), site)
         == [PlatformLog(priority, CreateFullTag(None, site.frameTags),
                         "[Thread: " + site.threadName + "] " + category.Prefix() + message, None)]
  {
    assert Dispatch([DebugTree], MakeRecord(priority, Some(category), None, message, None), site)
        == TreeLog(DebugTree, MakeRecord(priority, Some(category), None, message, None), site) + [];
    assert FormatMessage(site.threadName, category.Prefix() + message)
        == "[Thread: " + site.threadName + "] " + category.Prefix() + message;
  }

  /** Under the release tree, a record below ERROR has no effect at all, and
      one at ERROR or above triggers exactly one report and no console line. */
  lemma {:induction false} ReleaseDispatch(r: Record, site: CallSite)
    ensures r.priority < ERROR ==> Dispatch([ReleaseTree], r, site) == []
    ensures r.priority >= ERROR ==> Dispatch([ReleaseTree], r, site) == [ErrorReport(r.tag, r.message, r.cause)]
  {
    assert Dispatch([ReleaseTree], r, site) == TreeLog(ReleaseTree, r, site) + Dispatch([], r, site);
  }

  /** Java's `trim().isEmpty()`: every character is at most U+0020. */
  predicate JavaBlank(s: string) { forall i :: 0 <= i < |s| ==> s[i] <= ' ' }

  /** `json(payload)` and `json(category, payload)`: a debug record holding the
      payload, or the fixed text when the payload is null or blank. */
  function JsonRecord(category: Option<LogCategory>, payload: Option<string>): (r: Record)
    ensures r.priority == DEBUG && r.tag.None? && r.cause.None?
    ensures (payload.None? || JavaBlank(payload.value)) ==> r.message == AddCategoryPrefix(category, "JSON is null or empty")
    ensures payload.Some? && !JavaBlank(payload.value) ==> r.message == AddCategoryPrefix(category, payload.value)
  {
    if payload.None? || JavaBlank(payload.value) then MakeRecord(DEBUG, category, None, "JSON is null or empty", None)
    else MakeRecord(DEBUG, category, None, payload.value, None)
  }
}
