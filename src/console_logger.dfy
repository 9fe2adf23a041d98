/** The backend console logger (`backend/src/utils/logger.js`): numeric level
    gating, message formatting, child loggers and `setLevel`. The clock, the
    environment and `JSON.stringify` are inputs; console calls are recorded. */
module ConsoleLogger {
  import opened Wrappers
  import opened Text

  // LOG_LEVELS
  const ERROR := 0
  const WARN := 1
  const INFO := 2
  const DEBUG := 3

  const RESET := "\U{1b}[0m"

  /** `Object.keys(LOG_LEVELS).find(key => LOG_LEVELS[key] === level)`. */
  function LevelName(level: int): (name: Option<string>)
    ensures name.Some? <==> ERROR <= level <= DEBUG
  {
    if level == ERROR then Some("ERROR")
    else if level == WARN then Some("WARN")
    else if level == INFO then Some("INFO")
    else if level == DEBUG then Some("DEBUG")
    else None
  }

  /** `LOG_LEVELS[name]`, for an already upper-cased name. */
  function LevelOfName(name: string): (level: Option<int>)
    ensures level.Some? ==> LevelName(level.value) == Some(name)
    ensures (exists l :: LevelName(l) == Some(name)) ==> level.Some?
  {
    if name == "ERROR" then Some(ERROR)
    else if name == "WARN" then Some(WARN)
    else if name == "INFO" then Some(INFO)
    else if name == "DEBUG" then Some(DEBUG)
    else None
  }

  /** `LOG_COLORS[levelStr]`, where an unknown level reads as `undefined`. */
  function Colour(name: Option<string>): string
  {
    match name
    case Some("ERROR") => "\U{1b}[31m"
    case Some("WARN") => "\U{1b}[33m"
    case Some("INFO") => "\U{1b}[36m"
    case Some("DEBUG") => "\U{1b}[90m"
    case _ => "undefined"
  }

  /** The constructor's `options.level || default`: 0 (ERROR) is falsy in
      JavaScript, so an explicit ERROR level falls back to the default. */
  function InitialLevel(optionLevel: Option<int>, production: bool): (level: int)
    ensures optionLevel.Some? && optionLevel.value != 0 ==> level == optionLevel.value
    ensures optionLevel.None? || optionLevel == Some(ERROR) ==> level == (if production then INFO else DEBUG)
  {
    if optionLevel.Some? && optionLevel.value != 0 then optionLevel.value
    else if production then INFO else DEBUG
  }

  /** No constructor options can produce a logger at level ERROR. */
  lemma NoConstructedErrorLevel(optionLevel: Option<int>, production: bool)
    ensures InitialLevel(optionLevel, production) != ERROR
  {
  }

  /** The argument of `setLevel`: a level name or a number. */
  datatype LevelArg = LevelString(name: string) | LevelNumber(n: int)

  /** `setLevel`: a name maps through `LOG_LEVELS[upper] || INFO`, so both
      "error" and unknown names give INFO; a number is stored as given. */
  function LevelAfterSet(arg: LevelArg): (level: int)
    ensures arg.LevelNumber? ==> level == arg.n
    ensures arg.LevelString? ==> WARN <= level <= DEBUG
    ensures arg.LevelString? && LevelOfName(ToUpper(arg.name)).None? ==> level == INFO
    ensures arg.LevelString? && LevelOfName(ToUpper(arg.name)) == Some(ERROR) ==> level == INFO
  {
    match arg
    case LevelNumber(n) => n
    case LevelString(name) =>
      var l := LevelOfName(ToUpper(name));
      if l.Some? && l.value != 0 then l.value else INFO
  }

  /** The metadata argument: how many own keys it has, its
      `JSON.stringify(meta, null, 2)` text, and `meta.error.stack` when truthy. */
  datatype Meta = Meta(keyCount: nat, json: string, errorStack: Option<string>)

  const NoMeta := Meta(0, "{}", None)

  /** One console call. */
  datatype ConsoleCall = ConsoleError(text: string) | ConsoleWarn(text: string) | ConsoleLog(text: string)

  /** `parts.join(' ')`. */
  function JoinSpaces(parts: seq<string>): string
  {
    if parts == [] then "" else if |parts| == 1 then parts[0] else parts[0] + " " + JoinSpaces(parts[1..])
  }

  /** The `parts` array `formatMessage` builds. */
  function Parts(enableTimestamp: bool, enableColors: bool, prefix: string, level: int,
                 message: string, meta: Meta, timestamp: string): (parts: seq<string>)
    ensures |parts| == (if enableTimestamp then 1 else 0) + 2 + (if prefix != "" then 1 else 0) + (if meta.keyCount > 0 then 1 else 0)
    ensures enableTimestamp ==> parts[0] == "[" + timestamp + "]"
    ensures meta.keyCount == 0 ==> parts[|parts| - 1] == message
    ensures meta.keyCount > 0 ==> parts[|parts| - 2] == message && parts[|parts| - 1] == meta.json
    ensures prefix != "" ==> parts[|parts| - (if meta.keyCount > 0 then 3 else 2)] == "[" + prefix + "]"
  {
    var levelStr := LevelName(level).GetOr("undefined");
    var levelPart := if enableColors then Colour(LevelName(level)) + "[" + levelStr + "]" + RESET
                     else "[" + levelStr + "]";
    (if enableTimestamp then ["[" + timestamp + "]"] else [])
    + [levelPart]
    + (if prefix != "" then ["[" + prefix + "]"] else [])
    + [message]
    + (if meta.keyCount > 0 then [meta.json] else [])
  }

  /** Without timestamp, colours, prefix or metadata, a record is just `[LEVEL] message`. */
  lemma PlainFormat(level: int, message: string)
    requires ERROR <= level <= DEBUG
    ensures JoinSpaces(Parts(false, false, "", level, message, NoMeta, "")) == "[" + LevelName(level).value + "] " + message
  {
    var parts := Parts(false, false, "", level, message, NoMeta, "");
    assert parts == ["[" + LevelName(level).value + "]", message];
    assert JoinSpaces(parts[1..]) == message;
  }

  /** The prefix a child logger gets: `parent:p`, or `p` when the parent has none. */
  function ChildPrefix(parentPrefix: string, p: string): (r: string)
    ensures parentPrefix == "" ==> r == p
    ensures parentPrefix != "" ==> IsPrefix(parentPrefix + ":", r) && r[|parentPrefix| + 1..] == p
  {
    if parentPrefix != "" then parentPrefix + ":" + p else p
  }

  /** Prefixes of nested children accumulate left to right. */
  lemma ChildPrefixNested(root: string, a: string, b: string)
    requires root != "" && a != ""
    ensures ChildPrefix(ChildPrefix(root, a), b) == root + ":" + a + ":" + b
  {
  }

  class Logger {
    var level: int
    var enableColors: bool
    var enableTimestamp: bool
    var prefix: string
    /** Every console call made so far. */
    var console: seq<ConsoleCall>

    /** `new Logger(options)`: `production` is `NODE_ENV === 'production'`. */
    constructor (optionLevel: Option<int>, optionColors: Option<bool>, optionTimestamp: Option<bool>,
                 optionPrefix: Option<string>, production: bool)
      ensures level == InitialLevel(optionLevel, production)
      ensures enableColors == (optionColors != Some(false))
      ensures enableTimestamp == (optionTimestamp != Some(false))
      ensures prefix == optionPrefix.GetOr("")
      ensures console == []
    {
      level := InitialLevel(optionLevel, production);
      enableColors := optionColors != Some(false);
      enableTimestamp := optionTimestamp != Some(false);
      prefix := optionPrefix.GetOr("");
      console := [];
    }

    /** `formatMessage(level, message, meta)` at the given clock reading. */
    function FormatMessage(at: int, message: string, meta: Meta, timestamp: string): string
      reads this
    {
      JoinSpaces(Parts(enableTimestamp, enableColors, prefix, at, message, meta, timestamp))
    }

    /** The console calls `error`/`warn`/`info`/`debug` make at level `at`:
        none unless the logger's level is at least `at`; `error` also prints
        the error's stack when there is one. */
    function Calls(at: int, message: string, meta: Meta, timestamp: string): (calls: seq<ConsoleCall>)
      reads this
      requires ERROR <= at <= DEBUG
      ensures calls == [] <==> level < at
      ensures level >= at && at == ERROR ==>
        calls[0] == ConsoleError(FormatMessage(at, message, meta, timestamp))
        && |calls| == (if meta.errorStack.Some? && meta.errorStack.value != "" then 2 else 1)
      ensures level >= at && at == ERROR && meta.errorStack.Some? && meta.errorStack.value != "" ==>
        calls[1] == ConsoleError(meta.errorStack.value)
      ensures level >= at && at != ERROR ==> |calls| == 1 && calls[0].text == FormatMessage(at, message, meta, timestamp)
      ensures at == WARN ==> forall c :: c in calls ==> c.ConsoleWarn?
      ensures at >= INFO ==> forall c :: c in calls ==> c.ConsoleLog?
    {
      if level < at then []
      else
        var text := FormatMessage(at, message, meta, timestamp);
        if at == ERROR then
          [ConsoleError(text)] + (if meta.errorStack.Some? && meta.errorStack.value != "" then [ConsoleError(meta.errorStack.value)] else [])
        else if at == WARN then [ConsoleWarn(text)]
        else [ConsoleLog(text)]
    }

    /** `error` / `warn` / `info` / `debug`, selected by `at`. */
    method Log(at: int, message: string, meta: Meta, timestamp: string)
      requires ERROR <= at <= DEBUG
      modifies this`console
      ensures console == old(console) + old(Calls(at, message, meta, timestamp))
    {
      console := console + Calls(at, message, meta, timestamp);
    }

    /** `setLevel(level)`. */
    method SetLevel(arg: LevelArg)
      modifies this`level
      ensures level == LevelAfterSet(arg)
    {
      match arg {
        case LevelNumber(n) => level := n;
        case LevelString(name) =>
          var l := LevelOfName(ToUpper(name));
          level := if l.Some? && l.value != 0 then l.value else INFO;
      }
    }

    /** `child(p)`: a new logger with this one's settings passed as options
        (so a level of ERROR is again replaced by the default) and the
        combined prefix (an empty result again means no prefix). */
    method Child(p: string, production: bool) returns (c: Logger)
      ensures fresh(c)
      ensures c.level == InitialLevel(Some(level), production)
      ensures c.enableColors == enableColors && c.enableTimestamp == enableTimestamp
      ensures c.prefix == ChildPrefix(prefix, p)
      ensures c.console == []
    {
      c := new Logger(Some(level), Some(enableColors), Some(enableTimestamp), Some(ChildPrefix(prefix, p)), production);
    }
  }
}
