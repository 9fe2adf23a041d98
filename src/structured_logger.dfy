/** The structured logger (`backend/src/utils/logger.ts`): every entry goes to
    a bounded in-memory buffer (the configured level is never consulted),
    plus filter/slice queries and statistics. Files, timers, console and
    events are left to the platform. */
module StructuredLogger {
  import opened Wrappers
  import opened Seqs

  datatype LogLevel = DEBUG | INFO | WARN | ERROR

  /** The `context` argument: an `Error` (with its stack) or any other value. */
  datatype Context = ErrorContext(stack: string) | PlainContext(text: string)

  datatype LogEntry = LogEntry(timestamp: int, level: LogLevel, component: string,
                               message: string, context: Option<Context>, stack: Option<string>)

  /** `maxLogsInMemory` */
  const MAX_LOGS_IN_MEMORY: nat := 10000

  /** The entry `log` builds: the stack is copied only for an ERROR whose
      context is an `Error`. */
  function MakeEntry(now: int, level: LogLevel, component: string, message: string, context: Option<Context>): (e: LogEntry)
    ensures e.timestamp == now && e.level == level && e.component == component
    ensures e.message == message && e.context == context
    ensures e.stack.Some? <==> level == ERROR && context.Some? && context.value.ErrorContext?
    ensures e.stack.Some? ==> e.stack.value == context.value.stack
  {
    var stack := if level == ERROR && context.Some? && context.value.ErrorContext? then Some(context.value.stack) else None;
    LogEntry(now, level, component, message, context, stack)
  }

  /** `getStats()` */
  datatype Stats = Stats(logsInMemory: nat, maxLogsInMemory: nat, logDir: string, logFiles: nat)

  class Logger {
    var logs: seq<LogEntry>
    /** `config.logLevel`: stored, never read by `log`. */
    var logLevel: LogLevel
    var logDir: string

    ghost predicate Valid()
      reads this
    {
      |logs| <= MAX_LOGS_IN_MEMORY
    }

    /** `new Logger(config)`; directory creation and timers are left out. */
    constructor (configLogLevel: Option<LogLevel>, configLogDir: Option<string>)
      ensures Valid() && logs == []
      ensures logLevel == configLogLevel.GetOr(INFO)
      ensures logDir == (if configLogDir == Some("") then "./logs" else configLogDir.GetOr("./logs"))
    {
      logs := [];
      logLevel := configLogLevel.GetOr(INFO);
      logDir := if configLogDir == Some("") then "./logs" else configLogDir.GetOr("./logs");
    }

    /** `log(level, component, message, context)` at clock reading `now`
        (also `debug`/`info`/`warn`/`error`): stored whatever `logLevel` is,
        dropping the oldest entry once the buffer is over its bound. */
    method Log(now: int, level: LogLevel, component: string, message: string, context: Option<Context>)
      requires Valid()
      modifies this`logs
      ensures Valid()
      ensures logs == PushBounded(old(logs), MakeEntry(now, level, component, message, context), MAX_LOGS_IN_MEMORY)
    {
      var entry := MakeEntry(now, level, component, message, context);
      logs := logs + [entry];
      if |logs| > MAX_LOGS_IN_MEMORY {
        logs := logs[1..];
      }
    }

    /** `getLogs(limit)`: a copy of everything, or `logs.slice(-limit)`. */
    function GetLogs(limit: Option<int>): (r: seq<LogEntry>)
      reads this
      ensures limit.None? ==> r == logs
      ensures limit.Some? && limit.value > 0 ==> r == LastN(logs, limit.value)
      ensures limit == Some(0) ==> r == logs
      ensures limit.Some? && limit.value < 0 ==> r == logs[Min(-limit.value, |logs|)..]
    {
      if limit.None? then logs else
        SliceFromEnd(logs, limit.value);
        JsSliceFrom(logs, -limit.value)
    }

    /** `getLogsByLevel(level, limit)`: exact level match, then the last `limit`. */
    function GetLogsByLevel(level: LogLevel, limit: Option<int>): (r: seq<LogEntry>)
      reads this
      ensures forall i :: 0 <= i < |r| ==> r[i].level == level && r[i] in logs
      ensures limit.None? ==> forall i :: 0 <= i < |logs| && logs[i].level == level ==> logs[i] in r
      ensures limit.Some? && limit.value > 0 ==> r == LastN(Filter(logs, (e: LogEntry) => e.level == level), limit.value)
      ensures limit == Some(0) ==> r == Filter(logs, (e: LogEntry) => e.level == level)
      ensures limit.Some? && limit.value < 0 ==>
                var filtered := Filter(logs, (e: LogEntry) => e.level == level);
                r == filtered[Min(-limit.value, |filtered|)..]
    {
      var filtered := Filter(logs, (e: LogEntry) => e.level == level);
      if limit.None? then filtered else
        SliceFromEnd(filtered, limit.value);
        JsSliceFrom(filtered, -limit.value)
    }

    /** `getLogsByComponent(component, limit)`. */
    function GetLogsByComponent(component: string, limit: Option<int>): (r: seq<LogEntry>)
      reads this
      ensures forall i :: 0 <= i < |r| ==> r[i].component == component && r[i] in logs
      ensures limit.None? ==> forall i :: 0 <= i < |logs| && logs[i].component == component ==> logs[i] in r
      ensures limit.Some? && limit.value > 0 ==> r == LastN(Filter(logs, (e: LogEntry) => e.component == component), limit.value)
      ensures limit == Some(0) ==> r == Filter(logs, (e: LogEntry) => e.component == component)
      ensures limit.Some? && limit.value < 0 ==>
                var filtered := Filter(logs, (e: LogEntry) => e.component == component);
                r == filtered[Min(-limit.value, |filtered|)..]
    {
      var filtered := Filter(logs, (e: LogEntry) => e.component == component);
      if limit.None? then filtered else
        SliceFromEnd(filtered, limit.value);
        JsSliceFrom(filtered, -limit.value)
    }

    /** `getLogsInRange(start, end)`: inclusive at both ends. */
    function GetLogsInRange(startTime: int, endTime: int): (r: seq<LogEntry>)
      reads this
      ensures forall i :: 0 <= i < |r| ==> startTime <= r[i].timestamp <= endTime && r[i] in logs
      ensures forall i :: 0 <= i < |logs| && startTime <= logs[i].timestamp <= endTime ==> logs[i] in r
    {
      Filter(logs, (e: LogEntry) => e.timestamp >= startTime && e.timestamp <= endTime)
    }

    /** `clearMemoryLogs()` (also the in-memory part of `destroy()`). */
    method ClearMemoryLogs()
      modifies this`logs
      ensures logs == []
    {
      logs := [];
    }

    /** `getStats()`; the number of log files on disk is an input. */
    function GetStats(logFilesOnDisk: nat): (s: Stats)
      reads this
      ensures s.logsInMemory == |logs| && s.maxLogsInMemory == MAX_LOGS_IN_MEMORY
      ensures s.logDir == logDir && s.logFiles == logFilesOnDisk
    {
      Stats(|logs|, MAX_LOGS_IN_MEMORY, logDir, logFilesOnDisk)
    }
  }

  /** The buffer after a run of `log` calls from an empty logger holds the
      newest 10000 entries, in call order. */
  lemma {:induction false} BufferKeepsNewest(entries: seq<LogEntry>)
    ensures PushAll([], entries, MAX_LOGS_IN_MEMORY) == LastN(entries, MAX_LOGS_IN_MEMORY)
  {
    PushAllKeepsNewest([], entries, MAX_LOGS_IN_MEMORY);
    assert [] + entries == entries;
  }
}
