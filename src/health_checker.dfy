/** The connection health checker (`backend/src/utils/health-checker.ts`):
    per-connection timers, a failure counter that a passing check resets,
    the 'unhealthy' report once failures reach the limit, and the status
    query. The check function, its timeout race and the timers are the
    platform's: a completed check is an explicit step given its outcome. */
module HealthChecker {
  import opened Wrappers

  /** How one check ended: the check function's answer, or the message of
      what it threw (the timeout throws "Health check timeout"). */
  datatype Outcome = Answered(healthy: bool) | Threw(message: string)

  const TIMEOUT_MESSAGE := "Health check timeout"
  const FALSE_MESSAGE := "Health check returned false"

  datatype HealthEvent =
    | Passed(connectionId: string, latency: int)
    | Failed(connectionId: string, error: string)
    | Unhealthy(connectionId: string, failures: nat, maxFailures: nat)

  /** `getHealthStatus(id)` */
  datatype HealthStatus = HealthStatus(healthy: bool, failures: nat, lastCheckTime: Option<int>)

  /** The failure count after a check: 0 after a pass, one more than the
      current count (missing counts as 0) after a failure. */
  function NextFailures(current: Option<nat>, passed: bool): (n: nat)
    ensures passed <==> n == 0
  {
    if passed then 0 else current.GetOr(0) + 1
  }

  /** A run of check results, oldest first, from a count of `start`. */
  function FailuresAfter(start: nat, passes: seq<bool>): nat
    decreases |passes|
  {
    if passes == [] then start else FailuresAfter(NextFailures(Some(start), passes[0]), passes[1..])
  }

  /** The count is the number of failures since the last pass: `k`
      consecutive failures after a pass (or from the start) give `k`. */
  lemma {:induction false} FailuresCountConsecutive(start: nat, passes: seq<bool>, k: nat)
    requires k <= |passes|
    requires forall i :: |passes| - k <= i < |passes| ==> !passes[i]
    requires k < |passes| ==> passes[|passes| - k - 1]
    ensures FailuresAfter(start, passes) == if k == |passes| then start + k else k
    decreases |passes|
  {
    if passes != [] {
      var next := NextFailures(Some(start), passes[0]);
      if k == |passes| {
        FailuresCountConsecutive(next, passes[1..], k - 1);
      } else {
        FailuresCountConsecutive(next, passes[1..], k);
      }
    }
  }

  /** `x || d` for a numeric option: absent and 0 give the default. */
  function OrDefault(x: Option<nat>, d: nat): nat
  {
    if x.Some? && x.value != 0 then x.value else d
  }

  class HealthChecker {
    var interval: nat
    var timeout: nat
    var maxFailures: nat
    /** Ids with a scheduled check */
    var timers: set<string>
    var failureCount: map<string, nat>
    var isRunning: bool
    var events: seq<HealthEvent>

    ghost predicate Valid()
      reads this
    {
      maxFailures > 0
    }

    /** `new HealthChecker(checkFn, config)` */
    constructor (intervalOption: Option<nat>, timeoutOption: Option<nat>, maxFailuresOption: Option<nat>)
      ensures Valid() && timers == {} && failureCount == map[] && !isRunning && events == []
      ensures interval == OrDefault(intervalOption, 30000) && timeout == OrDefault(timeoutOption, 5000)
      ensures maxFailures == OrDefault(maxFailuresOption, 3)
    {
      interval := OrDefault(intervalOption, 30000);
      timeout := OrDefault(timeoutOption, 5000);
      maxFailures := OrDefault(maxFailuresOption, 3);
      timers, failureCount := {}, map[];
      isRunning := false;
      events := [];
    }

    /** `startCheck(id)`: a fresh timer, and a count of 0 only when there is
        no count yet. */
    method StartCheck(id: string)
      requires Valid()
      modifies this`timers, this`failureCount
      ensures Valid()
      ensures timers == old(timers) + {id}
      ensures failureCount == if id in old(failureCount) then old(failureCount) else old(failureCount)[id := 0]
    {
      StopCheck(id);
      if id !in failureCount {
        failureCount := failureCount[id := 0];
      }
      timers := timers + {id};
    }

    /** `stopCheck(id)` */
    method StopCheck(id: string)
      modifies this`timers
      ensures timers == old(timers) - {id}
    {
      timers := timers - {id};
    }

    /** `scheduleCheck(id)`: the next check of `id` is set. */
    method ScheduleCheck(id: string)
      modifies this`timers
      ensures timers == old(timers) + {id}
    {
      timers := timers + {id};
    }

    /** The result of a check of `id` (`performCheck` up to the next
        schedule): a pass resets the count; a failure increments it and
        reports the connection unhealthy once the count reaches
        `maxFailures`. */
    method RecordResult(id: string, outcome: Outcome, latency: int)
      requires Valid()
      modifies this`failureCount, this`events
      ensures Valid()
      ensures var passed := outcome == Answered(true);
        var failures := NextFailures(if id in old(failureCount) then Some(old(failureCount)[id]) else None, passed);
        failureCount == old(failureCount)[id := failures]
        && events == old(events) + CheckEvents(id, outcome, latency, failures, maxFailures)
    {
      if outcome == Answered(true) {
        failureCount := failureCount[id := 0];
        events := events + [Passed(id, latency)];
      } else {
        var message := if outcome.Threw? then outcome.message else FALSE_MESSAGE;
        HandleCheckFailure(id, message);
      }
    }

    /** A check of `id` completing (`performCheck`) with nobody listening:
        the result is recorded and the next check scheduled either way. */
    method CheckCompleted(id: string, outcome: Outcome, latency: int)
      requires Valid()
      modifies this`failureCount, this`timers, this`events
      ensures Valid()
      ensures timers == old(timers) + {id}
      ensures var passed := outcome == Answered(true);
        var failures := NextFailures(if id in old(failureCount) then Some(old(failureCount)[id]) else None, passed);
        failureCount == old(failureCount)[id := failures]
        && events == old(events) + CheckEvents(id, outcome, latency, failures, maxFailures)
    {
      RecordResult(id, outcome, latency);
      ScheduleCheck(id);
    }

    /** `handleCheckFailure(id, error)` */
    method HandleCheckFailure(id: string, error: string)
      requires Valid()
      modifies this`failureCount, this`events
      ensures Valid()
      ensures var failures := (if id in old(failureCount) then old(failureCount)[id] else 0) + 1;
        failureCount == old(failureCount)[id := failures]
        && events == old(events) + [Failed(id, error)]
                     + (if failures >= maxFailures then [Unhealthy(id, failures, maxFailures)] else [])
    {
      var failures := (if id in failureCount then failureCount[id] else 0) + 1;
      failureCount := failureCount[id := failures];
      events := events + [Failed(id, error)];
      if failures >= maxFailures {
        events := events + [Unhealthy(id, failures, maxFailures)];
      }
    }

    /** `getHealthStatus(id)`: healthy while below the limit. The source
        keeps a map of last check times that nothing ever writes, so the
        time is always absent and the map is not a field here. */
    function GetHealthStatus(id: string): (st: HealthStatus)
      reads this
      requires Valid()
      ensures st.failures == (if id in failureCount then failureCount[id] else 0)
      ensures st.healthy <==> st.failures < maxFailures
      ensures st.lastCheckTime == None
    {
      var failures := if id in failureCount then failureCount[id] else 0;
      HealthStatus(failures < maxFailures, failures, None)
    }

    /** `resetFailureCount(id)` */
    method ResetFailureCount(id: string)
      modifies this`failureCount
      ensures failureCount == old(failureCount)[id := 0]
    {
      failureCount := failureCount[id := 0];
    }

    /** `stopAll()` */
    method StopAll()
      modifies this`timers, this`isRunning
      ensures timers == {} && !isRunning
    {
      timers := {};
      isRunning := false;
    }

    /** `getMonitoredConnections()`: the ids with a timer. */
    function MonitoredConnections(): (ids: set<string>)
      reads this
      ensures ids == timers
    {
      timers
    }

    /** `destroy()` */
    method Destroy()
      requires Valid()
      modifies this`timers, this`isRunning, this`failureCount
      ensures Valid() && timers == {} && !isRunning && failureCount == map[]
    {
      StopAll();
      failureCount := map[];
    }
  }

  /** The events of one completed check. */
  function CheckEvents(id: string, outcome: Outcome, latency: int, failures: nat, maxFailures: nat): (es: seq<HealthEvent>)
    ensures outcome == Answered(true) ==> es == [Passed(id, latency)]
    ensures outcome != Answered(true) ==> |es| >= 1 && es[0].Failed?
    ensures |es| >= 1 && forall i :: 0 <= i < |es| - 1 ==> !es[i].Unhealthy?
    ensures es[|es| - 1].Unhealthy? <==> outcome != Answered(true) && failures >= maxFailures
  {
    if outcome == Answered(true) then [Passed(id, latency)]
    else
      var message := if outcome.Threw? then outcome.message else FALSE_MESSAGE;
      [Failed(id, message)] + (if failures >= maxFailures then [Unhealthy(id, failures, maxFailures)] else [])
  }
}
