/** The backend's service supervisor (`backend/src/utils/service-manager.js`):
    registered services with a status, a restart-attempt counter and an
    error log, a periodic health check that restarts a failing service
    until the attempts run out and then marks it failed, manual restarts,
    and counters. Each service's health-check and restart functions are
    foreign calls: their outcomes are parameters, one per service and
    round. The clock is a parameter, the interval timer a flag, and the
    restart delay is not modelled. Services are kept in registration
    order, as a `Map` iterates them. */
module ServiceManager {
  import opened Wrappers
  import opened Seqs
  import opened Text

  datatype Status = Running | Unhealthy | Failed | Restarting

  datatype ErrorEntry = ErrorEntry(timestamp: int, message: string)

  datatype ServiceInfo = ServiceInfo(name: string, status: Status, restartAttempts: nat, lastHealthCheck: int,
                                     lastRestart: Option<int>, errors: seq<ErrorEntry>)

  /** How a health check ended: its answer, or the message of what it threw. */
  datatype CheckOutcome = Answered(healthy: bool) | CheckThrew(message: string)

  /** How a restart function ended. */
  datatype RestartOutcome = RestartDone | RestartThrew(message: string)

  datatype Event =
    | ServiceRegistered(name: string)
    | ServiceUnregistered(name: string)
    | HealthCheckStarted
    | HealthCheckStopped
    | ServiceUnhealthy(name: string)
    | ServiceFailed(name: string)
    | ServiceRestarting(name: string, attempt: nat)
    | ServiceRestarted(name: string)
    | ServiceRestartFailed(name: string, error: string)

  datatype ManagerStats = ManagerStats(totalRestarts: nat, totalFailures: nat, uptime: int)

  /** `getServiceStatus(name)` */
  datatype StatusView = StatusView(name: string, status: Status, restartAttempts: nat, lastHealthCheck: int,
                                   lastRestart: Option<int>, recentErrors: seq<ErrorEntry>)

  /** One entry of `getAllServicesStatus()` */
  datatype Summary = Summary(name: string, status: Status, restartAttempts: nat, lastHealthCheck: int,
                             lastRestart: Option<int>, errorCount: nat)

  /** `getStats()` */
  datatype StatsReport = StatsReport(totalRestarts: nat, totalFailures: nat, uptime: int, uptimeFormatted: string,
                                     totalServices: nat, healthyServices: nat, unhealthyServices: nat,
                                     failedServices: nat)

  const MAX_ERRORS := 10
  const CHECK_FAILED_MESSAGE := "健康检查失败"
  const RESTART_FAILED_PREFIX := "重启失败: "

  /** `options.x || d`: absent and 0 give the default. */
  function OrDefault(x: Option<int>, d: int): (r: int)
    ensures x.Some? && x.value != 0 ==> r == x.value
    ensures x.None? || x.value == 0 ==> r == d
  {
    if x.Some? && x.value != 0 then x.value else d
  }

  // ---------------------------------------------------------------------------
  // One service's transitions

  /** What handling one service did: its new record, the restarts and
      failures to add to the counters, and the events emitted. */
  datatype Step = Step(info: ServiceInfo, restarts: nat, failures: nat, events: seq<Event>)

  /** The error log after a failed check: the entry pushed and, above ten
      entries, the oldest one shifted off. */
  function LoggedFailure(errors: seq<ErrorEntry>, e: ErrorEntry): (r: seq<ErrorEntry>)
    ensures |errors| < MAX_ERRORS ==> r == errors + [e]
    ensures |errors| >= MAX_ERRORS ==> r == errors[1..] + [e]
  {
    var pushed := errors + [e];
    if |pushed| > MAX_ERRORS then pushed[1..] else pushed
  }

  /** From at most ten entries, the log keeps the newest ten. */
  lemma LoggedFailureKeepsNewest(errors: seq<ErrorEntry>, e: ErrorEntry)
    requires |errors| <= MAX_ERRORS
    ensures LoggedFailure(errors, e) == LastN(errors + [e], MAX_ERRORS)
  {
    if |errors| == MAX_ERRORS {
      assert errors[1..] + [e] == (errors + [e])[1..];
    }
  }

  /** `restartService(name)` on a known service: one more attempt and one
      more restart counted; a clean restart makes it running and stamps the
      time, a throwing one logs the error and leaves it restarting. */
  function Restart(info: ServiceInfo, now: int, outcome: RestartOutcome): (r: Step)
    ensures r.info.name == info.name && r.info.lastHealthCheck == info.lastHealthCheck
    ensures r.info.restartAttempts == info.restartAttempts + 1 && r.restarts == 1 && r.failures == 0
    ensures outcome.RestartDone? ==>
      r.info.status == Running && r.info.lastRestart == Some(now) && r.info.errors == info.errors
    ensures outcome.RestartThrew? ==>
      r.info.status == Restarting && r.info.lastRestart == info.lastRestart
      && r.info.errors == info.errors + [ErrorEntry(now, RESTART_FAILED_PREFIX + outcome.message)]
    ensures |r.events| == 2 && r.events[0] == ServiceRestarting(info.name, info.restartAttempts + 1)
  {
    var attempt := info.restartAttempts + 1;
    var started := info.(restartAttempts := attempt, status := Restarting);
    var begin := [ServiceRestarting(info.name, attempt)];
    match outcome
    case RestartDone =>
      Step(started.(lastRestart := Some(now), status := Running), 1, 0, begin + [ServiceRestarted(info.name)])
    case RestartThrew(msg) =>
      Step(started.(errors := info.errors + [ErrorEntry(now, RESTART_FAILED_PREFIX + msg)]), 1, 0,
           begin + [ServiceRestartFailed(info.name, msg)])
  }

  /** `handleUnhealthyService(name, info)`: marked unhealthy and the failure
      logged; restarted while the attempts are below the limit, otherwise
      marked failed and counted as a failure. */
  function HandleUnhealthy(info: ServiceInfo, maxAttempts: int, now: int, outcome: RestartOutcome): (r: Step)
    ensures r.info.name == info.name
    ensures info.restartAttempts < maxAttempts ==>
      var st := Restart(info.(status := Unhealthy, errors := LoggedFailure(info.errors, ErrorEntry(now, CHECK_FAILED_MESSAGE))), now, outcome);
      r.info == st.info && r.restarts == 1 && r.failures == 0 && r.events == [ServiceUnhealthy(info.name)] + st.events
    ensures info.restartAttempts >= maxAttempts ==>
      r.info == info.(status := Failed, errors := LoggedFailure(info.errors, ErrorEntry(now, CHECK_FAILED_MESSAGE)))
      && r.restarts == 0 && r.failures == 1 && r.events == [ServiceUnhealthy(info.name), ServiceFailed(info.name)]
  {
    var marked := info.(status := Unhealthy, errors := LoggedFailure(info.errors, ErrorEntry(now, CHECK_FAILED_MESSAGE)));
    if info.restartAttempts < maxAttempts then
      var st := Restart(marked, now, outcome);
      st.(events := [ServiceUnhealthy(info.name)] + st.events)
    else
      Step(marked.(status := Failed), 0, 1, [ServiceUnhealthy(info.name), ServiceFailed(info.name)])
  }

  /** One service in `performHealthCheck()`: a negative answer or a throw is
      handled as unhealthy (only an answer stamps the check time); a
      positive answer after restarts clears the attempts and makes it
      running. */
  function AfterCheck(info: ServiceInfo, check: CheckOutcome, maxAttempts: int, now: int,
                      outcome: RestartOutcome): (r: Step)
    ensures r.info.name == info.name
    ensures check == Answered(true) ==>
      r.restarts == 0 && r.failures == 0 && r.events == []
      && r.info == (if info.restartAttempts > 0 then info.(restartAttempts := 0, status := Running) else info)
                     .(lastHealthCheck := now)
    ensures check == Answered(false) ==> r == HandleUnhealthy(info.(lastHealthCheck := now), maxAttempts, now, outcome)
    ensures check.CheckThrew? ==> r == HandleUnhealthy(info, maxAttempts, now, outcome)
  {
    match check
    case Answered(healthy) =>
      var checked := info.(lastHealthCheck := now);
      if !healthy then HandleUnhealthy(checked, maxAttempts, now, outcome)
      else if checked.restartAttempts > 0 then Step(checked.(restartAttempts := 0, status := Running), 0, 0, [])
      else Step(checked, 0, 0, [])
    case CheckThrew(_) => HandleUnhealthy(info, maxAttempts, now, outcome)
  }

  /** Health checks never push the attempts past the limit (or past 1,
      which a manual restart reaches): a restart happens only below it. */
  lemma AfterCheckKeepsAttempts(info: ServiceInfo, check: CheckOutcome, maxAttempts: int, now: int,
                                outcome: RestartOutcome)
    requires info.restartAttempts <= Max(maxAttempts, 1)
    ensures AfterCheck(info, check, maxAttempts, now, outcome).info.restartAttempts <= Max(maxAttempts, 1)
  {
  }

  /** A service whose check keeps failing is restarted until the attempts
      reach the limit and then marked failed. */
  lemma FailingServiceFailsAtLimit(info: ServiceInfo, maxAttempts: int, now: int, outcome: RestartOutcome)
    ensures var r := AfterCheck(info, Answered(false), maxAttempts, now, outcome);
      (r.info.status == Failed <==> info.restartAttempts >= maxAttempts)
      && (r.restarts == 1 <==> info.restartAttempts < maxAttempts)
      && r.failures + r.restarts == 1
  {
  }

  /** The restart path logs without trimming, so the log can exceed ten:
      ten logged errors, a failed check and a throwing restart leave eleven. */
  lemma ErrorsCanExceedTen(info: ServiceInfo, now: int)
    requires |info.errors| == MAX_ERRORS && info.restartAttempts == 0
    ensures |AfterCheck(info, Answered(false), 3, now, RestartThrew("boom")).info.errors| == MAX_ERRORS + 1
  {
  }

  // ---------------------------------------------------------------------------
  // A whole health-check round

  /** The registry, counters and events after checking `names` in order. */
  datatype Round = Round(services: map<string, ServiceInfo>, restarts: nat, failures: nat, events: seq<Event>)

  /** Every name in `names` is registered. */
  ghost predicate Listed(names: seq<string>, services: map<string, ServiceInfo>)
  {
    forall i :: 0 <= i < |names| ==> names[i] in services
  }

  /** The counters after a round. */
  function Counted(stats: ManagerStats, restarts: nat, failures: nat): (r: ManagerStats)
    ensures r.totalRestarts == stats.totalRestarts + restarts && r.totalFailures == stats.totalFailures + failures
    ensures r.uptime == stats.uptime
  {
    stats.(totalRestarts := stats.totalRestarts + restarts, totalFailures := stats.totalFailures + failures)
  }

  function CheckRound(names: seq<string>, services: map<string, ServiceInfo>, check: string -> CheckOutcome,
                      restart: string -> RestartOutcome, maxAttempts: int, now: int): (r: Round)
    requires Listed(names, services)
    ensures r.services.Keys == services.Keys
    decreases |names|
  {
    if names == [] then Round(services, 0, 0, [])
    else
      var last := names[|names| - 1];
      var before := CheckRound(names[..|names| - 1], services, check, restart, maxAttempts, now);
      var st := AfterCheck(before.services[last], check(last), maxAttempts, now, restart(last));
      Round(before.services[last := st.info], before.restarts + st.restarts, before.failures + st.failures,
            before.events + st.events)
  }

  /** A round over one more name is the shorter round followed by that
      name's check. */
  lemma CheckRoundStep(names: seq<string>, i: nat, services: map<string, ServiceInfo>, check: string -> CheckOutcome,
                       restart: string -> RestartOutcome, maxAttempts: int, now: int)
    requires i < |names| && Listed(names, services)
    ensures Listed(names[..i], services) && Listed(names[..i + 1], services)
    ensures var before := CheckRound(names[..i], services, check, restart, maxAttempts, now);
      var st := AfterCheck(before.services[names[i]], check(names[i]), maxAttempts, now, restart(names[i]));
      CheckRound(names[..i + 1], services, check, restart, maxAttempts, now)
        == Round(before.services[names[i] := st.info], before.restarts + st.restarts, before.failures + st.failures,
                 before.events + st.events)
  {
    assert names[..i + 1][..i] == names[..i];
  }

  /** A round touches only the services it checks, each once, from its
      state before the round. */
  lemma {:induction false} CheckRoundEntries(names: seq<string>, services: map<string, ServiceInfo>,
                                             check: string -> CheckOutcome, restart: string -> RestartOutcome,
                                             maxAttempts: int, now: int)
    requires Distinct(names) && Listed(names, services)
    ensures var r := CheckRound(names, services, check, restart, maxAttempts, now);
      forall k :: k in services ==>
        r.services[k] == if k in names then AfterCheck(services[k], check(k), maxAttempts, now, restart(k)).info
                         else services[k]
    decreases |names|
  {
    if names != [] {
      var front, last := names[..|names| - 1], names[|names| - 1];
      assert Distinct(front) by {
        forall a, b | 0 <= a < b < |front| ensures front[a] != front[b] {
          assert front[a] == names[a] && front[b] == names[b];
        }
      }
      assert last !in front by {
        forall a | 0 <= a < |front| ensures front[a] != last {
          assert front[a] == names[a];
        }
      }
      CheckRoundEntries(front, services, check, restart, maxAttempts, now);
      forall k | k in services
        ensures k in names <==> k in front || k == last
      {
        if k in names {
          var j :| 0 <= j < |names| && names[j] == k;
          if j < |front| {
            assert front[j] == k;
          }
        }
      }
    }
  }

  /** A round keeps the registry's invariant. */
  lemma RoundKeepsRegistry(names: seq<string>, services: map<string, ServiceInfo>, check: string -> CheckOutcome,
                           restart: string -> RestartOutcome, maxAttempts: int, now: int)
    requires Registry(names, services)
    ensures Listed(names, services)
    ensures Registry(names, CheckRound(names, services, check, restart, maxAttempts, now).services)
  {
    RegistryListed(names, services, 0);
    CheckRoundEntries(names, services, check, restart, maxAttempts, now);
  }

  /** Uptime split into whole units, each below the next (`Math.floor` of
      non-negative values). */
  function UptimeUnits(ms: int): (u: (int, int, int, int))
  {
    var seconds := ms / 1000;
    var minutes := seconds / 60;
    var hours := minutes / 60;
    (hours / 24, hours, minutes, seconds)
  }

  /** `formatUptime(ms)`: days and hours, hours and minutes, minutes and
      seconds, or seconds, from the largest non-zero unit. */
  function FormatUptime(ms: int): string
  {
    var (days, hours, minutes, seconds) := UptimeUnits(ms);
    if days > 0 then IntToString(days) + "天 " + IntToString(hours % 24) + "小时"
    else if hours > 0 then IntToString(hours) + "小时 " + IntToString(minutes % 60) + "分钟"
    else if minutes > 0 then IntToString(minutes) + "分钟 " + IntToString(seconds % 60) + "秒"
    else IntToString(seconds) + "秒"
  }

  /** The largest non-zero unit is the one the uptime reaches: a day is
      86 400 000 ms, an hour 3 600 000, a minute 60 000. */
  lemma UptimeLeadingUnit(ms: int)
    ensures var (days, hours, minutes, seconds) := UptimeUnits(ms);
      (days > 0 <==> ms >= 86_400_000) && (hours > 0 <==> ms >= 3_600_000)
      && (minutes > 0 <==> ms >= 60_000) && (seconds > 0 <==> ms >= 1000)
  {
    var (days, hours, minutes, seconds) := UptimeUnits(ms);
    assert seconds == ms / 1000;
    assert minutes > 0 <==> seconds >= 60;
    assert hours > 0 <==> minutes >= 60;
    assert minutes >= 60 <==> seconds >= 3600;
    assert days > 0 <==> hours >= 24;
    assert hours >= 24 <==> minutes >= 1440;
    assert minutes >= 1440 <==> seconds >= 86400;
  }

  // ---------------------------------------------------------------------------
  // The registry's invariant

  /** `names` lists each key of `services` once, and each record carries
      its own name. */
  ghost predicate Registry(names: seq<string>, services: map<string, ServiceInfo>)
  {
    Distinct(names)
    && (forall k :: k in names <==> k in services)
    && (forall k :: k in services ==> services[k].name == k)
  }

  /** Every listed name, and every name of a prefix, is registered. */
  lemma RegistryListed(names: seq<string>, services: map<string, ServiceInfo>, n: nat)
    requires Registry(names, services) && n <= |names|
    ensures Listed(names, services) && Listed(names[..n], services)
  {
    forall j | 0 <= j < |names| ensures names[j] in services {
      assert names[j] in names;
    }
  }

  /** Registering a record under its own name keeps the invariant; a new
      name goes to the end. */
  lemma RegistryAdd(names: seq<string>, services: map<string, ServiceInfo>, name: string, info: ServiceInfo)
    requires Registry(names, services) && info.name == name
    ensures Registry(if name in names then names else names + [name], services[name := info])
  {
    if name !in names {
      SnocDistinct(names, name);
    }
  }

  /** Unregistering a name keeps the invariant. */
  lemma RegistryRemove(names: seq<string>, services: map<string, ServiceInfo>, name: string)
    requires Registry(names, services)
    ensures Registry(RemoveFirst(names, name), services - {name})
  {
    RemoveFirstDistinct(names, name);
  }

  /** Replacing a registered record by one of the same name keeps the
      invariant. */
  lemma RegistryUpdate(names: seq<string>, services: map<string, ServiceInfo>, name: string, info: ServiceInfo)
    requires Registry(names, services) && name in services && info.name == name
    ensures Registry(names, services[name := info])
  {
  }

  // ---------------------------------------------------------------------------
  // The manager

  class Manager {
    /** The services, by name, and their names in registration order. */
    var services: map<string, ServiceInfo>
    var names: seq<string>
    const healthCheckInterval: int
    const maxRestartAttempts: int
    const restartDelay: int
    /** Whether the health-check interval timer is set */
    var healthCheckTimer: bool
    var stats: ManagerStats
    var emitted: seq<Event>

    /** The names list each registered service once, and each record
        carries its own name. */
    ghost predicate Valid()
      reads this
    {
      Registry(names, services)
    }

    /** `new ServiceManager(options)`: checks every 30 s, at most 3
        attempts, 5 s between attempts; the uptime starts now. */
    constructor (now: int, intervalOption: Option<int>, attemptsOption: Option<int>, delayOption: Option<int>)
      ensures Valid() && services == map[] && names == [] && !healthCheckTimer && emitted == []
      ensures healthCheckInterval == OrDefault(intervalOption, 30000)
      ensures maxRestartAttempts == OrDefault(attemptsOption, 3) && restartDelay == OrDefault(delayOption, 5000)
      ensures stats == ManagerStats(0, 0, now)
    {
      services, names := map[], [];
      healthCheckInterval := OrDefault(intervalOption, 30000);
      maxRestartAttempts := OrDefault(attemptsOption, 3);
      restartDelay := OrDefault(delayOption, 5000);
      healthCheckTimer := false;
      stats := ManagerStats(0, 0, now);
      emitted := [];
    }

    /** `register(name, ...)` at time `now`: a fresh running record, which
        replaces one of the same name in its place. */
    method Register(name: string, now: int)
      requires Valid()
      modifies this`services, this`names, this`emitted
      ensures Valid()
      ensures services == old(services)[name := ServiceInfo(name, Running, 0, now, None, [])]
      ensures names == if name in old(names) then old(names) else old(names) + [name]
      ensures emitted == old(emitted) + [ServiceRegistered(name)]
    {
      RegistryAdd(names, services, name, ServiceInfo(name, Running, 0, now, None, []));
      if name !in names {
        names := names + [name];
      }
      services := services[name := ServiceInfo(name, Running, 0, now, None, [])];
      emitted := emitted + [ServiceRegistered(name)];
    }

    /** `unregister(name)`: false for an unknown name. */
    method Unregister(name: string) returns (removed: bool)
      requires Valid()
      modifies this`services, this`names, this`emitted
      ensures Valid()
      ensures removed <==> name in old(services)
      ensures services == old(services) - {name}
      ensures names == RemoveFirst(old(names), name)
      ensures emitted == old(emitted) + (if removed then [ServiceUnregistered(name)] else [])
    {
      removed := name in services;
      RegistryRemove(names, services, name);
      services, names := services - {name}, RemoveFirst(names, name);
      if removed {
        emitted := emitted + [ServiceUnregistered(name)];
      }
    }

    /** `startHealthCheck()`: a second start is ignored. */
    method StartHealthCheck()
      modifies this`healthCheckTimer, this`emitted
      ensures healthCheckTimer
      ensures emitted == old(emitted) + (if old(healthCheckTimer) then [] else [HealthCheckStarted])
    {
      if healthCheckTimer {
        return;
      }
      healthCheckTimer := true;
      emitted := emitted + [HealthCheckStarted];
    }

    /** `stopHealthCheck()` */
    method StopHealthCheck()
      modifies this`healthCheckTimer, this`emitted
      ensures !healthCheckTimer
      ensures emitted == old(emitted) + (if old(healthCheckTimer) then [HealthCheckStopped] else [])
    {
      if healthCheckTimer {
        healthCheckTimer := false;
        emitted := emitted + [HealthCheckStopped];
      }
    }

    /** `performHealthCheck()` at time `now`, with each service's check and
        restart outcome: the services checked in registration order. */
    method PerformHealthCheck(now: int, check: string -> CheckOutcome, restart: string -> RestartOutcome)
      requires Valid()
      modifies this`services, this`stats, this`emitted
      ensures Valid()
      ensures var r := CheckRound(names, old(services), check, restart, maxRestartAttempts, now);
        services == r.services && emitted == old(emitted) + r.events && stats == Counted(old(stats), r.restarts, r.failures)
    {
      var ns, svc := names, services;
      var restarts: nat, failures: nat, events: seq<Event> := 0, 0, [];
      ghost var start := svc;
      RegistryListed(ns, start, 0);
      for i := 0 to |ns|
        modifies {}
        invariant Listed(ns[..i], start)
        invariant var r := CheckRound(ns[..i], start, check, restart, maxRestartAttempts, now);
          svc == r.services && restarts == r.restarts && failures == r.failures && events == r.events
      {
        var name := ns[i];
        CheckRoundStep(ns, i, start, check, restart, maxRestartAttempts, now);
        var st := AfterCheck(svc[name], check(name), maxRestartAttempts, now, restart(name));
        svc := svc[name := st.info];
        restarts, failures, events := restarts + st.restarts, failures + st.failures, events + st.events;
      }
      assert ns[..|ns|] == ns;
      RoundKeepsRegistry(ns, start, check, restart, maxRestartAttempts, now);
      services, stats, emitted := svc, Counted(stats, restarts, failures), emitted + events;
    }

    /** `restartService(name)` with the restart function's outcome: false
        for an unknown name or a throwing restart. */
    method RestartService(name: string, now: int, outcome: RestartOutcome) returns (ok: bool)
      requires Valid()
      modifies this`services, this`stats, this`emitted
      ensures Valid()
      ensures name !in old(services) ==> !ok && services == old(services) && stats == old(stats) && emitted == old(emitted)
      ensures name in old(services) ==>
        var st := Restart(old(services)[name], now, outcome);
        ok == outcome.RestartDone? && services == old(services)[name := st.info]
        && stats == old(stats).(totalRestarts := old(stats).totalRestarts + 1) && emitted == old(emitted) + st.events
    {
      if name !in services {
        return false;
      }
      var st := Restart(services[name], now, outcome);
      RegistryUpdate(names, services, name, st.info);
      services := services[name := st.info];
      stats := stats.(totalRestarts := stats.totalRestarts + 1);
      emitted := emitted + st.events;
      ok := outcome.RestartDone?;
    }

    /** `manualRestart(name)`: the attempts reset before restarting. */
    method ManualRestart(name: string, now: int, outcome: RestartOutcome) returns (ok: bool)
      requires Valid()
      modifies this`services, this`stats, this`emitted
      ensures Valid()
      ensures name !in old(services) ==> !ok && services == old(services) && stats == old(stats) && emitted == old(emitted)
      ensures name in old(services) ==>
        var st := Restart(old(services)[name].(restartAttempts := 0), now, outcome);
        ok == outcome.RestartDone? && services == old(services)[name := st.info]
        && services[name].restartAttempts == 1
        && stats == old(stats).(totalRestarts := old(stats).totalRestarts + 1) && emitted == old(emitted) + st.events
    {
      if name !in services {
        return false;
      }
      RegistryUpdate(names, services, name, services[name].(restartAttempts := 0));
      services := services[name := services[name].(restartAttempts := 0)];
      ok := RestartService(name, now, outcome);
    }

    /** `getServiceStatus(name)`: the five newest errors. */
    function GetServiceStatus(name: string): (r: Option<StatusView>)
      reads this
      ensures r.None? <==> name !in services
      ensures r.Some? ==> var s := services[name];
        r.value.name == s.name && r.value.status == s.status && r.value.restartAttempts == s.restartAttempts
        && r.value.lastHealthCheck == s.lastHealthCheck && r.value.lastRestart == s.lastRestart
        && r.value.recentErrors == LastN(s.errors, 5)
    {
      if name !in services then None
      else
        var s := services[name];
        SliceFromEnd(s.errors, 5);
        Some(StatusView(s.name, s.status, s.restartAttempts, s.lastHealthCheck, s.lastRestart, JsSliceFrom(s.errors, -5)))
    }

    /** `getAllServicesStatus()`: one summary per service, in registration order. */
    method GetAllServicesStatus() returns (statuses: seq<Summary>)
      requires Valid()
      ensures |statuses| == |names|
      ensures forall i :: 0 <= i < |names| ==> statuses[i] == SummaryOf(services[names[i]])
    {
      statuses := [];
      for i := 0 to |names|
        invariant |statuses| == i
        invariant forall j :: 0 <= j < i ==> statuses[j] == SummaryOf(services[names[j]])
      {
        statuses := statuses + [SummaryOf(services[names[i]])];
      }
    }

    /** The registered records, in registration order. */
    function Infos(): (infos: seq<ServiceInfo>)
      reads this
      requires Valid()
      ensures |infos| == |names|
      ensures forall i :: 0 <= i < |names| ==> infos[i] == services[names[i]]
    {
      seq(|names|, i requires 0 <= i < |names| && names[i] in services reads this => services[names[i]])
    }

    /** `getStats()` at time `now`: the counters, the time since the start
        and the services counted by status. */
    function GetStats(now: int): (r: StatsReport)
      reads this
      requires Valid()
      ensures r.totalRestarts == stats.totalRestarts && r.totalFailures == stats.totalFailures
      ensures r.uptime == now - stats.uptime && r.uptimeFormatted == FormatUptime(now - stats.uptime)
      ensures r.totalServices == |names|
      ensures r.healthyServices == |Filter(Infos(), IsRunning)| && r.unhealthyServices == |Filter(Infos(), IsUnhealthy)|
      ensures r.failedServices == |Filter(Infos(), IsFailed)|
      ensures r.healthyServices + r.unhealthyServices + r.failedServices <= r.totalServices
    {
      Report(stats, Infos(), now)
    }

    /** `resetStats()` at time `now`: the counters cleared and the uptime restarted. */
    method ResetStats(now: int)
      modifies this`stats
      ensures stats == ManagerStats(0, 0, now)
    {
      stats := ManagerStats(0, 0, now);
    }

    /** `destroy()`: the timer stopped and every service dropped. */
    method Destroy()
      modifies this`healthCheckTimer, this`emitted, this`services, this`names
      ensures Valid() && !healthCheckTimer && services == map[] && names == []
      ensures emitted == old(emitted) + (if old(healthCheckTimer) then [HealthCheckStopped] else [])
    {
      StopHealthCheck();
      services, names := map[], [];
    }
  }

  /** The report of `getStats()` for the services `infos`, in registration order. */
  function Report(stats: ManagerStats, infos: seq<ServiceInfo>, now: int): (r: StatsReport)
    ensures r.totalRestarts == stats.totalRestarts && r.totalFailures == stats.totalFailures
    ensures r.uptime == now - stats.uptime && r.uptimeFormatted == FormatUptime(now - stats.uptime)
    ensures r.totalServices == |infos|
    ensures r.healthyServices == |Filter(infos, IsRunning)| && r.unhealthyServices == |Filter(infos, IsUnhealthy)|
    ensures r.failedServices == |Filter(infos, IsFailed)|
    ensures r.healthyServices + r.unhealthyServices + r.failedServices <= r.totalServices
  {
    StatusCountsBounded(infos);
    StatsReport(stats.totalRestarts, stats.totalFailures, now - stats.uptime, FormatUptime(now - stats.uptime),
                |infos|, Count(infos, IsRunning), Count(infos, IsUnhealthy), Count(infos, IsFailed))
  }

  function SummaryOf(s: ServiceInfo): (r: Summary)
    ensures r.name == s.name && r.status == s.status && r.restartAttempts == s.restartAttempts
    ensures r.lastHealthCheck == s.lastHealthCheck && r.lastRestart == s.lastRestart && r.errorCount == |s.errors|
  {
    Summary(s.name, s.status, s.restartAttempts, s.lastHealthCheck, s.lastRestart, |s.errors|)
  }

  function IsRunning(s: ServiceInfo): bool { s.status == Running }
  function IsUnhealthy(s: ServiceInfo): bool { s.status == Unhealthy }
  function IsFailed(s: ServiceInfo): bool { s.status == Failed }

  /** No service is counted under two statuses. */
  lemma {:induction false} StatusCountsBounded(infos: seq<ServiceInfo>)
    ensures Count(infos, IsRunning) + Count(infos, IsUnhealthy) + Count(infos, IsFailed) <= |infos|
  {
    if infos != [] {
      StatusCountsBounded(infos[1..]);
    }
  }
}
