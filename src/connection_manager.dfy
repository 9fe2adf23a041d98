/** The backend connection manager
    (`backend/src/services/connection-manager/index.ts`): a connection pool
    and a health checker wired together, reconnection with exponential
    backoff, and per-connection traffic counters. Fresh ids, the clock and
    timer firings are inputs; the events the manager only forwards are the
    pool's and the health checker's own logs. */
module ConnectionManager {
  import opened Wrappers
  import opened Arith
  import CP = ConnectionPool
  import HC = HealthChecker

  /** The longest reconnect delay. */
  const MAX_RECONNECT_DELAY := 30000
  /** Failed health checks before a connection counts as unhealthy. */
  const MAX_HEALTH_FAILURES := 3

  /** `min(base · 2^attempts, 30000)`: the delay before reconnect attempt
      `attempts + 1`. */
  function Backoff(base: nat, attempts: nat): (d: nat)
    ensures d <= MAX_RECONNECT_DELAY && d <= base * Pow2(attempts)
    ensures d == MAX_RECONNECT_DELAY || d == base * Pow2(attempts)
  {
    if base * Pow2(attempts) <= MAX_RECONNECT_DELAY then base * Pow2(attempts) else MAX_RECONNECT_DELAY
  }

  /** Later attempts never wait less. */
  lemma BackoffMonotone(base: nat, j: nat, k: nat)
    requires j <= k
    ensures Backoff(base, j) <= Backoff(base, k)
  {
    Pow2Monotone(j, k);
    MulMonotone(base, Pow2(j), Pow2(k));
  }

  /** With the default base of 1000 ms the delays are 1, 2, 4, 8 and 16
      seconds, and 30 seconds from the sixth attempt on. */
  lemma DefaultBackoffSchedule(k: nat)
    ensures k <= 4 ==> Backoff(1000, k) == 1000 * Pow2(k)
    ensures k >= 5 ==> Backoff(1000, k) == MAX_RECONNECT_DELAY
  {
    assert Pow2(4) == 16 && Pow2(5) == 32;
    if k <= 4 {
      Pow2Monotone(k, 4);
    } else {
      Pow2Monotone(5, k);
    }
  }

  /** What the manager itself emits. */
  datatype ManagerEvent =
    | Created(c: CP.Connection)
    | Closed(connectionId: string, reason: string)
    | Reconnecting(connectionId: string, attemptNumber: nat, nextRetryIn: nat)
    | ReconnectFailed(connectionId: string, attempts: nat, maxAttempts: nat)
    | ReconnectAttempt(connectionId: string, attemptNumber: nat)
    | Established(connectionId: string)
    | Lost(connectionId: string)

  /** A reconnect timer set by `attemptReconnection`: a handle telling
      it apart from every other timer, the connection, the attempt number
      it reports and its delay. */
  datatype ReconnectTimer = ReconnectTimer(handle: nat, connectionId: string, attemptNumber: nat, delay: nat)

  /** The event a reconnection emits after `attempts` earlier attempts:
      failure at the limit, otherwise the next attempt and its delay. */
  function ReconnectEvent(id: string, attempts: nat, maxAttempts: nat, base: nat): (e: ManagerEvent)
    ensures e.ReconnectFailed? <==> attempts >= maxAttempts
    ensures e.Reconnecting? ==> e.attemptNumber == attempts + 1 && e.nextRetryIn == Backoff(base, attempts)
  {
    if attempts >= maxAttempts then ReconnectFailed(id, attempts, maxAttempts)
    else Reconnecting(id, attempts + 1, Backoff(base, attempts))
  }

  /** The connection `createConnection` builds. */
  function NewConnection(id: string, clientId: string, now: int): (c: CP.Connection)
    ensures c.connectionId == id && c.clientId == clientId && c.protocol == "websocket"
    ensures c.state == CP.Connecting && c.metrics == CP.ZERO_METRICS
    ensures c.createdAt == now && c.lastActivityAt == now
  {
    CP.Connection(id, clientId, "websocket", CP.Connecting, now, now, CP.ZERO_METRICS)
  }

  /** The four traffic counters. */
  datatype Counter = BytesIn | BytesOut | MessagesIn | MessagesOut

  /** `metrics.<counter> += n`, the other fields untouched. */
  function AddTo(m: CP.Metrics, counter: Counter, n: int): (r: CP.Metrics)
    ensures r.bytesIn == m.bytesIn + (if counter == BytesIn then n else 0)
    ensures r.bytesOut == m.bytesOut + (if counter == BytesOut then n else 0)
    ensures r.messagesIn == m.messagesIn + (if counter == MessagesIn then n else 0)
    ensures r.messagesOut == m.messagesOut + (if counter == MessagesOut then n else 0)
    ensures r.latency == m.latency && r.packetLoss == m.packetLoss
  {
    match counter
    case BytesIn => m.(bytesIn := m.bytesIn + n)
    case BytesOut => m.(bytesOut := m.bytesOut + n)
    case MessagesIn => m.(messagesIn := m.messagesIn + n)
    case MessagesOut => m.(messagesOut := m.messagesOut + n)
  }

  /** `x || d` for a numeric option: absent and 0 give the default. */
  function OrDefault(x: Option<nat>, d: nat): nat
  {
    if x.Some? && x.value != 0 then x.value else d
  }

  /** What a reconnection and a scheduled health check change: the pooled
      connections, the ids with a health-check timer and their failure
      counts, the attempt counters, the reconnect timer handle kept per id
      (`reconnectTimers`), the reconnect timers set and neither fired nor
      cancelled, the next timer handle and the manager's events. */
  datatype Snapshot = Snapshot(conns: map<string, CP.Connection>, checks: set<string>, failures: map<string, nat>,
                               attempts: map<string, nat>, handles: map<string, ReconnectTimer>,
                               pending: set<ReconnectTimer>, nextHandle: nat, events: seq<ManagerEvent>)

  /** `reconnectAttempts.get(id) || 0` */
  function AttemptsOf(s: Snapshot, id: string): nat
  {
    if id in s.attempts then s.attempts[id] else 0
  }

  /** `failureCount.get(id) || 0` */
  function FailuresOf(s: Snapshot, id: string): nat
  {
    if id in s.failures then s.failures[id] else 0
  }

  /** Only pooled connections have a health-check timer. */
  predicate ChecksOnlyPooled(s: Snapshot)
  {
    s.checks <= s.conns.Keys
  }

  /** Every pending timer was set before the next handle was drawn. */
  predicate HandlesIssued(s: Snapshot)
  {
    forall t :: t in s.pending ==> t.handle < s.nextHandle
  }

  /** `clearReconnectTimer(id)` on the pending timers: the timer whose
      handle is kept for `id` is cancelled, and no other. */
  function Cancelled(pending: set<ReconnectTimer>, handles: map<string, ReconnectTimer>, id: string): (r: set<ReconnectTimer>)
    ensures r <= pending
    ensures id in handles ==> handles[id] !in r
    ensures forall t :: t in pending && (id !in handles || t != handles[id]) ==> t in r
  {
    if id in handles then pending - {handles[id]} else pending
  }

  /** `attemptReconnection(id)`: at the limit the connection is removed
      (the pool's removal event stops its health checks) and the failure
      reported; below it the counter goes up, a timer for the next attempt
      is set after the backoff delay, and its handle replaces the one kept
      for `id` without cancelling the timer that one refers to. */
  function Reconnect(s: Snapshot, id: string, maxAttempts: nat, base: nat): (r: Snapshot)
    ensures r.events == s.events + [ReconnectEvent(id, AttemptsOf(s, id), maxAttempts, base)]
    ensures id in s.conns ==> (id in r.conns <==> AttemptsOf(s, id) < maxAttempts)
    ensures AttemptsOf(s, id) >= maxAttempts ==>
              id !in r.conns && r.conns.Keys == s.conns.Keys - {id} && r.attempts == s.attempts
              && r.handles == s.handles && r.pending == s.pending
    ensures AttemptsOf(s, id) < maxAttempts ==>
              r.conns == s.conns && r.checks == s.checks && AttemptsOf(r, id) == AttemptsOf(s, id) + 1
              && id in r.handles && r.handles[id] in r.pending
              && r.handles[id].connectionId == id
              && r.handles[id].attemptNumber == AttemptsOf(s, id) + 1
              && r.handles[id].delay == Backoff(base, AttemptsOf(s, id))
              && (HandlesIssued(s) ==> r.handles[id] !in s.pending)
    ensures s.pending <= r.pending && r.failures == s.failures
    ensures ChecksOnlyPooled(s) ==> ChecksOnlyPooled(r)
    ensures HandlesIssued(s) ==> HandlesIssued(r)
  {
    var attempts := AttemptsOf(s, id);
    if attempts >= maxAttempts then
      s.(conns := s.conns - {id},
         checks := if id in s.conns then s.checks - {id} else s.checks,
         events := s.events + [ReconnectFailed(id, attempts, maxAttempts)])
    else
      var t := ReconnectTimer(s.nextHandle, id, attempts + 1, Backoff(base, attempts));
      s.(attempts := s.attempts[id := attempts + 1], handles := s.handles[id := t],
         pending := s.pending + {t}, nextHandle := s.nextHandle + 1,
         events := s.events + [Reconnecting(id, attempts + 1, Backoff(base, attempts))])
  }

  /** `handleUnhealthyConnection(id)`: nothing for an id no longer pooled;
      otherwise the connection goes to the error state and a reconnection
      is attempted. */
  function Unhealthy(s: Snapshot, id: string, now: int, maxAttempts: nat, base: nat): (r: Snapshot)
    ensures id !in s.conns ==> r == s
    ensures id in s.conns ==> r.events == s.events + [ReconnectEvent(id, AttemptsOf(s, id), maxAttempts, base)]
    ensures id in s.conns && AttemptsOf(s, id) < maxAttempts ==>
              r.conns.Keys == s.conns.Keys && r.conns[id].state == CP.Error && AttemptsOf(r, id) == AttemptsOf(s, id) + 1
    ensures id in s.conns && AttemptsOf(s, id) >= maxAttempts ==> r.conns.Keys == s.conns.Keys - {id}
    ensures r.failures == s.failures && r.checks <= s.checks
    ensures ChecksOnlyPooled(s) ==> ChecksOnlyPooled(r)
    ensures HandlesIssued(s) ==> HandlesIssued(r)
  {
    if id !in s.conns then s
    else Reconnect(s.(conns := s.conns[id := s.conns[id].(state := CP.Error, lastActivityAt := now)]), id, maxAttempts, base)
  }

  /** `markDisconnected(id)`: nothing for an unknown id; otherwise the
      connection is disconnected, the loss reported and a reconnection
      attempted. */
  function Disconnect(s: Snapshot, id: string, now: int, maxAttempts: nat, base: nat): (r: Snapshot)
    ensures id !in s.conns ==> r == s
    ensures id in s.conns ==>
              r.events == s.events + [Lost(id), ReconnectEvent(id, AttemptsOf(s, id), maxAttempts, base)]
    ensures id in s.conns && AttemptsOf(s, id) < maxAttempts ==>
              r.conns.Keys == s.conns.Keys && r.conns[id].state == CP.Disconnected
              && AttemptsOf(r, id) == AttemptsOf(s, id) + 1
    ensures id in s.conns && AttemptsOf(s, id) >= maxAttempts ==>
              r.conns.Keys == s.conns.Keys - {id} && id !in r.checks
    ensures ChecksOnlyPooled(s) ==> ChecksOnlyPooled(r)
    ensures HandlesIssued(s) ==> HandlesIssued(r)
  {
    if id !in s.conns then s
    else
      var lost := s.(conns := s.conns[id := s.conns[id].(state := CP.Disconnected, lastActivityAt := now)],
                     events := s.events + [Lost(id)]);
      Reconnect(lost, id, maxAttempts, base)
  }

  /** `markConnected(id)`: nothing for an unknown id; otherwise connected,
      the counter back to 0, and the timer whose handle is kept for `id`
      cancelled. */
  function Connect(s: Snapshot, id: string, now: int): (r: Snapshot)
    ensures id !in s.conns ==> r == s
    ensures id in s.conns ==>
              r.conns.Keys == s.conns.Keys && r.conns[id].state == CP.Connected
              && AttemptsOf(r, id) == 0 && id !in r.handles
              && r.pending == Cancelled(s.pending, s.handles, id)
              && r.events == s.events + [Established(id)]
    ensures r.checks == s.checks && r.failures == s.failures && r.nextHandle == s.nextHandle
  {
    if id !in s.conns then s
    else s.(conns := s.conns[id := s.conns[id].(state := CP.Connected, lastActivityAt := now)],
            attempts := s.attempts[id := 0], handles := s.handles - {id},
            pending := Cancelled(s.pending, s.handles, id), events := s.events + [Established(id)])
  }

  /** A pending reconnect timer firing: a still-pooled connection goes
      back to connecting and the attempt number the timer was set with is
      reported. The kept handle stays (clearing a fired timer does
      nothing). */
  function Fire(s: Snapshot, t: ReconnectTimer, now: int): (r: Snapshot)
    ensures r.pending == s.pending - {t} && r.handles == s.handles && r.attempts == s.attempts
    ensures r.conns.Keys == s.conns.Keys
    ensures t.connectionId in s.conns ==> r.conns[t.connectionId].state == CP.Connecting
    ensures r.events == s.events + [ReconnectAttempt(t.connectionId, t.attemptNumber)]
  {
    var id := t.connectionId;
    s.(conns := if id in s.conns then s.conns[id := s.conns[id].(state := CP.Connecting, lastActivityAt := now)] else s.conns,
       pending := s.pending - {t}, events := s.events + [ReconnectAttempt(id, t.attemptNumber)])
  }

  /** The connection record with its activity time set, when pooled
      (`getConnection` stamps what it finds). */
  function Stamped(conns: map<string, CP.Connection>, id: string, now: int): (r: map<string, CP.Connection>)
    ensures r.Keys == conns.Keys
    ensures forall k :: k in conns ==> r[k].state == conns[k].state
  {
    if id in conns then conns[id := conns[id].(lastActivityAt := now)] else conns
  }

  /** Whether a scheduled check of `id` passes: it did not time out and the
      connection is pooled and connected. */
  predicate Passes(s: Snapshot, id: string, timedOut: bool)
  {
    !timedOut && id in s.conns && s.conns[id].state == CP.Connected
  }

  /** A scheduled health check of `id` completing, up to the scheduling of
      the next one: the lookup stamps the connection, the failure count is
      updated, and once it reaches MAX_HEALTH_FAILURES the checker's
      unhealthy report makes the manager handle the connection at once. */
  function Checked(s: Snapshot, id: string, timedOut: bool, now: int, maxAttempts: nat, base: nat): (r: Snapshot)
    ensures var failures := HC.NextFailures(Some(FailuresOf(s, id)), Passes(s, id, timedOut));
      r.failures == s.failures[id := failures]
      && (failures < MAX_HEALTH_FAILURES ==>
            r.conns.Keys == s.conns.Keys && r.checks == s.checks && r.events == s.events
            && r.attempts == s.attempts && r.pending == s.pending)
      && (failures >= MAX_HEALTH_FAILURES && id in s.conns ==>
            r.events == s.events + [ReconnectEvent(id, AttemptsOf(s, id), maxAttempts, base)]
            && (id in r.conns <==> AttemptsOf(s, id) < maxAttempts))
    ensures r.conns.Keys <= s.conns.Keys && r.checks <= s.checks
    ensures ChecksOnlyPooled(s) ==> ChecksOnlyPooled(r)
    ensures HandlesIssued(s) ==> HandlesIssued(r)
  {
    var passed := Passes(s, id, timedOut);
    var failures := HC.NextFailures(Some(FailuresOf(s, id)), passed);
    var counted := s.(conns := Stamped(s.conns, id, now), failures := s.failures[id := failures]);
    if !passed && failures >= MAX_HEALTH_FAILURES then Unhealthy(counted, id, now, maxAttempts, base) else counted
  }

  /** `performCheck(id)` as written: the next check is scheduled after the
      unhealthy handling, even when that handling removed the connection. */
  function CheckAsWritten(s: Snapshot, id: string, timedOut: bool, now: int, maxAttempts: nat, base: nat): (r: Snapshot)
    ensures id in r.checks && r.checks <= s.checks + {id}
    ensures r.conns.Keys <= s.conns.Keys
  {
    var c := Checked(s, id, timedOut, now, maxAttempts, base);
    c.(checks := c.checks + {id})
  }

  /** A connection the checks removed at the attempt limit goes on being
      checked: its timer is set again though it is no longer pooled. */
  lemma RemovedStillCheckedAsWritten(s: Snapshot, id: string, timedOut: bool, now: int, maxAttempts: nat, base: nat)
    requires id in s.conns && !Passes(s, id, timedOut)
    requires FailuresOf(s, id) + 1 >= MAX_HEALTH_FAILURES && AttemptsOf(s, id) >= maxAttempts
    ensures var r := CheckAsWritten(s, id, timedOut, now, maxAttempts, base);
      id !in r.conns && id in r.checks && !ChecksOnlyPooled(r)
  {
  }

  /** `n` scheduled checks of `id` in a row, as written. */
  function ChecksAsWritten(s: Snapshot, id: string, n: nat, now: int, maxAttempts: nat, base: nat): Snapshot
    decreases n
  {
    if n == 0 then s else ChecksAsWritten(CheckAsWritten(s, id, false, now, maxAttempts, base), id, n - 1, now, maxAttempts, base)
  }

  /** Once the connection is gone its checks never stop: every later check
      fails, adds one to the count and sets the timer again, and nothing
      else happens. */
  lemma {:induction false} RemovedCheckedForeverAsWritten(s: Snapshot, id: string, n: nat, now: int, maxAttempts: nat, base: nat)
    requires id !in s.conns && id in s.checks
    ensures var r := ChecksAsWritten(s, id, n, now, maxAttempts, base);
      id !in r.conns && id in r.checks && FailuresOf(r, id) == FailuresOf(s, id) + n
      && r.events == s.events && r.conns == s.conns
    decreases n
  {
    if n > 0 {
      var next := CheckAsWritten(s, id, false, now, maxAttempts, base);
      assert next.conns == s.conns && next.events == s.events && FailuresOf(next, id) == FailuresOf(s, id) + 1;
      RemovedCheckedForeverAsWritten(next, id, n - 1, now, maxAttempts, base);
    }
  }

  /** `performCheck(id)` as evidently intended: the next check is scheduled
      only for a connection still pooled, so a connection removed by the
      unhealthy handling is checked no more. */
  function CheckIntended(s: Snapshot, id: string, timedOut: bool, now: int, maxAttempts: nat, base: nat): (r: Snapshot)
    ensures id in r.checks <==> id in r.conns
    ensures ChecksOnlyPooled(s) ==> ChecksOnlyPooled(r)
    ensures id in s.conns && AttemptsOf(s, id) < maxAttempts ==> id in r.checks
  {
    var c := Checked(s, id, timedOut, now, maxAttempts, base);
    c.(checks := if id in c.conns then c.checks + {id} else c.checks - {id})
  }

  /** `clearReconnectTimer` cancels only the latest timer of a connection:
      after two reconnections, marking it connected leaves the first timer
      pending, and when that one fires the connected connection goes back
      to connecting and reports the stale attempt number. */
  lemma StaleReconnectFires(s: Snapshot, id: string, now: int, later: int, maxAttempts: nat, base: nat)
    requires id in s.conns && AttemptsOf(s, id) + 2 <= maxAttempts
    ensures var s1 := Disconnect(s, id, now, maxAttempts, base);
      var s3 := Connect(Disconnect(s1, id, now, maxAttempts, base), id, now);
      var t := s1.handles[id];
      t in s3.pending && s3.conns[id].state == CP.Connected && AttemptsOf(s3, id) == 0
      && Fire(s3, t, later).conns[id].state == CP.Connecting
      && t.attemptNumber == AttemptsOf(s, id) + 1
  {
    var s1 := Disconnect(s, id, now, maxAttempts, base);
    var s2 := Disconnect(s1, id, now, maxAttempts, base);
    assert s2.handles[id].handle == s1.handles[id].handle + 1;
  }

  class Manager {
    var pool: CP.Pool
    var checker: HC.HealthChecker
    var maxReconnectAttempts: nat
    var reconnectBackoffMs: nat
    var reconnectAttempts: map<string, nat>
    /** The handle kept per id: the timer set last. */
    var reconnectTimers: map<string, ReconnectTimer>
    /** Reconnect timers set and neither fired nor cancelled, including
        those whose handle a later attempt overwrote. */
    var pendingReconnects: set<ReconnectTimer>
    /** The handle the next reconnect timer gets. */
    var nextHandle: nat
    var events: seq<ManagerEvent>

    /** The pool and the checker are consistent, an attempt counter never
        passes the limit, no delay exceeds 30 s, and every pending timer
        has a handle already drawn. */
    ghost predicate Valid()
      reads this, pool, checker
    {
      pool.Valid() && checker.Valid() && checker.maxFailures == MAX_HEALTH_FAILURES
      && maxReconnectAttempts > 0
      && (forall id :: id in reconnectAttempts ==> reconnectAttempts[id] <= maxReconnectAttempts)
      && (forall id :: id in reconnectTimers ==> reconnectTimers[id].delay <= MAX_RECONNECT_DELAY)
      && (forall t :: t in pendingReconnects ==> t.delay <= MAX_RECONNECT_DELAY && t.handle < nextHandle)
    }

    /** The state a reconnection and a scheduled check change. */
    function Snap(): Snapshot
      reads this, pool, checker
    {
      Snapshot(pool.conns, checker.timers, checker.failureCount, reconnectAttempts, reconnectTimers,
               pendingReconnects, nextHandle, events)
    }

    /** Attempts made so far (`reconnectAttempts.get(id) || 0`). */
    function Attempts(id: string): (n: nat)
      reads this
      ensures n == (if id in reconnectAttempts then reconnectAttempts[id] else 0)
    {
      if id in reconnectAttempts then reconnectAttempts[id] else 0
    }

    /** `new ConnectionManager(config)`: each option falls back to its
        default when absent or 0. */
    constructor (maxConnections: Option<nat>, healthCheckInterval: Option<nat>, connectionTimeout: Option<nat>,
                 reconnectBackoff: Option<nat>, maxAttempts: Option<nat>)
      ensures Valid() && fresh(pool) && fresh(checker)
      ensures pool.conns == map[] && pool.order == [] && pool.maxConnections == OrDefault(maxConnections, 100)
      ensures pool.connectionTimeout == OrDefault(connectionTimeout, 5000) && pool.idleTimeout == 300000
      ensures checker.interval == OrDefault(healthCheckInterval, 30000)
      ensures checker.timeout == OrDefault(connectionTimeout, 5000) && checker.timers == {} && checker.failureCount == map[]
      ensures reconnectBackoffMs == OrDefault(reconnectBackoff, 1000)
      ensures maxReconnectAttempts == OrDefault(maxAttempts, 30)
      ensures reconnectAttempts == map[] && reconnectTimers == map[] && pendingReconnects == {} && nextHandle == 0
      ensures events == []
    {
      var capacity := OrDefault(maxConnections, 100);
      var timeout := OrDefault(connectionTimeout, 5000);
      pool := new CP.Pool(Some(capacity), Some(timeout), Some(300000));
      checker := new HC.HealthChecker(Some(OrDefault(healthCheckInterval, 30000)), Some(timeout), Some(MAX_HEALTH_FAILURES));
      reconnectBackoffMs := OrDefault(reconnectBackoff, 1000);
      maxReconnectAttempts := OrDefault(maxAttempts, 30);
      reconnectAttempts, reconnectTimers, events := map[], map[], [];
      pendingReconnects, nextHandle := {}, 0;
    }

    /** `createConnection(clientId)` with `id` the fresh UUID: refused when
        the pool is full; otherwise a connecting connection with zero
        metrics is pooled, its attempt counter set to 0 and its health
        checks started. */
    method CreateConnection(clientId: string, id: string, now: int) returns (r: Result<CP.Connection>)
      requires Valid()
      modifies this`reconnectAttempts, this`events, pool`conns, pool`order, pool`events,
               checker`timers, checker`failureCount
      ensures Valid()
      ensures r.Err? <==> old(|pool.order|) >= pool.maxConnections
      ensures r.Err? ==>
                r.error == "Connection pool is full" && pool.conns == old(pool.conns)
                && reconnectAttempts == old(reconnectAttempts) && checker.timers == old(checker.timers)
                && checker.failureCount == old(checker.failureCount)
                && events == old(events)
      ensures r.Ok? ==>
                r.value == NewConnection(id, clientId, now)
                && pool.conns == old(pool.conns)[id := r.value]
                && reconnectAttempts == old(reconnectAttempts)[id := 0]
                && checker.timers == old(checker.timers) + {id}
                && checker.failureCount == (if id in old(checker.failureCount) then old(checker.failureCount)
                                            else old(checker.failureCount)[id := 0])
                && events == old(events) + [Created(r.value)]
    {
      if |pool.order| >= pool.maxConnections {
        return Err("Connection pool is full");
      }
      var c := NewConnection(id, clientId, now);
      var added := pool.AddConnection(c);
      assert added;
      reconnectAttempts := reconnectAttempts[id := 0];
      checker.StartCheck(id);
      events := events + [Created(c)];
      return Ok(c);
    }

    /** `getConnection(id)`: the pooled connection, stamped with the current
        time, or the not-found error. */
    method GetConnection(id: string, now: int) returns (r: Result<CP.Connection>)
      requires Valid()
      modifies pool`conns, pool`idleTimers
      ensures Valid()
      ensures r.Ok? <==> id in old(pool.conns)
      ensures r.Err? ==> r.error == "Connection not found: " + id && pool.conns == old(pool.conns)
      ensures r.Ok? ==>
                r.value == old(pool.conns)[id].(lastActivityAt := now)
                && pool.conns == old(pool.conns)[id := r.value]
    {
      var c := pool.GetConnection(id, now);
      if c.None? {
        return Err("Connection not found: " + id);
      }
      return Ok(c.value);
    }

    /** `closeConnection(id)`: the not-found error for an unknown id;
        otherwise the connection leaves the pool (the pool's removal event
        stops its health checks), its reconnect timer is cleared, its
        attempt counter dropped, and the close is reported as manual. */
    method CloseConnection(id: string) returns (r: Result<()>)
      requires Valid()
      modifies this`reconnectAttempts, this`reconnectTimers, this`pendingReconnects, this`events,
               pool`conns, pool`order, pool`idleTimers, pool`events, checker`timers
      ensures Valid()
      ensures r.Ok? <==> id in old(pool.conns)
      ensures pool.conns == old(pool.conns) - {id}
      ensures r.Err? ==>
                r.error == "Connection not found: " + id && reconnectAttempts == old(reconnectAttempts)
                && reconnectTimers == old(reconnectTimers) && pendingReconnects == old(pendingReconnects)
                && checker.timers == old(checker.timers) && events == old(events)
      ensures r.Ok? ==>
                checker.timers == old(checker.timers) - {id}
                && reconnectAttempts == old(reconnectAttempts) - {id}
                && reconnectTimers == old(reconnectTimers) - {id}
                && pendingReconnects == Cancelled(old(pendingReconnects), old(reconnectTimers), id)
                && events == old(events) + [Closed(id, "manual")]
    {
      var removed := RemoveFromPool(id);
      if !removed {
        return Err("Connection not found: " + id);
      }
      ClearReconnectTimer(id);
      reconnectAttempts := reconnectAttempts - {id};
      events := events + [Closed(id, "manual")];
      return Ok(());
    }

    /** `pool.removeConnection(id)` with the manager's listener on the
        pool's removal event, which stops the health checks of a connection
        actually removed. */
    method RemoveFromPool(id: string) returns (removed: bool)
      requires pool.Valid()
      modifies pool`conns, pool`order, pool`idleTimers, pool`events, checker`timers
      ensures pool.Valid()
      ensures removed <==> id in old(pool.conns)
      ensures pool.conns == old(pool.conns) - {id}
      ensures checker.timers == if removed then old(checker.timers) - {id} else old(checker.timers)
    {
      var c := pool.RemoveConnection(id);
      removed := c.Some?;
      if removed {
        checker.StopCheck(id);
      }
    }

    /** `clearReconnectTimer(id)`: the timer whose handle is kept for `id`
        is cancelled and the handle dropped; an earlier timer whose handle
        was overwritten stays pending. */
    method ClearReconnectTimer(id: string)
      modifies this`reconnectTimers, this`pendingReconnects
      ensures reconnectTimers == old(reconnectTimers) - {id}
      ensures pendingReconnects == Cancelled(old(pendingReconnects), old(reconnectTimers), id)
    {
      if id in reconnectTimers {
        pendingReconnects := pendingReconnects - {reconnectTimers[id]};
        reconnectTimers := reconnectTimers - {id};
      }
    }

    /** `performHealthCheck(id)`: healthy exactly when the connection is
        pooled and connected (looking it up stamps it). */
    method PerformHealthCheck(id: string, now: int) returns (healthy: bool)
      requires pool.Valid()
      modifies pool`conns, pool`idleTimers
      ensures pool.Valid()
      ensures healthy <==> id in old(pool.conns) && old(pool.conns)[id].state == CP.Connected
      ensures pool.conns == if id in old(pool.conns)
                            then old(pool.conns)[id := old(pool.conns)[id].(lastActivityAt := now)]
                            else old(pool.conns)
    {
      var c := pool.GetConnection(id, now);
      return c.Some? && c.value.state == CP.Connected;
    }

    /** `healthCheck(id)`: the same answer, and a healthy connection's
        failure count is reset. */
    method HealthCheck(id: string, now: int) returns (healthy: bool)
      requires Valid()
      modifies pool`conns, pool`idleTimers, checker`failureCount
      ensures Valid()
      ensures healthy <==> id in old(pool.conns) && old(pool.conns)[id].state == CP.Connected
      ensures checker.failureCount == if healthy then old(checker.failureCount)[id := 0] else old(checker.failureCount)
      ensures pool.conns.Keys == old(pool.conns.Keys)
    {
      var c := pool.GetConnection(id, now);
      if c.None? {
        return false;
      }
      healthy := PerformHealthCheck(id, now);
      if healthy {
        checker.ResetFailureCount(id);
      }
    }

    /** The scheduled health check of `id` completing, possibly by the
        timeout, in the order the source runs it: the checker records the
        result; when it reports the connection unhealthy the manager's
        listener handles it at once, which at the attempt limit removes the
        connection and stops its checks; then the checker sets the next
        check regardless. */
    method RunScheduledCheckAsWritten(id: string, timedOut: bool, latency: int, now: int)
      requires Valid() && id in checker.timers
      modifies this`reconnectAttempts, this`reconnectTimers, this`pendingReconnects, this`nextHandle, this`events,
               pool`conns, pool`order, pool`idleTimers, pool`events,
               checker`timers, checker`failureCount, checker`events
      ensures Valid()
      ensures Snap() == CheckAsWritten(old(Snap()), id, timedOut, now, maxReconnectAttempts, reconnectBackoffMs)
      ensures var outcome := if timedOut then HC.Threw(HC.TIMEOUT_MESSAGE)
                             else HC.Answered(id in old(pool.conns) && old(pool.conns)[id].state == CP.Connected);
        checker.events == old(checker.events)
                          + HC.CheckEvents(id, outcome, latency, checker.failureCount[id], MAX_HEALTH_FAILURES)
    {
      ghost var s0 := Snap();
      CountCheck(id, timedOut, latency, now);
      checker.ScheduleCheck(id);
      assert Snap() == CheckAsWritten(s0, id, timedOut, now, maxReconnectAttempts, reconnectBackoffMs);
    }

    /** The scheduled health check of `id` completing, with the next check
        set only for a connection still pooled: a connection the unhealthy
        handling removed is checked no more, so only pooled connections
        are ever checked. */
    method RunScheduledCheck(id: string, timedOut: bool, latency: int, now: int)
      requires Valid() && id in checker.timers
      modifies this`reconnectAttempts, this`reconnectTimers, this`pendingReconnects, this`nextHandle, this`events,
               pool`conns, pool`order, pool`idleTimers, pool`events,
               checker`timers, checker`failureCount, checker`events
      ensures Valid()
      ensures Snap() == CheckIntended(old(Snap()), id, timedOut, now, maxReconnectAttempts, reconnectBackoffMs)
      ensures old(ChecksOnlyPooled(Snap())) ==> ChecksOnlyPooled(Snap())
      ensures var outcome := if timedOut then HC.Threw(HC.TIMEOUT_MESSAGE)
                             else HC.Answered(id in old(pool.conns) && old(pool.conns)[id].state == CP.Connected);
        checker.events == old(checker.events)
                          + HC.CheckEvents(id, outcome, latency, checker.failureCount[id], MAX_HEALTH_FAILURES)
    {
      ghost var s0 := Snap();
      CountCheck(id, timedOut, latency, now);
      if id in pool.conns {
        checker.ScheduleCheck(id);
      } else {
        checker.StopCheck(id);
      }
      assert Snap() == CheckIntended(s0, id, timedOut, now, maxReconnectAttempts, reconnectBackoffMs);
    }

    /** A scheduled check of `id` up to the scheduling of the next one: the
        check itself, the checker's record of its result and, on the
        unhealthy report, the manager's handling. */
    method CountCheck(id: string, timedOut: bool, latency: int, now: int)
      requires Valid()
      modifies this`reconnectAttempts, this`reconnectTimers, this`pendingReconnects, this`nextHandle, this`events,
               pool`conns, pool`order, pool`idleTimers, pool`events,
               checker`timers, checker`failureCount, checker`events
      ensures Valid()
      ensures Snap() == Checked(old(Snap()), id, timedOut, now, maxReconnectAttempts, reconnectBackoffMs)
      ensures var outcome := if timedOut then HC.Threw(HC.TIMEOUT_MESSAGE)
                             else HC.Answered(id in old(pool.conns) && old(pool.conns)[id].state == CP.Connected);
        checker.events == old(checker.events)
                          + HC.CheckEvents(id, outcome, latency, checker.failureCount[id], MAX_HEALTH_FAILURES)
    {
      ghost var s0 := Snap();
      var healthy := PerformHealthCheck(id, now);
      var outcome := if timedOut then HC.Threw(HC.TIMEOUT_MESSAGE) else HC.Answered(healthy);
      checker.RecordResult(id, outcome, latency);
      ghost var counted := Snap();
      assert counted == s0.(conns := Stamped(s0.conns, id, now),
                            failures := s0.failures[id := HC.NextFailures(Some(FailuresOf(s0, id)), Passes(s0, id, timedOut))]);
      ghost var checkerEvents := checker.events;
      if outcome != HC.Answered(true) && checker.failureCount[id] >= checker.maxFailures {
        HandleUnhealthyConnection(id, now);
      }
      assert checker.events == checkerEvents;
    }

    /** The lookup and state change `handleUnhealthyConnection`,
        `markConnected` and `markDisconnected` begin with: an unknown id is
        not found and changes nothing; a pooled connection takes the state
        and the current time. */
    method SetState(id: string, st: CP.ConnState, now: int) returns (found: bool)
      requires pool.Valid()
      modifies pool`conns, pool`idleTimers, pool`events
      ensures pool.Valid()
      ensures found <==> id in old(pool.conns)
      ensures pool.conns == if found then old(pool.conns)[id := old(pool.conns)[id].(state := st, lastActivityAt := now)]
                            else old(pool.conns)
    {
      var c := pool.GetConnection(id, now);
      if c.None? {
        return false;
      }
      var ok := pool.UpdateConnectionState(id, st, now);
      return true;
    }

    /** `handleUnhealthyConnection(id)`: nothing for an id no longer
        pooled; otherwise the connection goes to the error state and a
        reconnection is attempted. */
    method HandleUnhealthyConnection(id: string, now: int)
      requires Valid()
      modifies this`reconnectAttempts, this`reconnectTimers, this`pendingReconnects, this`nextHandle, this`events,
               pool`conns, pool`order, pool`idleTimers, pool`events, checker`timers
      ensures Valid()
      ensures Snap() == Unhealthy(old(Snap()), id, now, maxReconnectAttempts, reconnectBackoffMs)
    {
      ghost var s0 := Snap();
      var found := SetState(id, CP.Error, now);
      if !found {
        return;
      }
      assert Snap() == s0.(conns := s0.conns[id := s0.conns[id].(state := CP.Error, lastActivityAt := now)]);
      AttemptReconnection(id);
    }

    /** `attemptReconnection(id)`: at the limit the connection is removed
        and its checks stopped; otherwise the counter goes up by one and
        the next attempt is set after the backoff delay, its handle
        replacing the kept one without cancelling that timer. */
    method AttemptReconnection(id: string)
      requires Valid()
      modifies this`reconnectAttempts, this`reconnectTimers, this`pendingReconnects, this`nextHandle, this`events,
               pool`conns, pool`order, pool`idleTimers, pool`events, checker`timers
      ensures Valid()
      ensures Snap() == Reconnect(old(Snap()), id, maxReconnectAttempts, reconnectBackoffMs)
    {
      ghost var s0 := Snap();
      var attempts := Attempts(id);
      if attempts >= maxReconnectAttempts {
        var removed := RemoveFromPool(id);
        events := events + [ReconnectFailed(id, attempts, maxReconnectAttempts)];
        assert Snap() == s0.(conns := s0.conns - {id},
                             checks := if id in s0.conns then s0.checks - {id} else s0.checks,
                             events := s0.events + [ReconnectFailed(id, attempts, maxReconnectAttempts)]);
        return;
      }
      var delay := Backoff(reconnectBackoffMs, attempts);
      reconnectAttempts := reconnectAttempts[id := attempts + 1];
      events := events + [Reconnecting(id, attempts + 1, delay)];
      var t := ReconnectTimer(nextHandle, id, attempts + 1, delay);
      pendingReconnects := pendingReconnects + {t};
      nextHandle := nextHandle + 1;
      reconnectTimers := reconnectTimers[id := t];
      assert Snap() == s0.(attempts := s0.attempts[id := attempts + 1], handles := s0.handles[id := t],
                           pending := s0.pending + {t}, nextHandle := s0.nextHandle + 1,
                           events := s0.events + [Reconnecting(id, attempts + 1, delay)]);
    }

    /** A pending reconnect timer firing: the connection (if still pooled)
        goes back to connecting and the attempt number the timer was set
        with is reported. */
    method ReconnectTimerFires(t: ReconnectTimer, now: int)
      requires Valid() && t in pendingReconnects
      modifies this`pendingReconnects, this`events, pool`conns, pool`events
      ensures Valid()
      ensures Snap() == Fire(old(Snap()), t, now)
    {
      var ok := pool.UpdateConnectionState(t.connectionId, CP.Connecting, now);
      events := events + [ReconnectAttempt(t.connectionId, t.attemptNumber)];
      pendingReconnects := pendingReconnects - {t};
    }

    /** `markConnected(id)`: nothing for an unknown id; otherwise connected,
        the attempt counter back to 0 and the kept reconnect timer
        cancelled. */
    method MarkConnected(id: string, now: int)
      requires Valid()
      modifies this`reconnectAttempts, this`reconnectTimers, this`pendingReconnects, this`events,
               pool`conns, pool`idleTimers, pool`events
      ensures Valid()
      ensures Snap() == Connect(old(Snap()), id, now)
    {
      ghost var s0 := Snap();
      var found := SetState(id, CP.Connected, now);
      if !found {
        return;
      }
      reconnectAttempts := reconnectAttempts[id := 0];
      ClearReconnectTimer(id);
      events := events + [Established(id)];
      assert Snap() == s0.(conns := s0.conns[id := s0.conns[id].(state := CP.Connected, lastActivityAt := now)],
                           attempts := s0.attempts[id := 0], handles := s0.handles - {id},
                           pending := Cancelled(s0.pending, s0.handles, id), events := s0.events + [Established(id)]);
    }

    /** `markDisconnected(id)`: nothing for an unknown id; otherwise
        disconnected, the loss reported, and a reconnection attempted. */
    method MarkDisconnected(id: string, now: int)
      requires Valid()
      modifies this`reconnectAttempts, this`reconnectTimers, this`pendingReconnects, this`nextHandle, this`events,
               pool`conns, pool`order, pool`idleTimers, pool`events, checker`timers
      ensures Valid()
      ensures Snap() == Disconnect(old(Snap()), id, now, maxReconnectAttempts, reconnectBackoffMs)
    {
      ghost var s0 := Snap();
      var found := SetState(id, CP.Disconnected, now);
      if !found {
        return;
      }
      events := events + [Lost(id)];
      assert Snap() == s0.(conns := s0.conns[id := s0.conns[id].(state := CP.Disconnected, lastActivityAt := now)],
                           events := s0.events + [Lost(id)]);
      AttemptReconnection(id);
    }

    /** `updateMetrics(id, partial)`: the pool's metrics merge. */
    method UpdateMetrics(id: string, p: CP.PartialMetrics, now: int)
      requires Valid()
      modifies pool`conns, pool`events
      ensures Valid()
      ensures id !in old(pool.conns) ==> pool.conns == old(pool.conns)
      ensures id in old(pool.conns) ==>
                pool.conns == old(pool.conns)[id := old(pool.conns)[id].(metrics := CP.MergeMetrics(old(pool.conns)[id].metrics, p), lastActivityAt := now)]
    {
      var ok := pool.UpdateConnectionMetrics(id, p, now);
    }

    /** `recordBytesIn` / `recordBytesOut` / `recordMessageIn` /
        `recordMessageOut`: an unknown id is ignored; otherwise the counter
        grows by `n` in the pooled object and the activity time is set. */
    method Record(id: string, counter: Counter, n: int, now: int)
      requires Valid()
      modifies pool`conns, pool`idleTimers
      ensures Valid()
      ensures pool.conns.Keys == old(pool.conns.Keys)
      ensures id !in old(pool.conns) ==> pool.conns == old(pool.conns)
      ensures id in old(pool.conns) ==>
                var c := old(pool.conns)[id];
                pool.conns == old(pool.conns)[id := c.(metrics := AddTo(c.metrics, counter, n), lastActivityAt := now)]
    {
      var c := pool.GetConnection(id, now);
      if c.Some? {
        pool.WriteThrough(id, c.value.(metrics := AddTo(c.value.metrics, counter, n), lastActivityAt := now));
      }
    }

    method RecordBytesIn(id: string, bytes: int, now: int)
      requires Valid()
      modifies pool`conns, pool`idleTimers
      ensures Valid()
      ensures id !in old(pool.conns) ==> pool.conns == old(pool.conns)
      ensures id in old(pool.conns) ==>
                pool.conns[id].metrics.bytesIn == old(pool.conns)[id].metrics.bytesIn + bytes
    {
      Record(id, BytesIn, bytes, now);
    }

    method RecordBytesOut(id: string, bytes: int, now: int)
      requires Valid()
      modifies pool`conns, pool`idleTimers
      ensures Valid()
      ensures id !in old(pool.conns) ==> pool.conns == old(pool.conns)
      ensures id in old(pool.conns) ==>
                pool.conns[id].metrics.bytesOut == old(pool.conns)[id].metrics.bytesOut + bytes
    {
      Record(id, BytesOut, bytes, now);
    }

    method RecordMessageIn(id: string, now: int)
      requires Valid()
      modifies pool`conns, pool`idleTimers
      ensures Valid()
      ensures id !in old(pool.conns) ==> pool.conns == old(pool.conns)
      ensures id in old(pool.conns) ==>
                pool.conns[id].metrics.messagesIn == old(pool.conns)[id].metrics.messagesIn + 1
    {
      Record(id, MessagesIn, 1, now);
    }

    method RecordMessageOut(id: string, now: int)
      requires Valid()
      modifies pool`conns, pool`idleTimers
      ensures Valid()
      ensures id !in old(pool.conns) ==> pool.conns == old(pool.conns)
      ensures id in old(pool.conns) ==>
                pool.conns[id].metrics.messagesOut == old(pool.conns)[id].metrics.messagesOut + 1
    {
      Record(id, MessagesOut, 1, now);
    }

    /** `destroy()`: the kept reconnect timers are cancelled, and health
        checks, connections and counters dropped. A timer whose handle was
        overwritten stays pending. */
    method Destroy()
      requires Valid()
      modifies this`reconnectAttempts, this`reconnectTimers, this`pendingReconnects,
               pool`conns, pool`order, pool`idleTimers, pool`events,
               checker`timers, checker`isRunning, checker`failureCount
      ensures Valid()
      ensures reconnectTimers == map[] && reconnectAttempts == map[]
      ensures pendingReconnects == old(pendingReconnects) - old(reconnectTimers).Values
      ensures checker.timers == {} && checker.failureCount == map[] && pool.conns == map[]
    {
      reconnectTimers, pendingReconnects := map[], pendingReconnects - reconnectTimers.Values;
      checker.Destroy();
      pool.Clear();
      reconnectAttempts := map[];
    }
  }
}
