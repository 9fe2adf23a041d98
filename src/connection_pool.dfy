/** The backend connection pool (`backend/src/utils/connection-pool.ts`): a
    capacity-bounded map of connections kept in insertion order (the order
    JavaScript's `Map` iterates in), state and metrics updates, idle timers,
    and statistics. The clock is an input; the timers are the set of ids
    that have one, and firing one is an explicit step. */
module ConnectionPool {
  import opened Wrappers
  import opened Seqs

  datatype ConnState = Connecting | Connected | Disconnected | Error

  /** `ConnectionMetrics` */
  datatype Metrics = Metrics(bytesIn: int, bytesOut: int, messagesIn: int, messagesOut: int,
                             latency: int, packetLoss: int)

  /** `Partial<ConnectionMetrics>`: the keys present in the update. */
  datatype PartialMetrics = PartialMetrics(bytesIn: Option<int>, bytesOut: Option<int>,
                                           messagesIn: Option<int>, messagesOut: Option<int>,
                                           latency: Option<int>, packetLoss: Option<int>)

  /** `Connection` */
  datatype Connection = Connection(connectionId: string, clientId: string, protocol: string,
                                   state: ConnState, createdAt: int, lastActivityAt: int,
                                   metrics: Metrics)

  const ZERO_METRICS := Metrics(0, 0, 0, 0, 0, 0)

  /** `{ ...metrics, ...partial }`: every key of the update wins. */
  function MergeMetrics(m: Metrics, p: PartialMetrics): (r: Metrics)
    ensures r.bytesIn == p.bytesIn.GetOr(m.bytesIn) && r.bytesOut == p.bytesOut.GetOr(m.bytesOut)
    ensures r.messagesIn == p.messagesIn.GetOr(m.messagesIn) && r.messagesOut == p.messagesOut.GetOr(m.messagesOut)
    ensures r.latency == p.latency.GetOr(m.latency) && r.packetLoss == p.packetLoss.GetOr(m.packetLoss)
  {
    Metrics(p.bytesIn.GetOr(m.bytesIn), p.bytesOut.GetOr(m.bytesOut),
            p.messagesIn.GetOr(m.messagesIn), p.messagesOut.GetOr(m.messagesOut),
            p.latency.GetOr(m.latency), p.packetLoss.GetOr(m.packetLoss))
  }

  /** An empty update changes nothing, and merging twice is merging once. */
  lemma MergeMetricsLaws(m: Metrics, p: PartialMetrics)
    ensures MergeMetrics(m, PartialMetrics(None, None, None, None, None, None)) == m
    ensures MergeMetrics(MergeMetrics(m, p), p) == MergeMetrics(m, p)
  {
  }

  /** The values of `conns` in the order of `ids`. */
  function ValuesInOrder(ids: seq<string>, conns: map<string, Connection>): (cs: seq<Connection>)
    requires forall i :: 0 <= i < |ids| ==> ids[i] in conns
    ensures |cs| == |ids|
    ensures forall i :: 0 <= i < |ids| ==> cs[i] == conns[ids[i]]
  {
    if ids == [] then [] else [conns[ids[0]]] + ValuesInOrder(ids[1..], conns)
  }

  /** Number of connections in state `st`. */
  function CountState(cs: seq<Connection>, st: ConnState): (n: nat)
    ensures n <= |cs|
  {
    if cs == [] then 0 else (if cs[0].state == st then 1 else 0) + CountState(cs[1..], st)
  }

  /** Every connection is in exactly one of the four states. */
  lemma {:induction false} StateCountsCover(cs: seq<Connection>)
    ensures CountState(cs, Connected) + CountState(cs, Connecting)
            + CountState(cs, Disconnected) + CountState(cs, Error) == |cs|
  {
    if cs != [] {
      StateCountsCover(cs[1..]);
    }
  }

  /** `getStats()` */
  datatype PoolStats = PoolStats(total: nat, active: nat, connecting: nat, disconnected: nat,
                                 error: nat, capacity: nat, utilization: real)

  /** `(total / maxConnections) * 100` */
  function Utilization(total: nat, capacity: nat): (u: real)
    requires capacity > 0
    ensures 0.0 <= u && (total <= capacity ==> u <= 100.0)
  {
    (total as real / capacity as real) * 100.0
  }

  /** Two connections of ten give 20. */
  lemma UtilizationExample()
    ensures Utilization(2, 10) == 20.0
  {
  }

  function Stats(cs: seq<Connection>, capacity: nat): (s: PoolStats)
    requires capacity > 0
    ensures s.total == |cs| && s.capacity == capacity
    ensures s.active + s.connecting + s.disconnected + s.error == s.total
    ensures s.active == CountState(cs, Connected) && s.connecting == CountState(cs, Connecting)
    ensures s.disconnected == CountState(cs, Disconnected) && s.error == CountState(cs, Error)
    ensures s.utilization == Utilization(|cs|, capacity)
  {
    StateCountsCover(cs);
    PoolStats(|cs|, CountState(cs, Connected), CountState(cs, Connecting), CountState(cs, Disconnected),
              CountState(cs, Error), capacity, Utilization(|cs|, capacity))
  }

  /** What the pool emits. */
  datatype PoolEvent = Added(c: Connection) | Removed(c: Connection)
                     | StateChanged(connectionId: string, oldState: ConnState, newState: ConnState)
                     | MetricsUpdated(connectionId: string, metrics: Metrics)
                     | Idle(c: Connection) | Cleared

  /** `x || d` for a numeric option: absent and 0 give the default. */
  function OrDefault(x: Option<nat>, d: nat): nat
  {
    if x.Some? && x.value != 0 then x.value else d
  }

  /** `order` lists each key of `conns` once. */
  predicate Indexed(order: seq<string>, conns: map<string, Connection>)
  {
    (forall i :: 0 <= i < |order| ==> order[i] in conns)
    && (forall k :: k in conns ==> k in order)
    && (forall i, j :: 0 <= i < j < |order| ==> order[i] != order[j])
  }

  /** `order` without `id`. */
  function Without(order: seq<string>, id: string): (r: seq<string>)
    ensures forall k :: k in r <==> k in order && k != id
    ensures |r| <= |order|
  {
    if order == [] then []
    else if order[0] == id then Without(order[1..], id)
    else [order[0]] + Without(order[1..], id)
  }

  /** Dropping an id from a duplicate-free list keeps it duplicate-free
      and, when the id is listed, shortens it by one. */
  lemma {:induction false} WithoutFacts(order: seq<string>, id: string)
    requires forall i, j :: 0 <= i < j < |order| ==> order[i] != order[j]
    ensures var r := Without(order, id);
      (forall i, j :: 0 <= i < j < |r| ==> r[i] != r[j])
      && |r| == if id in order then |order| - 1 else |order|
  {
    if order != [] {
      var tail := order[1..];
      assert order[0] !in tail by {
        forall j | 0 <= j < |tail| ensures tail[j] != order[0] {
          assert tail[j] == order[j + 1];
        }
      }
      assert forall i, j :: 0 <= i < j < |tail| ==> tail[i] != tail[j] by {
        forall i, j | 0 <= i < j < |tail| ensures tail[i] != tail[j] {
          assert tail[i] == order[i + 1] && tail[j] == order[j + 1];
        }
      }
      WithoutFacts(tail, id);
      assert id in order <==> id == order[0] || id in tail;
    }
  }

  class Pool {
    var conns: map<string, Connection>
    /** The keys of `connections` in insertion order */
    var order: seq<string>
    /** Ids with an idle timer */
    var idleTimers: set<string>
    var maxConnections: nat
    var connectionTimeout: nat
    var idleTimeout: nat
    var events: seq<PoolEvent>

    ghost predicate Valid()
      reads this
    {
      Indexed(order, conns) && 0 < maxConnections && |order| <= maxConnections
    }

    /** `connections.size` */
    function Size(): (n: nat)
      reads this
      requires Valid()
      ensures n == |order|
    {
      |order|
    }

    /** `new ConnectionPool(config)`: each option falls back to its default
        when absent or 0. */
    constructor (maxOption: Option<nat>, connectionTimeoutOption: Option<nat>, idleTimeoutOption: Option<nat>)
      ensures Valid() && conns == map[] && order == [] && idleTimers == {} && events == []
      ensures maxConnections == OrDefault(maxOption, 100)
      ensures connectionTimeout == OrDefault(connectionTimeoutOption, 5000)
      ensures idleTimeout == OrDefault(idleTimeoutOption, 300000)
    {
      conns, order, idleTimers, events := map[], [], {}, [];
      maxConnections := OrDefault(maxOption, 100);
      connectionTimeout := OrDefault(connectionTimeoutOption, 5000);
      idleTimeout := OrDefault(idleTimeoutOption, 300000);
    }

    /** `addConnection(connection)`: refused at capacity; otherwise stored
        under its id (replacing an entry with the same id in place). */
    method AddConnection(c: Connection) returns (added: bool)
      requires Valid()
      modifies this`conns, this`order, this`events
      ensures Valid()
      ensures added <==> old(|order|) < maxConnections
      ensures !added ==> conns == old(conns) && order == old(order) && events == old(events)
      ensures added ==>
                conns == old(conns)[c.connectionId := c]
                && order == (if c.connectionId in old(conns) then old(order) else old(order) + [c.connectionId])
                && events == old(events) + [Added(c)]
    {
      if |order| >= maxConnections {
        return false;
      }
      if c.connectionId !in conns {
        order := order + [c.connectionId];
      }
      conns := conns[c.connectionId := c];
      events := events + [Added(c)];
      return true;
    }

    /** `getConnection(id)`: a hit clears the idle timer and stamps the
        activity time. */
    method GetConnection(id: string, now: int) returns (r: Option<Connection>)
      requires Valid()
      modifies this`conns, this`idleTimers
      ensures Valid() && order == old(order) && conns.Keys == old(conns).Keys
      ensures r.Some? <==> id in old(conns)
      ensures id !in old(conns) ==> conns == old(conns) && idleTimers == old(idleTimers)
      ensures id in old(conns) ==>
                r == Some(old(conns)[id].(lastActivityAt := now))
                && conns == old(conns)[id := r.value] && idleTimers == old(idleTimers) - {id}
    {
      if id !in conns {
        return None;
      }
      idleTimers := idleTimers - {id};
      var c := conns[id].(lastActivityAt := now);
      conns := conns[id := c];
      return Some(c);
    }

    /** `removeConnection(id)`: the timer is cleared in any case; a known
        connection is removed, reported, and returned. */
    method RemoveConnection(id: string) returns (r: Option<Connection>)
      requires Valid()
      modifies this`conns, this`order, this`idleTimers, this`events
      ensures Valid()
      ensures idleTimers == old(idleTimers) - {id}
      ensures r == (if id in old(conns) then Some(old(conns)[id]) else None)
      ensures conns == old(conns) - {id} && order == Without(old(order), id)
      ensures |order| == if id in old(conns) then old(|order|) - 1 else old(|order|)
      ensures events == old(events) + (if id in old(conns) then [Removed(old(conns)[id])] else [])
    {
      idleTimers := idleTimers - {id};
      assert Indexed(Without(order, id), conns - {id}) && |Without(order, id)| == if id in conns then |order| - 1 else |order| by {
        WithoutFacts(order, id);
        var w := Without(order, id);
        forall i | 0 <= i < |w| ensures w[i] in conns - {id} {
          assert w[i] in w;
        }
      }
      r := if id in conns then Some(conns[id]) else None;
      if id in conns {
        events := events + [Removed(conns[id])];
      }
      conns := conns - {id};
      order := Without(order, id);
    }

    /** `getAllConnections()`, in insertion order. */
    function AllConnections(): (cs: seq<Connection>)
      reads this
      requires Valid()
      ensures |cs| == |order|
      ensures forall c :: c in cs <==> exists k :: k in conns && conns[k] == c
    {
      var cs := ValuesInOrder(order, conns);
      assert forall k :: k in conns ==> conns[k] in cs by {
        forall k | k in conns ensures conns[k] in cs {
          var i :| 0 <= i < |order| && order[i] == k;
          assert cs[i] == conns[k];
        }
      }
      cs
    }

    /** `getActiveConnections()`: exactly the connected ones. */
    function ActiveConnections(): (cs: seq<Connection>)
      reads this
      requires Valid()
      ensures forall c :: c in cs <==> c in AllConnections() && c.state == Connected
    {
      Filter(AllConnections(), (c: Connection) => c.state == Connected)
    }

    /** `isFull()` */
    predicate IsFull()
      reads this
      requires Valid()
    {
      Size() >= maxConnections
    }

    /** `getAvailableSlots()`: never negative, since adding stops at capacity. */
    function AvailableSlots(): (n: int)
      reads this
      requires Valid()
      ensures n == maxConnections - Size() && n >= 0
      ensures n == 0 <==> IsFull()
    {
      maxConnections - |order|
    }

    /** `updateConnectionState(id, state)`: false for an unknown id;
        otherwise the state and activity time are set and the change is
        reported. */
    method UpdateConnectionState(id: string, st: ConnState, now: int) returns (ok: bool)
      requires Valid()
      modifies this`conns, this`events
      ensures Valid() && order == old(order) && conns.Keys == old(conns).Keys
      ensures ok <==> id in old(conns)
      ensures !ok ==> conns == old(conns) && events == old(events)
      ensures ok ==>
                conns == old(conns)[id := old(conns)[id].(state := st, lastActivityAt := now)]
                && events == old(events) + [StateChanged(id, old(conns)[id].state, st)]
    {
      if id !in conns {
        return false;
      }
      var c := conns[id];
      conns := conns[id := c.(state := st, lastActivityAt := now)];
      events := events + [StateChanged(id, c.state, st)];
      return true;
    }

    /** `updateConnectionMetrics(id, partial)`: false for an unknown id;
        otherwise the partial metrics are merged over the current ones. */
    method UpdateConnectionMetrics(id: string, p: PartialMetrics, now: int) returns (ok: bool)
      requires Valid()
      modifies this`conns, this`events
      ensures Valid() && order == old(order)
      ensures ok <==> id in old(conns)
      ensures !ok ==> conns == old(conns) && events == old(events)
      ensures ok ==>
                var m := MergeMetrics(old(conns)[id].metrics, p);
                conns == old(conns)[id := old(conns)[id].(metrics := m, lastActivityAt := now)]
                && events == old(events) + [MetricsUpdated(id, m)]
    {
      if id !in conns {
        return false;
      }
      var c := conns[id];
      var m := MergeMetrics(c.metrics, p);
      conns := conns[id := c.(metrics := m, lastActivityAt := now)];
      events := events + [MetricsUpdated(id, m)];
      return true;
    }

    /** A caller's write through the object `getConnection` handed out:
        the stored connection becomes `c`, nothing is reported. */
    method WriteThrough(id: string, c: Connection)
      requires Valid() && id in conns
      modifies this`conns
      ensures Valid() && order == old(order)
      ensures conns == old(conns)[id := c]
    {
      conns := conns[id := c];
    }

    /** `setIdleTimer(id)`: any previous timer is replaced by a new one. */
    method SetIdleTimer(id: string)
      modifies this`idleTimers
      ensures idleTimers == old(idleTimers) + {id}
    {
      idleTimers := idleTimers + {id};
    }

    /** The idle timer of `id` firing: a connection still present is
        reported idle and removed. */
    method IdleTimerFires(id: string)
      requires Valid()
      modifies this`conns, this`order, this`idleTimers, this`events
      ensures Valid()
      ensures conns == old(conns) - {id} && idleTimers == old(idleTimers) - {id}
      ensures events == old(events) + (if id in old(conns) then [Idle(old(conns)[id]), Removed(old(conns)[id])] else [])
    {
      if id in conns {
        events := events + [Idle(conns[id])];
        var _ := RemoveConnection(id);
      } else {
        idleTimers := idleTimers - {id};
      }
    }

    /** `getStats()` */
    function GetStats(): (s: PoolStats)
      reads this
      requires Valid()
      ensures s == Stats(AllConnections(), maxConnections)
      ensures s.total == Size()
    {
      Stats(AllConnections(), maxConnections)
    }

    /** `clear()` (and `destroy()`): every timer and connection is dropped. */
    method Clear()
      requires Valid()
      modifies this`conns, this`order, this`idleTimers, this`events
      ensures Valid() && conns == map[] && order == [] && idleTimers == {}
      ensures events == old(events) + [Cleared]
    {
      conns, order, idleTimers := map[], [], {};
      events := events + [Cleared];
    }
  }
}
