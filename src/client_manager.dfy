/** The backend's WebSocket client registry (`backend/src/websocket/clientManager.js`):
    the connected clients in connection order, the one Android device, and
    per-client queues of reliable messages that are resent until they go
    through or have failed three times. Sockets are outside the model:
    whether a client's socket is open and whether a send to it throws are
    parameters (`open`, `accepts`), the messages that went over the wire
    are recorded, and so are the sockets closed by the inactivity sweep.
    The clock is a parameter; the retry timer firing is a later call of
    `ProcessMessageQueue`. */
module ClientManager {
  import opened Wrappers
  import opened Seqs

  const MAX_RETRIES := 3
  const RETRY_DELAY := 1000
  const SEND_TIMEOUT := 5000
  const DEFAULT_INACTIVE_TIMEOUT := 300000

  /** A message, opaque here. */
  datatype Message = Message(kind: string, payload: string)

  /** A client: the fields `updateClient` merges into (`type` among them),
      and its times. The socket is identified by the client's id. */
  datatype Client = Client(fields: map<string, string>, connectedAt: int, lastActivity: int)

  /** The Android device: the client it is, and the updates that announced it. */
  datatype AndroidDevice = AndroidDevice(id: string, info: map<string, string>)

  /** A queued reliable message with its failed attempts so far. */
  datatype Item = Item(message: Message, retries: nat, timestamp: int)

  /** A message that went over a client's socket. */
  datatype Delivery = Delivery(clientId: string, message: Message)

  /** The registry's state as a value. */
  datatype Hub = Hub(clients: map<string, Client>, order: seq<string>, android: Option<AndroidDevice>,
                     queues: map<string, seq<Item>>, wire: seq<Delivery>, closed: seq<string>)

  /** What a send reports, and the registry after it. */
  datatype Outcome = Outcome(ok: bool, hub: Hub)

  /** A count kept over a run of steps, and the registry after them. */
  datatype Tally = Tally(count: nat, hub: Hub)

  function TypeOf(c: Client): Option<string>
  {
    if "type" in c.fields then Some(c.fields["type"]) else None
  }

  // ---------------------------------------------------------------------------
  // Invariants

  predicate RetriesBelow(q: seq<Item>)
  {
    forall i :: 0 <= i < |q| ==> q[i].retries < MAX_RETRIES
  }

  /** Every queue held is non-empty and every item in it has failed fewer
      than three times. */
  ghost predicate QueuesValid(queues: map<string, seq<Item>>)
  {
    forall k :: k in queues ==> queues[k] != [] && RetriesBelow(queues[k])
  }

  /** The order lists each client once, and the Android device is a client. */
  ghost predicate HubValid(h: Hub)
  {
    Distinct(h.order)
    && (forall k :: k in h.order <==> k in h.clients)
    && (h.android.Some? ==> h.android.value.id in h.clients)
    && QueuesValid(h.queues)
  }

  // ---------------------------------------------------------------------------
  // Draining one queue

  /** What one run of `processMessageQueue` does to a queue: the queue
      left, the messages sent and the messages given up on. */
  datatype Drained = Drained(queue: seq<Item>, sent: seq<Delivery>, dropped: seq<Message>)

  /** `processMessageQueue` on an open socket: the head is sent; on success
      it is shifted and the rest follows; on failure its retry count goes
      up, and below three the run stops (a retry timer is set), otherwise
      it is shifted and the rest follows. */
  function Drain(q: seq<Item>, id: string, accepts: Delivery -> bool): (r: Drained)
    ensures |r.sent| + |r.dropped| + |r.queue| == |q|
    decreases |q|
  {
    if q == [] then Drained([], [], [])
    else
      var head := q[0];
      if accepts(Delivery(id, head.message)) then
        var rest := Drain(q[1..], id, accepts);
        rest.(sent := [Delivery(id, head.message)] + rest.sent)
      else if head.retries + 1 < MAX_RETRIES then
        Drained([head.(retries := head.retries + 1)] + q[1..], [], [])
      else
        var rest := Drain(q[1..], id, accepts);
        rest.(dropped := [head.message] + rest.dropped)
  }

  /** What a run leaves is the queue from the first message it kept, whose
      send failed and got counted, the later ones untouched; everything it
      sent went to the client and was taken. */
  lemma {:induction false} DrainShape(q: seq<Item>, id: string, accepts: Delivery -> bool)
    ensures var r := Drain(q, id, accepts);
      r.queue != [] ==>
        var k := |q| - |r.queue|;
        r.queue[1..] == q[k + 1..] && r.queue[0] == q[k].(retries := q[k].retries + 1)
        && !accepts(Delivery(id, q[k].message)) && r.queue[0].retries < MAX_RETRIES
    ensures var r := Drain(q, id, accepts);
      forall i :: 0 <= i < |r.sent| ==> r.sent[i].clientId == id && accepts(r.sent[i])
    decreases |q|
  {
    if q != [] {
      DrainShape(q[1..], id, accepts);
      var r := Drain(q, id, accepts);
      var rest := Drain(q[1..], id, accepts);
      if accepts(Delivery(id, q[0].message)) {
        forall i | 0 <= i < |r.sent| ensures r.sent[i].clientId == id && accepts(r.sent[i]) {
          if i > 0 {
            assert r.sent[i] == rest.sent[i - 1];
          }
        }
      }
      if r.queue != [] && r.queue == rest.queue {
        var k := |q| - |r.queue|;
        assert q[1..][k - 1..] == q[k..];
      }
    }
  }

  /** A queue whose items have failed fewer than three times keeps that
      after a run. */
  lemma DrainKeepsRetriesBelow(q: seq<Item>, id: string, accepts: Delivery -> bool)
    requires RetriesBelow(q)
    ensures RetriesBelow(Drain(q, id, accepts).queue)
  {
    var r := Drain(q, id, accepts);
    DrainShape(q, id, accepts);
    if r.queue != [] {
      var k := |q| - |r.queue|;
      forall i | 0 <= i < |r.queue| ensures r.queue[i].retries < MAX_RETRIES {
        if i > 0 {
          assert r.queue[i] == r.queue[1..][i - 1] == q[k + 1 + (i - 1)];
        }
      }
    }
  }

  /** When every send goes through, the whole queue is sent in order. */
  lemma {:induction false} DrainAllAccepted(q: seq<Item>, id: string, accepts: Delivery -> bool)
    requires forall i :: 0 <= i < |q| ==> accepts(Delivery(id, q[i].message))
    ensures var r := Drain(q, id, accepts);
      r.queue == [] && r.dropped == [] && |r.sent| == |q|
      && forall i :: 0 <= i < |q| ==> r.sent[i] == Delivery(id, q[i].message)
    decreases |q|
  {
    if q != [] {
      assert accepts(Delivery(id, q[0].message));
      DrainAllAccepted(q[1..], id, accepts);
      var rest := Drain(q[1..], id, accepts);
      var r := Drain(q, id, accepts);
      assert r.sent == [Delivery(id, q[0].message)] + rest.sent;
      forall i | 0 <= i < |q| ensures r.sent[i] == Delivery(id, q[i].message) {
        if i > 0 {
          assert r.sent[i] == rest.sent[i - 1];
          assert q[1..][i - 1] == q[i];
        }
      }
    }
  }

  /** A message that has failed twice is given up on at its next failure;
      one that has failed less is kept, with one more failure counted. */
  lemma DrainHeadFails(q: seq<Item>, id: string, accepts: Delivery -> bool)
    requires q != [] && !accepts(Delivery(id, q[0].message))
    ensures var r := Drain(q, id, accepts);
      if q[0].retries + 1 < MAX_RETRIES then
        r == Drained([q[0].(retries := q[0].retries + 1)] + q[1..], [], [])
      else
        r.queue == Drain(q[1..], id, accepts).queue && r.dropped == [q[0].message] + Drain(q[1..], id, accepts).dropped
  {
  }

  /** The sending loop of `processMessageQueue` on an open socket. */
  method DrainLoop(q: seq<Item>, id: string, accepts: Delivery -> bool) returns (cur: seq<Item>, sent: seq<Delivery>)
    ensures cur == Drain(q, id, accepts).queue && sent == Drain(q, id, accepts).sent
  {
    cur, sent := q, [];
    var dropped: seq<Message> := [];
    while cur != []
      invariant var d := Drain(cur, id, accepts);
        Drain(q, id, accepts) == Drained(d.queue, sent + d.sent, dropped + d.dropped)
      decreases |cur|
    {
      var head := cur[0];
      if accepts(Delivery(id, head.message)) {
        var rest := Drain(cur[1..], id, accepts);
        assert sent + ([Delivery(id, head.message)] + rest.sent) == (sent + [Delivery(id, head.message)]) + rest.sent;
        sent := sent + [Delivery(id, head.message)];
        cur := cur[1..];
      } else if head.retries + 1 < MAX_RETRIES {
        cur := [head.(retries := head.retries + 1)] + cur[1..];
        return;
      } else {
        var rest := Drain(cur[1..], id, accepts);
        assert dropped + ([head.message] + rest.dropped) == (dropped + [head.message]) + rest.dropped;
        dropped := dropped + [head.message];
        cur := cur[1..];
      }
    }
  }

  // ---------------------------------------------------------------------------
  // The registry's operations, on values

  /** `processMessageQueue(id)`: nothing without a queue or with a closed or
      missing client; otherwise the queue is drained and deleted once empty. */
  function ProcessQueue(h: Hub, id: string, open: string -> bool, accepts: Delivery -> bool): (r: Hub)
    ensures r.clients == h.clients && r.order == h.order && r.android == h.android && r.closed == h.closed
    ensures r.queues.Keys <= h.queues.Keys && (forall k :: k in h.queues && k != id ==> k in r.queues && r.queues[k] == h.queues[k])
    ensures (id !in h.queues || h.queues[id] == [] || id !in h.clients || !open(id)) ==> r == h
    ensures id in h.queues && h.queues[id] != [] && id in h.clients && open(id) ==>
      var d := Drain(h.queues[id], id, accepts);
      r.wire == h.wire + d.sent && (id in r.queues <==> d.queue != []) && (d.queue != [] ==> r.queues[id] == d.queue)
  {
    if id !in h.queues || h.queues[id] == [] then h
    else if id !in h.clients || !open(id) then h
    else
      var d := Drain(h.queues[id], id, accepts);
      h.(queues := if d.queue == [] then h.queues - {id} else h.queues[id := d.queue], wire := h.wire + d.sent)
  }

  /** `enqueueMessage(id, message)` at time `now`: appended to the client's
      queue (made if missing) with no failures, then the queue processed. */
  function Enqueue(h: Hub, id: string, m: Message, now: int, open: string -> bool, accepts: Delivery -> bool): (r: Hub)
    ensures r.clients == h.clients && r.order == h.order && r.android == h.android && r.closed == h.closed
  {
    var q := (if id in h.queues then h.queues[id] else []) + [Item(m, 0, now)];
    ProcessQueue(h.(queues := h.queues[id := q]), id, open, accepts)
  }

  /** With the client's socket closed (or the client missing), the message
      waits at the end of the client's queue. */
  lemma EnqueueWhileClosed(h: Hub, id: string, m: Message, now: int, open: string -> bool, accepts: Delivery -> bool)
    requires id !in h.clients || !open(id)
    ensures var r := Enqueue(h, id, m, now, open, accepts);
      r.wire == h.wire && id in r.queues
      && r.queues[id] == (if id in h.queues then h.queues[id] else []) + [Item(m, 0, now)]
  {
  }

  /** Processing keeps the queues valid. */
  lemma ProcessQueueValid(h: Hub, id: string, open: string -> bool, accepts: Delivery -> bool)
    requires id in h.queues ==> RetriesBelow(h.queues[id])
    requires forall k :: k in h.queues && k != id ==> h.queues[k] != [] && RetriesBelow(h.queues[k])
    requires id in h.queues ==> h.queues[id] != []
    ensures QueuesValid(ProcessQueue(h, id, open, accepts).queues)
  {
    if id in h.queues && h.queues[id] != [] && id in h.clients && open(id) {
      DrainKeepsRetriesBelow(h.queues[id], id, accepts);
    }
  }

  lemma EnqueueValid(h: Hub, id: string, m: Message, now: int, open: string -> bool, accepts: Delivery -> bool)
    requires HubValid(h)
    ensures HubValid(Enqueue(h, id, m, now, open, accepts))
  {
    var q := (if id in h.queues then h.queues[id] else []) + [Item(m, 0, now)];
    assert RetriesBelow(q) by {
      forall i | 0 <= i < |q| ensures q[i].retries < MAX_RETRIES {
        if i < |q| - 1 {
          assert q[i] == h.queues[id][i];
        }
      }
    }
    ProcessQueueValid(h.(queues := h.queues[id := q]), id, open, accepts);
  }

  /** `sendToClient(id, message, reliable)`: with the client missing or its
      socket not open, or when the send throws, a reliable message is
      queued and reported sent, an unreliable one reported failed. */
  function SendTo(h: Hub, id: string, m: Message, reliable: bool, now: int, open: string -> bool,
                  accepts: Delivery -> bool): (r: Outcome)
    ensures r.hub.clients == h.clients && r.hub.order == h.order && r.hub.android == h.android && r.hub.closed == h.closed
    ensures r.ok <==> reliable || (id in h.clients && open(id) && accepts(Delivery(id, m)))
    ensures !reliable ==> r.hub == if r.ok then h.(wire := h.wire + [Delivery(id, m)]) else h
    ensures id in h.clients && open(id) && accepts(Delivery(id, m)) ==> r.hub == h.(wire := h.wire + [Delivery(id, m)])
  {
    if id !in h.clients || !open(id) then
      if reliable then Outcome(true, Enqueue(h, id, m, now, open, accepts)) else Outcome(false, h)
    else if accepts(Delivery(id, m)) then Outcome(true, h.(wire := h.wire + [Delivery(id, m)]))
    else if reliable then Outcome(true, Enqueue(h, id, m, now, open, accepts))
    else Outcome(false, h)
  }

  lemma SendToValid(h: Hub, id: string, m: Message, reliable: bool, now: int, open: string -> bool,
                    accepts: Delivery -> bool)
    requires HubValid(h)
    ensures HubValid(SendTo(h, id, m, reliable, now, open, accepts).hub)
  {
    EnqueueValid(h, id, m, now, open, accepts);
  }

  /** `sendToAndroidDevice(message, reliable)`: as `sendToClient` for the
      Android device; with none, a reliable message is reported sent
      without being queued anywhere. */
  function SendToAndroid(h: Hub, m: Message, reliable: bool, now: int, open: string -> bool,
                         accepts: Delivery -> bool): (r: Outcome)
    ensures h.android.None? ==> r == Outcome(reliable, h)
    ensures h.android.Some? && h.android.value.id in h.clients ==> r == SendTo(h, h.android.value.id, m, reliable, now, open, accepts)
  {
    if h.android.None? || !open(h.android.value.id) then
      if reliable then Outcome(true, if h.android.Some? then Enqueue(h, h.android.value.id, m, now, open, accepts) else h)
      else Outcome(false, h)
    else
      var id := h.android.value.id;
      if accepts(Delivery(id, m)) then Outcome(true, h.(wire := h.wire + [Delivery(id, m)]))
      else if reliable then Outcome(true, Enqueue(h, id, m, now, open, accepts))
      else Outcome(false, h)
  }

  /** Whether a broadcast addresses client `id`. */
  predicate Targeted(clients: map<string, Client>, exclude: Option<string>, webOnly: bool, id: string)
  {
    id in clients && (!webOnly || TypeOf(clients[id]) == Some("web")) && exclude != Some(id)
  }

  /** One step of a broadcast: an addressed client `id` is sent the
      message, and the count goes up when the send reports success. */
  function BroadcastOne(acc: Tally, id: string, exclude: Option<string>, webOnly: bool, m: Message,
                        reliable: bool, now: int, open: string -> bool, accepts: Delivery -> bool): (r: Tally)
    ensures r.hub.clients == acc.hub.clients && r.hub.order == acc.hub.order && r.hub.android == acc.hub.android
    ensures r.hub.closed == acc.hub.closed && acc.count <= r.count <= acc.count + 1
    ensures !Targeted(acc.hub.clients, exclude, webOnly, id) ==> r == acc
  {
    if Targeted(acc.hub.clients, exclude, webOnly, id) then
      var sent := SendTo(acc.hub, id, m, reliable, now, open, accepts);
      Tally(acc.count + (if sent.ok then 1 else 0), sent.hub)
    else acc
  }

  /** A broadcast over the first `n` of `ids`, in order: the number of
      sends reported successful and the registry after them. */
  function Broadcast(h: Hub, ids: seq<string>, n: nat, exclude: Option<string>, webOnly: bool, m: Message,
                     reliable: bool, now: int, open: string -> bool, accepts: Delivery -> bool): (r: Tally)
    requires n <= |ids|
    ensures r.hub.clients == h.clients && r.hub.order == h.order && r.hub.android == h.android && r.hub.closed == h.closed
    ensures r.count <= n
  {
    if n == 0 then Tally(0, h)
    else
      BroadcastOne(Broadcast(h, ids, n - 1, exclude, webOnly, m, reliable, now, open, accepts), ids[n - 1],
                   exclude, webOnly, m, reliable, now, open, accepts)
  }

  /** A reliable broadcast reports every addressed client as sent. */
  lemma {:induction false} BroadcastCountsReliable(h: Hub, ids: seq<string>, n: nat, exclude: Option<string>,
                                                 webOnly: bool, m: Message, now: int, open: string -> bool,
                                                 accepts: Delivery -> bool)
    requires n <= |ids|
    ensures Broadcast(h, ids, n, exclude, webOnly, m, true, now, open, accepts).count
            == |Filter(ids[..n], (id: string) => Targeted(h.clients, exclude, webOnly, id))|
  {
    if n > 0 {
      BroadcastCountsReliable(h, ids, n - 1, exclude, webOnly, m, now, open, accepts);
      assert ids[..n] == ids[..n - 1] + [ids[n - 1]];
      FilterConcat(ids[..n - 1], [ids[n - 1]], (id: string) => Targeted(h.clients, exclude, webOnly, id));
    }
  }

  /** An unreliable broadcast counts exactly the addressed clients whose
      socket is open and took the message, and sends nothing else. */
  lemma {:induction false} BroadcastCountsUnreliable(h: Hub, ids: seq<string>, n: nat, exclude: Option<string>,
                                                   webOnly: bool, m: Message, now: int, open: string -> bool,
                                                   accepts: Delivery -> bool)
    requires n <= |ids|
    ensures var took := Filter(ids[..n], (id: string) => Targeted(h.clients, exclude, webOnly, id) && open(id)
                                                         && accepts(Delivery(id, m)));
      var r := Broadcast(h, ids, n, exclude, webOnly, m, false, now, open, accepts);
      r.count == |took| && r.hub.queues == h.queues && |r.hub.wire| == |h.wire| + |took|
  {
    if n > 0 {
      BroadcastCountsUnreliable(h, ids, n - 1, exclude, webOnly, m, now, open, accepts);
      assert ids[..n] == ids[..n - 1] + [ids[n - 1]];
      FilterConcat(ids[..n - 1], [ids[n - 1]], (id: string) => Targeted(h.clients, exclude, webOnly, id) && open(id)
                                                               && accepts(Delivery(id, m)));
    }
  }

  lemma {:induction false} BroadcastValid(h: Hub, ids: seq<string>, n: nat, exclude: Option<string>, webOnly: bool,
                                          m: Message, reliable: bool, now: int, open: string -> bool,
                                          accepts: Delivery -> bool)
    requires HubValid(h) && n <= |ids|
    ensures HubValid(Broadcast(h, ids, n, exclude, webOnly, m, reliable, now, open, accepts).hub)
  {
    if n > 0 {
      var before := Broadcast(h, ids, n - 1, exclude, webOnly, m, reliable, now, open, accepts);
      BroadcastValid(h, ids, n - 1, exclude, webOnly, m, reliable, now, open, accepts);
      SendToValid(before.hub, ids[n - 1], m, reliable, now, open, accepts);
    }
  }

  /** `removeClient(id)`: the client, its queue and, if it was the Android
      device, that record dropped. Unknown ids change nothing. */
  function Removed(h: Hub, id: string): (r: Hub)
    ensures id !in h.clients ==> r == h
    ensures id in h.clients ==>
      r.clients == h.clients - {id} && r.order == RemoveFirst(h.order, id) && r.queues == h.queues - {id}
      && r.android == (if h.android.Some? && h.android.value.id == id then None else h.android)
      && r.wire == h.wire && r.closed == h.closed
  {
    if id !in h.clients then h
    else
      h.(android := if h.android.Some? && h.android.value.id == id then None else h.android,
         clients := h.clients - {id}, order := RemoveFirst(h.order, id), queues := h.queues - {id})
  }

  lemma RemovedValid(h: Hub, id: string)
    requires HubValid(h)
    ensures HubValid(Removed(h, id))
  {
    RemoveFirstDistinct(h.order, id);
  }

  /** `updateClient(id, updates)`: the updates merged over the client's
      fields; updates naming the platform 'android' make it the Android
      device. Unknown ids change nothing. */
  function Updated(h: Hub, id: string, updates: map<string, string>): (r: Hub)
    ensures id !in h.clients ==> r == h
    ensures id in h.clients ==>
      r.clients == h.clients[id := h.clients[id].(fields := h.clients[id].fields + updates)]
      && r.order == h.order && r.queues == h.queues && r.wire == h.wire && r.closed == h.closed
      && r.android == (if "platform" in updates && updates["platform"] == "android" then Some(AndroidDevice(id, updates))
                       else h.android)
  {
    if id !in h.clients then h
    else
      var c := h.clients[id];
      var h1 := h.(clients := h.clients[id := c.(fields := c.fields + updates)]);
      if "platform" in updates && updates["platform"] == "android" then h1.(android := Some(AndroidDevice(id, updates)))
      else h1
  }

  /** Whether a client has been idle longer than `timeout` at `now`. */
  predicate Inactive(c: Client, now: int, timeout: int)
  {
    now - c.lastActivity > timeout
  }

  /** One step of the sweep: an idle client `id` has its socket closed and
      is removed, and the count goes up. */
  function CleanOne(acc: Tally, id: string, now: int, timeout: int): (r: Tally)
    ensures r.hub.wire == acc.hub.wire
    ensures id in acc.hub.clients && Inactive(acc.hub.clients[id], now, timeout) ==>
      r.count == acc.count + 1 && r.hub.clients == acc.hub.clients - {id}
    ensures !(id in acc.hub.clients && Inactive(acc.hub.clients[id], now, timeout)) ==> r == acc
  {
    var h := acc.hub;
    if id in h.clients && Inactive(h.clients[id], now, timeout) then
      Tally(acc.count + 1, Removed(h.(closed := h.closed + [id]), id))
    else acc
  }

  /** `cleanupInactiveClients(timeout)` at `now` over the first `n` of
      `ids`, in order; the number removed and the registry after. The
      count is the number of clients that left the registry. */
  function Cleanup(h: Hub, ids: seq<string>, n: nat, now: int, timeout: int): (r: Tally)
    requires n <= |ids|
    ensures r.count <= n && r.hub.wire == h.wire
    ensures r.count + |r.hub.clients| == |h.clients|
  {
    if n == 0 then Tally(0, h)
    else
      var before := Cleanup(h, ids, n - 1, now, timeout);
      CleanOneCounts(before, ids[n - 1], now, timeout);
      CleanOne(before, ids[n - 1], now, timeout)
  }

  lemma MapRemoveCard<K, V>(m: map<K, V>, k: K)
    requires k in m
    ensures |m - {k}| == |m| - 1
  {
    assert (m - {k}).Keys == m.Keys - {k};
  }

  /** The sweep only removes clients, and leaves the others as they were. */
  lemma {:induction false} CleanupKeepsRecords(h: Hub, ids: seq<string>, n: nat, now: int, timeout: int)
    requires n <= |ids|
    ensures var r := Cleanup(h, ids, n, now, timeout);
      r.hub.clients.Keys <= h.clients.Keys && forall k :: k in r.hub.clients ==> r.hub.clients[k] == h.clients[k]
  {
    var r := Cleanup(h, ids, n, now, timeout);
    forall k | k in r.hub.clients ensures k in h.clients && r.hub.clients[k] == h.clients[k] {
      CleanupKeepsRecord(h, ids, n, now, timeout, k);
    }
  }

  /** A client the sweep leaves in place keeps its record. */
  lemma {:induction false} CleanupKeepsRecord(h: Hub, ids: seq<string>, n: nat, now: int, timeout: int, k: string)
    requires n <= |ids| && k in Cleanup(h, ids, n, now, timeout).hub.clients
    ensures k in h.clients && Cleanup(h, ids, n, now, timeout).hub.clients[k] == h.clients[k]
  {
    if n > 0 {
      var before := Cleanup(h, ids, n - 1, now, timeout);
      CleanupUnfold(h, ids, n, now, timeout);
      CleanOneMember(before, ids[n - 1], now, timeout, k);
      CleanupKeepsRecord(h, ids, n - 1, now, timeout, k);
    }
  }

  /** The sweep removes exactly the idle clients among `ids` and keeps
      every other client. */
  lemma {:induction false} CleanupRemovesIdle(h: Hub, ids: seq<string>, n: nat, now: int, timeout: int)
    requires n <= |ids|
    ensures var r := Cleanup(h, ids, n, now, timeout);
      forall k :: k in h.clients ==> (k in r.hub.clients <==> !(k in ids[..n] && Inactive(h.clients[k], now, timeout)))
  {
    var r := Cleanup(h, ids, n, now, timeout);
    forall k | k in h.clients
      ensures k in r.hub.clients <==> !(k in ids[..n] && Inactive(h.clients[k], now, timeout))
    {
      CleanupRemovesIdleAt(h, ids, n, now, timeout, k);
    }
  }

  /** The sweep removes one client exactly when it is idle and among `ids`. */
  lemma {:induction false} CleanupRemovesIdleAt(h: Hub, ids: seq<string>, n: nat, now: int, timeout: int, k: string)
    requires n <= |ids| && k in h.clients
    ensures k in Cleanup(h, ids, n, now, timeout).hub.clients <==> !(k in ids[..n] && Inactive(h.clients[k], now, timeout))
  {
    if n > 0 {
      var before := Cleanup(h, ids, n - 1, now, timeout);
      CleanupRemovesIdleAt(h, ids, n - 1, now, timeout, k);
      CleanupUnfold(h, ids, n, now, timeout);
      CleanOneMember(before, ids[n - 1], now, timeout, k);
      if k in before.hub.clients {
        CleanupKeepsRecord(h, ids, n - 1, now, timeout, k);
      }
      assert ids[..n] == ids[..n - 1] + [ids[n - 1]];
    }
  }

  /** One step removes `k` exactly when it is the idle client named. */
  lemma CleanOneMember(acc: Tally, id: string, now: int, timeout: int, k: string)
    ensures var r := CleanOne(acc, id, now, timeout);
      (k in r.hub.clients <==> k in acc.hub.clients && !(k == id && Inactive(acc.hub.clients[k], now, timeout)))
      && (k in r.hub.clients ==> r.hub.clients[k] == acc.hub.clients[k])
  {
  }

  lemma CleanupUnfold(h: Hub, ids: seq<string>, n: nat, now: int, timeout: int)
    requires 0 < n <= |ids|
    ensures Cleanup(h, ids, n, now, timeout) == CleanOne(Cleanup(h, ids, n - 1, now, timeout), ids[n - 1], now, timeout)
  {
  }

  lemma CleanOneCounts(acc: Tally, id: string, now: int, timeout: int)
    ensures var r := CleanOne(acc, id, now, timeout);
      r.count + |r.hub.clients| == acc.count + |acc.hub.clients|
  {
    if id in acc.hub.clients && Inactive(acc.hub.clients[id], now, timeout) {
      MapRemoveCard(acc.hub.clients, id);
    }
  }

  lemma {:induction false} CleanupValid(h: Hub, ids: seq<string>, n: nat, now: int, timeout: int)
    requires HubValid(h) && n <= |ids|
    ensures HubValid(Cleanup(h, ids, n, now, timeout).hub)
  {
    if n > 0 {
      var before := Cleanup(h, ids, n - 1, now, timeout);
      CleanupValid(h, ids, n - 1, now, timeout);
      var id := ids[n - 1];
      if id in before.hub.clients && Inactive(before.hub.clients[id], now, timeout) {
        RemovedValid(before.hub.(closed := before.hub.closed + [id]), id);
      }
    }
  }

  // ---------------------------------------------------------------------------
  // The manager

  class Manager {
    var clients: map<string, Client>
    /** Client ids in the order the `Map` iterates them */
    var order: seq<string>
    var androidDevice: Option<AndroidDevice>
    var messageQueue: map<string, seq<Item>>
    var wire: seq<Delivery>
    var closed: seq<string>

    function State(): (h: Hub)
      reads this
      ensures h.clients == clients && h.order == order && h.android == androidDevice
      ensures h.queues == messageQueue && h.wire == wire && h.closed == closed
    {
      Hub(clients, order, androidDevice, messageQueue, wire, closed)
    }

    ghost predicate Valid()
      reads this
    {
      HubValid(State())
    }

    constructor ()
      ensures Valid() && clients == map[] && order == [] && androidDevice == None && messageQueue == map[]
      ensures wire == [] && closed == []
    {
      clients, order, androidDevice, messageQueue := map[], [], None, map[];
      wire, closed := [], [];
    }

    /** `addClient(ws, request)` at `now`, with the generated id: a client
        of type 'unknown' from the request's address. */
    method AddClient(id: string, ip: string, now: int) returns (r: string)
      requires Valid()
      modifies this`clients, this`order
      ensures Valid() && r == id
      ensures clients == old(clients)[id := Client(map["type" := "unknown", "ip" := ip], now, now)]
      ensures order == if id in old(order) then old(order) else old(order) + [id]
    {
      if id !in order {
        SnocDistinct(order, id);
        order := order + [id];
      }
      clients := clients[id := Client(map["type" := "unknown", "ip" := ip], now, now)];
      r := id;
    }

    /** `removeClient(id)` */
    method RemoveClient(id: string)
      requires Valid()
      modifies this`clients, this`order, this`androidDevice, this`messageQueue
      ensures Valid() && State() == Removed(old(State()), id)
    {
      RemovedValid(State(), id);
      if id in clients {
        androidDevice := if androidDevice.Some? && androidDevice.value.id == id then None else androidDevice;
        clients := clients - {id};
        order := RemoveFirst(order, id);
        messageQueue := messageQueue - {id};
      }
    }

    function GetClient(id: string): (r: Option<Client>)
      reads this
      ensures r.Some? <==> id in clients
      ensures r.Some? ==> r.value == clients[id]
    {
      if id in clients then Some(clients[id]) else None
    }

    function GetClientCount(): (n: nat)
      reads this
      requires Valid()
      ensures n == |clients.Keys|
    {
      |clients|
    }

    function GetAndroidDevice(): (r: Option<AndroidDevice>)
      reads this
      requires Valid()
      ensures r == androidDevice && (r.Some? ==> r.value.id in clients)
    {
      androidDevice
    }

    /** `updateClient(id, updates)` */
    method UpdateClient(id: string, updates: map<string, string>)
      requires Valid()
      modifies this`clients, this`androidDevice
      ensures Valid() && State() == Updated(old(State()), id, updates)
    {
      if id in clients {
        var c := clients[id];
        clients := clients[id := c.(fields := c.fields + updates)];
        if "platform" in updates && updates["platform"] == "android" {
          androidDevice := Some(AndroidDevice(id, updates));
        }
      }
    }

    /** `updateLastActivity(id)` at `now` */
    method UpdateLastActivity(id: string, now: int)
      requires Valid()
      modifies this`clients
      ensures Valid()
      ensures clients == if id in old(clients) then old(clients)[id := old(clients)[id].(lastActivity := now)] else old(clients)
    {
      if id in clients {
        clients := clients[id := clients[id].(lastActivity := now)];
      }
    }

    /** `processMessageQueue(id)`: the loop that sends the head until the
        queue empties or a send fails for the first or second time. */
    method ProcessMessageQueue(id: string, open: string -> bool, accepts: Delivery -> bool)
      requires QueuesValid(messageQueue)
      modifies this`messageQueue, this`wire
      ensures QueuesValid(messageQueue)
      ensures State() == ProcessQueue(old(State()), id, open, accepts)
    {
      ProcessQueueValid(State(), id, open, accepts);
      if id !in messageQueue || messageQueue[id] == [] || id !in clients || !open(id) {
        return;
      }
      var cur, sent := DrainLoop(messageQueue[id], id, accepts);
      if cur == [] {
        messageQueue := messageQueue - {id};
      } else {
        messageQueue := messageQueue[id := cur];
      }
      wire := wire + sent;
    }

    /** `enqueueMessage(id, message)` at `now` */
    method EnqueueMessage(id: string, m: Message, now: int, open: string -> bool, accepts: Delivery -> bool)
      requires Valid()
      modifies this`messageQueue, this`wire
      ensures Valid() && State() == Enqueue(old(State()), id, m, now, open, accepts)
    {
      EnqueueValid(State(), id, m, now, open, accepts);
      var q := (if id in messageQueue then messageQueue[id] else []) + [Item(m, 0, now)];
      messageQueue := messageQueue[id := q];
      ProcessQueueValid(State(), id, open, accepts);
      ProcessMessageQueue(id, open, accepts);
    }

    /** `sendToClient(id, message, reliable)` */
    method SendToClient(id: string, m: Message, reliable: bool, now: int, open: string -> bool,
                        accepts: Delivery -> bool) returns (ok: bool)
      requires Valid()
      modifies this`messageQueue, this`wire
      ensures Valid() && Outcome(ok, State()) == SendTo(old(State()), id, m, reliable, now, open, accepts)
    {
      if id !in clients || !open(id) || !accepts(Delivery(id, m)) {
        if reliable {
          EnqueueMessage(id, m, now, open, accepts);
          return true;
        }
        return false;
      }
      wire := wire + [Delivery(id, m)];
      return true;
    }

    /** `sendToAndroidDevice(message, reliable)` */
    method SendToAndroidDevice(m: Message, reliable: bool, now: int, open: string -> bool,
                               accepts: Delivery -> bool) returns (ok: bool)
      requires Valid()
      modifies this`messageQueue, this`wire
      ensures Valid() && Outcome(ok, State()) == SendToAndroid(old(State()), m, reliable, now, open, accepts)
    {
      if androidDevice.None? || !open(androidDevice.value.id) {
        if reliable {
          if androidDevice.Some? {
            EnqueueMessage(androidDevice.value.id, m, now, open, accepts);
          }
          return true;
        }
        return false;
      }
      var id := androidDevice.value.id;
      if accepts(Delivery(id, m)) {
        wire := wire + [Delivery(id, m)];
        return true;
      }
      if reliable {
        EnqueueMessage(id, m, now, open, accepts);
        return true;
      }
      return false;
    }

    /** The loop shared by both broadcasts. */
    method BroadcastLoop(exclude: Option<string>, webOnly: bool, m: Message, reliable: bool, now: int,
                         open: string -> bool, accepts: Delivery -> bool) returns (sentCount: nat)
      requires Valid()
      modifies this`messageQueue, this`wire
      ensures Valid()
      ensures Tally(sentCount, State()) == Broadcast(old(State()), order, |order|, exclude, webOnly, m, reliable, now, open, accepts)
    {
      ghost var start := State();
      var ids := order;
      sentCount := 0;
      for i := 0 to |ids|
        invariant Tally(sentCount, State()) == Broadcast(start, ids, i, exclude, webOnly, m, reliable, now, open, accepts)
      {
        var id := ids[i];
        ghost var acc := Tally(sentCount, State());
        BroadcastValid(start, ids, i, exclude, webOnly, m, reliable, now, open, accepts);
        if id in clients && (!webOnly || TypeOf(clients[id]) == Some("web")) && exclude != Some(id) {
          var ok := SendToClient(id, m, reliable, now, open, accepts);
          if ok {
            sentCount := sentCount + 1;
          }
        }
        assert Tally(sentCount, State()) == BroadcastOne(acc, id, exclude, webOnly, m, reliable, now, open, accepts);
      }
      BroadcastValid(start, ids, |ids|, exclude, webOnly, m, reliable, now, open, accepts);
    }

    /** `broadcastToWebClients(message, excludeClientId, reliable)` */
    method BroadcastToWebClients(m: Message, exclude: Option<string>, reliable: bool, now: int,
                                 open: string -> bool, accepts: Delivery -> bool) returns (sentCount: nat)
      requires Valid()
      modifies this`messageQueue, this`wire
      ensures Valid()
      ensures Tally(sentCount, State()) == Broadcast(old(State()), old(order), |old(order)|, exclude, true, m, reliable, now, open, accepts)
    {
      sentCount := BroadcastLoop(exclude, true, m, reliable, now, open, accepts);
    }

    /** `broadcastToAllClients(message, excludeClientId, reliable)` */
    method BroadcastToAllClients(m: Message, exclude: Option<string>, reliable: bool, now: int,
                                 open: string -> bool, accepts: Delivery -> bool) returns (sentCount: nat)
      requires Valid()
      modifies this`messageQueue, this`wire
      ensures Valid()
      ensures Tally(sentCount, State()) == Broadcast(old(State()), old(order), |old(order)|, exclude, false, m, reliable, now, open, accepts)
    {
      sentCount := BroadcastLoop(exclude, false, m, reliable, now, open, accepts);
    }

    /** `cleanupInactiveClients(timeout)` at `now`: every client idle for
        longer than `timeout` has its socket closed and is removed. */
    method CleanupInactiveClients(timeout: int, now: int) returns (cleanedCount: nat)
      requires Valid()
      modifies this`clients, this`order, this`androidDevice, this`messageQueue, this`closed
      ensures Valid()
      ensures Tally(cleanedCount, State()) == Cleanup(old(State()), old(order), |old(order)|, now, timeout)
    {
      ghost var start := State();
      var ids := order;
      cleanedCount := 0;
      for i := 0 to |ids|
        invariant Tally(cleanedCount, State()) == Cleanup(start, ids, i, now, timeout)
      {
        var id := ids[i];
        CleanupValid(start, ids, i, now, timeout);
        if id in clients && Inactive(clients[id], now, timeout) {
          closed := closed + [id];
          RemovedValid(State(), id);
          RemoveClient(id);
          cleanedCount := cleanedCount + 1;
        }
      }
      CleanupValid(start, ids, |ids|, now, timeout);
    }
  }
}
