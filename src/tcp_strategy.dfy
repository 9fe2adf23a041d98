/** The TCP connection strategy of the front end
    (`frontend/src/services/connection-strategy/TCPStrategy.js`): the
    newline-delimited stream reassembler, request ids with their pending
    callbacks, dispatch of a parsed message to a callback or to events, and
    the connection flags. The socket is the platform's; JSON encoding and
    decoding, the handler functions and the timers are left out. */
module TcpStrategy {
  import opened Wrappers
  import opened Text
  import opened Seqs
  import JsValues

  // ---------------------------------------------------------------------------
  // Stream reassembly

  /** The complete '\n'-terminated lines of `s`, in order, and the text after
      the last '\n'. */
  function Lines(s: string): (r: (seq<string>, string))
    ensures '\n' !in r.1
    decreases |s|
  {
    var k := IndexOf(s, '\n');
    if k == |s| then ([], s)
    else
      var (ls, rest) := Lines(s[k + 1..]);
      ([s[..k]] + ls, rest)
  }

  /** Lines put back together, each followed by its '\n', then the rest. */
  function Unlines(lines: seq<string>, rest: string): string
  {
    if lines == [] then rest else lines[0] + "\n" + Unlines(lines[1..], rest)
  }

  /** Nothing is lost or invented: the lines and the rest spell the input. */
  lemma {:induction false} LinesSpellInput(s: string)
    ensures Unlines(Lines(s).0, Lines(s).1) == s
    decreases |s|
  {
    var k := IndexOf(s, '\n');
    if k < |s| {
      LinesSpellInput(s[k + 1..]);
      assert s == s[..k] + "\n" + s[k + 1..];
    }
  }

  /** No line holds a '\n'. */
  lemma {:induction false} LinesHaveNoNewline(s: string)
    ensures forall i :: 0 <= i < |Lines(s).0| ==> '\n' !in Lines(s).0[i]
    decreases |s|
  {
    var k := IndexOf(s, '\n');
    if k < |s| {
      LinesHaveNoNewline(s[k + 1..]);
      LinesStep(s, k);
    }
  }

  /** Text with no '\n' is all rest. */
  lemma LinesOfNoNewline(s: string)
    requires '\n' !in s
    ensures Lines(s) == ([], s)
  {
  }

  /** One step of `Lines`: the text before the first '\n' is a line. */
  lemma LinesStep(s: string, k: nat)
    requires k == IndexOf(s, '\n') && k < |s|
    ensures Lines(s) == ([s[..k]] + Lines(s[k + 1..]).0, Lines(s[k + 1..]).1)
  {
  }

  /** The first line of `a + b` is the first line of `a`, when `a` has one. */
  lemma LinesConcatHead(a: string, b: string, k: nat)
    requires k == IndexOf(a, '\n') && k < |a|
    ensures Lines(a + b) == ([a[..k]] + Lines(a[k + 1..] + b).0, Lines(a[k + 1..] + b).1)
  {
    var s := a + b;
    assert IndexOf(s, '\n') == k by {
      assert s == a[..k] + (a[k..] + b);
      assert (a[k..] + b)[0] == '\n';
      IndexOfFirst(a[..k], a[k..] + b, '\n');
    }
    assert s[..k] == a[..k];
    assert s[k + 1..] == a[k + 1..] + b;
    LinesStep(s, k);
  }

  /** The bookkeeping of `LinesConcat`'s step, on plain values. */
  lemma Assemble(x: (seq<string>, string), h: string, t: (seq<string>, string), y: (seq<string>, string),
                 l: (seq<string>, string), r: (seq<string>, string))
    requires x == ([h] + t.0, t.1) && y == ([h] + l.0, l.1)
    requires t.0 == l.0 + r.0 && t.1 == r.1
    ensures x.0 == y.0 + r.0 && x.1 == r.1 && y.1 == l.1
  {
  }

  /** Reading `a` and then, with the rest of `a` still buffered, reading `b`
      gives the lines of `a + b`. */
  lemma {:induction false} LinesConcat(a: string, b: string)
    ensures Lines(a + b).0 == Lines(a).0 + Lines(Lines(a).1 + b).0
    ensures Lines(a + b).1 == Lines(Lines(a).1 + b).1
    decreases |a|
  {
    var k := IndexOf(a, '\n');
    if k == |a| {
      assert Lines(a) == ([], a);
      assert [] + Lines(a + b).0 == Lines(a + b).0;
    } else {
      var tail := a[k + 1..];
      LinesConcatHead(a, b, k);
      LinesStep(a, k);
      LinesConcat(tail, b);
      Assemble(Lines(a + b), a[..k], Lines(tail + b), Lines(a), Lines(tail), Lines(Lines(tail).1 + b));
    }
  }

  /** One turn of `handleDataChunk`'s loop: cutting the first line off the
      buffer moves it to the lines already seen. */
  lemma LinesLoopStep(all: string, done: seq<string>, buffer: string, k: nat)
    requires k == IndexOf(buffer, '\n') && k < |buffer|
    requires Lines(all).0 == done + Lines(buffer).0 && Lines(all).1 == Lines(buffer).1
    ensures Lines(all).0 == (done + [buffer[..k]]) + Lines(buffer[k + 1..]).0
    ensures Lines(all).1 == Lines(buffer[k + 1..]).1
  {
    var line, next := buffer[..k], Lines(buffer[k + 1..]);
    assert Lines(buffer).0 == [line] + next.0 && Lines(buffer).1 == next.1 by {
      LinesStep(buffer, k);
    }
    AppendAssoc(done, [line], next.0);
  }

  /** A line `handleDataChunk` reports: `message.trim()` is non-empty. */
  predicate NonBlank(line: string) { JsValues.Trim(line) != "" }

  /** The messages of a stream: its complete non-blank lines. */
  function Messages(s: string): (ms: seq<string>)
    ensures forall i :: 0 <= i < |ms| ==> NonBlank(ms[i]) && ms[i] in Lines(s).0
  {
    Filter(Lines(s).0, NonBlank)
  }

  /** Feeding a run of chunks to `handleDataChunk`, starting from `buffer`:
      all messages reported, in order, and the final buffer. */
  function Feed(buffer: string, chunks: seq<string>): (seq<string>, string)
    decreases |chunks|
  {
    if chunks == [] then ([], buffer)
    else
      var lines := Lines(buffer + chunks[0]);
      var fed := Feed(lines.1, chunks[1..]);
      (Filter(lines.0, NonBlank) + fed.0, fed.1)
  }

  function ConcatAll(chunks: seq<string>): string
  {
    if chunks == [] then "" else chunks[0] + ConcatAll(chunks[1..])
  }

  /** However the stream is cut into chunks, the messages reported are the
      messages of the whole stream, and the buffer ends as its last partial
      line. */
  lemma {:induction false} FeedIsWhole(buffer: string, chunks: seq<string>)
    requires '\n' !in buffer
    ensures Feed(buffer, chunks).0 == Messages(buffer + ConcatAll(chunks))
    ensures Feed(buffer, chunks).1 == Lines(buffer + ConcatAll(chunks)).1
    decreases |chunks|
  {
    if chunks == [] {
      assert buffer + "" == buffer;
      LinesOfNoNewline(buffer);
    } else {
      var first, tail := buffer + chunks[0], ConcatAll(chunks[1..]);
      var ls, rest := Lines(first).0, Lines(first).1;
      FeedIsWhole(rest, chunks[1..]);
      FeedStep(buffer, chunks, first, tail);
      LinesConcat(first, tail);
      FilterConcat(ls, Lines(rest + tail).0, NonBlank);
    }
  }

  /** One chunk of `Feed`, and the stream it reads. */
  lemma FeedStep(buffer: string, chunks: seq<string>, first: string, tail: string)
    requires chunks != [] && first == buffer + chunks[0] && tail == ConcatAll(chunks[1..])
    ensures Feed(buffer, chunks) == (Filter(Lines(first).0, NonBlank) + Feed(Lines(first).1, chunks[1..]).0,
                                     Feed(Lines(first).1, chunks[1..]).1)
    ensures buffer + ConcatAll(chunks) == first + tail
  {
    assert ConcatAll(chunks) == chunks[0] + tail;
    AppendAssoc(buffer, chunks[0], tail);
  }

  // ---------------------------------------------------------------------------
  // Messages and their dispatch

  /** A parsed message: its `type` (absent or a string), its `requestId`
      (absent or a number), `success`, `error`, and the opaque JSON text of
      `device` and `deviceInfo`. */
  datatype Message = Message(msgType: Option<string>, requestId: Option<int>,
                             success: Option<bool>, error: Option<string>,
                             device: Option<string>, deviceInfo: Option<string>)

  /** The payload an event handler receives. */
  datatype Payload = WholeMessage(m: Message) | Field(json: Option<string>) | EmptyObject

  datatype Event = Event(name: string, payload: Payload)

  /** How the promise of `sendRequest` settles when its reply arrives. */
  datatype Settlement = Resolved(reply: Message) | Rejected(reason: string)

  /** What `handleMessage` does with a message. */
  datatype Dispatch = Callback(id: int, settled: Settlement) | Events(events: seq<Event>)

  /** The callback stored by `sendRequest`: resolve unless `success` is
      exactly false, and reject with `error`, or "请求失败" when that is falsy. */
  function Settle(reply: Message): (s: Settlement)
    ensures s.Rejected? <==> reply.success == Some(false)
    ensures s.Rejected? ==> s.reason == (if reply.error.Some? && reply.error.value != "" then reply.error.value else "请求失败")
  {
    if reply.success != Some(false) then Resolved(reply)
    else Rejected(if reply.error.Some? && reply.error.value != "" then reply.error.value else "请求失败")
  }

  /** The device events that follow the type event for some message types. */
  function DeviceEvents(m: Message): (es: seq<Event>)
    requires m.msgType.Some?
    ensures |es| <= 1
  {
    var t := m.msgType.value;
    if t == "device_found" || t == "device_discovered" then [Event("deviceDiscovered", Field(m.device))]
    else if t == "android_connected" then [Event("deviceConnected", Field(m.deviceInfo))]
    else if t == "android_disconnected" then [Event("deviceDisconnected", EmptyObject)]
    else []
  }

  /** A JavaScript-truthy request id: present and not 0. */
  predicate HasRequestId(m: Message) { m.requestId.Some? && m.requestId.value != 0 }

  /** A truthy `type`: present and not empty. */
  predicate HasType(m: Message) { m.msgType.Some? && m.msgType.value != "" }

  // ---------------------------------------------------------------------------
  // The strategy

  const DEFAULT_PORT := 8928
  const DEFAULT_MESSAGE_TIMEOUT := 30000

  /** A request written to the socket: its type and id. */
  datatype Request = Request(requestType: string, requestId: nat)

  class TcpStrategy {
    /** `this.socket !== null` */
    var hasSocket: bool
    /** `this._isConnected`, which `isConnected()` returns */
    var connected: bool
    /** True once `disconnect` has assigned the own property `isConnected`,
        which hides the `isConnected()` method */
    var isConnectedShadowed: bool
    var reconnectAttempts: nat
    var buffer: string
    var requestId: nat
    /** Ids with a stored callback in `messageCallbacks` */
    var pending: set<int>
    /** Requests written to the socket, oldest first */
    var written: seq<Request>

    ghost predicate Valid()
      reads this
    {
      '\n' !in buffer && (forall id :: id in pending ==> 0 < id <= requestId)
    }

    /** `new TCPStrategy(serverUrl, options)`: no socket, not connected, no
        callbacks, request ids starting after 0. */
    constructor ()
      ensures Valid()
      ensures !hasSocket && !connected && !isConnectedShadowed && reconnectAttempts == 0
      ensures buffer == "" && requestId == 0 && pending == {} && written == []
    {
      hasSocket, connected, isConnectedShadowed := false, false, false;
      reconnectAttempts := 0;
      buffer, requestId, pending, written := "", 0, {}, [];
    }

    /** The socket's connect callback: connected, attempts reset. */
    method OnConnect()
      modifies this`hasSocket, this`connected, this`reconnectAttempts
      ensures hasSocket && connected && reconnectAttempts == 0
    {
      hasSocket, connected, reconnectAttempts := true, true, 0;
    }

    /** The socket's close callback: `_isConnected` becomes false. */
    method OnClose()
      modifies this`connected
      ensures !connected
    {
      connected := false;
    }

    /** `handleDataChunk(data)`: append the chunk, then cut off and report
        every complete non-blank line, in arrival order. */
    method HandleDataChunk(data: string) returns (messages: seq<string>)
      requires Valid()
      modifies this`buffer
      ensures Valid()
      ensures messages == Messages(old(buffer) + data)
      ensures buffer == Lines(old(buffer) + data).1
    {
      ghost var all := buffer + data;
      ghost var done: seq<string> := [];
      buffer := buffer + data;
      messages := [];
      var newlineIndex := IndexOf(buffer, '\n');
      while newlineIndex < |buffer|
        invariant newlineIndex == IndexOf(buffer, '\n')
        invariant Lines(all).0 == done + Lines(buffer).0 && Lines(all).1 == Lines(buffer).1
        invariant messages == Filter(done, NonBlank)
        decreases |buffer|
      {
        var message := buffer[..newlineIndex];
        if JsValues.Trim(message) != "" {
          messages := messages + [message];
        }
        FilterSnoc(done, message, NonBlank);
        LinesLoopStep(all, done, buffer, newlineIndex);
        done := done + [message];
        buffer := buffer[newlineIndex + 1..];
        newlineIndex := IndexOf(buffer, '\n');
      }
      LinesOfNoNewline(buffer);
      assert done + [] == done;
    }

    /** `disconnect()`: with a socket, drop it and empty the buffer. The
        assignment goes to `isConnected`, not `_isConnected`, so the flag
        `isConnected()` reads is left as it was. */
    method Disconnect()
      requires Valid()
      modifies this`hasSocket, this`isConnectedShadowed, this`buffer
      ensures Valid()
      ensures old(hasSocket) ==> !hasSocket && isConnectedShadowed && buffer == ""
      ensures !old(hasSocket) ==> hasSocket == old(hasSocket) && isConnectedShadowed == old(isConnectedShadowed) && buffer == old(buffer)
    {
      if hasSocket {
        hasSocket := false;
        isConnectedShadowed := true;
        buffer := "";
      }
    }

    /** `send(message)`: false unless there is a socket and it is connected. */
    method Send() returns (ok: bool)
      ensures ok <==> hasSocket && connected
    {
      return hasSocket && connected;
    }

    /** `sendRequest(type, data)`: rejected when not connected; otherwise the
        next request id, a stored callback under it, and the request written. */
    method SendRequest(requestType: string) returns (r: Result<nat>)
      requires Valid()
      modifies this`requestId, this`pending, this`written
      ensures Valid()
      ensures !(old(hasSocket) && old(connected)) ==>
                r == Err("TCP未连接到服务器") && requestId == old(requestId)
                && pending == old(pending) && written == old(written)
      ensures old(hasSocket) && old(connected) ==>
                r == Ok(old(requestId) + 1) && requestId == old(requestId) + 1
                && pending == old(pending) + {requestId}
                && written == old(written) + [Request(requestType, requestId)]
      ensures r.Ok? ==> r.value !in old(pending) && forall id :: id in old(pending) ==> id < r.value
    {
      if !hasSocket || !connected {
        return Err("TCP未连接到服务器");
      }
      requestId := requestId + 1;
      pending := pending + {requestId};
      written := written + [Request(requestType, requestId)];
      return Ok(requestId);
    }

    /** The timeout of request `id`: a still-pending callback is removed and
        the promise rejected with "请求超时"; otherwise nothing happens. */
    method Timeout(id: int) returns (rejected: bool)
      requires Valid()
      modifies this`pending
      ensures Valid()
      ensures rejected <==> id in old(pending)
      ensures pending == old(pending) - {id}
    {
      rejected := id in pending;
      pending := pending - {id};
    }

    /** `handleMessage(message)`: a reply to a pending request settles its
        callback, which is removed, and emits nothing; any other message
        emits the event named by its type, followed by the device event the
        type maps to. */
    method HandleMessage(m: Message) returns (d: Dispatch)
      requires Valid()
      modifies this`pending
      ensures Valid()
      ensures HasRequestId(m) && m.requestId.value in old(pending) ==>
        d == Callback(m.requestId.value, Settle(m)) && pending == old(pending) - {m.requestId.value}
      ensures !(HasRequestId(m) && m.requestId.value in old(pending)) ==>
                pending == old(pending)
                && d == Events(if HasType(m) then [Event(m.msgType.value, WholeMessage(m))] + DeviceEvents(m) else [])
    {
      if HasRequestId(m) && m.requestId.value in pending {
        pending := pending - {m.requestId.value};
        return Callback(m.requestId.value, Settle(m));
      }
      if HasType(m) {
        return Events([Event(m.msgType.value, WholeMessage(m))] + DeviceEvents(m));
      }
      return Events([]);
    }
  }
}
