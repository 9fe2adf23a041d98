/** The Android `ConnectionManager`: a registry of connection strategies
    keyed by lower-cased type name, one of which is current; connecting,
    disconnecting and sending go to the current strategy. The strategies
    themselves are outside this model: each is a handle with the type name
    it reports and whether it reports itself connected, and the calls the
    manager makes on them are recorded. */
module StrategyManager {
  import opened Wrappers
  import opened Seqs
  import opened Text

  const NOT_CONNECTED := "未连接"

  /** What a strategy reports: `getConnectionType()` and `isConnected()`. */
  datatype Strategy = Strategy(typeName: string, connected: bool)

  /** A call the manager makes on a strategy. */
  datatype Call =
    | ConnectCall(handle: nat, ip: string, port: int)
    | DisconnectCall(handle: nat)
    | SendCall(handle: nat, message: string)

  /** `connectionStrategies` (a `LinkedHashMap`: `keys` in insertion order),
      the strategy objects by handle, and `currentStrategy`. */
  datatype State = State(
    registry: map<string, nat>,
    keys: seq<string>,
    pool: seq<Strategy>,
    current: Option<nat>,
    calls: seq<Call>)

  /** Every registered key is listed once, and every handle names a strategy. */
  ghost predicate Valid(s: State)
  {
    && (forall k :: k in s.registry <==> k in s.keys)
    && Distinct(s.keys)
    && (forall k :: k in s.registry ==> s.registry[k] < |s.pool|)
    && (s.current.Some? ==> s.current.value < |s.pool|)
  }

  /** `registerStrategy(type, strategy)` with a new strategy object. */
  function Register(s: State, type_: string, st: Strategy): State
  {
    var key := ToLower(type_);
    s.(registry := s.registry[key := |s.pool|],
       keys := if key in s.registry then s.keys else s.keys + [key],
       pool := s.pool + [st])
  }

  /** `init`: "tcp" and "kcp" registered, nothing selected. */
  function Initial(): State
  {
    var empty := State(map[], [], [], None, []);
    Register(Register(empty, "tcp", Strategy("tcp", false)), "kcp", Strategy("KCP", false))
  }

  /** `isConnected()`. */
  predicate IsConnected(s: State)
    requires Valid(s)
  {
    s.current.Some? && s.pool[s.current.value].connected
  }

  /** `disconnect()`: the current strategy, if any, is told to disconnect and
      reports itself disconnected. */
  function Disconnected(s: State): State
    requires Valid(s)
  {
    if s.current.None? then s
    else
      var h := s.current.value;
      s.(pool := s.pool[h := s.pool[h].(connected := false)], calls := s.calls + [DisconnectCall(h)])
  }

  datatype Selected = Selected(ok: bool, after: State)

  /** `selectStrategy(type)`. */
  function Select(s: State, type_: string): Selected
    requires Valid(s)
  {
    var key := ToLower(type_);
    if key !in s.registry then Selected(false, s)
    else
      var s1 := if IsConnected(s) then Disconnected(s) else s;
      Selected(true, s1.(current := Some(s.registry[key])))
  }

  datatype Connected = Connected(ok: bool, after: State)

  /** `connect(ip, port)`, where `accepted` is what the current strategy's
      `connect` returns; afterwards it reports itself connected exactly when
      it accepted. Without a current strategy nothing happens. */
  function ConnectTo(s: State, ip: string, port: int, accepted: bool): Connected
    requires Valid(s)
  {
    if s.current.None? then Connected(false, s)
    else
      var h := s.current.value;
      Connected(accepted, s.(pool := s.pool[h := s.pool[h].(connected := accepted)],
                            calls := s.calls + [ConnectCall(h, ip, port)]))
  }

  /** `sendMessage(message)`: handed to the current strategy, if any. */
  function Sent(s: State, message: string): State
  {
    if s.current.None? then s else s.(calls := s.calls + [SendCall(s.current.value, message)])
  }

  /** `getCurrentConnectionType()`. */
  function ConnectionType(s: State): string
    requires Valid(s)
  {
    if s.current.None? then NOT_CONNECTED else s.pool[s.current.value].typeName
  }

  // ---------------------------------------------------------------------
  // Properties

  lemma RegisterValid(s: State, type_: string, st: Strategy)
    requires Valid(s)
    ensures Valid(Register(s, type_, st))
    ensures Register(s, type_, st).registry[ToLower(type_)] == |s.pool|
    ensures forall k :: k in s.registry && k != ToLower(type_) ==> Register(s, type_, st).registry[k] == s.registry[k]
  {
    var key := ToLower(type_);
    if key !in s.registry {
      assert Distinct(s.keys + [key]) by {
        forall i, j | 0 <= i < j < |s.keys + [key]| ensures (s.keys + [key])[i] != (s.keys + [key])[j] {
          if j == |s.keys| {
            assert (s.keys + [key])[i] == s.keys[i];
          }
        }
      }
    }
  }

  /** The initial registry: "tcp" and "kcp", in that order, each a
      disconnected strategy, and nothing selected. */
  lemma InitialRegistry()
    ensures Valid(Initial())
    ensures Initial().keys == ["tcp", "kcp"]
    ensures Initial().pool[Initial().registry["tcp"]] == Strategy("tcp", false)
    ensures Initial().pool[Initial().registry["kcp"]] == Strategy("KCP", false)
    ensures Initial().current.None? && Initial().calls == []
  {
    LowerIdentity("tcp");
    LowerIdentity("kcp");
    var empty := State(map[], [], [], None, []);
    RegisterValid(empty, "tcp", Strategy("tcp", false));
    RegisterValid(Register(empty, "tcp", Strategy("tcp", false)), "kcp", Strategy("KCP", false));
  }

  /** Registration and selection ignore case: names with the same
      lower-casing select the same strategy. */
  lemma SelectIgnoresCase(s: State, a: string, b: string)
    requires Valid(s) && ToLower(a) == ToLower(b)
    ensures Select(s, a) == Select(s, b)
  {
  }

  /** A type registered under any spelling is selectable under any other
      spelling with the same lower-casing, and selects that strategy. */
  lemma RegisterThenSelect(s: State, type_: string, st: Strategy, other: string)
    requires Valid(s) && ToLower(other) == ToLower(type_)
    ensures Valid(Register(s, type_, st))
    ensures Select(Register(s, type_, st), other).ok
    ensures Select(Register(s, type_, st), other).after.current == Some(|s.pool|)
  {
    RegisterValid(s, type_, st);
  }

  /** An unknown type is refused and changes nothing. */
  lemma SelectUnknown(s: State, type_: string)
    requires Valid(s) && ToLower(type_) !in s.registry
    ensures Select(s, type_) == Selected(false, s)
  {
  }

  /** Selecting a known type makes it current. When connected, the current
      strategy is first told to disconnect, even when it is the one
      selected; otherwise no call is made. */
  lemma SelectDisconnectsFirst(s: State, type_: string)
    requires Valid(s) && ToLower(type_) in s.registry
    ensures var r := Select(s, type_);
      && r.ok && Valid(r.after)
      && r.after.current == Some(s.registry[ToLower(type_)])
      && (IsConnected(s) ==> (r.after.calls == s.calls + [DisconnectCall(s.current.value)]
                             && !r.after.pool[s.current.value].connected))
      && (!IsConnected(s) ==> r.after.calls == s.calls && r.after.pool == s.pool)
      && r.after.registry == s.registry
  {
  }

  /** Reselecting the connected strategy leaves it current but disconnected. */
  lemma ReselectDisconnects(s: State, type_: string)
    requires Valid(s) && IsConnected(s) && ToLower(type_) in s.registry
    requires s.registry[ToLower(type_)] == s.current.value
    ensures Valid(Select(s, type_).after) && !IsConnected(Select(s, type_).after)
  {
  }

  /** With no strategy selected: `connect` is false and does nothing,
      `isConnected` is false, the type is "未连接", and sending does nothing. */
  lemma NothingSelected(s: State, ip: string, port: int, accepted: bool, message: string)
    requires Valid(s) && s.current.None?
    ensures ConnectTo(s, ip, port, accepted) == Connected(false, s)
    ensures !IsConnected(s)
    ensures ConnectionType(s) == NOT_CONNECTED
    ensures Sent(s, message) == s
  {
  }

  /** With a strategy selected, `connect` returns its answer and the manager
      reports connected exactly when it accepted; `disconnect` then reports
      disconnected. */
  lemma ConnectThenDisconnect(s: State, ip: string, port: int, accepted: bool)
    requires Valid(s) && s.current.Some?
    ensures var c := ConnectTo(s, ip, port, accepted);
      && Valid(c.after) && c.ok == accepted && IsConnected(c.after) == accepted
      && c.after.calls == s.calls + [ConnectCall(s.current.value, ip, port)]
      && Valid(Disconnected(c.after)) && !IsConnected(Disconnected(c.after))
  {
  }

  // ---------------------------------------------------------------------
  // The manager object

  class ConnectionManager {
    var registry: map<string, nat>
    var keys: seq<string>
    var pool: seq<Strategy>
    var current: Option<nat>
    var calls: seq<Call>

    function Current(): State
      reads this
    {
      State(registry, keys, pool, current, calls)
    }

    constructor ()
      ensures Current() == Initial() && Valid(Current())
    {
      registry, keys, pool, current, calls := map[], [], [], None, [];
      new;
      InitialRegistry();
      RegisterStrategy("tcp", Strategy("tcp", false));
      RegisterStrategy("kcp", Strategy("KCP", false));
    }

    method RegisterStrategy(type_: string, st: Strategy)
      requires Valid(Current())
      modifies this
      ensures Current() == Register(old(Current()), type_, st) && Valid(Current())
    {
      RegisterValid(Current(), type_, st);
      var key := ToLower(type_);
      if key !in registry {
        keys := keys + [key];
      }
      registry := registry[key := |pool|];
      pool := pool + [st];
    }

    method SelectStrategy(type_: string) returns (ok: bool)
      requires Valid(Current())
      modifies this
      ensures Selected(ok, Current()) == Select(old(Current()), type_) && Valid(Current())
    {
      var key := ToLower(type_);
      if key !in registry {
        return false;
      }
      var connected := IsConnected(Current());
      if connected {
        Disconnect();
      }
      current := Some(registry[key]);
      return true;
    }

    method Connect(ip: string, port: int, accepted: bool) returns (ok: bool)
      requires Valid(Current())
      modifies this
      ensures Connected(ok, Current()) == ConnectTo(old(Current()), ip, port, accepted) && Valid(Current())
    {
      if current.None? {
        return false;
      }
      var h := current.value;
      pool := pool[h := pool[h].(connected := accepted)];
      calls := calls + [ConnectCall(h, ip, port)];
      return accepted;
    }

    method Disconnect()
      requires Valid(Current())
      modifies this
      ensures Current() == Disconnected(old(Current())) && Valid(Current())
    {
      if current.Some? {
        var h := current.value;
        pool := pool[h := pool[h].(connected := false)];
        calls := calls + [DisconnectCall(h)];
      }
    }

    method SendMessage(message: string)
      requires Valid(Current())
      modifies this
      ensures Current() == Sent(old(Current()), message) && Valid(Current())
    {
      if current.Some? {
        calls := calls + [SendCall(current.value, message)];
      }
    }

    method GetConnected() returns (r: bool)
      requires Valid(Current())
      ensures r == IsConnected(Current())
    {
      r := current.Some? && pool[current.value].connected;
    }

    method GetCurrentConnectionType() returns (r: string)
      requires Valid(Current())
      ensures r == ConnectionType(Current())
    {
      r := if current.None? then NOT_CONNECTED else pool[current.value].typeName;
    }

    /** `getSupportedConnectionTypes()`: the keys, in registration order. */
    method GetSupportedConnectionTypes() returns (r: seq<string>)
      requires Valid(Current())
      ensures r == keys && Distinct(r) && forall k :: k in r <==> k in registry
    {
      r := keys;
    }

    method GetCurrentStrategy() returns (r: Option<nat>)
      ensures r == current
    {
      r := current;
    }
  }
}
