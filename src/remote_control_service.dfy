/** The front end's simulated remote-control service
    (`frontend/services/RemoteControlService.js`): sessions between a
    controlling and a controlled device with an INITIALIZING → ESTABLISHED
    ⇄ PAUSED life cycle, control permissions keyed by
    "<source>-<target>" that expire an hour after they are granted,
    keyboard, mouse and touch state updated by the input senders, an event
    recorder with replay, and the simulated screen and link settings.
    The clock and `Math.random()` are parameters; each `setTimeout`
    callback is an explicit step (`CompleteInitialization`,
    `DecidePermission`, `DeliverInput`, `CompleteCommand`, `ReplayFire`);
    listeners and emitted events are not modelled. */
module RemoteControlService {
  import opened Wrappers
  import opened Seqs
  import opened Text
  import opened OrderedMaps

  const PERMISSION_TTL_MS := 60 * 60 * 1000
  const MAX_RANDOM_SUFFIX := 1000

  const SESSION_GONE := "会话不存在或状态不正确"
  const NO_PERMISSION := "没有权限"
  const SYSTEM_CONTROL_OFF := "系统控制未启用"
  const SESSION_CLOSED := "会话已关闭"

  // ---------------------------------------------------------------------
  // Sessions

  datatype SessionStatus = Initializing | Established | Paused | Closed | Errored

  /** The session options after `{ ...defaults, ...options }`. */
  datatype Options = Options(
    autoRequestPermission: bool,
    enableKeyboardControl: bool,
    enableMouseControl: bool,
    enableTouchControl: bool,
    enableSystemControl: bool)

  /** The options a caller passes; an absent field keeps the default. */
  datatype OptionOverrides = OptionOverrides(
    autoRequestPermission: Option<bool>,
    enableKeyboardControl: Option<bool>,
    enableMouseControl: Option<bool>,
    enableTouchControl: Option<bool>,
    enableSystemControl: Option<bool>)

  datatype ScreenInfo = ScreenInfo(width: int, height: int, dpi: int, refreshRate: int,
                                   orientation: Option<string>, updatedAt: Option<int>)

  datatype ConnectionStats = ConnectionStats(latency: int, packetLoss: real, bandwidth: int,
                                             quality: Option<string>, updatedAt: Option<int>)

  datatype Session = Session(
    id: string, source: string, target: string, status: SessionStatus,
    establishedAt: int, lastActivity: int, options: Options,
    screen: ScreenInfo, stats: ConnectionStats)

  /** `activeSessions`. */
  type Registry = OrderedMap<Session>

  /** `session-${Date.now()}-${Math.floor(Math.random() * 1000)}`. */
  function SessionId(now: int, suffix: nat): string
  {
    "session-" + IntToString(now) + "-" + NatToString(suffix)
  }

  function MergeOptions(o: OptionOverrides): Options
  {
    Options(o.autoRequestPermission.GetOr(true), o.enableKeyboardControl.GetOr(true),
            o.enableMouseControl.GetOr(true), o.enableTouchControl.GetOr(true),
            o.enableSystemControl.GetOr(false))
  }

  /** The session `establishSession` creates. */
  function NewSession(id: string, source: string, target: string, o: OptionOverrides, latency: int, now: int): Session
  {
    Session(id, source, target, Initializing, now, now, MergeOptions(o),
            ScreenInfo(1920, 1080, 96, 60, None, None),
            ConnectionStats(latency, 0.0, 10000, None, None))
  }

  /** `establishSession(source, target, options)`. */
  function Establish(r: Registry, id: string, source: string, target: string, o: OptionOverrides, latency: int, now: int): Registry
  {
    Put(r, id, NewSession(id, source, target, o, latency, now))
  }

  /** A new session starts INITIALIZING on a 1920×1080 screen at the
      service's latency, with every control but system control enabled
      unless the caller says otherwise; other sessions stay as they were,
      and a repeated id replaces the earlier session in its place. */
  lemma EstablishEffect(r: Registry, id: string, source: string, target: string, o: OptionOverrides, latency: int, now: int)
    requires Listed(r)
    ensures var t := Establish(r, id, source, target, o, latency, now);
      && Listed(t) && id in t.entries
      && t.entries[id].status == Initializing
      && t.entries[id].source == source && t.entries[id].target == target
      && t.entries[id].screen.width == 1920 && t.entries[id].screen.height == 1080
      && t.entries[id].stats.latency == latency
      && (o.enableSystemControl.None? ==> !t.entries[id].options.enableSystemControl)
      && (o.autoRequestPermission.None? ==> t.entries[id].options.autoRequestPermission)
      && (forall k :: k in r.entries && k != id ==> k in t.entries && t.entries[k] == r.entries[k])
      && (id in r.entries ==> t.order == r.order)
      && (id !in r.entries ==> t.order == r.order + [id])
  {
    PutListed(r, id, NewSession(id, source, target, o, latency, now));
  }

  /** A pause or resume: whether it happened, and the sessions after it. */
  datatype Changed = Changed(ok: bool, after: Registry)

  /** Moves the session from `from` to `to`, or refuses and changes nothing. */
  function Transition(r: Registry, id: string, from: SessionStatus, to: SessionStatus, now: int): Changed
  {
    if id !in r.entries || r.entries[id].status != from then Changed(false, r)
    else Changed(true, Put(r, id, r.entries[id].(status := to, lastActivity := now)))
  }

  /** `pauseSession(id)`. */
  function Pause(r: Registry, id: string, now: int): Changed
  {
    Transition(r, id, Established, Paused, now)
  }

  /** `resumeSession(id)`. */
  function Resume(r: Registry, id: string, now: int): Changed
  {
    Transition(r, id, Paused, Established, now)
  }

  /** A transition happens exactly when the session is in the state it
      leaves; then only that session's status and activity time change,
      and otherwise nothing does. */
  lemma TransitionIff(r: Registry, id: string, from: SessionStatus, to: SessionStatus, now: int)
    requires Listed(r)
    ensures var c := Transition(r, id, from, to, now);
      && (c.ok <==> id in r.entries && r.entries[id].status == from)
      && (!c.ok ==> c.after == r)
      && (c.ok ==> && Listed(c.after) && c.after.order == r.order
                   && c.after.entries == r.entries[id := r.entries[id].(status := to, lastActivity := now)])
  {
    if id in r.entries {
      PutListed(r, id, r.entries[id].(status := to, lastActivity := now));
    }
  }

  /** Pausing works only from ESTABLISHED and resuming only from PAUSED;
      a pause followed by a resume restores the session but for its
      activity time. */
  lemma PauseThenResume(r: Registry, id: string, t1: int, t2: int)
    requires Listed(r)
    ensures Pause(r, id, t1).ok <==> id in r.entries && r.entries[id].status == Established
    ensures Resume(r, id, t2).ok <==> id in r.entries && r.entries[id].status == Paused
    ensures Pause(r, id, t1).ok ==>
      var p := Pause(r, id, t1).after;
      && !Pause(p, id, t2).ok
      && Resume(p, id, t2).ok
      && Resume(p, id, t2).after == Put(r, id, r.entries[id].(lastActivity := t2))
  {
    TransitionIff(r, id, Established, Paused, t1);
    TransitionIff(r, id, Paused, Established, t2);
    if Pause(r, id, t1).ok {
      var p := Pause(r, id, t1).after;
      TransitionIff(p, id, Paused, Established, t2);
      assert p.entries[id].(status := Established, lastActivity := t2) == r.entries[id].(lastActivity := t2);
    }
  }

  /** The test `getDeviceSessions(device)` filters by. */
  function InvolvesDevice(device: string): Session -> bool
  {
    (s: Session) => s.source == device || s.target == device
  }

  /** `getDeviceSessions(device)`. */
  function DeviceSessions(r: Registry, device: string): seq<Session>
    requires Listed(r)
  {
    Filter(Values(r), InvolvesDevice(device))
  }

  /** A device's sessions are exactly the active sessions it controls or
      is controlled in. */
  lemma DeviceSessionsMember(r: Registry, device: string, s: Session)
    requires Listed(r)
    ensures s in DeviceSessions(r, device) <==>
            (exists k :: k in r.entries && r.entries[k] == s) && (s.source == device || s.target == device)
  {
    FilterMember(Values(r), InvolvesDevice(device), s);
    ValuesMember(r, s);
  }

  // ---------------------------------------------------------------------
  // Permissions

  datatype PermissionStatus = Granted | Pending | Denied | Expired

  datatype Permission = Permission(source: string, target: string, status: PermissionStatus,
                                   requestedAt: int, expiresAt: Option<int>)

  /** `${source}-${target}`. */
  function PermissionKey(source: string, target: string): string
  {
    source + "-" + target
  }

  /** The key is plain concatenation, so device ids containing '-' can
      share a key: a permission for one pair also serves another, and
      revoking one revokes the other. */
  lemma PermissionKeyAmbiguous()
    ensures PermissionKey("a-b", "c") == PermissionKey("a", "b-c")
  {
  }

  /** `expiresAt < Date.now()` compares `null` as 0. */
  function ExpiryOf(p: Permission): int
  {
    p.expiresAt.GetOr(0)
  }

  /** `requestControlPermission(source, target)`: a PENDING record now. */
  function Request(perms: map<string, Permission>, source: string, target: string, now: int): map<string, Permission>
  {
    perms[PermissionKey(source, target) := Permission(source, target, Pending, now, None)]
  }

  /** The request's one-second timer: the record under the key, if still
      there, becomes GRANTED for an hour or DENIED (`granted` stands for
      `Math.random() < 0.8`). */
  function Decide(perms: map<string, Permission>, key: string, granted: bool, now: int): map<string, Permission>
  {
    if key !in perms then perms
    else if granted then perms[key := perms[key].(status := Granted, expiresAt := Some(now + PERMISSION_TTL_MS))]
    else perms[key := perms[key].(status := Denied)]
  }

  /** What `checkControlPermission` returns, and the records after it. */
  datatype Checked = Checked(permission: Option<Permission>, permissions: map<string, Permission>)

  /** `checkControlPermission(source, target)`: a GRANTED record whose
      expiry is past becomes EXPIRED. */
  function Check(perms: map<string, Permission>, source: string, target: string, now: int): Checked
  {
    var key := PermissionKey(source, target);
    if key !in perms then Checked(None, perms)
    else if perms[key].status == Granted && ExpiryOf(perms[key]) < now then
      Checked(Some(perms[key].(status := Expired)), perms[key := perms[key].(status := Expired)])
    else Checked(Some(perms[key]), perms)
  }

  /** The check returns the record under the pair's key and changes only
      its status, and only GRANTED to EXPIRED once the expiry is past. */
  lemma CheckEffect(perms: map<string, Permission>, source: string, target: string, now: int)
    ensures var key := PermissionKey(source, target); var c := Check(perms, source, target, now);
      && c.permissions.Keys == perms.Keys
      && (forall k :: k in perms && k != key ==> c.permissions[k] == perms[k])
      && (c.permission.Some? <==> key in perms)
      && (key in perms ==>
            && c.permission == Some(c.permissions[key])
            && c.permissions[key] == perms[key].(status := c.permissions[key].status)
            && (c.permissions[key].status == Expired <==>
                  perms[key].status == Expired || (perms[key].status == Granted && ExpiryOf(perms[key]) < now))
            && (c.permissions[key].status == Granted <==> perms[key].status == Granted && now <= ExpiryOf(perms[key])))
  {
  }

  /** Checking twice at the same moment is checking once. */
  lemma CheckIdempotent(perms: map<string, Permission>, source: string, target: string, now: int)
    ensures var c := Check(perms, source, target, now);
      Check(c.permissions, source, target, now) == c
  {
  }

  /** A grant at time `t` holds through `t` plus one hour and has expired
      at any later check. */
  lemma GrantLastsAnHour(perms: map<string, Permission>, source: string, target: string, t: int, now: int)
    ensures var key := PermissionKey(source, target);
      var p := Decide(Request(perms, source, target, t), key, true, t);
      var c := Check(p, source, target, now);
      && c.permission.Some?
      && (now <= t + PERMISSION_TTL_MS ==> c.permission.value.status == Granted)
      && (now > t + PERMISSION_TTL_MS ==> c.permission.value.status == Expired)
  {
  }

  /** A refused request is never usable, at any time. */
  lemma DenialSticks(perms: map<string, Permission>, source: string, target: string, t: int, now: int)
    ensures var key := PermissionKey(source, target);
      var p := Decide(Request(perms, source, target, t), key, false, t);
      Check(p, source, target, now).permission == Some(Permission(source, target, Denied, t, None))
  {
  }

  /** Whether an input sender may go ahead, and the permission records
      after its check. */
  datatype Gate = Gate(ok: bool, permissions: map<string, Permission>)

  /** The guard of every input sender: the session exists and is
      ESTABLISHED (else the permissions are not even checked), and its
      permission, once checked, is GRANTED. */
  function Authorize(r: Registry, perms: map<string, Permission>, id: string, now: int): Gate
  {
    if id !in r.entries || r.entries[id].status != Established then Gate(false, perms)
    else
      var c := Check(perms, r.entries[id].source, r.entries[id].target, now);
      Gate(c.permission.Some? && c.permission.value.status == Granted, c.permissions)
  }

  /** Input goes ahead exactly for an ESTABLISHED session whose pair holds
      a GRANTED, unexpired permission. A refused input changes no record
      except a grant that the check found expired. */
  lemma AuthorizeIff(r: Registry, perms: map<string, Permission>, id: string, now: int)
    ensures var g := Authorize(r, perms, id, now);
      && (g.ok <==> id in r.entries && r.entries[id].status == Established
                    && PermissionKey(r.entries[id].source, r.entries[id].target) in perms
                    && perms[PermissionKey(r.entries[id].source, r.entries[id].target)].status == Granted
                    && now <= ExpiryOf(perms[PermissionKey(r.entries[id].source, r.entries[id].target)]))
      && (g.ok ==> g.permissions == perms)
      && (!(id in r.entries && r.entries[id].status == Established) ==> g.permissions == perms)
  {
    if id in r.entries && r.entries[id].status == Established {
      CheckEffect(perms, r.entries[id].source, r.entries[id].target, now);
    }
  }

  /** The per-session keyboard, mouse and touch switches are never
      consulted: input is gated by status and permission alone. */
  lemma InputIgnoresControlOptions(r: Registry, perms: map<string, Permission>, id: string, o: Options, now: int)
    requires id in r.entries
    ensures Authorize(Put(r, id, r.entries[id].(options := o)), perms, id, now) == Authorize(r, perms, id, now)
  {
  }

  /** `revokeControlPermission(source, target)`: whether a record was there. */
  function Revoke(perms: map<string, Permission>, source: string, target: string): (bool, map<string, Permission>)
  {
    var key := PermissionKey(source, target);
    (key in perms, perms - {key})
  }

  /** After `closeSession`: whether the session existed, the sessions and
      the permission records. */
  datatype ClosedState = ClosedState(ok: bool, sessions: Registry, permissions: map<string, Permission>)

  /** `closeSession(id)`: revokes the pair's permission and removes the
      session. */
  function Close(r: Registry, perms: map<string, Permission>, id: string): ClosedState
  {
    if id !in r.entries then ClosedState(false, r, perms)
    else
      var s := r.entries[id];
      ClosedState(true, Drop(r, id), Revoke(perms, s.source, s.target).1)
  }

  /** Closing a known session removes it and its pair's permission and
      nothing else; an unknown id changes nothing. */
  lemma CloseEffect(r: Registry, perms: map<string, Permission>, id: string)
    requires Listed(r)
    ensures var c := Close(r, perms, id);
      && (c.ok <==> id in r.entries)
      && (!c.ok ==> c.sessions == r && c.permissions == perms)
      && Listed(c.sessions) && id !in c.sessions.entries
      && (forall k :: k in c.sessions.entries <==> k in r.entries && k != id)
      && (forall k :: k in c.sessions.entries ==> c.sessions.entries[k] == r.entries[k])
      && (c.ok ==> var key := PermissionKey(r.entries[id].source, r.entries[id].target);
                   key !in c.permissions && forall k :: k in perms && k != key ==> k in c.permissions && c.permissions[k] == perms[k])
  {
    DropListed(r, id);
  }

  /** The 300 ms initialisation timer: a session still present becomes
      ESTABLISHED and, when `autoRequestPermission` is set, requests its
      pair's permission. */
  function Initialize(r: Registry, perms: map<string, Permission>, id: string, now: int): (Registry, map<string, Permission>)
  {
    if id !in r.entries then (r, perms)
    else
      var s := r.entries[id];
      (Put(r, id, s.(status := Established, lastActivity := now)),
       if s.options.autoRequestPermission then Request(perms, s.source, s.target, now) else perms)
  }

  /** After initialisation a session is ESTABLISHED, and its pair's
      permission is PENDING exactly when it asked for one; a closed
      session is not revived. */
  lemma InitializeEffect(r: Registry, perms: map<string, Permission>, id: string, now: int)
    requires Listed(r)
    ensures var (t, p) := Initialize(r, perms, id, now);
      && Listed(t)
      && (id !in r.entries ==> t == r && p == perms)
      && (id in r.entries ==>
            var s := r.entries[id]; var key := PermissionKey(s.source, s.target);
            && t.entries[id].status == Established && t.order == r.order
            && (s.options.autoRequestPermission ==> key in p && p[key].status == Pending && p[key].expiresAt.None?)
            && (!s.options.autoRequestPermission ==> p == perms))
  {
    if id in r.entries {
      PutListed(r, id, r.entries[id].(status := Established, lastActivity := now));
    }
  }

  // ---------------------------------------------------------------------
  // Keyboard

  datatype KeyKind = KeyDown | KeyUp | OtherKeyEvent

  function KeyKindOf(eventType: string): KeyKind
  {
    if eventType == "keyDown" then KeyDown else if eventType == "keyUp" then KeyUp else OtherKeyEvent
  }

  /** The `eventData` of `sendKeyboardEvent`; the modifier flags are
      already booleans (`!!`). */
  datatype KeyData = KeyData(key: string, code: Option<string>, altKey: bool, ctrlKey: bool, metaKey: bool, shiftKey: bool)

  datatype KeyEvent = KeyEvent(eventType: string, key: string, code: string,
                               altKey: bool, ctrlKey: bool, metaKey: bool, shiftKey: bool, timestamp: int)

  /** `pressedKeys` (a `Set`, in insertion order) and `lastKeyEvent`. */
  datatype KeyboardState = KeyboardState(pressed: seq<string>, last: Option<KeyEvent>)

  function KeyEventOf(eventType: string, d: KeyData, now: int): KeyEvent
  {
    KeyEvent(eventType, d.key, d.code.GetOr(""), d.altKey, d.ctrlKey, d.metaKey, d.shiftKey, now)
  }

  /** The keyboard update of `sendKeyboardEvent`. */
  function KeyStep(kb: KeyboardState, ev: KeyEvent): KeyboardState
  {
    var pressed :=
      match KeyKindOf(ev.eventType)
      case KeyDown => if ev.key in kb.pressed then kb.pressed else kb.pressed + [ev.key]
      case KeyUp => RemoveFirst(kb.pressed, ev.key)
      case OtherKeyEvent => kb.pressed;
    KeyboardState(pressed, Some(ev))
  }

  /** KEY_DOWN adds the key and KEY_UP removes it, each key held once;
      other events leave the held keys alone. The event becomes the last
      one. */
  lemma KeyStepPressed(kb: KeyboardState, ev: KeyEvent)
    requires Distinct(kb.pressed)
    ensures var t := KeyStep(kb, ev);
      && Distinct(t.pressed) && t.last == Some(ev)
      && (KeyKindOf(ev.eventType) == KeyDown ==> forall k :: k in t.pressed <==> k in kb.pressed || k == ev.key)
      && (KeyKindOf(ev.eventType) == KeyUp ==> forall k :: k in t.pressed <==> k in kb.pressed && k != ev.key)
      && (KeyKindOf(ev.eventType) == OtherKeyEvent ==> t.pressed == kb.pressed)
  {
    if KeyKindOf(ev.eventType) == KeyDown && ev.key !in kb.pressed {
      SnocDistinct(kb.pressed, ev.key);
    } else if KeyKindOf(ev.eventType) == KeyUp {
      RemoveFirstDistinct(kb.pressed, ev.key);
    }
  }

  /** A key pressed and released, with nothing in between, is no longer
      held and the other held keys are as before. */
  lemma KeyDownThenUp(kb: KeyboardState, d: KeyData, t1: int, t2: int)
    requires Distinct(kb.pressed) && d.key !in kb.pressed
    ensures KeyStep(KeyStep(kb, KeyEventOf("keyDown", d, t1)), KeyEventOf("keyUp", d, t2)).pressed == kb.pressed
  {
    var down := KeyStep(kb, KeyEventOf("keyDown", d, t1));
    assert KeyKindOf("keyDown") == KeyDown;
    assert KeyKindOf("keyUp") == KeyUp;
    assert down.pressed == kb.pressed + [d.key];
    assert Find(down.pressed, d.key) == |kb.pressed| by {
      assert down.pressed[|kb.pressed|] == d.key;
      assert d.key !in down.pressed[..|kb.pressed|] by {
        assert down.pressed[..|kb.pressed|] == kb.pressed;
      }
    }
    assert down.pressed[..|kb.pressed|] + down.pressed[|kb.pressed| + 1..] == kb.pressed;
  }

  // ---------------------------------------------------------------------
  // Mouse

  datatype Point = Point(x: int, y: int)

  datatype MouseKind = MouseMove | MouseDown | MouseUp | MouseClick | MouseScroll | OtherMouseEvent

  function MouseKindOf(eventType: string): MouseKind
  {
    if eventType == "mouseMove" then MouseMove
    else if eventType == "mouseDown" then MouseDown
    else if eventType == "mouseUp" then MouseUp
    else if eventType == "mouseClick" then MouseClick
    else if eventType == "mouseScroll" then MouseScroll
    else OtherMouseEvent
  }

  /** The `eventData` of `sendMouseEvent`: absent fields are `undefined`. */
  datatype MouseData = MouseData(x: Option<int>, y: Option<int>, button: Option<string>,
                                 deltaX: Option<int>, deltaY: Option<int>)

  datatype MouseEvent = MouseEvent(eventType: string, timestamp: int, position: Option<Point>,
                                   button: Option<string>, deltaX: Option<int>, deltaY: Option<int>)

  /** `position`, `buttonState` and `lastEvent`. */
  datatype MouseState = MouseState(position: Point, buttons: map<string, bool>, last: Option<MouseEvent>)

  function InitialMouse(): MouseState
  {
    MouseState(Point(0, 0), map["left" := false, "right" := false, "middle" := false], None)
  }

  /** `eventData.x !== undefined ? eventData.x : current`, for both axes. */
  function Target(ms: MouseState, d: MouseData): Point
  {
    Point(d.x.GetOr(ms.position.x), d.y.GetOr(ms.position.y))
  }

  /** `eventData.button || 'left'`. */
  function ButtonOf(d: MouseData): string
  {
    if d.button.None? || d.button.value == "" then "left" else d.button.value
  }

  function MouseEventOf(ms: MouseState, eventType: string, d: MouseData, now: int): MouseEvent
  {
    match MouseKindOf(eventType)
    case MouseMove => MouseEvent(eventType, now, Some(Target(ms, d)), None, None, None)
    case MouseScroll => MouseEvent(eventType, now, Some(ms.position), None, Some(d.deltaX.GetOr(0)), Some(d.deltaY.GetOr(0)))
    case OtherMouseEvent => MouseEvent(eventType, now, None, None, None, None)
    case _ => MouseEvent(eventType, now, Some(Target(ms, d)), Some(ButtonOf(d)), None, None)
  }

  /** The mouse update of `sendMouseEvent`. */
  function MouseStep(ms: MouseState, eventType: string, d: MouseData, now: int): MouseState
  {
    var ev := MouseEventOf(ms, eventType, d, now);
    match MouseKindOf(eventType)
    case MouseMove => MouseState(Target(ms, d), ms.buttons, Some(ev))
    case MouseDown => MouseState(Target(ms, d), ms.buttons[ButtonOf(d) := true], Some(ev))
    case MouseUp => MouseState(Target(ms, d), ms.buttons[ButtonOf(d) := false], Some(ev))
    case MouseClick => MouseState(Target(ms, d), ms.buttons, Some(ev))
    case _ => ms.(last := Some(ev))
  }

  /** MOUSE_DOWN presses and MOUSE_UP releases the named button (left by
      default); move, down, up and click go to the given coordinates,
      keeping the current one on an axis left out; scroll and other events
      keep position and buttons, and a scroll reports the current position
      and deltas defaulting to 0. */
  lemma MouseStepEffect(ms: MouseState, eventType: string, d: MouseData, now: int)
    ensures var t := MouseStep(ms, eventType, d, now); var k := MouseKindOf(eventType);
      && t.last == Some(MouseEventOf(ms, eventType, d, now))
      && (k in {MouseMove, MouseDown, MouseUp, MouseClick} ==>
            t.position == Point(if d.x.Some? then d.x.value else ms.position.x,
                                if d.y.Some? then d.y.value else ms.position.y))
      && (k in {MouseScroll, OtherMouseEvent} ==> t.position == ms.position && t.buttons == ms.buttons)
      && (k in {MouseMove, MouseClick} ==> t.buttons == ms.buttons)
      && (k == MouseDown ==> t.buttons == ms.buttons[ButtonOf(d) := true])
      && (k == MouseUp ==> t.buttons == ms.buttons[ButtonOf(d) := false])
      && (k in {MouseDown, MouseUp, MouseClick} ==>
            t.last.value.button == Some(if d.button == None || d.button == Some("") then "left" else d.button.value))
      && (k == MouseScroll ==> t.last.value.position == Some(ms.position)
                               && t.last.value.deltaX == Some(if d.deltaX.Some? then d.deltaX.value else 0))
  {
  }

  /** A button pressed and released in place is released, and nothing
      else about the buttons or the position has changed. */
  lemma MouseDownThenUp(ms: MouseState, button: string, t1: int, t2: int)
    requires button in ms.buttons && !ms.buttons[button]
    ensures var d := MouseData(None, None, Some(button), None, None);
      var t := MouseStep(MouseStep(ms, "mouseDown", d, t1), "mouseUp", d, t2);
      t.position == ms.position && (button != "" ==> t.buttons == ms.buttons)
  {
    assert MouseKindOf("mouseDown") == MouseDown;
    assert MouseKindOf("mouseUp") == MouseUp;
  }

  // ---------------------------------------------------------------------
  // Touch

  datatype TouchKind = TouchStart | TouchMove | TouchEnd | TouchCancel | OtherTouchEvent

  function TouchKindOf(eventType: string): TouchKind
  {
    if eventType == "touchStart" then TouchStart
    else if eventType == "touchMove" then TouchMove
    else if eventType == "touchEnd" then TouchEnd
    else if eventType == "touchCancel" then TouchCancel
    else OtherTouchEvent
  }

  /** A touch point as the caller passes it. */
  datatype TouchData = TouchData(identifier: Option<int>, x: int, y: int,
                                 radiusX: Option<int>, radiusY: Option<int>, force: Option<real>)

  datatype Touch = Touch(identifier: int, x: int, y: int, radiusX: int, radiusY: int, force: real)

  datatype TouchEvent = TouchEvent(eventType: string, touches: seq<Touch>, timestamp: int)

  datatype TouchState = TouchState(touches: seq<Touch>, last: Option<TouchEvent>)

  /** `radius || 10`: absent and 0 are falsy. */
  function Radius(r: Option<int>): int
  {
    if r.None? || r.value == 0 then 10 else r.value
  }

  /** `force || 1`. */
  function Force(f: Option<real>): real
  {
    if f.None? || f.value == 0.0 then 1.0 else f.value
  }

  /** `touches.map((touch, index) => …)`. */
  function Normalize(ts: seq<TouchData>): (r: seq<Touch>)
    ensures |r| == |ts|
  {
    seq(|ts|, i requires 0 <= i < |ts| =>
      Touch(ts[i].identifier.GetOr(i), ts[i].x, ts[i].y, Radius(ts[i].radiusX), Radius(ts[i].radiusY), Force(ts[i].force)))
  }

  /** Each point keeps its coordinates and its identifier, which defaults
      to its index only when absent (0 is kept); a radius that is absent
      or 0 becomes 10 and a force that is absent or 0 becomes 1. */
  lemma NormalizeDefaults(ts: seq<TouchData>, i: nat)
    requires i < |ts|
    ensures var p := Normalize(ts)[i];
      && p.x == ts[i].x && p.y == ts[i].y
      && (ts[i].identifier.Some? ==> p.identifier == ts[i].identifier.value)
      && (ts[i].identifier.None? ==> p.identifier == i)
      && (ts[i].radiusX in {None, Some(0)} ==> p.radiusX == 10)
      && (ts[i].radiusX !in {None, Some(0)} ==> p.radiusX == ts[i].radiusX.value)
      && (ts[i].radiusY in {None, Some(0)} ==> p.radiusY == 10)
      && (ts[i].force in {None, Some(0.0)} ==> p.force == 1.0)
      && (ts[i].force !in {None, Some(0.0)} ==> p.force == ts[i].force.value)
  {
  }

  /** The touch update of `sendTouchEvent`. */
  function TouchStep(st: TouchState, eventType: string, ts: seq<TouchData>, now: int): TouchState
  {
    var ev := TouchEvent(eventType, Normalize(ts), now);
    var touches :=
      match TouchKindOf(eventType)
      case TouchStart => ev.touches
      case TouchMove => ev.touches
      case TouchEnd => []
      case TouchCancel => []
      case OtherTouchEvent => st.touches;
    TouchState(touches, Some(ev))
  }

  /** START and MOVE replace the touches, END and CANCEL clear them, and
      any other event keeps them; an END after a START leaves none. */
  lemma TouchStepEffect(st: TouchState, eventType: string, ts: seq<TouchData>, now: int, later: seq<TouchData>, t2: int)
    ensures var t := TouchStep(st, eventType, ts, now); var k := TouchKindOf(eventType);
      && t.last == Some(TouchEvent(eventType, Normalize(ts), now))
      && (k in {TouchStart, TouchMove} ==> t.touches == Normalize(ts) && |t.touches| == |ts|)
      && (k in {TouchEnd, TouchCancel} ==> t.touches == [])
      && (k == OtherTouchEvent ==> t.touches == st.touches)
    ensures TouchStep(TouchStep(st, "touchStart", ts, now), "touchEnd", later, t2).touches == []
  {
    assert TouchKindOf("touchEnd") == TouchEnd;
  }

  // ---------------------------------------------------------------------
  // Recording and replay

  datatype Payload = KeyPayload(keyEvent: KeyEvent) | MousePayload(mouseEvent: MouseEvent) | TouchPayload(touchEvent: TouchEvent)

  /** The `category` of a recorded event. */
  function Category(p: Payload): string
  {
    match p
    case KeyPayload(_) => "keyboard"
    case MousePayload(_) => "mouse"
    case TouchPayload(_) => "touch"
  }

  datatype RecordedEvent = RecordedEvent(data: Payload, recordedAt: int)

  /** `isRecording` and `recordedEvents`. */
  datatype Recorder = Recorder(recording: bool, events: seq<RecordedEvent>)

  /** `recordEvent(category, data)`. */
  function Record(r: Recorder, p: Payload, now: int): Recorder
  {
    if r.recording then r.(events := r.events + [RecordedEvent(p, now)]) else r
  }

  /** `startRecording()`. */
  function StartRecording(): Recorder
  {
    Recorder(true, [])
  }

  /** `stopRecording()`: the events stay until the next start. */
  function StopRecording(r: Recorder): (Recorder, seq<RecordedEvent>)
  {
    (r.(recording := false), r.events)
  }

  /** While recording every input is appended in order; otherwise nothing
      is kept. What a stop returns is what was recorded since the start. */
  lemma RecordEffect(r: Recorder, p: Payload, now: int)
    ensures r.recording ==> Record(r, p, now).events == r.events + [RecordedEvent(p, now)]
    ensures !r.recording ==> Record(r, p, now) == r
    ensures StopRecording(Record(Record(StartRecording(), p, now), p, now + 1)).1
            == [RecordedEvent(p, now), RecordedEvent(p, now + 1)]
    ensures var (s, _) := StopRecording(r); Record(s, p, now) == s
  {
  }

  /** The delay `replayEvents` gives the timer of event `i`, as written:
      0 for the first, and otherwise the gap to the previous event over
      the speed. All the timers are started together. */
  function ReplayDelayAsWritten(events: seq<RecordedEvent>, speed: real, i: nat): real
    requires speed > 0.0 && i < |events|
  {
    if i == 0 then 0.0 else (events[i].recordedAt - events[i - 1].recordedAt) as real / speed
  }

  /** Since every timer starts at the call, a later event with a shorter
      gap fires before an earlier one: events recorded at 0, 1000 and
      1100 ms fire at 0, 1000 and 100 ms. */
  lemma ReplayReordersAsWritten(p: Payload)
    ensures var ev := [RecordedEvent(p, 0), RecordedEvent(p, 1000), RecordedEvent(p, 1100)];
      && ev[0].recordedAt < ev[1].recordedAt < ev[2].recordedAt
      && ReplayDelayAsWritten(ev, 1.0, 2) < ReplayDelayAsWritten(ev, 1.0, 1)
  {
  }

  /** The intended timer delay of event `i`: its distance from the first
      event, over the speed. */
  function ReplayOffset(events: seq<RecordedEvent>, speed: real, i: nat): real
    requires speed > 0.0 && i < |events|
  {
    (events[i].recordedAt - events[0].recordedAt) as real / speed
  }

  /** The recorded times do not go back. */
  ghost predicate Chronological(events: seq<RecordedEvent>)
  {
    forall i, j :: 0 <= i < j < |events| ==> events[i].recordedAt <= events[j].recordedAt
  }

  /** With the intended delays the first event fires at once, each later
      one fires the recorded gap (over the speed) after its predecessor,
      and recorded order is replay order. */
  lemma ReplayOffsetKeepsGaps(events: seq<RecordedEvent>, speed: real, i: nat)
    requires speed > 0.0 && 0 < i < |events| && Chronological(events)
    ensures ReplayOffset(events, speed, 0) == 0.0
    ensures ReplayOffset(events, speed, i) - ReplayOffset(events, speed, i - 1)
            == ReplayDelayAsWritten(events, speed, i)
    ensures ReplayOffset(events, speed, i - 1) <= ReplayOffset(events, speed, i)
  {
    var a := (events[i - 1].recordedAt - events[0].recordedAt) as real;
    var b := (events[i].recordedAt - events[0].recordedAt) as real;
    assert b / speed - a / speed == (b - a) / speed;
    assert a <= b;
    assert a / speed <= b / speed;
  }

  /** The replay schedule: each event with the delay of its timer. */
  datatype Scheduled = Scheduled(delay: real, event: RecordedEvent)

  function ReplaySchedule(events: seq<RecordedEvent>, speed: real): (r: seq<Scheduled>)
    requires speed > 0.0
    ensures |r| == |events|
    ensures forall i :: 0 <= i < |r| ==> r[i] == Scheduled(ReplayOffset(events, speed, i), events[i])
  {
    seq(|events|, i requires 0 <= i < |events| => Scheduled(ReplayOffset(events, speed, i), events[i]))
  }

  /** A recorded mouse event, passed back to `sendMouseEvent` as written:
      it carries `position`, not `x`/`y`, so the coordinates read as
      undefined. The button and the deltas survive. */
  function MouseDataAsWritten(ev: MouseEvent): MouseData
  {
    MouseData(None, None, ev.button, ev.deltaX, ev.deltaY)
  }

  /** Replaying a recorded move to (5, 5) from (0, 0) leaves the pointer
      at (0, 0). */
  lemma ReplayedMoveStaysAsWritten(now: int, later: int)
    ensures var ms := InitialMouse();
      var moved := MouseStep(ms, "mouseMove", MouseData(Some(5), Some(5), None, None, None), now);
      var ev := moved.last.value;
      && moved.position == Point(5, 5)
      && MouseStep(ms, ev.eventType, MouseDataAsWritten(ev), later).position == Point(0, 0)
  {
    assert MouseKindOf("mouseMove") == MouseMove;
  }

  /** A recorded mouse event as the data it was built from: its position
      gives the coordinates. */
  function MouseDataOf(ev: MouseEvent): MouseData
  {
    match ev.position
    case Some(p) => MouseData(Some(p.x), Some(p.y), ev.button, ev.deltaX, ev.deltaY)
    case None => MouseData(None, None, ev.button, ev.deltaX, ev.deltaY)
  }

  /** Replaying a recorded move, press, release or click from any mouse
      state puts the pointer where it was recorded and repeats the
      button change. */
  lemma ReplayedMouseRepeats(ms: MouseState, eventType: string, d: MouseData, now: int, other: MouseState, later: int)
    requires MouseKindOf(eventType) in {MouseMove, MouseDown, MouseUp, MouseClick}
    ensures var first := MouseStep(ms, eventType, d, now);
      var ev := first.last.value;
      var again := MouseStep(other, ev.eventType, MouseDataOf(ev), later);
      && again.position == first.position
      && (MouseKindOf(eventType) == MouseDown ==> again.buttons == other.buttons[ButtonOf(d) := true])
      && (MouseKindOf(eventType) == MouseUp ==> again.buttons == other.buttons[ButtonOf(d) := false])
  {
  }

  /** A recorded key event as key data, and recorded touches as touch
      data, as `replayEvents` passes them back. */
  function KeyDataOf(ev: KeyEvent): KeyData
  {
    KeyData(ev.key, Some(ev.code), ev.altKey, ev.ctrlKey, ev.metaKey, ev.shiftKey)
  }

  function TouchDataOf(ts: seq<Touch>): (r: seq<TouchData>)
    ensures |r| == |ts|
  {
    seq(|ts|, i requires 0 <= i < |ts| =>
      TouchData(Some(ts[i].identifier), ts[i].x, ts[i].y, Some(ts[i].radiusX), Some(ts[i].radiusY), Some(ts[i].force)))
  }

  /** Replayed keys and touches come out as recorded: normalising touch
      points twice is normalising them once, and a key event rebuilt
      from its record is the record but for its time. */
  lemma ReplayedInputRepeats(ts: seq<TouchData>, eventType: string, d: KeyData, now: int, later: int)
    ensures Normalize(TouchDataOf(Normalize(ts))) == Normalize(ts)
    ensures var ev := KeyEventOf(eventType, d, now);
      KeyEventOf(ev.eventType, KeyDataOf(ev), later) == ev.(timestamp := later)
  {
    var n := Normalize(ts);
    var m := Normalize(TouchDataOf(n));
    forall i | 0 <= i < |n| ensures m[i] == n[i] {
      assert Radius(Some(n[i].radiusX)) == n[i].radiusX;
      assert Radius(Some(n[i].radiusY)) == n[i].radiusY;
      assert Force(Some(n[i].force)) == n[i].force;
    }
  }

  // ---------------------------------------------------------------------
  // System commands, link and screen simulation

  /** `sendSystemCommand`'s checks before its timer: the rejection message,
      if any, and the permission records after them. */
  datatype CommandCheck = CommandCheck(rejection: Option<string>, permissions: map<string, Permission>)

  function CheckCommand(r: Registry, perms: map<string, Permission>, id: string, now: int): CommandCheck
  {
    var g := Authorize(r, perms, id, now);
    if id !in r.entries || r.entries[id].status != Established then CommandCheck(Some(SESSION_GONE), perms)
    else if !g.ok then CommandCheck(Some(NO_PERMISSION), g.permissions)
    else if !r.entries[id].options.enableSystemControl then CommandCheck(Some(SYSTEM_CONTROL_OFF), g.permissions)
    else CommandCheck(None, g.permissions)
  }

  /** A command is accepted exactly when input would be and the session
      enabled system control, so with the default options it is always
      refused; the first failing check names the rejection. */
  lemma CheckCommandIff(r: Registry, perms: map<string, Permission>, id: string, now: int)
    ensures var c := CheckCommand(r, perms, id, now);
      && (c.rejection.None? <==> Authorize(r, perms, id, now).ok && r.entries[id].options.enableSystemControl)
      && c.permissions == Authorize(r, perms, id, now).permissions
      && (c.rejection == Some(SESSION_GONE) <==> !(id in r.entries && r.entries[id].status == Established))
    ensures forall src, tgt, o, lat, t ::
      !CheckCommand(Establish(r, id, src, tgt, o, lat, t), perms, id, now).rejection.None?
  {
  }

  /** The command's result when its timer fires. */
  datatype CommandResult = SessionGone | Executed(command: string, success: bool, timestamp: int, error: Option<string>)

  /** The command timer: an error result if the session is gone; else the
      session's activity time is refreshed and the command succeeds when
      `succeeded` (standing for `Math.random() < 0.9`). */
  function CompleteCommand(r: Registry, id: string, command: string, succeeded: bool, now: int): (CommandResult, Registry)
  {
    if id !in r.entries then (SessionGone, r)
    else
      (Executed(command, succeeded, now, if succeeded then None else Some("命令执行失败: " + command)),
       Put(r, id, r.entries[id].(lastActivity := now)))
  }

  /** `setSimulatedLatency(ms)`: `Math.max(0, ms)`. */
  function ClampLatency(ms: int): (r: int)
  {
    Max(0, ms)
  }

  lemma ClampLatencyEffect(ms: int)
    ensures ClampLatency(ms) >= 0
    ensures ms >= 0 ==> ClampLatency(ms) == ms
    ensures ms < 0 ==> ClampLatency(ms) == 0
    ensures ClampLatency(ClampLatency(ms)) == ClampLatency(ms)
  {
  }

  datatype QualityStats = QualityStats(latency: int, packetLoss: real, bandwidth: int)

  /** `qualityMap[quality] || qualityMap.good`. */
  function StatsFor(quality: string): QualityStats
  {
    if quality == "excellent" then QualityStats(50, 0.0, 20000)
    else if quality == "fair" then QualityStats(200, 0.05, 8000)
    else if quality == "poor" then QualityStats(500, 0.15, 3000)
    else QualityStats(100, 0.01, 15000)
  }

  /** Better grades have lower latency and loss and more bandwidth; any
      unknown grade counts as 'good'. */
  lemma StatsOrdered(q: string)
    ensures var e, g, f, p := StatsFor("excellent"), StatsFor("good"), StatsFor("fair"), StatsFor("poor");
      && e.latency < g.latency < f.latency < p.latency
      && e.packetLoss < g.packetLoss < f.packetLoss < p.packetLoss
      && e.bandwidth > g.bandwidth > f.bandwidth > p.bandwidth
    ensures q !in {"excellent", "fair", "poor"} ==> StatsFor(q) == StatsFor("good")
  {
  }

  /** `simulateConnectionQualityChange(id, quality)`: the session's stats
      and the service latency take the grade's values. */
  function QualityChange(r: Registry, latency: int, id: string, quality: string, now: int): (Registry, int)
  {
    if id !in r.entries then (r, latency)
    else
      var st := StatsFor(quality);
      (Put(r, id, r.entries[id].(stats := ConnectionStats(st.latency, st.packetLoss, st.bandwidth, Some(quality), Some(now)))),
       st.latency)
  }

  /** `simulateScreenSizeChange(id, width, height)`. */
  function Resize(r: Registry, id: string, width: int, height: int, now: int): Registry
  {
    if id !in r.entries then r
    else Put(r, id, r.entries[id].(screen := r.entries[id].screen.(width := width, height := height, updatedAt := Some(now))))
  }

  /** The swap condition of `simulateDeviceOrientationChange`. */
  predicate SwapsFor(s: ScreenInfo, orientation: string)
  {
    (Contains(orientation, "landscape") && s.width < s.height)
    || (!(Contains(orientation, "landscape") && s.width < s.height)
        && Contains(orientation, "portrait") && s.width > s.height)
  }

  /** The screen after an orientation change. */
  function Orient(s: ScreenInfo, orientation: string, now: int): ScreenInfo
  {
    var swap := SwapsFor(s, orientation);
    s.(width := if swap then s.height else s.width,
       height := if swap then s.width else s.height,
       orientation := Some(orientation), updatedAt := Some(now))
  }

  /** Width and height swap exactly when a landscape orientation meets a
      taller screen or a portrait one a wider screen; a landscape screen
      is then never taller and a portrait one never wider, and a second
      change to the same orientation keeps the size, unless the name
      contains both words. */
  lemma OrientEffect(s: ScreenInfo, orientation: string, now: int, later: int)
    ensures var t := Orient(s, orientation, now);
      && t.orientation == Some(orientation) && t.dpi == s.dpi && t.refreshRate == s.refreshRate
      && (SwapsFor(s, orientation) <==>
            (Contains(orientation, "landscape") && s.width < s.height)
            || (Contains(orientation, "portrait") && s.width > s.height))
      && (SwapsFor(s, orientation) ==> t.width == s.height && t.height == s.width)
      && (!SwapsFor(s, orientation) ==> t.width == s.width && t.height == s.height)
      && (Contains(orientation, "landscape") && !Contains(orientation, "portrait") ==> t.width >= t.height)
      && (!Contains(orientation, "landscape") && Contains(orientation, "portrait") ==> t.width <= t.height)
      && (!(Contains(orientation, "landscape") && Contains(orientation, "portrait")) ==>
            Orient(t, orientation, later).width == t.width && Orient(t, orientation, later).height == t.height)
  {
  }

  /** `simulateDeviceOrientationChange(id, orientation)`. */
  function Reorient(r: Registry, id: string, orientation: string, now: int): Registry
  {
    if id !in r.entries then r
    else Put(r, id, r.entries[id].(screen := Orient(r.entries[id].screen, orientation, now)))
  }

  /** The senders' delivery timer: a session still ESTABLISHED has its
      activity time refreshed. */
  function Deliver(r: Registry, id: string, now: int): Registry
  {
    if id in r.entries && r.entries[id].status == Established then Put(r, id, r.entries[id].(lastActivity := now)) else r
  }

  /** The preserved invariant of the service. */
  ghost predicate Consistent(r: Registry, kb: KeyboardState)
  {
    Listed(r) && Distinct(kb.pressed)
  }

  /** Every operation on the sessions keeps them listed. */
  lemma RegistryStepsListed(r: Registry, id: string, now: int, w: int, h: int, o: string, q: string, lat: int)
    requires Listed(r)
    ensures Listed(Deliver(r, id, now)) && Listed(Resize(r, id, w, h, now)) && Listed(Reorient(r, id, o, now))
    ensures Listed(QualityChange(r, lat, id, q, now).0)
  {
    if id in r.entries {
      PutListed(r, id, r.entries[id].(lastActivity := now));
      PutListed(r, id, r.entries[id].(screen := r.entries[id].screen.(width := w, height := h, updatedAt := Some(now))));
      PutListed(r, id, r.entries[id].(screen := Orient(r.entries[id].screen, o, now)));
      var st := StatsFor(q);
      PutListed(r, id, r.entries[id].(stats := ConnectionStats(st.latency, st.packetLoss, st.bandwidth, Some(q), Some(now))));
    }
  }

  // ---------------------------------------------------------------------
  // The service object

  class Service {
    var sessions: Registry
    var permissions: map<string, Permission>
    var keyboard: KeyboardState
    var mouse: MouseState
    var touch: TouchState
    var latency: int
    var recorder: Recorder

    ghost predicate Valid()
      reads this
    {
      Consistent(sessions, keyboard)
    }

    constructor ()
      ensures Valid()
      ensures sessions == OrderedMap(map[], []) && permissions == map[]
      ensures keyboard == KeyboardState([], None) && mouse == InitialMouse() && touch == TouchState([], None)
      ensures latency == 100 && recorder == Recorder(false, [])
    {
      sessions := OrderedMap(map[], []);
      permissions := map[];
      keyboard := KeyboardState([], None);
      mouse := InitialMouse();
      touch := TouchState([], None);
      latency := 100;
      recorder := Recorder(false, []);
    }

    /** `establishSession(source, target, options)`, with `suffix` for
        `Math.floor(Math.random() * 1000)`. */
    method EstablishSession(source: string, target: string, o: OptionOverrides, now: int, suffix: nat) returns (id: string)
      requires Valid() && suffix < MAX_RANDOM_SUFFIX
      modifies this`sessions
      ensures Valid()
      ensures id == SessionId(now, suffix)
      ensures sessions == Establish(old(sessions), id, source, target, o, latency, now)
    {
      id := SessionId(now, suffix);
      EstablishEffect(sessions, id, source, target, o, latency, now);
      sessions := Establish(sessions, id, source, target, o, latency, now);
    }

    /** The 300 ms initialisation timer of session `id`. */
    method CompleteInitialization(id: string, now: int)
      requires Valid()
      modifies this`sessions, this`permissions
      ensures Valid()
      ensures (sessions, permissions) == Initialize(old(sessions), old(permissions), id, now)
    {
      InitializeEffect(sessions, permissions, id, now);
      var (r, p) := Initialize(sessions, permissions, id, now);
      sessions, permissions := r, p;
    }

    method PauseSession(id: string, now: int) returns (ok: bool)
      requires Valid()
      modifies this`sessions
      ensures Valid()
      ensures Changed(ok, sessions) == Pause(old(sessions), id, now)
    {
      TransitionIff(sessions, id, Established, Paused, now);
      var c := Pause(sessions, id, now);
      ok, sessions := c.ok, c.after;
    }

    method ResumeSession(id: string, now: int) returns (ok: bool)
      requires Valid()
      modifies this`sessions
      ensures Valid()
      ensures Changed(ok, sessions) == Resume(old(sessions), id, now)
    {
      TransitionIff(sessions, id, Paused, Established, now);
      var c := Resume(sessions, id, now);
      ok, sessions := c.ok, c.after;
    }

    method CloseSession(id: string) returns (ok: bool)
      requires Valid()
      modifies this`sessions, this`permissions
      ensures Valid()
      ensures ClosedState(ok, sessions, permissions) == Close(old(sessions), old(permissions), id)
    {
      CloseEffect(sessions, permissions, id);
      var c := Close(sessions, permissions, id);
      ok, sessions, permissions := c.ok, c.sessions, c.permissions;
    }

    method GetSession(id: string) returns (s: Option<Session>)
      ensures id in sessions.entries ==> s == Some(sessions.entries[id])
      ensures id !in sessions.entries ==> s == None
    {
      s := if id in sessions.entries then Some(sessions.entries[id]) else None;
    }

    method GetAllActiveSessions() returns (all: seq<Session>)
      requires Valid()
      ensures all == Values(sessions)
    {
      all := Values(sessions);
    }

    method GetDeviceSessions(device: string) returns (r: seq<Session>)
      requires Valid()
      ensures r == DeviceSessions(sessions, device)
    {
      r := DeviceSessions(sessions, device);
    }

    method RequestControlPermission(source: string, target: string, now: int)
      modifies this`permissions
      ensures permissions == Request(old(permissions), source, target, now)
    {
      permissions := Request(permissions, source, target, now);
    }

    /** The request's one-second timer, `granted` standing for the draw. */
    method DecidePermission(source: string, target: string, granted: bool, now: int)
      modifies this`permissions
      ensures permissions == Decide(old(permissions), PermissionKey(source, target), granted, now)
    {
      permissions := Decide(permissions, PermissionKey(source, target), granted, now);
    }

    method CheckControlPermission(source: string, target: string, now: int) returns (p: Option<Permission>)
      modifies this`permissions
      ensures Checked(p, permissions) == Check(old(permissions), source, target, now)
    {
      var c := Check(permissions, source, target, now);
      p, permissions := c.permission, c.permissions;
    }

    method RevokeControlPermission(source: string, target: string) returns (removed: bool)
      modifies this`permissions
      ensures (removed, permissions) == Revoke(old(permissions), source, target)
    {
      var (b, p) := Revoke(permissions, source, target);
      removed, permissions := b, p;
    }

    method SendKeyboardEvent(id: string, eventType: string, d: KeyData, now: int) returns (ok: bool)
      requires Valid()
      modifies this`permissions, this`keyboard, this`recorder
      ensures Valid()
      ensures var g := Authorize(old(sessions), old(permissions), id, now); var ev := KeyEventOf(eventType, d, now);
        && ok == g.ok && permissions == g.permissions
        && keyboard == (if ok then KeyStep(old(keyboard), ev) else old(keyboard))
        && recorder == (if ok then Record(old(recorder), KeyPayload(ev), now) else old(recorder))
    {
      var g := Authorize(sessions, permissions, id, now);
      permissions := g.permissions;
      ok := g.ok;
      if ok {
        var ev := KeyEventOf(eventType, d, now);
        KeyStepPressed(keyboard, ev);
        keyboard := KeyStep(keyboard, ev);
        recorder := Record(recorder, KeyPayload(ev), now);
      }
    }

    method SendMouseEvent(id: string, eventType: string, d: MouseData, now: int) returns (ok: bool)
      requires Valid()
      modifies this`permissions, this`mouse, this`recorder
      ensures Valid()
      ensures var g := Authorize(old(sessions), old(permissions), id, now);
        && ok == g.ok && permissions == g.permissions
        && mouse == (if ok then MouseStep(old(mouse), eventType, d, now) else old(mouse))
        && recorder == (if ok then Record(old(recorder), MousePayload(MouseEventOf(old(mouse), eventType, d, now)), now)
                        else old(recorder))
    {
      var g := Authorize(sessions, permissions, id, now);
      permissions := g.permissions;
      ok := g.ok;
      if ok {
        var ev := MouseEventOf(mouse, eventType, d, now);
        mouse := MouseStep(mouse, eventType, d, now);
        recorder := Record(recorder, MousePayload(ev), now);
      }
    }

    method SendTouchEvent(id: string, eventType: string, ts: seq<TouchData>, now: int) returns (ok: bool)
      requires Valid()
      modifies this`permissions, this`touch, this`recorder
      ensures Valid()
      ensures var g := Authorize(old(sessions), old(permissions), id, now);
        && ok == g.ok && permissions == g.permissions
        && touch == (if ok then TouchStep(old(touch), eventType, ts, now) else old(touch))
        && recorder == (if ok then Record(old(recorder), TouchPayload(TouchEvent(eventType, Normalize(ts), now)), now)
                        else old(recorder))
    {
      var g := Authorize(sessions, permissions, id, now);
      permissions := g.permissions;
      ok := g.ok;
      if ok {
        touch := TouchStep(touch, eventType, ts, now);
        recorder := Record(recorder, TouchPayload(TouchEvent(eventType, Normalize(ts), now)), now);
      }
    }

    /** The senders' delivery timer for session `id`. */
    method DeliverInput(id: string, now: int)
      requires Valid()
      modifies this`sessions
      ensures Valid()
      ensures sessions == Deliver(old(sessions), id, now)
    {
      RegistryStepsListed(sessions, id, now, 0, 0, "", "", 0);
      sessions := Deliver(sessions, id, now);
    }

    /** `sendSystemCommand`'s synchronous part: the rejection, if any. */
    method SendSystemCommand(id: string, now: int) returns (rejection: Option<string>)
      modifies this`permissions
      ensures CommandCheck(rejection, permissions) == CheckCommand(old(sessions), old(permissions), id, now)
    {
      var c := CheckCommand(sessions, permissions, id, now);
      rejection, permissions := c.rejection, c.permissions;
    }

    /** The timer of an accepted command. */
    method FinishCommand(id: string, command: string, succeeded: bool, now: int) returns (result: CommandResult)
      requires Valid()
      modifies this`sessions
      ensures Valid()
      ensures (result, sessions) == CompleteCommand(old(sessions), id, command, succeeded, now)
    {
      RegistryStepsListed(sessions, id, now, 0, 0, "", "", 0);
      var (c, r) := CompleteCommand(sessions, id, command, succeeded, now);
      result, sessions := c, r;
    }

    method StartRecordingEvents()
      modifies this`recorder
      ensures recorder == StartRecording()
    {
      recorder := StartRecording();
    }

    method StopRecordingEvents() returns (events: seq<RecordedEvent>)
      modifies this`recorder
      ensures (recorder, events) == StopRecording(old(recorder))
    {
      events := recorder.events;
      recorder := recorder.(recording := false);
    }

    /** `replayEvents(id, events, speed)`: the timers it starts, with the
        delays measured from the first event (`ReplayOffset`); `None` for
        `events` replays the recording. An empty list starts none. */
    method ReplayEvents(events: Option<seq<RecordedEvent>>, speed: real) returns (plan: seq<Scheduled>)
      requires speed > 0.0
      ensures plan == ReplaySchedule(events.GetOr(recorder.events), speed)
    {
      plan := ReplaySchedule(events.GetOr(recorder.events), speed);
    }

    /** One replay timer firing: nothing unless the session is ESTABLISHED;
        then the event goes back through its sender. */
    method ReplayFire(id: string, e: RecordedEvent, now: int)
      requires Valid()
      modifies this`permissions, this`keyboard, this`mouse, this`touch, this`recorder
      ensures Valid()
      ensures !(id in old(sessions.entries) && old(sessions.entries[id].status) == Established) ==>
        && permissions == old(permissions) && keyboard == old(keyboard) && mouse == old(mouse)
        && touch == old(touch) && recorder == old(recorder)
      ensures id in old(sessions.entries) && old(sessions.entries[id].status) == Established ==>
        var g := Authorize(old(sessions), old(permissions), id, now);
        && permissions == g.permissions
        && (e.data.KeyPayload? ==>
              var ev := KeyEventOf(e.data.keyEvent.eventType, KeyDataOf(e.data.keyEvent), now);
              && keyboard == (if g.ok then KeyStep(old(keyboard), ev) else old(keyboard))
              && recorder == (if g.ok then Record(old(recorder), KeyPayload(ev), now) else old(recorder))
              && mouse == old(mouse) && touch == old(touch))
        && (e.data.MousePayload? ==>
              var m := e.data.mouseEvent;
              && mouse == (if g.ok then MouseStep(old(mouse), m.eventType, MouseDataOf(m), now) else old(mouse))
              && recorder == (if g.ok then Record(old(recorder), MousePayload(MouseEventOf(old(mouse), m.eventType, MouseDataOf(m), now)), now)
                              else old(recorder))
              && keyboard == old(keyboard) && touch == old(touch))
        && (e.data.TouchPayload? ==>
              var t := e.data.touchEvent;
              && touch == (if g.ok then TouchStep(old(touch), t.eventType, TouchDataOf(t.touches), now) else old(touch))
              && recorder == (if g.ok then Record(old(recorder), TouchPayload(TouchEvent(t.eventType, Normalize(TouchDataOf(t.touches)), now)), now)
                              else old(recorder))
              && keyboard == old(keyboard) && mouse == old(mouse))
    {
      if id !in sessions.entries || sessions.entries[id].status != Established {
        return;
      }
      var ok;
      match e.data {
        case KeyPayload(k) =>
          ok := SendKeyboardEvent(id, k.eventType, KeyDataOf(k), now);
        case MousePayload(m) =>
          ok := SendMouseEvent(id, m.eventType, MouseDataOf(m), now);
        case TouchPayload(t) =>
          ok := SendTouchEvent(id, t.eventType, TouchDataOf(t.touches), now);
      }
    }

    method SetSimulatedLatency(ms: int)
      modifies this`latency
      ensures latency == ClampLatency(ms)
    {
      latency := ClampLatency(ms);
    }

    method GetKeyboardState() returns (pressed: seq<string>, last: Option<KeyEvent>)
      ensures pressed == keyboard.pressed && last == keyboard.last
    {
      pressed, last := keyboard.pressed, keyboard.last;
    }

    method GetMouseState() returns (m: MouseState)
      ensures m == mouse
    {
      m := mouse;
    }

    method GetTouchState() returns (t: TouchState)
      ensures t == touch
    {
      t := touch;
    }

    method SimulateConnectionQualityChange(id: string, quality: string, now: int)
      requires Valid()
      modifies this`sessions, this`latency
      ensures Valid()
      ensures (sessions, latency) == QualityChange(old(sessions), old(latency), id, quality, now)
    {
      RegistryStepsListed(sessions, id, now, 0, 0, "", quality, latency);
      var (r, l) := QualityChange(sessions, latency, id, quality, now);
      sessions, latency := r, l;
    }

    method SimulateScreenSizeChange(id: string, width: int, height: int, now: int)
      requires Valid()
      modifies this`sessions
      ensures Valid()
      ensures sessions == Resize(old(sessions), id, width, height, now)
    {
      RegistryStepsListed(sessions, id, now, width, height, "", "", 0);
      sessions := Resize(sessions, id, width, height, now);
    }

    method SimulateDeviceOrientationChange(id: string, orientation: string, now: int)
      requires Valid()
      modifies this`sessions
      ensures Valid()
      ensures sessions == Reorient(old(sessions), id, orientation, now)
    {
      RegistryStepsListed(sessions, id, now, 0, 0, orientation, "", 0);
      sessions := Reorient(sessions, id, orientation, now);
    }

    /** `reset()`: closes every session in insertion order, then clears the
        permissions and the input and recording state. */
    method Reset()
      requires Valid()
      modifies this`sessions, this`permissions, this`keyboard, this`mouse, this`touch, this`recorder
      ensures Valid()
      ensures sessions == OrderedMap(map[], []) && permissions == map[]
      ensures keyboard == KeyboardState([], None) && mouse == InitialMouse() && touch == TouchState([], None)
      ensures recorder == Recorder(false, []) && latency == old(latency)
    {
      var ids := sessions.order;
      var i := 0;
      while i < |ids|
        invariant 0 <= i <= |ids|
        invariant Valid()
        invariant sessions.order == ids[i..]
        decreases |ids| - i
      {
        assert sessions.order[0] == ids[i];
        DropFirst(sessions);
        var ok := CloseSession(ids[i]);
        assert ids[i..][1..] == ids[i + 1..];
        i := i + 1;
      }
      NoOrderEmpty(sessions);
      permissions := map[];
      keyboard := KeyboardState([], None);
      mouse := InitialMouse();
      touch := TouchState([], None);
      recorder := Recorder(false, []);
    }
  }
}
