/** The desktop's remote controller (`remote-controller.js`): mouse,
    wheel, keyboard and touch input on the screen view is turned into
    control events in the Android device's coordinates, touch gestures
    (swipe, double tap) are recognised, and every event goes to the
    device over the WebSocket connection and to the Electron main
    process. The DOM (`getControlAreaRect`, the event objects), the clock
    and the connection's state are parameters; the control indicator and
    console output are left out. */
module RemoteController {
  import opened Wrappers
  import opened Text
  import opened Arith
  import opened OrderedMaps

  datatype Point = Point(x: real, y: real)
  datatype DevicePoint = DevicePoint(x: int, y: int)

  /** The bounding rectangle of the screen view. */
  datatype Rect = Rect(left: real, top: real, width: real, height: real)

  /** The controller's idea of its own screen and the device's. */
  datatype Screens = Screens(screenW: int, screenH: int, deviceW: int, deviceH: int)

  predicate ScreensOk(s: Screens)
  {
    s.screenW > 0 && s.screenH > 0
  }

  /** The rectangle of one event and the screen sizes. */
  datatype Geometry = Geometry(rect: Rect, screens: Screens)

  predicate GeometryOk(g: Geometry)
  {
    g.rect.width > 0.0 && g.rect.height > 0.0 && ScreensOk(g.screens)
  }

  function MaxR(a: real, b: real): real { if a >= b then a else b }
  function MinR(a: real, b: real): real { if a <= b then a else b }
  function AbsR(a: real): real { if a >= 0.0 then a else -a }

  /** `getRelativePosition(event)`: the pointer scaled from the view to the
      screen, clamped to it. */
  function RelativePosition(clientX: real, clientY: real, g: Geometry): Point
    requires GeometryOk(g)
  {
    var x := (clientX - g.rect.left) / g.rect.width * g.screens.screenW as real;
    var y := (clientY - g.rect.top) / g.rect.height * g.screens.screenH as real;
    Point(MaxR(0.0, MinR(g.screens.screenW as real, x)), MaxR(0.0, MinR(g.screens.screenH as real, y)))
  }

  /** The position always lies on the screen, and a pointer inside the
      view is scaled exactly. */
  lemma RelativeClamped(clientX: real, clientY: real, g: Geometry)
    requires GeometryOk(g)
    ensures var p := RelativePosition(clientX, clientY, g);
      && 0.0 <= p.x <= g.screens.screenW as real && 0.0 <= p.y <= g.screens.screenH as real
      && (var x := (clientX - g.rect.left) / g.rect.width * g.screens.screenW as real;
          0.0 <= x <= g.screens.screenW as real ==> p.x == x)
  {
  }

  /** `x / w * d` for `0 <= x <= w` lies in `[0, d]`. */
  lemma ScaleWithin(x: real, w: real, d: real)
    requires w > 0.0 && 0.0 <= x <= w && d >= 0.0
    ensures 0.0 <= x / w * d <= d
  {
    var q := x / w;
    assert q * w == x;
    assert q <= 1.0;
    assert q * d <= 1.0 * d;
  }

  /** `Math.round(x / screen * device)` for one axis. */
  function ToDeviceAxis(x: real, screen: int, device: int): (r: int)
    requires screen > 0
    ensures r as real - 0.5 <= x / screen as real * device as real < r as real + 0.5
  {
    RoundReal(x / screen as real * device as real)
  }

  /** `convertToDeviceCoordinates(position)`. */
  function ToDevice(p: Point, s: Screens): DevicePoint
    requires ScreensOk(s)
  {
    DevicePoint(ToDeviceAxis(p.x, s.screenW, s.deviceW), ToDeviceAxis(p.y, s.screenH, s.deviceH))
  }

  /** A point on the screen lands on the device's screen, its corners on
      the device's corners. */
  lemma ToDeviceBounds(x: real, screen: int, device: int)
    requires screen > 0 && device >= 0 && 0.0 <= x <= screen as real
    ensures 0 <= ToDeviceAxis(x, screen, device) <= device
    ensures x == 0.0 ==> ToDeviceAxis(x, screen, device) == 0
    ensures x == screen as real ==> ToDeviceAxis(x, screen, device) == device
  {
    ScaleWithin(x, screen as real, device as real);
  }

  /** `getMouseButton(event)`. */
  function MouseButton(button: int): (r: string)
    ensures r == "left" <==> button == 0
    ensures r == "middle" <==> button == 1
    ensures r == "right" <==> button == 2
    ensures r == "unknown" <==> !(0 <= button <= 2)
  {
    if button == 0 then "left" else if button == 1 then "middle" else if button == 2 then "right" else "unknown"
  }

  /** `getSwipeDirection(dx, dy)`. */
  function SwipeDirection(dx: real, dy: real): string
  {
    if AbsR(dx) > AbsR(dy) then (if dx > 0.0 then "right" else "left")
    else (if dy > 0.0 then "down" else "up")
  }

  /** Horizontal exactly when the horizontal move is the larger, so a
      diagonal at 45 degrees counts as vertical. */
  lemma SwipeIff(dx: real, dy: real)
    ensures SwipeDirection(dx, dy) == "right" <==> AbsR(dx) > AbsR(dy) && dx > 0.0
    ensures SwipeDirection(dx, dy) == "left" <==> AbsR(dx) > AbsR(dy) && dx <= 0.0
    ensures SwipeDirection(dx, dy) == "down" <==> AbsR(dx) <= AbsR(dy) && dy > 0.0
    ensures SwipeDirection(dx, dy) == "up" <==> AbsR(dx) <= AbsR(dy) && dy <= 0.0
    ensures AbsR(dx) == AbsR(dy) ==> SwipeDirection(dx, dy) in {"down", "up"}
  {
  }

  datatype KeyInfo = KeyInfo(key: string, code: string, keyCode: int, ctrl: bool, alt: bool, shift: bool, meta: bool)

  /** `isSystemKey(event)`: keys the keydown handler leaves to the desktop. */
  predicate IsSystemKey(k: KeyInfo)
  {
    || (|k.key| > 0 && k.key[0] == 'F' && |k.key| <= 3)
    || (k.alt && k.key != "Alt")
    || (k.ctrl && ToLower(k.key) in ["r", "f", "u", "i"])
  }

  /** The function keys (and any other key name of at most three
      characters starting with 'F', plain "F" included), Alt with another
      key and Ctrl with r, f, u or i in either case; nothing else. */
  lemma SystemKeyCases(k: KeyInfo)
    ensures IsSystemKey(k) <==>
      || (|k.key| in {1, 2, 3} && k.key[0] == 'F')
      || (k.alt && k.key != "Alt")
      || (k.ctrl && |k.key| == 1 && LowerChar(k.key[0]) in {'r', 'f', 'u', 'i'})
  {
    if k.ctrl && ToLower(k.key) in ["r", "f", "u", "i"] {
      assert |ToLower(k.key)| == 1;
      assert ToLower(k.key)[0] == LowerChar(k.key[0]);
    }
    if k.ctrl && |k.key| == 1 && LowerChar(k.key[0]) in {'r', 'f', 'u', 'i'} {
      assert ToLower(k.key) == [LowerChar(k.key[0])];
    }
  }

  /** What `sendControlEvent` is given. */
  datatype ControlEvent =
    | MouseEvent(action: string, button: Option<string>, position: DevicePoint, pressure: real, timestamp: int)
    | ScrollEvent(position: DevicePoint, deltaY: real, timestamp: int)
    | KeyboardEvent(action: string, info: KeyInfo, timestamp: int)
    | TouchEvent(action: string, touchId: string, position: DevicePoint, pressure: real, timestamp: int)
      /** A swipe, with the square of its distance (the distance and the
          speed follow from it and the duration). */
    | SwipeGesture(direction: string, distanceSq: real, duration: int, timestamp: int)
    | DoubleTapGesture(position: DevicePoint, timestamp: int)

  /** The `control_event` message sent over the WebSocket. */
  datatype SocketMessage = SocketMessage(deviceId: Option<string>, data: ControlEvent)

  /** Where one event went: the socket (when it is open) and the Electron
      main process (when its API is there). */
  datatype Outgoing = Outgoing(socket: Option<SocketMessage>, ipc: Option<ControlEvent>)

  /** The device in control and how events are routed to it. */
  datatype Route = Route(socketOpen: bool, deviceId: Option<string>, electron: bool)

  /** `sendControlEvent(event)`. */
  function Send(ev: ControlEvent, r: Route): (o: Outgoing)
    ensures o.socket.Some? <==> r.socketOpen
    ensures o.socket.Some? ==> o.socket.value == SocketMessage(r.deviceId, ev)
    ensures o.ipc.Some? <==> r.electron
    ensures o.ipc.Some? ==> o.ipc.value == ev
  {
    Outgoing(if r.socketOpen then Some(SocketMessage(r.deviceId, ev)) else None, if r.electron then Some(ev) else None)
  }

  function SendAll(evs: seq<ControlEvent>, r: Route): (os: seq<Outgoing>)
    ensures |os| == |evs| && forall i :: 0 <= i < |evs| ==> os[i] == Send(evs[i], r)
  {
    seq(|evs|, i requires 0 <= i < |evs| => Send(evs[i], r))
  }

  lemma SendAllAppend(a: seq<ControlEvent>, b: seq<ControlEvent>, r: Route)
    ensures SendAll(a + b, r) == SendAll(a, r) + SendAll(b, r)
  {
  }

  /** A step's messages, then one more, are the step's events then that
      one, past those before it. */
  lemma SentThenOne(before: seq<Outgoing>, a: seq<ControlEvent>, b: seq<ControlEvent>, e: ControlEvent, c: seq<ControlEvent>, r: Route)
    requires c == a + b + [e]
    ensures |c| >= |a| && before + SendAll(b, r) + [Send(e, r)] == before + SendAll(c[|a|..], r)
  {
    assert c[|a|..] == b + [e];
    SendAllAppend(b, [e], r);
  }

  /** Messages for the events before a step, then for the step's own. */
  lemma SentAfter(s0: seq<Outgoing>, before: seq<Outgoing>, now: seq<Outgoing>, a: seq<ControlEvent>, b: seq<ControlEvent>, c: seq<ControlEvent>, r: Route)
    requires before == s0 + SendAll(a, r) && now == before + SendAll(b, r) && c == a + b
    ensures now == s0 + SendAll(c, r)
  {
    SendAllAppend(a, b, r);
  }

  // ---------------------------------------------------------------------
  // Gestures

  /** The outcome of `detectGesture`: the events it sends and the new
      `lastGestureTime`. */
  datatype GestureResult = GestureResult(events: seq<ControlEvent>, lastGestureTime: int)

  /** `detectGesture(point, end, duration)`, with `distance > 50` and
      `distance < 10` read on the square of the distance. */
  function DetectGesture(start: Point, end: Point, duration: int, now: int, last: int, s: Screens): GestureResult
    requires ScreensOk(s)
  {
    var dx := end.x - start.x;
    var dy := end.y - start.y;
    var d2 := dx * dx + dy * dy;
    var swipe := if d2 > 2500.0 && duration < 500 then [SwipeGesture(SwipeDirection(dx, dy), d2, duration, now)] else [];
    if d2 < 100.0 && duration < 200 then
      if now - last < 300 then GestureResult(swipe + [DoubleTapGesture(ToDevice(end, s), now)], 0)
      else GestureResult(swipe, now)
    else GestureResult(swipe, last)
  }

  function DistanceSq(start: Point, end: Point): real
  {
    (end.x - start.x) * (end.x - start.x) + (end.y - start.y) * (end.y - start.y)
  }

  /** A swipe is sent exactly for a move of more than 50 pixels in under
      500 ms; a double tap exactly for a move of under 10 pixels in under
      200 ms less than 300 ms after the last tap, which then forgets that
      tap; a quick tap otherwise becomes the last tap. The two never come
      together. */
  lemma GestureCases(start: Point, end: Point, duration: int, now: int, last: int, g: Screens)
    requires ScreensOk(g)
    ensures var r := DetectGesture(start, end, duration, now, last, g);
      var d2 := DistanceSq(start, end);
      var tap := d2 < 100.0 && duration < 200;
      && |r.events| <= 1
      && (r.events != [] && r.events[0].SwipeGesture? <==> d2 > 2500.0 && duration < 500)
      && (r.events != [] && r.events[0].SwipeGesture? ==> r.events[0].distanceSq == d2 && r.events[0].duration == duration)
      && (r.events != [] && r.events[0].DoubleTapGesture? <==> tap && now - last < 300)
      && (tap && now - last < 300 ==> r.events == [DoubleTapGesture(ToDevice(end, g), now)] && r.lastGestureTime == 0)
      && (tap && now - last >= 300 ==> r.events == [] && r.lastGestureTime == now)
      && (!tap ==> r.lastGestureTime == last)
  {
  }

  /** After a double tap, a third quick tap does not make a second double
      tap (once the clock is past 300 ms); it starts a new pair. */
  lemma NoTripleTap(p: Point, d1: int, t1: int, last: int, d2: int, t2: int, g: Screens)
    requires ScreensOk(g)
    requires d1 < 200 && t1 - last < 300 && d2 < 200 && t2 >= 300
    ensures DetectGesture(p, p, d1, t1, last, g).events == [DoubleTapGesture(ToDevice(p, g), t1)]
    ensures var r := DetectGesture(p, p, d2, t2, DetectGesture(p, p, d1, t1, last, g).lastGestureTime, g);
      r.events == [] && r.lastGestureTime == t2
  {
  }

  // ---------------------------------------------------------------------
  // Touch points

  datatype TouchPoint = TouchPoint(startPosition: Point, currentPosition: Point, startTime: int)

  /** One entry of `event.changedTouches`. */
  datatype TouchInput = TouchInput(identifier: int, clientX: real, clientY: real)

  /** `generateTouchId(touch, index)`. */
  function NewTouchId(identifier: int, index: nat, now: int): string
  {
    "touch_" + IntToString(identifier) + "_" + NatToString(index) + "_" + IntToString(now)
  }

  /** The first key, in insertion order, of a touch point started less
      than 100 ms ago. */
  function RecentKey(order: seq<string>, entries: map<string, TouchPoint>, now: int): Option<string>
  {
    if order == [] then None
    else if order[0] in entries && AbsI(now - entries[order[0]].startTime) < 100 then Some(order[0])
    else RecentKey(order[1..], entries, now)
  }

  function AbsI(a: int): nat { if a >= 0 then a else -a }

  /** `getTouchId(touch)`: the first recent touch point, whatever its
      identifier, or a fresh id. */
  function TouchIdFor(m: OrderedMap<TouchPoint>, identifier: int, now: int): string
  {
    match RecentKey(m.order, m.entries, now)
    case Some(k) => k
    case None => "touch_" + IntToString(identifier) + "_" + IntToString(now)
  }

  lemma {:induction false} RecentKeyFound(order: seq<string>, entries: map<string, TouchPoint>, now: int)
    ensures RecentKey(order, entries, now).Some? ==>
      var k := RecentKey(order, entries, now).value;
      k in order && k in entries && AbsI(now - entries[k].startTime) < 100
    ensures RecentKey(order, entries, now).None? ==>
      forall k :: k in order && k in entries ==> AbsI(now - entries[k].startTime) >= 100
  {
    if order != [] {
      RecentKeyFound(order[1..], entries, now);
      assert forall k :: k in order ==> k == order[0] || k in order[1..];
    }
  }

  /** A touch moved within 100 ms of a touch point's start is taken for
      that point, so two fingers put down together both read as the
      first. */
  lemma TwoFingersShareId(m: OrderedMap<TouchPoint>, a: int, b: int, now: int)
    requires m.order != [] && m.order[0] in m.entries && AbsI(now - m.entries[m.order[0]].startTime) < 100
    ensures TouchIdFor(m, a, now) == TouchIdFor(m, b, now) == m.order[0]
  {
  }

  /** Deferred work of `throttle`: the closure's captured values. */
  datatype Deferred = MouseMove(position: Point) | TouchMove(touchId: string, position: Point)

  /** What the touch handlers change, threaded through their loops. */
  datatype Touching = Touching(points: OrderedMap<TouchPoint>, pending: Option<Deferred>, lastGestureTime: int, events: seq<ControlEvent>)

  datatype TouchPhase = Start | Move | End(gestureTime: int) | Cancel

  /** One touch of `handleTouchStart`, `handleTouchMove`,
      `handleTouchEnd` or `handleTouchCancel`. */
  function TouchStep(phase: TouchPhase, t: Touching, touch: TouchInput, index: nat, g: Geometry, now: int): Touching
    requires GeometryOk(g)
  {
    match phase
    case Start => StartStep(t, touch, index, g, now)
    case Move => MoveStep(t, touch, g, now)
    case End(gestureTime) => EndStep(gestureTime, t, touch, g, now)
    case Cancel => CancelStep(t, touch, g, now)
  }

  /** A touch start: a new touch point and a "down". */
  function StartStep(t: Touching, touch: TouchInput, index: nat, g: Geometry, now: int): Touching
    requires GeometryOk(g)
  {
    var pos := RelativePosition(touch.clientX, touch.clientY, g);
    var id := NewTouchId(touch.identifier, index, now);
    t.(points := Put(t.points, id, TouchPoint(pos, pos, now)),
       events := t.events + [TouchEvent("down", id, ToDevice(pos, g.screens), 1.0, now)])
  }

  /** A touch move: the point's position, and a throttled "move". */
  function MoveStep(t: Touching, touch: TouchInput, g: Geometry, now: int): Touching
    requires GeometryOk(g)
  {
    var pos := RelativePosition(touch.clientX, touch.clientY, g);
    var id := TouchIdFor(t.points, touch.identifier, now);
    if id in t.points.entries then
      t.(points := Put(t.points, id, t.points.entries[id].(currentPosition := pos)),
         pending := if t.pending.Some? then t.pending else Some(TouchMove(id, pos)))
    else t
  }

  /** A touch end: the gesture the point completes, then "up". */
  function EndStep(gestureTime: int, t: Touching, touch: TouchInput, g: Geometry, now: int): Touching
    requires GeometryOk(g)
  {
    var pos := RelativePosition(touch.clientX, touch.clientY, g);
    var id := TouchIdFor(t.points, touch.identifier, now);
    if id in t.points.entries then
      var r := DetectGesture(t.points.entries[id].startPosition, pos, gestureTime, now, t.lastGestureTime, g.screens);
      t.(points := Drop(t.points, id), lastGestureTime := r.lastGestureTime,
         events := t.events + r.events + [TouchEvent("up", id, ToDevice(pos, g.screens), 0.0, now)])
    else t
  }

  /** A touch cancel: the point is dropped and "cancel" sent. */
  function CancelStep(t: Touching, touch: TouchInput, g: Geometry, now: int): Touching
    requires GeometryOk(g)
  {
    var pos := RelativePosition(touch.clientX, touch.clientY, g);
    var id := TouchIdFor(t.points, touch.identifier, now);
    t.(points := Drop(t.points, id), events := t.events + [TouchEvent("cancel", id, ToDevice(pos, g.screens), 0.0, now)])
  }

  /** The touches of one event, in order. */
  function Touches(phase: TouchPhase, t: Touching, ts: seq<TouchInput>, g: Geometry, now: int): Touching
    requires GeometryOk(g)
  {
    if ts == [] then t
    else TouchStep(phase, Touches(phase, t, ts[..|ts| - 1], g, now), ts[|ts| - 1], |ts| - 1, g, now)
  }

  /** Touch `i` continues from the state the first `i` touches left,
      and only adds events after theirs. */
  lemma TouchesNext(phase: TouchPhase, start: Touching, ts: seq<TouchInput>, i: nat, g: Geometry, now: int)
    requires GeometryOk(g) && i < |ts|
    ensures var cur := Touches(phase, start, ts[..i], g, now);
      var next := Touches(phase, start, ts[..i + 1], g, now);
      && next == TouchStep(phase, cur, ts[i], i, g, now)
      && |next.events| >= |cur.events|
      && next.events == cur.events + next.events[|cur.events|..]
  {
    assert ts[..i + 1][..i] == ts[..i];
    StepExtends(phase, Touches(phase, start, ts[..i], g, now), ts[i], i, g, now);
  }

  /** Only the first move of a throttle window is kept. */
  lemma MoveKeepsPending(t: Touching, touch: TouchInput, index: nat, g: Geometry, now: int)
    requires GeometryOk(g) && t.pending.Some?
    ensures TouchStep(Move, t, touch, index, g, now).pending == t.pending
  {
  }

  /** The "down" a touch start sends for touch `i`. */
  function DownEvent(touch: TouchInput, i: nat, g: Geometry, now: int): ControlEvent
    requires GeometryOk(g)
  {
    TouchEvent("down", NewTouchId(touch.identifier, i, now),
               ToDevice(RelativePosition(touch.clientX, touch.clientY, g), g.screens), 1.0, now)
  }

  /** The touch start sends one "down" per touch, numbered by its place
      in the event, and keeps every touch point, the new ones included. */
  lemma {:induction false} StartEvents(t: Touching, ts: seq<TouchInput>, g: Geometry, now: int)
    requires GeometryOk(g)
    ensures var r := Touches(Start, t, ts, g, now);
      && |r.events| == |t.events| + |ts|
      && r.events[..|t.events|] == t.events
      && (forall i :: 0 <= i < |ts| ==> r.events[|t.events|..][i] == DownEvent(ts[i], i, g, now))
      && r.pending == t.pending && r.lastGestureTime == t.lastGestureTime
      && t.points.entries.Keys <= r.points.entries.Keys
      && (forall i :: 0 <= i < |ts| ==> NewTouchId(ts[i].identifier, i, now) in r.points.entries)
  {
    if ts != [] {
      var front := ts[..|ts| - 1];
      StartEvents(t, front, g, now);
      var p := Touches(Start, t, front, g, now);
      var r := Touches(Start, t, ts, g, now);
      assert r.events == p.events + [DownEvent(ts[|ts| - 1], |ts| - 1, g, now)];
      forall i | 0 <= i < |ts| ensures r.events[|t.events|..][i] == DownEvent(ts[i], i, g, now) {
        if i < |ts| - 1 {
          assert front[i] == ts[i];
          assert r.events[|t.events|..][i] == p.events[|t.events|..][i];
        }
      }
      forall i | 0 <= i < |ts| ensures NewTouchId(ts[i].identifier, i, now) in r.points.entries {
        if i < |ts| - 1 {
          assert front[i] == ts[i];
        }
      }
    }
  }

  /** A step only adds events after those sent before it. */
  lemma StepExtends(phase: TouchPhase, t: Touching, touch: TouchInput, index: nat, g: Geometry, now: int)
    requires GeometryOk(g)
    ensures var r := TouchStep(phase, t, touch, index, g, now);
      |r.events| >= |t.events| && r.events[..|t.events|] == t.events
  {
  }

  /** A cancelled or ended touch no longer counts as a touch point. */
  lemma EndForgets(phase: TouchPhase, t: Touching, touch: TouchInput, index: nat, g: Geometry, now: int)
    requires GeometryOk(g) && (phase.End? || phase.Cancel?)
    ensures TouchIdFor(t.points, touch.identifier, now) !in TouchStep(phase, t, touch, index, g, now).points.entries
  {
  }

  // ---------------------------------------------------------------------
  // The controller object

  /** A mouse event's position and button. */
  datatype MouseInput = MouseInput(clientX: real, clientY: real, button: int)

  datatype Size = Size(width: int, height: int)
  datatype DeviceInfo = DeviceInfo(name: string, deviceId: Option<string>, screenSize: Option<Size>)

  datatype Status = Status(isEnabled: bool, isControlling: bool, currentDevice: Option<DeviceInfo>, screen: Size, deviceScreen: Size, activeTouches: nat)

  class Controller {
    var enabled: bool
    var controlling: bool
    var device: Option<DeviceInfo>
    /** `this.connection`: none, or one whose socket is open or not. */
    var connection: Option<bool>
    /** Whether `window.electronAPI` is there. */
    const electron: bool
    var mouseDown: bool
    var dragging: bool
    var lastMouse: Point
    var currentButton: Option<string>
    var screenW: int
    var screenH: int
    var deviceW: int
    var deviceH: int
    var touches: OrderedMap<TouchPoint>
    var gestureStart: int
    var lastGesture: int
    var pending: Option<Deferred>
    /** Every event handed to `sendControlEvent`, as it was routed. */
    var sent: seq<Outgoing>

    ghost predicate Valid()
      reads this
    {
      screenW > 0 && screenH > 0
    }

    function Scr(): Screens
      reads this`screenW, this`screenH, this`deviceW, this`deviceH
    {
      Screens(screenW, screenH, deviceW, deviceH)
    }

    function Geo(rect: Rect): Geometry
      reads this`screenW, this`screenH, this`deviceW, this`deviceH
    {
      Geometry(rect, Scr())
    }

    function Routing(): Route
      reads this`connection, this`device
    {
      Route(connection == Some(true), if device.Some? then device.value.deviceId else None, electron)
    }

    constructor (electronApi: bool)
      ensures Valid() && !enabled && !controlling && device.None? && connection.None? && electron == electronApi
      ensures !mouseDown && !dragging && lastMouse == Point(0.0, 0.0) && currentButton.None?
      ensures screenW == 1920 && screenH == 1080 && deviceW == 1080 && deviceH == 2340
      ensures touches == Empty() && gestureStart == 0 && lastGesture == 0 && pending.None? && sent == []
    {
      enabled, controlling, device, connection, electron := false, false, None, None, electronApi;
      mouseDown, dragging, lastMouse, currentButton := false, false, Point(0.0, 0.0), None;
      screenW, screenH, deviceW, deviceH := 1920, 1080, 1080, 2340;
      touches, gestureStart, lastGesture, pending, sent := Empty(), 0, 0, None, [];
    }

    /** `enable(deviceInfo)`. */
    method Enable(info: DeviceInfo)
      modifies this
      ensures enabled && controlling && device == Some(info)
      ensures info.screenSize.Some? ==> deviceW == info.screenSize.value.width && deviceH == info.screenSize.value.height
      ensures info.screenSize.None? ==> deviceW == old(deviceW) && deviceH == old(deviceH)
      ensures touches == old(touches) && sent == old(sent) && screenW == old(screenW) && screenH == old(screenH)
      ensures connection == old(connection) && pending == old(pending)
    {
      device := Some(info);
      enabled, controlling := true, true;
      SetDeviceScreen(info);
    }

    method SetDeviceScreen(info: DeviceInfo)
      modifies this`deviceW, this`deviceH
      ensures info.screenSize.Some? ==> deviceW == info.screenSize.value.width && deviceH == info.screenSize.value.height
      ensures info.screenSize.None? ==> deviceW == old(deviceW) && deviceH == old(deviceH)
    {
      if info.screenSize.Some? {
        deviceW, deviceH := info.screenSize.value.width, info.screenSize.value.height;
      }
    }

    /** `disable()`: control ends and every touch point is forgotten. */
    method Disable()
      modifies this
      ensures !enabled && !controlling && device.None? && touches == Empty()
      ensures sent == old(sent) && pending == old(pending) && connection == old(connection)
      ensures screenW == old(screenW) && screenH == old(screenH)
    {
      enabled, controlling, device := false, false, None;
      touches := Empty();
    }

    /** `setDeviceInfo(deviceInfo)`. */
    method SetDeviceInfo(info: DeviceInfo)
      modifies this`device, this`deviceW, this`deviceH
      ensures device == Some(info)
      ensures info.screenSize.Some? ==> deviceW == info.screenSize.value.width && deviceH == info.screenSize.value.height
      ensures info.screenSize.None? ==> deviceW == old(deviceW) && deviceH == old(deviceH)
    {
      device := Some(info);
      SetDeviceScreen(info);
    }

    /** `setScreenSize(width, height)` and `updateScreenSize`. */
    method SetScreenSize(width: int, height: int)
      requires width > 0 && height > 0
      modifies this`screenW, this`screenH
      ensures Valid() && screenW == width && screenH == height
    {
      screenW, screenH := width, height;
    }

    method SetConnection(c: Option<bool>)
      modifies this`connection
      ensures connection == c
    {
      connection := c;
    }

    method Emit(ev: ControlEvent)
      modifies this`sent
      ensures sent == old(sent) + [Send(ev, Routing())]
    {
      sent := sent + [Send(ev, Routing())];
    }

    /** `sendMouseEvent`: nothing at all without a connection. */
    method SendMouseEvent(action: string, pos: Point, button: Option<string>, now: int)
      requires Valid()
      modifies this`sent
      ensures connection.None? ==> sent == old(sent)
      ensures connection.Some? ==>
        sent == old(sent) + [Send(MouseEvent(action, button, ToDevice(pos, Scr()), 0.0, now), Routing())]
    {
      if connection.None? {
        return;
      }
      Emit(MouseEvent(action, button, ToDevice(pos, Scr()), 0.0, now));
    }

    method HandleMouseDown(ev: MouseInput, rect: Rect, now: int)
      requires Valid() && rect.width > 0.0 && rect.height > 0.0
      modifies this`mouseDown, this`currentButton, this`lastMouse, this`sent
      ensures !controlling ==> unchanged(this)
      ensures controlling ==>
        var pos := RelativePosition(ev.clientX, ev.clientY, Geo(rect));
        && mouseDown && currentButton == Some(MouseButton(ev.button)) && lastMouse == pos
        && sent == old(sent) + (if connection.Some? then [Send(MouseEvent("down", currentButton, ToDevice(pos, Scr()), 0.0, now), Routing())] else [])
    {
      if !controlling {
        return;
      }
      var pos := RelativePosition(ev.clientX, ev.clientY, Geo(rect));
      var button := MouseButton(ev.button);
      mouseDown, currentButton, lastMouse := true, Some(button), pos;
      SendMouseEvent("down", pos, Some(button), now);
    }

    /** The button pressed, or else the event's, is released. */
    method HandleMouseUp(ev: MouseInput, rect: Rect, now: int)
      requires Valid() && rect.width > 0.0 && rect.height > 0.0
      modifies this`mouseDown, this`dragging, this`currentButton, this`sent
      ensures !controlling ==> unchanged(this)
      ensures controlling ==>
        var pos := RelativePosition(ev.clientX, ev.clientY, Geo(rect));
        var button := old(currentButton).GetOr(MouseButton(ev.button));
        && !mouseDown && !dragging && currentButton.None?
        && sent == old(sent) + (if connection.Some? then [Send(MouseEvent("up", Some(button), ToDevice(pos, Scr()), 0.0, now), Routing())] else [])
    {
      if !controlling {
        return;
      }
      var pos := RelativePosition(ev.clientX, ev.clientY, Geo(rect));
      var button := currentButton.GetOr(MouseButton(ev.button));
      mouseDown, dragging := false, false;
      SendMouseEvent("up", pos, Some(button), now);
      currentButton := None;
    }

    /** A move with the button down marks a drag once it goes more than
        2 pixels, and schedules one throttled "move". */
    method HandleMouseMove(ev: MouseInput, rect: Rect)
      requires Valid() && rect.width > 0.0 && rect.height > 0.0
      modifies this`dragging, this`pending, this`lastMouse
      ensures !controlling ==> unchanged(this)
      ensures controlling ==>
        var pos := RelativePosition(ev.clientX, ev.clientY, Geo(rect));
        && lastMouse == pos
        && (old(mouseDown) && (AbsR(pos.x - old(lastMouse).x) > 2.0 || AbsR(pos.y - old(lastMouse).y) > 2.0) ==> dragging)
        && (!old(mouseDown) || (AbsR(pos.x - old(lastMouse).x) <= 2.0 && AbsR(pos.y - old(lastMouse).y) <= 2.0) ==> dragging == old(dragging))
        && pending == (if mouseDown && old(pending).None? then Some(MouseMove(pos)) else old(pending))
    {
      if !controlling {
        return;
      }
      var pos := RelativePosition(ev.clientX, ev.clientY, Geo(rect));
      if mouseDown {
        if AbsR(pos.x - lastMouse.x) > 2.0 || AbsR(pos.y - lastMouse.y) > 2.0 {
          dragging := true;
        }
        Throttle(MouseMove(pos));
      }
      lastMouse := pos;
    }

    /** A click is sent unless the mouse was dragged. */
    method HandleClick(ev: MouseInput, rect: Rect, now: int)
      requires Valid() && rect.width > 0.0 && rect.height > 0.0
      modifies this`sent
      ensures !controlling || dragging ==> sent == old(sent)
      ensures controlling && !dragging ==>
        var pos := RelativePosition(ev.clientX, ev.clientY, Geo(rect));
        sent == old(sent) + (if connection.Some? then [Send(MouseEvent("click", Some(MouseButton(ev.button)), ToDevice(pos, Scr()), 0.0, now), Routing())] else [])
    {
      if !controlling || dragging {
        return;
      }
      var pos := RelativePosition(ev.clientX, ev.clientY, Geo(rect));
      SendMouseEvent("click", pos, Some(MouseButton(ev.button)), now);
    }

    method HandleContextMenu(ev: MouseInput, rect: Rect, now: int)
      requires Valid() && rect.width > 0.0 && rect.height > 0.0
      modifies this`sent
      ensures !controlling ==> sent == old(sent)
      ensures controlling ==>
        var pos := RelativePosition(ev.clientX, ev.clientY, Geo(rect));
        sent == old(sent) + (if connection.Some? then [Send(MouseEvent("contextmenu", Some("right"), ToDevice(pos, Scr()), 0.0, now), Routing())] else [])
    {
      if !controlling {
        return;
      }
      var pos := RelativePosition(ev.clientX, ev.clientY, Geo(rect));
      SendMouseEvent("contextmenu", pos, Some("right"), now);
    }

    /** The wheel is sent whether or not there is a connection. */
    method HandleWheel(ev: MouseInput, deltaY: real, rect: Rect, now: int)
      requires Valid() && rect.width > 0.0 && rect.height > 0.0
      modifies this`sent
      ensures !controlling ==> sent == old(sent)
      ensures controlling ==>
        var pos := RelativePosition(ev.clientX, ev.clientY, Geo(rect));
        sent == old(sent) + [Send(ScrollEvent(ToDevice(pos, Scr()), deltaY, now), Routing())]
    {
      if !controlling {
        return;
      }
      var pos := RelativePosition(ev.clientX, ev.clientY, Geo(rect));
      Emit(ScrollEvent(ToDevice(pos, Scr()), deltaY, now));
    }

    /** A key press is forwarded unless it is a system key. */
    method HandleKeyDown(k: KeyInfo, now: int)
      modifies this`sent
      ensures !controlling || IsSystemKey(k) ==> sent == old(sent)
      ensures controlling && !IsSystemKey(k) ==> sent == old(sent) + [Send(KeyboardEvent("down", k, now), Routing())]
    {
      if !controlling || IsSystemKey(k) {
        return;
      }
      Emit(KeyboardEvent("down", k, now));
    }

    /** Releases are forwarded for every key, system keys included. */
    method HandleKeyUp(k: KeyInfo, now: int)
      modifies this`sent
      ensures !controlling ==> sent == old(sent)
      ensures controlling ==> sent == old(sent) + [Send(KeyboardEvent("up", k, now), Routing())]
    {
      if !controlling {
        return;
      }
      Emit(KeyboardEvent("up", k, now));
    }

    method HandleKeyPress(k: KeyInfo, now: int)
      modifies this`sent
      ensures !controlling ==> sent == old(sent)
      ensures controlling ==> sent == old(sent) + [Send(KeyboardEvent("press", k, now), Routing())]
    {
      if !controlling {
        return;
      }
      Emit(KeyboardEvent("press", k, now));
    }

    /** `throttle(func)`: ignored while a call is pending. */
    method Throttle(d: Deferred)
      modifies this`pending
      ensures pending == if old(pending).Some? then old(pending) else Some(d)
    {
      if pending.Some? {
        return;
      }
      pending := Some(d);
    }

    /** The throttle timer runs the pending call; the mouse button is read
        when it runs. */
    method ThrottleFired(now: int)
      requires Valid() && pending.Some?
      modifies this`pending, this`sent
      ensures pending.None?
      ensures old(pending).value.MouseMove? ==>
        sent == old(sent) + (if connection.Some? then [Send(MouseEvent("move", currentButton, ToDevice(old(pending).value.position, Scr()), 0.0, now), Routing())] else [])
      ensures old(pending).value.TouchMove? ==>
        sent == old(sent) + [Send(TouchEvent("move", old(pending).value.touchId, ToDevice(old(pending).value.position, Scr()), 1.0, now), Routing())]
    {
      var d := pending.value;
      if d.MouseMove? {
        SendMouseEvent("move", d.position, currentButton, now);
      } else {
        Emit(TouchEvent("move", d.touchId, ToDevice(d.position, Scr()), 1.0, now));
      }
      pending := None;
    }

    /** `getTouchId(touch)`: a scan of the touch points in insertion order. */
    method GetTouchId(identifier: int, now: int) returns (id: string)
      ensures id == TouchIdFor(touches, identifier, now)
    {
      var i := 0;
      while i < |touches.order|
        invariant 0 <= i <= |touches.order|
        invariant RecentKey(touches.order, touches.entries, now) == RecentKey(touches.order[i..], touches.entries, now)
      {
        var k := touches.order[i];
        assert touches.order[i..] == [k] + touches.order[i + 1..];
        if k in touches.entries && AbsI(now - touches.entries[k].startTime) < 100 {
          return k;
        }
        i := i + 1;
      }
      id := "touch_" + IntToString(identifier) + "_" + IntToString(now);
    }

    /** One touch of `handleTouchStart`, from the state `cur` describes. */
    method StartOne(ghost cur: Touching, touch: TouchInput, i: nat, rect: Rect, now: int)
      requires Valid() && rect.width > 0.0 && rect.height > 0.0
      requires touches == cur.points && pending == cur.pending && lastGesture == cur.lastGestureTime
      modifies this`touches, this`sent
      ensures var r := TouchStep(Start, cur, touch, i, Geo(rect), now);
        && r.events == cur.events + [DownEvent(touch, i, Geo(rect), now)]
        && touches == r.points && pending == r.pending && lastGesture == r.lastGestureTime
        && sent == old(sent) + SendAll(r.events[|cur.events|..], Routing())
    {
      var pos := RelativePosition(touch.clientX, touch.clientY, Geo(rect));
      var id := NewTouchId(touch.identifier, i, now);
      touches := Put(touches, id, TouchPoint(pos, pos, now));
      Emit(TouchEvent("down", id, ToDevice(pos, Scr()), 1.0, now));
    }

    /** One touch of `handleTouchMove`: sends nothing itself. */
    method MoveOne(ghost cur: Touching, touch: TouchInput, i: nat, rect: Rect, now: int)
      requires Valid() && rect.width > 0.0 && rect.height > 0.0
      requires touches == cur.points && pending == cur.pending && lastGesture == cur.lastGestureTime
      modifies this`touches, this`pending
      ensures var r := TouchStep(Move, cur, touch, i, Geo(rect), now);
        && r.events == cur.events
        && touches == r.points && pending == r.pending && lastGesture == r.lastGestureTime
        && sent == old(sent) + SendAll(r.events[|cur.events|..], Routing())
    {
      var pos := RelativePosition(touch.clientX, touch.clientY, Geo(rect));
      var id := GetTouchId(touch.identifier, now);
      if id in touches.entries {
        touches := Put(touches, id, touches.entries[id].(currentPosition := pos));
        Throttle(TouchMove(id, pos));
      }
    }

    /** One touch of `handleTouchEnd`: the gesture it completes, then "up". */
    method EndOne(gestureTime: int, ghost cur: Touching, touch: TouchInput, i: nat, rect: Rect, now: int)
      requires Valid() && rect.width > 0.0 && rect.height > 0.0
      requires touches == cur.points && pending == cur.pending && lastGesture == cur.lastGestureTime
      modifies this`touches, this`lastGesture, this`sent
      ensures var r := TouchStep(End(gestureTime), cur, touch, i, Geo(rect), now);
        && |r.events| >= |cur.events|
        && touches == r.points && pending == r.pending && lastGesture == r.lastGestureTime
        && sent == old(sent) + SendAll(r.events[|cur.events|..], Routing())
    {
      var pos := RelativePosition(touch.clientX, touch.clientY, Geo(rect));
      var id := GetTouchId(touch.identifier, now);
      if id in touches.entries {
        var r := DetectGesture(touches.entries[id].startPosition, pos, gestureTime, now, lastGesture, Scr());
        ghost var before := sent;
        sent := sent + SendAll(r.events, Routing());
        lastGesture := r.lastGestureTime;
        touches := Drop(touches, id);
        var up := TouchEvent("up", id, ToDevice(pos, Scr()), 0.0, now);
        Emit(up);
        ghost var after := TouchStep(End(gestureTime), cur, touch, i, Geo(rect), now).events;
        assert after == cur.events + r.events + [up];
        SentThenOne(before, cur.events, r.events, up, after, Routing());
      } else {
        assert TouchStep(End(gestureTime), cur, touch, i, Geo(rect), now).events[|cur.events|..] == [];
      }
    }

    /** One touch of `handleTouchCancel`. */
    method CancelOne(ghost cur: Touching, touch: TouchInput, i: nat, rect: Rect, now: int)
      requires Valid() && rect.width > 0.0 && rect.height > 0.0
      requires touches == cur.points && pending == cur.pending && lastGesture == cur.lastGestureTime
      modifies this`touches, this`sent
      ensures var r := TouchStep(Cancel, cur, touch, i, Geo(rect), now);
        && |r.events| == |cur.events| + 1
        && touches == r.points && pending == r.pending && lastGesture == r.lastGestureTime
        && sent == old(sent) + SendAll(r.events[|cur.events|..], Routing())
    {
      var pos := RelativePosition(touch.clientX, touch.clientY, Geo(rect));
      var id := GetTouchId(touch.identifier, now);
      touches := Drop(touches, id);
      var ev := TouchEvent("cancel", id, ToDevice(pos, Scr()), 0.0, now);
      Emit(ev);
      assert TouchStep(Cancel, cur, touch, i, Geo(rect), now).events[|cur.events|..] == [ev];
    }

    /** Touch `i` of a touch start, from the state the first `i` touches left. */
    method NextStart(ghost start: Touching, ghost s0: seq<Outgoing>, ts: seq<TouchInput>, i: nat, rect: Rect, now: int)
      requires Valid() && rect.width > 0.0 && rect.height > 0.0 && i < |ts|
      requires var cur := Touches(Start, start, ts[..i], Geo(rect), now);
        && touches == cur.points && pending == cur.pending && lastGesture == cur.lastGestureTime
        && sent == s0 + SendAll(cur.events, Routing())
      modifies this`touches, this`pending, this`lastGesture, this`sent
      ensures var next := Touches(Start, start, ts[..i + 1], Geo(rect), now);
        && touches == next.points && pending == next.pending && lastGesture == next.lastGestureTime
        && sent == s0 + SendAll(next.events, Routing())
    {
      ghost var g := Geo(rect);
      ghost var rt := Routing();
      ghost var cur := Touches(Start, start, ts[..i], g, now);
      ghost var before := sent;
      TouchesNext(Start, start, ts, i, g, now);
      ghost var next := Touches(Start, start, ts[..i + 1], g, now);
      ghost var added := next.events[|cur.events|..];
      StartOne(cur, ts[i], i, rect, now);
      SentAfter(s0, before, sent, cur.events, added, next.events, rt);
    }

    /** Touch `i` of a touch move. */
    method NextMove(ghost start: Touching, ghost s0: seq<Outgoing>, ts: seq<TouchInput>, i: nat, rect: Rect, now: int)
      requires Valid() && rect.width > 0.0 && rect.height > 0.0 && i < |ts|
      requires var cur := Touches(Move, start, ts[..i], Geo(rect), now);
        && touches == cur.points && pending == cur.pending && lastGesture == cur.lastGestureTime
        && sent == s0 + SendAll(cur.events, Routing())
      modifies this`touches, this`pending, this`lastGesture, this`sent
      ensures var next := Touches(Move, start, ts[..i + 1], Geo(rect), now);
        && touches == next.points && pending == next.pending && lastGesture == next.lastGestureTime
        && sent == s0 + SendAll(next.events, Routing())
    {
      ghost var g := Geo(rect);
      ghost var rt := Routing();
      ghost var cur := Touches(Move, start, ts[..i], g, now);
      ghost var before := sent;
      TouchesNext(Move, start, ts, i, g, now);
      ghost var next := Touches(Move, start, ts[..i + 1], g, now);
      ghost var added := next.events[|cur.events|..];
      MoveOne(cur, ts[i], i, rect, now);
      SentAfter(s0, before, sent, cur.events, added, next.events, rt);
    }

    /** Touch `i` of a touch end. */
    method NextEnd(gestureTime: int, ghost start: Touching, ghost s0: seq<Outgoing>, ts: seq<TouchInput>, i: nat, rect: Rect, now: int)
      requires Valid() && rect.width > 0.0 && rect.height > 0.0 && i < |ts|
      requires var cur := Touches(End(gestureTime), start, ts[..i], Geo(rect), now);
        && touches == cur.points && pending == cur.pending && lastGesture == cur.lastGestureTime
        && sent == s0 + SendAll(cur.events, Routing())
      modifies this`touches, this`pending, this`lastGesture, this`sent
      ensures var next := Touches(End(gestureTime), start, ts[..i + 1], Geo(rect), now);
        && touches == next.points && pending == next.pending && lastGesture == next.lastGestureTime
        && sent == s0 + SendAll(next.events, Routing())
    {
      ghost var g := Geo(rect);
      ghost var rt := Routing();
      ghost var cur := Touches(End(gestureTime), start, ts[..i], g, now);
      ghost var before := sent;
      TouchesNext(End(gestureTime), start, ts, i, g, now);
      ghost var next := Touches(End(gestureTime), start, ts[..i + 1], g, now);
      ghost var added := next.events[|cur.events|..];
      EndOne(gestureTime, cur, ts[i], i, rect, now);
      SentAfter(s0, before, sent, cur.events, added, next.events, rt);
    }

    /** Touch `i` of a touch cancel. */
    method NextCancel(ghost start: Touching, ghost s0: seq<Outgoing>, ts: seq<TouchInput>, i: nat, rect: Rect, now: int)
      requires Valid() && rect.width > 0.0 && rect.height > 0.0 && i < |ts|
      requires var cur := Touches(Cancel, start, ts[..i], Geo(rect), now);
        && touches == cur.points && pending == cur.pending && lastGesture == cur.lastGestureTime
        && sent == s0 + SendAll(cur.events, Routing())
      modifies this`touches, this`pending, this`lastGesture, this`sent
      ensures var next := Touches(Cancel, start, ts[..i + 1], Geo(rect), now);
        && touches == next.points && pending == next.pending && lastGesture == next.lastGestureTime
        && sent == s0 + SendAll(next.events, Routing())
    {
      ghost var g := Geo(rect);
      ghost var rt := Routing();
      ghost var cur := Touches(Cancel, start, ts[..i], g, now);
      ghost var before := sent;
      TouchesNext(Cancel, start, ts, i, g, now);
      ghost var next := Touches(Cancel, start, ts[..i + 1], g, now);
      ghost var added := next.events[|cur.events|..];
      CancelOne(cur, ts[i], i, rect, now);
      SentAfter(s0, before, sent, cur.events, added, next.events, rt);
    }

    /** Touch `i` of the event, from the state the first `i` touches left
        and the messages `s0` then their events. */
    method NextTouch(phase: TouchPhase, ghost start: Touching, ghost s0: seq<Outgoing>, ts: seq<TouchInput>, i: nat, rect: Rect, now: int)
      requires Valid() && rect.width > 0.0 && rect.height > 0.0 && i < |ts|
      requires var cur := Touches(phase, start, ts[..i], Geo(rect), now);
        && touches == cur.points && pending == cur.pending && lastGesture == cur.lastGestureTime
        && sent == s0 + SendAll(cur.events, Routing())
      modifies this`touches, this`pending, this`lastGesture, this`sent
      ensures var next := Touches(phase, start, ts[..i + 1], Geo(rect), now);
        && touches == next.points && pending == next.pending && lastGesture == next.lastGestureTime
        && sent == s0 + SendAll(next.events, Routing())
    {
      match phase
      case Start => NextStart(start, s0, ts, i, rect, now);
      case Move => NextMove(start, s0, ts, i, rect, now);
      case End(gt) => NextEnd(gt, start, s0, ts, i, rect, now);
      case Cancel => NextCancel(start, s0, ts, i, rect, now);
    }

    /** The loop over `event.changedTouches` shared by the touch handlers. */
    method ProcessTouches(phase: TouchPhase, ts: seq<TouchInput>, rect: Rect, now: int)
      requires Valid() && rect.width > 0.0 && rect.height > 0.0
      modifies this`touches, this`pending, this`lastGesture, this`sent
      ensures var r := Touches(phase, Touching(old(touches), old(pending), old(lastGesture), []), ts, Geo(rect), now);
        && touches == r.points && pending == r.pending && lastGesture == r.lastGestureTime
        && sent == old(sent) + SendAll(r.events, Routing())
    {
      ghost var start := Touching(touches, pending, lastGesture, []);
      assert ts[..0] == [];
      var i := 0;
      while i < |ts|
        invariant 0 <= i <= |ts|
        invariant Valid() && Geo(rect) == old(Geo(rect)) && Routing() == old(Routing())
        invariant var cur := Touches(phase, start, ts[..i], Geo(rect), now);
          && touches == cur.points && pending == cur.pending && lastGesture == cur.lastGestureTime
          && sent == old(sent) + SendAll(cur.events, Routing())
      {
        NextTouch(phase, start, old(sent), ts, i, rect, now);
        i := i + 1;
      }
      assert ts[..i] == ts;
    }

    /** `handleTouchStart(event)`. */
    method HandleTouchStart(ts: seq<TouchInput>, rect: Rect, now: int)
      requires Valid() && rect.width > 0.0 && rect.height > 0.0
      modifies this`touches, this`pending, this`lastGesture, this`sent, this`gestureStart
      ensures !controlling ==> unchanged(this)
      ensures controlling ==>
        var r := Touches(Start, Touching(old(touches), old(pending), old(lastGesture), []), ts, Geo(rect), now);
        && gestureStart == now && touches == r.points && pending == r.pending && lastGesture == r.lastGestureTime
        && sent == old(sent) + SendAll(r.events, Routing())
    {
      if !controlling {
        return;
      }
      gestureStart := now;
      ProcessTouches(Start, ts, rect, now);
    }

    method HandleTouchMove(ts: seq<TouchInput>, rect: Rect, now: int)
      requires Valid() && rect.width > 0.0 && rect.height > 0.0
      modifies this`touches, this`pending, this`lastGesture, this`sent
      ensures !controlling ==> unchanged(this)
      ensures controlling ==>
        var r := Touches(Move, Touching(old(touches), old(pending), old(lastGesture), []), ts, Geo(rect), now);
        && touches == r.points && pending == r.pending && lastGesture == r.lastGestureTime
        && sent == old(sent) + SendAll(r.events, Routing())
    {
      if !controlling {
        return;
      }
      ProcessTouches(Move, ts, rect, now);
    }

    /** `handleTouchEnd(event)`: gestures are measured from the last touch
        start. */
    method HandleTouchEnd(ts: seq<TouchInput>, rect: Rect, now: int)
      requires Valid() && rect.width > 0.0 && rect.height > 0.0
      modifies this`touches, this`pending, this`lastGesture, this`sent
      ensures !controlling ==> unchanged(this)
      ensures controlling ==>
        var r := Touches(End(now - gestureStart), Touching(old(touches), old(pending), old(lastGesture), []), ts, Geo(rect), now);
        && touches == r.points && pending == r.pending && lastGesture == r.lastGestureTime
        && sent == old(sent) + SendAll(r.events, Routing())
    {
      if !controlling {
        return;
      }
      ProcessTouches(End(now - gestureStart), ts, rect, now);
    }

    method HandleTouchCancel(ts: seq<TouchInput>, rect: Rect, now: int)
      requires Valid() && rect.width > 0.0 && rect.height > 0.0
      modifies this`touches, this`pending, this`lastGesture, this`sent
      ensures !controlling ==> unchanged(this)
      ensures controlling ==>
        var r := Touches(Cancel, Touching(old(touches), old(pending), old(lastGesture), []), ts, Geo(rect), now);
        && touches == r.points && pending == r.pending && lastGesture == r.lastGestureTime
        && sent == old(sent) + SendAll(r.events, Routing())
    {
      if !controlling {
        return;
      }
      ProcessTouches(Cancel, ts, rect, now);
    }

    method GetStatus() returns (st: Status)
      ensures st == Status(enabled, controlling, device, Size(screenW, screenH), Size(deviceW, deviceH), |touches.entries|)
    {
      st := Status(enabled, controlling, device, Size(screenW, screenH), Size(deviceW, deviceH), |touches.entries|);
    }

    /** `destroy()`: disabled; the listeners it removes are not modelled. */
    method Destroy()
      modifies this
      ensures !enabled && !controlling && device.None? && touches == Empty()
    {
      Disable();
    }
  }
}
