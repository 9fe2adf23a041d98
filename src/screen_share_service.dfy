/** The front end's simulated screen-sharing service
    (`frontend/services/ScreenShareService.js`): sessions with an
    INITIALIZING → STREAMING ⇄ PAUSED life cycle, a frame timer per
    streaming session, frame statistics, per-session recording with
    replay, and encoding, screen and display-mode changes. The clock and
    `Math.random()` are parameters (the drop draw is `dropped`); the
    initialisation timer, each firing of a session's frame interval and
    each frame's delivery are explicit steps. Listeners, emitted events,
    the SVG placeholder image and console output are not modelled. */
module ScreenShareService {
  import opened Wrappers
  import opened Seqs
  import opened Text
  import opened Arith
  import opened OrderedMaps

  const KEYFRAME_EVERY := 30

  datatype Status = Initializing | Streaming | Paused | Stopped | Errored

  datatype Encoding = Encoding(width: int, height: int, frameRate: int, bitrate: int, codec: string, quality: real)

  /** Encoding fields a caller passes; absent fields keep the old value. */
  datatype EncodingOverrides = EncodingOverrides(
    width: Option<int>, height: Option<int>, frameRate: Option<int>,
    bitrate: Option<int>, codec: Option<string>, quality: Option<real>)

  /** `{ ...e, ...o }`. */
  function Merge(e: Encoding, o: EncodingOverrides): Encoding
  {
    Encoding(o.width.GetOr(e.width), o.height.GetOr(e.height), o.frameRate.GetOr(e.frameRate),
             o.bitrate.GetOr(e.bitrate), o.codec.GetOr(e.codec), o.quality.GetOr(e.quality))
  }

  /** The frame rates the model covers: a given frame rate is positive. */
  predicate PositiveRate(o: EncodingOverrides)
  {
    o.frameRate.Some? ==> o.frameRate.value > 0
  }

  function DefaultEncoding(): Encoding
  {
    Encoding(1920, 1080, 30, 5000, "vp9", 0.8)
  }

  datatype Scene = Scene(id: string, name: string, width: int, height: int, description: string)

  datatype Pattern = Pattern(id: string, name: string, description: string)

  /** `availableScenes`. */
  function Scenes(): seq<Scene>
  {
    [Scene("desktop", "桌面", 1920, 1080, "标准桌面环境"),
     Scene("browser", "浏览器", 1366, 768, "浏览器窗口"),
     Scene("mobile", "手机", 390, 844, "移动设备屏幕"),
     Scene("presentation", "演示文稿", 1280, 720, "幻灯片演示"),
     Scene("code", "代码编辑器", 1600, 900, "IDE代码编辑界面")]
  }

  /** `changePatterns`. */
  function Patterns(): seq<Pattern>
  {
    [Pattern("static", "静态画面", "无变化的静态画面"),
     Pattern("minimal", "最小变化", "偶尔的光标移动或小变化"),
     Pattern("moderate", "适度变化", "有一定频率的内容变化"),
     Pattern("high", "高变化", "频繁的大量内容变化"),
     Pattern("video", "视频播放", "类似视频播放的连续变化")]
  }

  datatype NetworkConditions = NetworkConditions(latency: int, jitter: int, packetLoss: real, bandwidth: int)

  datatype NetworkOverrides = NetworkOverrides(latency: Option<int>, jitter: Option<int>,
                                               packetLoss: Option<real>, bandwidth: Option<int>)

  /** `simulateNetworkConditions(conditions)`: `{ ...current, ...conditions }`. */
  function MergeNetwork(n: NetworkConditions, o: NetworkOverrides): NetworkConditions
  {
    NetworkConditions(o.latency.GetOr(n.latency), o.jitter.GetOr(n.jitter),
                      o.packetLoss.GetOr(n.packetLoss), o.bandwidth.GetOr(n.bandwidth))
  }

  /** Merging replaces exactly the given fields; merging nothing, or the
      same fields twice, is merging once. */
  lemma MergeEffect(e: Encoding, o: EncodingOverrides, n: NetworkConditions, p: NetworkOverrides)
    ensures Merge(e, EncodingOverrides(None, None, None, None, None, None)) == e
    ensures Merge(Merge(e, o), o) == Merge(e, o)
    ensures o.frameRate.Some? ==> Merge(e, o).frameRate == o.frameRate.value
    ensures o.frameRate.None? ==> Merge(e, o).frameRate == e.frameRate
    ensures MergeNetwork(MergeNetwork(n, p), p) == MergeNetwork(n, p)
    ensures p.packetLoss.None? ==> MergeNetwork(n, p).packetLoss == n.packetLoss
  {
  }

  datatype Stats = Stats(framesSent: nat, framesReceived: nat, framesDropped: nat,
                         bytesSent: int, bytesReceived: int, currentBitrate: int, currentFps: int,
                         lastFrameTime: Option<int>)

  datatype Frame = Frame(id: string, width: int, height: int, timestamp: int, sequenceNumber: nat,
                         size: int, keyframe: bool, quality: real)

  datatype RecordedFrame = RecordedFrame(frame: Frame, recordedAt: int)

  /** A session. `interval` is the period of its frame timer, when it has
      one (`frameInterval`). */
  datatype Session = Session(
    id: string, source: string, target: string, status: Status, startedAt: int,
    encoding: Encoding, scene: Scene, pattern: Pattern, stats: Stats,
    interval: Option<real>,
    isRecording: bool, recordedFrames: seq<RecordedFrame>,
    recordingStartedAt: Option<int>, recordingStoppedAt: Option<int>,
    stoppedAt: Option<int>, displayMode: Option<string>)

  /** `activeSessions`. */
  type Registry = OrderedMap<Session>

  /** What holds of every session in the map: it is neither STOPPED nor
      ERROR, it has a frame timer exactly while STREAMING, running at
      its current frame rate, and a recording has a start time. */
  ghost predicate SessionOk(s: Session)
  {
    && s.status !in {Stopped, Errored}
    && s.encoding.frameRate > 0
    && (s.status == Streaming <==> s.interval.Some?)
    && (s.interval.Some? ==> s.interval.value == 1000.0 / s.encoding.frameRate as real)
    && (s.isRecording ==> s.recordingStartedAt.Some?)
  }

  ghost predicate AllOk(r: Registry)
  {
    Listed(r) && forall k :: k in r.entries ==> SessionOk(r.entries[k])
  }

  lemma PutOk(r: Registry, id: string, s: Session)
    requires AllOk(r) && SessionOk(s)
    ensures AllOk(Put(r, id, s))
  {
    PutListed(r, id, s);
  }

  lemma DropOk(r: Registry, id: string)
    requires AllOk(r)
    ensures AllOk(Drop(r, id))
  {
    DropListed(r, id);
  }

  /** `screenshare-${Date.now()}-${Math.floor(Math.random() * 1000)}`. */
  function SessionId(now: int, suffix: nat): string
  {
    "screenshare-" + IntToString(now) + "-" + NatToString(suffix)
  }

  /** The options of `startSession`: encoding overrides, and a scene and
      change pattern that default to the first scene and the second
      pattern. */
  datatype StartOptions = StartOptions(encoding: EncodingOverrides, scene: Option<Scene>, pattern: Option<Pattern>)

  function NewSession(id: string, source: string, target: string, defaults: Encoding, o: StartOptions, now: int): Session
  {
    Session(id, source, target, Initializing, now, Merge(defaults, o.encoding),
            o.scene.GetOr(Scenes()[0]), o.pattern.GetOr(Patterns()[1]),
            Stats(0, 0, 0, 0, 0, 0, 0, None), None, false, [], None, None, None, None)
  }

  /** `startSession(source, target, options)`. */
  function Start(r: Registry, id: string, source: string, target: string, defaults: Encoding, o: StartOptions, now: int): Registry
  {
    Put(r, id, NewSession(id, source, target, defaults, o, now))
  }

  /** A new session is INITIALIZING without a timer, with the default
      encoding under the caller's overrides, on the desktop scene and the
      'minimal' pattern unless the caller chose others. */
  lemma StartEffect(r: Registry, id: string, source: string, target: string, defaults: Encoding, o: StartOptions, now: int)
    requires AllOk(r) && defaults.frameRate > 0 && PositiveRate(o.encoding)
    ensures var t := Start(r, id, source, target, defaults, o, now);
      && AllOk(t) && id in t.entries
      && t.entries[id].status == Initializing && t.entries[id].interval.None?
      && t.entries[id].encoding == Merge(defaults, o.encoding)
      && (o.scene.None? ==> t.entries[id].scene.id == "desktop" && t.entries[id].scene.width == 1920)
      && (o.pattern.None? ==> t.entries[id].pattern.id == "minimal")
      && t.entries[id].stats.framesSent == 0
      && (forall k :: k in r.entries && k != id ==> k in t.entries && t.entries[k] == r.entries[k])
  {
    PutOk(r, id, NewSession(id, source, target, defaults, o, now));
  }

  /** `startFrameGeneration`: a timer every `1000 / frameRate` ms. */
  function WithTimer(s: Session): Session
    requires s.encoding.frameRate > 0
  {
    s.(interval := Some(1000.0 / s.encoding.frameRate as real))
  }

  /** The one-second initialisation timer: a session still present starts
      STREAMING with its frame timer. */
  function Initialize(r: Registry, id: string): Registry
    requires AllOk(r)
  {
    if id !in r.entries then r
    else Put(r, id, WithTimer(r.entries[id].(status := Streaming)))
  }

  lemma InitializeEffect(r: Registry, id: string)
    requires AllOk(r)
    ensures AllOk(Initialize(r, id))
    ensures id in r.entries ==> (Initialize(r, id).entries[id].status == Streaming
                              && Initialize(r, id).entries[id].interval.Some?)
    ensures id !in r.entries ==> Initialize(r, id) == r
  {
    if id in r.entries {
      PutOk(r, id, WithTimer(r.entries[id].(status := Streaming)));
    }
  }

  datatype Changed = Changed(ok: bool, after: Registry)

  /** `pauseSession(id)`: STREAMING to PAUSED, and the frame timer stops. */
  function Pause(r: Registry, id: string): Changed
  {
    if id !in r.entries || r.entries[id].status != Streaming then Changed(false, r)
    else Changed(true, Put(r, id, r.entries[id].(status := Paused, interval := None)))
  }

  /** `resumeSession(id)`: PAUSED to STREAMING, with a frame timer. */
  function Resume(r: Registry, id: string): Changed
    requires AllOk(r)
  {
    if id !in r.entries || r.entries[id].status != Paused then Changed(false, r)
    else Changed(true, Put(r, id, WithTimer(r.entries[id].(status := Streaming))))
  }

  /** Pausing works only on a STREAMING session and resuming only on a
      PAUSED one; otherwise nothing changes. */
  lemma PauseResume(r: Registry, id: string)
    requires AllOk(r)
    ensures Pause(r, id).ok <==> id in r.entries && r.entries[id].status == Streaming
    ensures Resume(r, id).ok <==> id in r.entries && r.entries[id].status == Paused
    ensures !Pause(r, id).ok ==> Pause(r, id).after == r
    ensures !Resume(r, id).ok ==> Resume(r, id).after == r
    ensures AllOk(Pause(r, id).after) && AllOk(Resume(r, id).after)
  {
    if id in r.entries && r.entries[id].status == Streaming {
      PutOk(r, id, r.entries[id].(status := Paused, interval := None));
    }
    if id in r.entries && r.entries[id].status == Paused {
      PutOk(r, id, WithTimer(r.entries[id].(status := Streaming)));
    }
  }

  /** A pause stops the frame timer and keeps the session's place; a
      resume then restarts it and gives back the session as it was. */
  lemma PauseThenResume(r: Registry, id: string)
    requires AllOk(r) && id in r.entries && r.entries[id].status == Streaming
    ensures var p := Pause(r, id).after;
      && AllOk(p) && p.entries[id].interval.None? && p.order == r.order
      && Resume(p, id).ok && Resume(p, id).after == r
  {
    var s := r.entries[id];
    PutOk(r, id, s.(status := Paused, interval := None));
    var p := Pause(r, id).after;
    assert WithTimer(p.entries[id].(status := Streaming)) == s;
    assert Resume(p, id).after.entries == r.entries;
  }

  /** `stopSession(id)`: refused for a missing, STOPPED or ERROR session;
      otherwise the session (its timer and recording stopped) leaves the
      map. */
  function Stop(r: Registry, id: string): Changed
  {
    if id !in r.entries || r.entries[id].status in {Stopped, Errored} then Changed(false, r)
    else Changed(true, Drop(r, id))
  }

  /** No session in the map is ever STOPPED or ERROR, so a stop is refused
      only for an unknown id. */
  lemma StopEffect(r: Registry, id: string)
    requires AllOk(r)
    ensures Stop(r, id).ok <==> id in r.entries
    ensures AllOk(Stop(r, id).after) && id !in Stop(r, id).after.entries
    ensures forall k :: k in Stop(r, id).after.entries <==> k in r.entries && k != id
  {
    DropOk(r, id);
  }

  /** `getDeviceSessions(device)`. */
  function DeviceSessions(r: Registry, device: string): seq<Session>
    requires Listed(r)
  {
    Filter(Values(r), (s: Session) => s.source == device || s.target == device)
  }

  // ---------------------------------------------------------------------
  // Frames

  /** `frameComplexity` by change pattern. */
  function Complexity(patternId: string): real
  {
    if patternId == "static" then 0.1
    else if patternId == "minimal" then 0.3
    else if patternId == "moderate" then 0.7
    else if patternId == "high" then 1.2
    else if patternId == "video" then 1.5
    else 1.0
  }

  /** The exact frame size before rounding. */
  function ExactFrameSize(e: Encoding, complexity: real): real
    requires e.frameRate > 0
  {
    (e.bitrate * 1024) as real / e.frameRate as real * complexity * e.quality
  }

  /** `generateMockFrame(session)`; `suffix` stands for
      `Math.floor(Math.random() * 1000)`. */
  function MockFrame(s: Session, now: int, suffix: nat): Frame
    requires s.encoding.frameRate > 0
  {
    Frame("frame-" + IntToString(now) + "-" + NatToString(suffix), s.scene.width, s.scene.height, now,
          s.stats.framesSent, RoundReal(ExactFrameSize(s.encoding, Complexity(s.pattern.id))),
          s.stats.framesSent % KEYFRAME_EVERY == 0, s.encoding.quality)
  }

  /** A frame is numbered by the frames sent before it, is a keyframe
      exactly every 30th number, has the scene's size, and its byte size
      is the nearest integer to bitrate·1024/frameRate·complexity·quality. */
  lemma MockFrameShape(s: Session, now: int, suffix: nat)
    requires s.encoding.frameRate > 0
    ensures var f := MockFrame(s, now, suffix);
      && f.sequenceNumber == s.stats.framesSent
      && (f.keyframe <==> s.stats.framesSent % 30 == 0)
      && f.width == s.scene.width && f.height == s.scene.height
      && f.size as real - 0.5 <= ExactFrameSize(s.encoding, Complexity(s.pattern.id)) < f.size as real + 0.5
  {
  }

  /** The default encoding at 30 fps and 5000 kbps makes 'minimal' frames
      of 40960 bytes (5000·1024/30·0.3·0.8) and 'video' frames of 204800. */
  lemma DefaultFrameSize()
    ensures RoundReal(ExactFrameSize(DefaultEncoding(), Complexity("minimal"))) == 40960
    ensures RoundReal(ExactFrameSize(DefaultEncoding(), Complexity("video"))) == 204800
  {
    assert ExactFrameSize(DefaultEncoding(), 0.3) == 40960.0;
    assert ExactFrameSize(DefaultEncoding(), 1.5) == 204800.0;
  }

  /** One firing of a session's frame interval: what became of the frame,
      if one was made. */
  datatype Sent = NotStreaming | Dropped(frame: Frame) | InFlight(frame: Frame)

  /** `generateAndSendFrame`, run by the interval while the session
      streams: a dropped frame is only counted, a sent one is counted
      with its bytes and goes on its way (`dropped` stands for
      `Math.random() < packetLoss`). */
  function FrameTick(s: Session, now: int, suffix: nat, dropped: bool): (Sent, Session)
    requires s.encoding.frameRate > 0
  {
    if s.status != Streaming then (NotStreaming, s)
    else
      var f := MockFrame(s, now, suffix);
      if dropped then (Dropped(f), s.(stats := s.stats.(framesDropped := s.stats.framesDropped + 1)))
      else (InFlight(f), s.(stats := s.stats.(framesSent := s.stats.framesSent + 1,
                                              bytesSent := s.stats.bytesSent + f.size)))
  }

  /** Sent frames are numbered 0, 1, 2, … and a dropped frame's number is
      given again to the next frame, since only sent frames are counted
      as sent. */
  lemma FrameNumbering(s: Session, t1: int, t2: int, a: nat, b: nat, d1: bool)
    requires s.encoding.frameRate > 0 && s.status == Streaming
    ensures var (x, s1) := FrameTick(s, t1, a, d1);
      var (y, _) := FrameTick(s1, t2, b, false);
      && x.frame.sequenceNumber == s.stats.framesSent
      && (d1 ==> y.frame.sequenceNumber == x.frame.sequenceNumber && s1.stats.framesDropped == s.stats.framesDropped + 1)
      && (!d1 ==> y.frame.sequenceNumber == x.frame.sequenceNumber + 1 && s1.stats.bytesSent == s.stats.bytesSent + x.frame.size)
      && s1.status == s.status && s1.interval == s.interval
  {
  }

  /** `updateSessionStats`: with time elapsed since the start, the bit
      rate in kbps and the frame rate, each rounded. */
  function UpdateStats(st: Stats, startedAt: int, now: int): Stats
  {
    var elapsed := now - startedAt;
    if elapsed > 0 then
      st.(currentBitrate := RoundDiv(st.bytesReceived * 8000, 1024 * elapsed),
          currentFps := RoundDiv(st.framesReceived * 1000, elapsed))
    else st
  }

  /** The rates are the nearest integers to bytes·8/1024 per second and
      frames per second since the start. */
  lemma UpdateStatsRates(st: Stats, startedAt: int, now: int)
    requires now > startedAt
    ensures var u := UpdateStats(st, startedAt, now); var e := (now - startedAt) as real;
      && u.currentFps as real - 0.5 <= st.framesReceived as real * 1000.0 / e < u.currentFps as real + 0.5
      && u.currentBitrate as real - 0.5 <= (st.bytesReceived as real * 8.0 / 1024.0) / (e / 1000.0) < u.currentBitrate as real + 0.5
  {
    var e := now - startedAt;
    var u := UpdateStats(st, startedAt, now);
    var fps := u.currentFps;
    assert 2 * e * fps <= 2 * (st.framesReceived * 1000) + e < 2 * e * (fps + 1);
    RealBounds(st.framesReceived * 1000, e, fps);
    var br := u.currentBitrate;
    RealBounds(st.bytesReceived * 8000, 1024 * e, br);
    assert (st.bytesReceived as real * 8.0 / 1024.0) / (e as real / 1000.0)
        == (st.bytesReceived * 8000) as real / (1024 * e) as real;
  }

  /** From the integer bounds of `RoundDiv` to bounds on the real quotient. */
  lemma RealBounds(n: int, d: int, r: int)
    requires d > 0 && 2 * d * r <= 2 * n + d < 2 * d * (r + 1)
    ensures r as real - 0.5 <= n as real / d as real < r as real + 0.5
  {
    CastProduct(r, d);
    CastProduct(r + 1, d);
    assert (r + 1) as real * d as real == r as real * d as real + d as real;
    Between(n as real, d as real, r as real);
  }

  lemma CastProduct(a: int, b: int)
    ensures (2 * b * a) as real == 2.0 * (a as real * b as real)
  {
  }

  lemma Between(n: real, d: real, r: real)
    requires d > 0.0 && 2.0 * (r * d) <= 2.0 * n + d < 2.0 * (r * d) + 2.0 * d
    ensures r - 0.5 <= n / d < r + 0.5
  {
    var q := n / d;
    assert q * d == n;
    assert (r - 0.5) * d == r * d - 0.5 * d;
    assert (r + 0.5) * d == r * d + 0.5 * d;
    if r - 0.5 > q {
      ScaleStrict(q, r - 0.5, d);
    }
    if q >= r + 0.5 {
      ScaleAtLeast(r + 0.5, q, d);
    }
  }

  lemma ScaleStrict(a: real, b: real, c: real)
    requires a < b && c > 0.0
    ensures a * c < b * c
  {
  }

  lemma ScaleAtLeast(a: real, b: real, c: real)
    requires a <= b && c > 0.0
    ensures a * c <= b * c
  {
  }

  /** A frame's delivery after its simulated latency: received only while
      the session still streams, then counted, the rates updated and,
      while recording, kept with the time it arrived. */
  function Deliver(s: Session, f: Frame, now: int): Session
  {
    if s.status != Streaming then s
    else
      var st := s.stats.(framesReceived := s.stats.framesReceived + 1,
                         bytesReceived := s.stats.bytesReceived + f.size,
                         lastFrameTime := Some(now));
      s.(stats := UpdateStats(st, s.startedAt, now),
         recordedFrames := if s.isRecording then s.recordedFrames + [RecordedFrame(f, now)] else s.recordedFrames)
  }

  /** A delivery counts one frame and its bytes and records it exactly
      while recording; a session that stopped streaming ignores it. */
  lemma DeliverEffect(s: Session, f: Frame, now: int)
    ensures var t := Deliver(s, f, now);
      && (s.status != Streaming ==> t == s)
      && (s.status == Streaming ==>
            && t.stats.framesReceived == s.stats.framesReceived + 1
            && t.stats.bytesReceived == s.stats.bytesReceived + f.size
            && t.stats.lastFrameTime == Some(now)
            && (s.isRecording ==> t.recordedFrames == s.recordedFrames + [RecordedFrame(f, now)])
            && (!s.isRecording ==> t.recordedFrames == s.recordedFrames))
      && t.status == s.status && t.interval == s.interval && t.encoding == s.encoding
  {
  }

  // ---------------------------------------------------------------------
  // Recording

  /** `startRecording(id)`: only for a STREAMING session; one already
      recording keeps its frames. */
  function RecordingStarted(r: Registry, id: string, now: int): Changed
  {
    if id !in r.entries || r.entries[id].status != Streaming then Changed(false, r)
    else if r.entries[id].isRecording then Changed(true, r)
    else Changed(true, Put(r, id, r.entries[id].(isRecording := true, recordedFrames := [], recordingStartedAt := Some(now))))
  }

  /** What `stopRecording` returns. */
  datatype Recording = Recording(sessionId: string, startedAt: int, stoppedAt: int, duration: int,
                                 frameCount: nat, frames: seq<RecordedFrame>)

  datatype Ended = Ended(recording: Option<Recording>, after: Registry)

  /** `stopRecording(id)`: `null` unless the session is recording;
      otherwise the frames with the times, and the session's frame list
      emptied. */
  function RecordingStopped(r: Registry, id: string, now: int): Ended
    requires AllOk(r)
  {
    if id !in r.entries || !r.entries[id].isRecording then Ended(None, r)
    else
      var s := r.entries[id];
      var start := s.recordingStartedAt.value;
      Ended(Some(Recording(id, start, now, now - start, |s.recordedFrames|, s.recordedFrames)),
               Put(r, id, s.(isRecording := false, recordingStoppedAt := Some(now), recordedFrames := [])))
  }

  /** Starting is refused unless the session streams; a second start
      keeps the frames. Stopping returns `null` unless recording, and
      otherwise every frame recorded since the start, in order, and
      empties them. */
  lemma RecordingEffect(r: Registry, id: string, t1: int, t2: int)
    requires AllOk(r)
    ensures RecordingStarted(r, id, t1).ok <==> id in r.entries && r.entries[id].status == Streaming
    ensures AllOk(RecordingStarted(r, id, t1).after)
    ensures RecordingStarted(r, id, t1).ok && r.entries[id].isRecording ==> RecordingStarted(r, id, t1).after == r
    ensures AllOk(RecordingStopped(r, id, t2).after)
    ensures RecordingStopped(r, id, t2).recording.None? <==> !(id in r.entries && r.entries[id].isRecording)
    ensures RecordingStopped(r, id, t2).recording.Some? ==>
      var rec := RecordingStopped(r, id, t2).recording.value;
      var t := RecordingStopped(r, id, t2).after;
      && rec.frames == r.entries[id].recordedFrames && rec.frameCount == |rec.frames|
      && rec.duration == rec.stoppedAt - rec.startedAt
      && !t.entries[id].isRecording && t.entries[id].recordedFrames == []
    ensures var a := RecordingStarted(r, id, t1);
      a.ok && !r.entries[id].isRecording ==>
        RecordingStopped(a.after, id, t2).recording == Some(Recording(id, t1, t2, t2 - t1, 0, []))
  {
    if id in r.entries && r.entries[id].status == Streaming && !r.entries[id].isRecording {
      PutOk(r, id, r.entries[id].(isRecording := true, recordedFrames := [], recordingStartedAt := Some(t1)));
    }
    if id in r.entries && r.entries[id].isRecording {
      var s := r.entries[id];
      PutOk(r, id, s.(isRecording := false, recordingStoppedAt := Some(t2), recordedFrames := []));
    }
  }

  /** The delay `replayRecording` gives frame `i`'s timer, as written: 0
      for the first, and otherwise the gap to the previous frame over the
      speed. All the timers start together. */
  function ReplayDelayAsWritten(frames: seq<RecordedFrame>, speed: real, i: nat): real
    requires speed > 0.0 && i < |frames|
  {
    if i == 0 then 0.0 else (frames[i].recordedAt - frames[i - 1].recordedAt) as real / speed
  }

  /** Frames received at 0, 100 and 150 ms are shown at 0, 100 and 50 ms:
      the third before the second. */
  lemma ReplayReordersAsWritten(f: Frame)
    ensures var fs := [RecordedFrame(f, 0), RecordedFrame(f, 100), RecordedFrame(f, 150)];
      ReplayDelayAsWritten(fs, 1.0, 2) < ReplayDelayAsWritten(fs, 1.0, 1)
  {
  }

  /** The intended delay of frame `i`: its distance from the first frame,
      over the speed. */
  function ReplayOffset(frames: seq<RecordedFrame>, speed: real, i: nat): real
    requires speed > 0.0 && i < |frames|
  {
    (frames[i].recordedAt - frames[0].recordedAt) as real / speed
  }

  /** Frames recorded in time order replay in that order, each the
      recorded gap (over the speed) after the one before. */
  lemma ReplayOffsetKeepsGaps(frames: seq<RecordedFrame>, speed: real, i: nat)
    requires speed > 0.0 && 0 < i < |frames|
    requires frames[i - 1].recordedAt <= frames[i].recordedAt
    ensures ReplayOffset(frames, speed, 0) == 0.0
    ensures ReplayOffset(frames, speed, i) - ReplayOffset(frames, speed, i - 1) == ReplayDelayAsWritten(frames, speed, i)
    ensures ReplayOffset(frames, speed, i - 1) <= ReplayOffset(frames, speed, i)
  {
    var a := (frames[i - 1].recordedAt - frames[0].recordedAt) as real;
    var b := (frames[i].recordedAt - frames[0].recordedAt) as real;
    assert b / speed - a / speed == (b - a) / speed;
    assert a / speed <= b / speed;
  }

  datatype Scheduled = Scheduled(delay: real, frame: Frame)

  /** The timers of `replayRecording(data, callback, speed)`: each frame
      handed to the callback after its delay. */
  function ReplaySchedule(frames: seq<RecordedFrame>, speed: real): (r: seq<Scheduled>)
    requires speed > 0.0
    ensures |r| == |frames|
    ensures forall i :: 0 <= i < |r| ==> r[i] == Scheduled(ReplayOffset(frames, speed, i), frames[i].frame)
  {
    seq(|frames|, i requires 0 <= i < |frames| => Scheduled(ReplayOffset(frames, speed, i), frames[i].frame))
  }

  // ---------------------------------------------------------------------
  // Encoding, size and display mode

  /** `adjustEncodingOptions(id, options)`: only while STREAMING; a given
      frame rate restarts the frame timer at the new rate. */
  function Adjust(r: Registry, id: string, o: EncodingOverrides): Changed
    requires AllOk(r) && PositiveRate(o)
  {
    if id !in r.entries || r.entries[id].status != Streaming then Changed(false, r)
    else
      var s := r.entries[id].(encoding := Merge(r.entries[id].encoding, o));
      Changed(true, Put(r, id, if o.frameRate.Some? then WithTimer(s) else s))
  }

  /** After an adjustment the frame timer runs at the session's current
      frame rate; a change of anything but the frame rate keeps the timer. */
  lemma AdjustEffect(r: Registry, id: string, o: EncodingOverrides)
    requires AllOk(r) && PositiveRate(o)
    ensures var c := Adjust(r, id, o);
      && AllOk(c.after)
      && (c.ok <==> id in r.entries && r.entries[id].status == Streaming)
      && (!c.ok ==> c.after == r)
      && (c.ok ==> && c.after.entries[id].encoding == Merge(r.entries[id].encoding, o)
                   && c.after.entries[id].interval == Some(1000.0 / c.after.entries[id].encoding.frameRate as real)
                   && (o.frameRate.None? ==> c.after.entries[id].interval == r.entries[id].interval))
  {
    if id in r.entries && r.entries[id].status == Streaming {
      var s := r.entries[id].(encoding := Merge(r.entries[id].encoding, o));
      PutOk(r, id, if o.frameRate.Some? then WithTimer(s) else s);
    }
  }

  /** `simulateScreenSizeChange(id, width, height)`: only while STREAMING;
      the scene and the encoding take the new size. */
  function Resize(r: Registry, id: string, width: int, height: int): Changed
  {
    if id !in r.entries || r.entries[id].status != Streaming then Changed(false, r)
    else
      var s := r.entries[id];
      Changed(true, Put(r, id, s.(scene := s.scene.(width := width, height := height),
                                  encoding := s.encoding.(width := width, height := height))))
  }

  /** After a resize the frames made have the new size. */
  lemma ResizeFrames(r: Registry, id: string, width: int, height: int, now: int, suffix: nat)
    requires AllOk(r)
    ensures AllOk(Resize(r, id, width, height).after)
    ensures Resize(r, id, width, height).ok ==>
      var f := MockFrame(Resize(r, id, width, height).after.entries[id], now, suffix);
      f.width == width && f.height == height
  {
    if id in r.entries && r.entries[id].status == Streaming {
      var s := r.entries[id];
      PutOk(r, id, s.(scene := s.scene.(width := width, height := height),
                      encoding := s.encoding.(width := width, height := height)));
    }
  }

  /** `simulateDisplayModeChange(id, mode)`: only while STREAMING; the
      mode is stored, and 'minimized' pauses. The source's 'fullscreen'
      branch resumes a PAUSED session, but it is reached only by a
      session that was STREAMING a moment before, so it never runs and
      is not written here; `DisplayModeEffect` states the outcome. */
  function DisplayMode(r: Registry, id: string, mode: string): Changed
  {
    if id !in r.entries || r.entries[id].status != Streaming then Changed(false, r)
    else
      var r1 := Put(r, id, r.entries[id].(displayMode := Some(mode)));
      if mode == "minimized" then Changed(true, Pause(r1, id).after)
      else Changed(true, r1)
  }

  /** A display-mode change needs a STREAMING session; 'minimized' leaves
      it PAUSED without a frame timer and every other mode, 'fullscreen'
      included, leaves it STREAMING with only its mode changed. */
  lemma DisplayModeEffect(r: Registry, id: string, mode: string)
    requires AllOk(r)
    ensures var c := DisplayMode(r, id, mode);
      && AllOk(c.after)
      && (c.ok <==> id in r.entries && r.entries[id].status == Streaming)
      && (!c.ok ==> c.after == r)
      && (c.ok ==> c.after.entries[id].displayMode == Some(mode))
      && (c.ok && mode == "minimized" ==> c.after.entries[id].status == Paused && c.after.entries[id].interval.None?)
      && (c.ok && mode != "minimized" ==> c.after.entries[id] == r.entries[id].(displayMode := Some(mode)))
  {
    if id in r.entries && r.entries[id].status == Streaming {
      var s := r.entries[id].(displayMode := Some(mode));
      PutOk(r, id, s);
      var r1 := Put(r, id, s);
      if mode == "minimized" {
        PutOk(r1, id, s.(status := Paused, interval := None));
      }
    }
  }

  // ---------------------------------------------------------------------
  // The service object

  class Service {
    var sessions: Registry
    var defaults: Encoding
    var network: NetworkConditions

    ghost predicate Valid()
      reads this
    {
      AllOk(sessions) && defaults.frameRate > 0
    }

    constructor ()
      ensures Valid()
      ensures sessions == OrderedMap(map[], []) && defaults == DefaultEncoding()
      ensures network == NetworkConditions(50, 10, 0.01, 20000)
    {
      sessions := OrderedMap(map[], []);
      defaults := DefaultEncoding();
      network := NetworkConditions(50, 10, 0.01, 20000);
    }

    /** `startSession(source, target, options)`. */
    method StartSession(source: string, target: string, o: StartOptions, now: int, suffix: nat) returns (id: string)
      requires Valid() && PositiveRate(o.encoding) && suffix < 1000
      modifies this`sessions
      ensures Valid() && id == SessionId(now, suffix)
      ensures sessions == Start(old(sessions), id, source, target, defaults, o, now)
    {
      id := SessionId(now, suffix);
      StartEffect(sessions, id, source, target, defaults, o, now);
      sessions := Start(sessions, id, source, target, defaults, o, now);
    }

    /** The initialisation timer of session `id`. */
    method CompleteInitialization(id: string)
      requires Valid()
      modifies this`sessions
      ensures Valid() && sessions == Initialize(old(sessions), id)
    {
      InitializeEffect(sessions, id);
      sessions := Initialize(sessions, id);
    }

    method PauseSession(id: string) returns (ok: bool)
      requires Valid()
      modifies this`sessions
      ensures Valid() && Changed(ok, sessions) == Pause(old(sessions), id)
    {
      PauseResume(sessions, id);
      var c := Pause(sessions, id);
      ok, sessions := c.ok, c.after;
    }

    method ResumeSession(id: string) returns (ok: bool)
      requires Valid()
      modifies this`sessions
      ensures Valid() && Changed(ok, sessions) == Resume(old(sessions), id)
    {
      PauseResume(sessions, id);
      var c := Resume(sessions, id);
      ok, sessions := c.ok, c.after;
    }

    method StopSession(id: string) returns (ok: bool)
      requires Valid()
      modifies this`sessions
      ensures Valid() && Changed(ok, sessions) == Stop(old(sessions), id)
    {
      StopEffect(sessions, id);
      var c := Stop(sessions, id);
      ok, sessions := c.ok, c.after;
    }

    /** One firing of session `id`'s frame interval. */
    method FrameIntervalFired(id: string, now: int, suffix: nat, dropped: bool) returns (sent: Sent)
      requires Valid()
      modifies this`sessions
      ensures Valid()
      ensures id !in old(sessions.entries) ==> sent == NotStreaming && sessions == old(sessions)
      ensures id in old(sessions.entries) ==>
        var (x, s) := FrameTick(old(sessions.entries[id]), now, suffix, dropped);
        sent == x && sessions == Put(old(sessions), id, s)
    {
      if id !in sessions.entries {
        return NotStreaming;
      }
      var (x, s) := FrameTick(sessions.entries[id], now, suffix, dropped);
      PutOk(sessions, id, s);
      sent, sessions := x, Put(sessions, id, s);
    }

    /** The arrival of frame `f` of session `id`. */
    method FrameArrived(id: string, f: Frame, now: int)
      requires Valid()
      modifies this`sessions
      ensures Valid()
      ensures id !in old(sessions.entries) ==> sessions == old(sessions)
      ensures id in old(sessions.entries) ==> sessions == Put(old(sessions), id, Deliver(old(sessions.entries[id]), f, now))
    {
      if id in sessions.entries {
        PutOk(sessions, id, Deliver(sessions.entries[id], f, now));
        sessions := Put(sessions, id, Deliver(sessions.entries[id], f, now));
      }
    }

    method GetSession(id: string) returns (s: Option<Session>)
      ensures s == if id in sessions.entries then Some(sessions.entries[id]) else None
    {
      s := if id in sessions.entries then Some(sessions.entries[id]) else None;
    }

    method GetAllActiveSessions() returns (all: seq<Session>)
      requires Valid()
      ensures all == Values(sessions)
    {
      all := Values(sessions);
    }

    method GetDeviceSessions(device: string) returns (r: seq<Session>)
      requires Valid()
      ensures r == DeviceSessions(sessions, device)
    {
      r := DeviceSessions(sessions, device);
    }

    method StartRecording(id: string, now: int) returns (ok: bool)
      requires Valid()
      modifies this`sessions
      ensures Valid() && Changed(ok, sessions) == RecordingStarted(old(sessions), id, now)
    {
      RecordingEffect(sessions, id, now, now);
      var c := RecordingStarted(sessions, id, now);
      ok, sessions := c.ok, c.after;
    }

    method StopRecording(id: string, now: int) returns (rec: Option<Recording>)
      requires Valid()
      modifies this`sessions
      ensures Valid() && Ended(rec, sessions) == RecordingStopped(old(sessions), id, now)
    {
      RecordingEffect(sessions, id, now, now);
      var c := RecordingStopped(sessions, id, now);
      rec, sessions := c.recording, c.after;
    }

    /** `replayRecording(data, callback, speed)`: the timers it starts, with
        the delays measured from the first frame (`ReplayOffset`); none
        for a missing or empty recording. */
    method ReplayRecording(data: Option<Recording>, speed: real) returns (plan: seq<Scheduled>)
      requires speed > 0.0
      ensures data.None? ==> plan == []
      ensures data.Some? ==> plan == ReplaySchedule(data.value.frames, speed)
    {
      if data.None? {
        return [];
      }
      plan := ReplaySchedule(data.value.frames, speed);
    }

    method AdjustEncodingOptions(id: string, o: EncodingOverrides) returns (ok: bool)
      requires Valid() && PositiveRate(o)
      modifies this`sessions
      ensures Valid() && Changed(ok, sessions) == Adjust(old(sessions), id, o)
    {
      AdjustEffect(sessions, id, o);
      var c := Adjust(sessions, id, o);
      ok, sessions := c.ok, c.after;
    }

    method SimulateNetworkConditions(o: NetworkOverrides)
      modifies this`network
      ensures network == MergeNetwork(old(network), o)
    {
      network := MergeNetwork(network, o);
    }

    method SimulateScreenSizeChange(id: string, width: int, height: int) returns (ok: bool)
      requires Valid()
      modifies this`sessions
      ensures Valid() && Changed(ok, sessions) == Resize(old(sessions), id, width, height)
    {
      ResizeFrames(sessions, id, width, height, 0, 0);
      var c := Resize(sessions, id, width, height);
      ok, sessions := c.ok, c.after;
    }

    method SimulateDisplayModeChange(id: string, mode: string) returns (ok: bool)
      requires Valid()
      modifies this`sessions
      ensures Valid() && Changed(ok, sessions) == DisplayMode(old(sessions), id, mode)
    {
      DisplayModeEffect(sessions, id, mode);
      var c := DisplayMode(sessions, id, mode);
      ok, sessions := c.ok, c.after;
    }

    method GetAvailableScenes() returns (r: seq<Scene>)
      ensures r == Scenes() && |r| == 5
    {
      r := Scenes();
    }

    method GetAvailableChangePatterns() returns (r: seq<Pattern>)
      ensures r == Patterns() && |r| == 5
    {
      r := Patterns();
    }

    method SetDefaultEncodingOptions(o: EncodingOverrides)
      requires Valid() && PositiveRate(o)
      modifies this`defaults
      ensures Valid() && defaults == Merge(old(defaults), o)
    {
      defaults := Merge(defaults, o);
    }

    /** `reset()`: stops every session in insertion order. */
    method Reset()
      requires Valid()
      modifies this`sessions
      ensures Valid() && sessions == OrderedMap(map[], [])
    {
      var ids := sessions.order;
      var i := 0;
      while i < |ids|
        invariant 0 <= i <= |ids|
        invariant Valid()
        invariant sessions.order == ids[i..]
        decreases |ids| - i
      {
        DropFirst(sessions);
        var ok := StopSession(ids[i]);
        assert ids[i..][1..] == ids[i + 1..];
        i := i + 1;
      }
      NoOrderEmpty(sessions);
    }
  }
}
