/** The backend's screen mirror (`backend/src/services/screen-mirror/index.ts`):
    a queue of the ten newest frames while mirroring is active, and the
    stream options, which a bandwidth measurement sets to one of four
    quality steps. Frames are opaque; the bandwidth is in Mbps. */
module ScreenMirror {
  import opened Wrappers
  import opened Seqs

  const MAX_QUEUE_SIZE := 10

  datatype MirrorOptions = MirrorOptions(frameRate: int, resolution: string, codec: string, quality: int)

  /** The options a caller passes to `startMirroring`; absent fields keep the current ones. */
  datatype PartialOptions = PartialOptions(frameRate: Option<int>, resolution: Option<string>,
                                           codec: Option<string>, quality: Option<int>)

  /** A captured frame, opaque here. */
  datatype Frame = Frame(timestamp: int, data: string)

  datatype Emitted =
    | MirroringStarted(options: MirrorOptions)
    | MirroringStopped
    | FrameDropped
    | FrameAdded(frame: Frame)
    | QualityAdjusted(options: MirrorOptions)
    | OrientationChanged(orientation: string)

  const DEFAULT_OPTIONS := MirrorOptions(30, "1080p", "h264", 80)

  /** `{ ...current, ...options }` */
  function Merge(current: MirrorOptions, p: PartialOptions): (r: MirrorOptions)
    ensures r.frameRate == p.frameRate.GetOr(current.frameRate)
    ensures r.resolution == p.resolution.GetOr(current.resolution)
    ensures r.codec == p.codec.GetOr(current.codec)
    ensures r.quality == p.quality.GetOr(current.quality)
  {
    MirrorOptions(p.frameRate.GetOr(current.frameRate), p.resolution.GetOr(current.resolution),
                  p.codec.GetOr(current.codec), p.quality.GetOr(current.quality))
  }

  /** Merging nothing keeps the options; merging twice keeps the later. */
  lemma MergeLaws(o: MirrorOptions, p: PartialOptions, q: PartialOptions)
    ensures Merge(o, PartialOptions(None, None, None, None)) == o
    ensures Merge(Merge(o, p), p) == Merge(o, p)
    ensures q.frameRate.Some? && q.resolution.Some? && q.codec.Some? && q.quality.Some? ==>
              Merge(Merge(o, p), q) == Merge(o, q)
  {
  }

  /** The step `adjustQuality` picks for a bandwidth: quality, frame rate
      and resolution. */
  datatype QualityStep = QualityStep(quality: int, frameRate: int, resolution: string)

  function StepFor(bandwidth: real): (st: QualityStep)
    ensures bandwidth < 5.0 ==> st == QualityStep(40, 15, "720p")
    ensures 5.0 <= bandwidth < 10.0 ==> st == QualityStep(60, 20, "720p")
    ensures 10.0 <= bandwidth < 20.0 ==> st == QualityStep(80, 30, "1080p")
    ensures 20.0 <= bandwidth ==> st == QualityStep(95, 30, "1440p")
  {
    if bandwidth < 5.0 then QualityStep(40, 15, "720p")
    else if bandwidth < 10.0 then QualityStep(60, 20, "720p")
    else if bandwidth < 20.0 then QualityStep(80, 30, "1080p")
    else QualityStep(95, 30, "1440p")
  }

  /** More bandwidth never lowers the quality or the frame rate. */
  lemma StepForMonotone(b1: real, b2: real)
    requires b1 <= b2
    ensures StepFor(b1).quality <= StepFor(b2).quality
    ensures StepFor(b1).frameRate <= StepFor(b2).frameRate
  {
  }

  class ScreenMirrorService {
    var isActive: bool
    var frameQueue: seq<Frame>
    var currentOptions: MirrorOptions
    var emitted: seq<Emitted>

    /** The queue never holds more than ten frames and is empty while inactive. */
    ghost predicate Valid()
      reads this
    {
      |frameQueue| <= MAX_QUEUE_SIZE && (!isActive ==> frameQueue == [])
    }

    constructor ()
      ensures Valid() && !isActive && frameQueue == [] && currentOptions == DEFAULT_OPTIONS && emitted == []
    {
      isActive := false;
      frameQueue := [];
      currentOptions := DEFAULT_OPTIONS;
      emitted := [];
    }

    /** `startMirroring(options)`: the options merged over the current
        ones, mirroring active and the queue emptied. */
    method StartMirroring(p: PartialOptions)
      modifies this
      ensures Valid()
      ensures currentOptions == Merge(old(currentOptions), p) && isActive && frameQueue == []
      ensures emitted == old(emitted) + [MirroringStarted(currentOptions)]
    {
      currentOptions := Merge(currentOptions, p);
      isActive := true;
      frameQueue := [];
      emitted := emitted + [MirroringStarted(currentOptions)];
    }

    /** `stopMirroring()` */
    method StopMirroring()
      modifies this
      ensures Valid()
      ensures !isActive && frameQueue == [] && currentOptions == old(currentOptions)
      ensures emitted == old(emitted) + [MirroringStopped]
    {
      isActive := false;
      frameQueue := [];
      emitted := emitted + [MirroringStopped];
    }

    /** `getCurrentFrame()`: the newest frame, or the error when there is none. */
    function GetCurrentFrame(): (r: Result<Frame>)
      reads this
      ensures frameQueue == [] <==> r == Err("No frames available")
      ensures frameQueue != [] ==> r == Ok(frameQueue[|frameQueue| - 1])
    {
      if |frameQueue| == 0 then Err("No frames available") else Ok(frameQueue[|frameQueue| - 1])
    }

    /** `addFrame(frame)`: ignored while inactive; otherwise appended, the
        oldest dropped first when ten are queued. */
    method AddFrame(f: Frame)
      requires Valid()
      modifies this`frameQueue, this`emitted
      ensures Valid()
      ensures !isActive ==> frameQueue == old(frameQueue) && emitted == old(emitted)
      ensures isActive ==>
        frameQueue == LastN(old(frameQueue) + [f], MAX_QUEUE_SIZE)
        && emitted == old(emitted) + (if |old(frameQueue)| >= MAX_QUEUE_SIZE then [FrameDropped] else []) + [FrameAdded(f)]
    {
      if !isActive {
        return;
      }
      if |frameQueue| >= MAX_QUEUE_SIZE {
        assert frameQueue[1..] + [f] == (frameQueue + [f])[1..];
        frameQueue := frameQueue[1..];
        emitted := emitted + [FrameDropped];
      }
      frameQueue := frameQueue + [f];
      emitted := emitted + [FrameAdded(f)];
    }

    /** `adjustQuality(bandwidth)`: quality, frame rate and resolution come
        from the bandwidth's step; the codec is kept. */
    method AdjustQuality(bandwidth: real)
      modifies this`currentOptions, this`emitted
      ensures var st := StepFor(bandwidth);
        currentOptions == old(currentOptions).(quality := st.quality, frameRate := st.frameRate, resolution := st.resolution)
      ensures emitted == old(emitted) + [QualityAdjusted(currentOptions)]
    {
      if bandwidth < 5.0 {
        currentOptions := currentOptions.(quality := 40, frameRate := 15, resolution := "720p");
      } else if bandwidth < 10.0 {
        currentOptions := currentOptions.(quality := 60, frameRate := 20, resolution := "720p");
      } else if bandwidth < 20.0 {
        currentOptions := currentOptions.(quality := 80, frameRate := 30, resolution := "1080p");
      } else {
        currentOptions := currentOptions.(quality := 95, frameRate := 30, resolution := "1440p");
      }
      emitted := emitted + [QualityAdjusted(currentOptions)];
    }

    /** `handleOrientationChange(orientation)`: announced only. */
    method HandleOrientationChange(orientation: string)
      modifies this`emitted
      ensures emitted == old(emitted) + [OrientationChanged(orientation)]
    {
      emitted := emitted + [OrientationChanged(orientation)];
    }

    /** `getOptions()`: a copy, which as a value cannot alias the field. */
    function GetOptions(): (o: MirrorOptions)
      reads this
      ensures o == currentOptions
    {
      currentOptions
    }

    function GetQueueSize(): (n: nat)
      reads this
      requires Valid()
      ensures n == |frameQueue| && n <= MAX_QUEUE_SIZE
    {
      |frameQueue|
    }

    function IsRunning(): (b: bool)
      reads this
      ensures b == isActive
    {
      isActive
    }
  }
}
