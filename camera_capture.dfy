/** The capture state machine and the frame queue of the global-shutter
    camera base class, as pure functions. The libcamera calls the class
    makes (camera start and stop, configuration generation, validation and
    buffer allocation) are not modelled; their outcomes are inputs. */
module CameraCapture {
  import opened Outcomes

  datatype TriggerMode = FreeRunning | ExternalTrigger

  datatype StreamType = Preview | MainStream | HighQuality | StreamTypeMax

  /** What `openCamera` finds: no usable camera (manager not started, none
      found, index out of range), a camera that cannot be acquired, or an
      acquired camera. */
  datatype OpenResult = NoCamera | AcquireFailed | Acquired

  /** What the libcamera half of `reconfigureForActiveStream` does: no
      configuration generated, a configuration generated but then rejected
      (invalid, refused by the camera, or buffers not allocated), or a
      configuration applied. */
  datatype ConfigResult = ConfigMissing | ConfigRejected | ConfigApplied

  /** The flags the capture operations read and write. `cameraAttached`
      stands for a non-null camera handle, `configGenerated` for a non-null
      configuration. */
  datatype Capture = Capture(
    cameraAttached: bool,
    configGenerated: bool,
    open: bool,
    configured: bool,
    started: bool,
    capturing: bool,
    trigger: TriggerMode,
    stream: StreamType)
  {
    /** Capturing only happens on an open, configured, started camera; an
        open or started camera has a handle. */
    predicate Consistent() {
      (capturing ==> open && configured && started)
      && (open ==> cameraAttached)
      && (started ==> cameraAttached)
    }
  }

  /** A camera object as constructed: nothing open, configured or
      capturing. */
  function Initial(mode: TriggerMode, stream: StreamType): (c: Capture)
    ensures c.Consistent() && !c.open && !c.configured && !c.capturing && c.trigger == mode
  {
    Capture(false, false, false, false, false, false, mode, stream)
  }

  /** `openCamera`: true at once when already open, otherwise true only
      when the camera is acquired. */
  function OpenCamera(c: Capture, res: OpenResult): (r: (Capture, bool))
    requires c.Consistent()
    ensures r.0.Consistent()
    ensures r.1 <==> c.open || res == Acquired
    ensures r.1 ==> r.0.open
    ensures r.0.configGenerated == c.configGenerated && r.0.configured == c.configured &&
            r.0.started == c.started && r.0.capturing == c.capturing && r.0.trigger == c.trigger &&
            r.0.stream == c.stream
  {
    if c.open then (c, true)
    else match res
      case NoCamera => (c, false)
      case AcquireFailed => (c.(cameraAttached := true), false)
      case Acquired => (c.(cameraAttached := true, open := true), true)
  }

  /** `configureTriggerMode` of this class: needs a camera and a
      configuration, and refuses the external trigger. */
  predicate ConfigureTriggerMode(c: Capture, mode: TriggerMode) {
    c.cameraAttached && c.configGenerated && mode == FreeRunning
  }

  /** `reconfigureForActiveStream`: the maximum stream type is refused, and
      `configured` becomes true only when a configuration is applied. */
  function ReconfigureForActiveStream(c: Capture, res: ConfigResult): (r: (Capture, bool))
    requires c.Consistent() && (c.stream != StreamTypeMax ==> c.cameraAttached)
    ensures r.0.Consistent()
    ensures r.1 <==> c.stream != StreamTypeMax && res == ConfigApplied
    ensures r.1 ==> r.0.configured && r.0.configGenerated
    ensures !r.1 ==> r.0.configured == c.configured
    ensures r.0.cameraAttached == c.cameraAttached && r.0.open == c.open && r.0.started == c.started &&
            r.0.capturing == c.capturing && r.0.trigger == c.trigger && r.0.stream == c.stream
  {
    if c.stream == StreamTypeMax then (c, false)
    else match res
      case ConfigMissing => (c.(configGenerated := false), false)
      case ConfigRejected => (c.(configGenerated := true), false)
      case ConfigApplied => (c.(configGenerated := true, configured := true), true)
  }

  /** `initializeCamera`: an open camera is configured for its stream, then
      its trigger mode is applied. */
  function InitializeCamera(c: Capture, res: ConfigResult): (r: (Capture, bool))
    requires c.Consistent()
    ensures r.0.Consistent()
    ensures r.1 <==> c.open && c.stream != StreamTypeMax && res == ConfigApplied && c.trigger == FreeRunning
    ensures r.1 ==> r.0.configured
    ensures r.0.capturing == c.capturing && r.0.trigger == c.trigger && r.0.stream == c.stream
  {
    if !c.open then (c, false)
    else
      var (c1, ok) := ReconfigureForActiveStream(c, res);
      if !ok then (c1, false)
      else if !ConfigureTriggerMode(c1, c1.trigger) then (c1, false)
      else (c1, true)
  }

  /** `setTriggerMode`: refused while capturing and before configuration;
      the mode changes only when the call succeeds. */
  function SetTriggerMode(c: Capture, mode: TriggerMode): (r: (Capture, bool))
    ensures r.1 <==> !c.capturing && c.configured && ConfigureTriggerMode(c, mode)
    ensures r.0 == if r.1 then c.(trigger := mode) else c
    ensures r.0.trigger == ExternalTrigger ==> c.trigger == ExternalTrigger
  {
    if c.capturing then (c, false)
    else if c.configured && ConfigureTriggerMode(c, mode) then (c.(trigger := mode), true)
    else (c, false)
  }

  /** `startContinuousCapture`: needs an open, configured camera; true at
      once when already capturing; otherwise starts the camera if it is not
      started (`startRc` is the camera's answer) and begins capturing. */
  function StartContinuousCapture(c: Capture, startRc: int): (r: (Capture, bool))
    requires c.Consistent()
    ensures r.0.Consistent()
    ensures r.1 <==> c.open && c.configured && (c.capturing || c.started || startRc == 0)
    ensures r.1 ==> r.0.capturing && r.0.started
    ensures !r.1 ==> r.0 == c
    ensures r.0.cameraAttached == c.cameraAttached && r.0.configGenerated == c.configGenerated &&
            r.0.open == c.open && r.0.configured == c.configured && r.0.trigger == c.trigger &&
            r.0.stream == c.stream
  {
    if !(c.open && c.configured) then (c, false)
    else if c.capturing then (c, true)
    else if !c.started && startRc != 0 then (c, false)
    else (c.(started := true, capturing := true), true)
  }

  /** `stopContinuousCapture`: always succeeds and leaves the camera
      neither capturing nor started (the camera's own answer is ignored). */
  function StopContinuousCapture(c: Capture): (r: (Capture, bool))
    requires c.Consistent()
    ensures r.0.Consistent() && r.1
    ensures !r.0.capturing && !r.0.started
    ensures r.0.cameraAttached == c.cameraAttached && r.0.configGenerated == c.configGenerated &&
            r.0.open == c.open && r.0.configured == c.configured && r.0.trigger == c.trigger &&
            r.0.stream == c.stream
  {
    (c.(capturing := false, started := false), true)
  }

  /** `switchStream`: the same stream is a no-op; otherwise capturing stops,
      a started camera is stopped (`stopRc` is its answer; a failure ends
      the switch with the old stream kept), the new stream is configured,
      and capturing resumes if it was on. */
  function SwitchStream(c: Capture, s: StreamType, stopRc: int, res: ConfigResult, startRc: int): (r: (Capture, bool))
    requires c.Consistent() && (s != c.stream ==> c.cameraAttached)
    ensures r.0.Consistent()
    ensures c.stream == s ==> r == (c, true)
    ensures r.1 ==> r.0.stream == s && r.0.capturing == c.capturing && (c.stream != s ==> r.0.configured)
    ensures !r.1 ==> !r.0.capturing
    ensures r.0.stream == s || (r.0.stream == c.stream && c.started && stopRc != 0)
    ensures r.0.trigger == c.trigger && r.0.open == c.open
  {
    if c.stream == s then (c, true)
    else
      var c1 := c.(capturing := false);
      if c1.started && stopRc != 0 then (c1, false)
      else
        var rc := ReconfigureForActiveStream(c1.(started := false, stream := s), res);
        if !rc.1 then (rc.0, false)
        else if c.capturing then StartContinuousCapture(rc.0, startRc)
        else (rc.0, true)
  }

  /** After a stop, starting again needs the camera's own start to
      succeed. */
  lemma StopThenStartRestartsCamera(c: Capture, startRc: int)
    requires c.Consistent()
    ensures var s := StopContinuousCapture(c).0;
            StartContinuousCapture(s, startRc).1 <==> c.open && c.configured && startRc == 0
  {
  }

  /** Nothing in this class selects the external trigger: a camera built
      free-running stays free-running through every capture operation. */
  lemma FreeRunningStaysFreeRunning(c: Capture, mode: TriggerMode, s: StreamType, rc: int, res: ConfigResult)
    requires c.Consistent() && c.trigger == FreeRunning && (s != c.stream ==> c.cameraAttached)
    ensures SetTriggerMode(c, mode).0.trigger == FreeRunning
    ensures StartContinuousCapture(c, rc).0.trigger == FreeRunning
    ensures StopContinuousCapture(c).0.trigger == FreeRunning
    ensures SwitchStream(c, s, rc, res, rc).0.trigger == FreeRunning
    ensures InitializeCamera(c, res).0.trigger == FreeRunning
  {
  }

  // ---- the frame queue ----

  /** The last `max` elements of `s` (all of it when it is shorter). */
  function Newest<F>(s: seq<F>, max: nat): (r: seq<F>)
    ensures |r| == if |s| <= max then |s| else max
    ensures r == s[|s| - |r|..]
  {
    if |s| <= max then s else s[|s| - max..]
  }

  /** `addFrameToBuffer`: the frame is appended, then the oldest frames are
      dropped until at most `max` remain. */
  function Buffered<F>(q: seq<F>, f: F, max: nat): (r: seq<F>)
    ensures |r| <= max && |r| <= |q| + 1
    ensures |q| < max ==> r == q + [f]
    ensures max > 0 ==> |r| > 0 && r[|r| - 1] == f
    ensures r == (q + [f])[|q| + 1 - |r|..]
  {
    Newest(q + [f], max)
  }

  /** A run of frames added one by one. */
  function BufferedAll<F>(q: seq<F>, fs: seq<F>, max: nat): seq<F>
    decreases |fs|
  {
    if fs == [] then q else BufferedAll(Buffered(q, fs[0], max), fs[1..], max)
  }

  /** However many frames arrive, the queue holds the newest `max` of
      everything queued, oldest first. */
  lemma {:induction false} BufferedAllKeepsNewest<F>(q: seq<F>, fs: seq<F>, max: nat)
    requires |q| <= max
    ensures BufferedAll(q, fs, max) == Newest(q + fs, max)
    decreases |fs|
  {
    if fs == [] {
      assert q + fs == q;
    } else {
      var s := q + [fs[0]];
      BufferedAllStep(q, fs, max);
      BufferedAllKeepsNewest(Newest(s, max), fs[1..], max);
      NewestOfNewestRun(s, fs[1..], max);
      ConcatFirst(q, fs);
    }
  }

  lemma BufferedAllStep<F>(q: seq<F>, fs: seq<F>, max: nat)
    requires fs != []
    ensures var q1 := Newest(q + [fs[0]], max);
            |q1| <= max && BufferedAll(q, fs, max) == BufferedAll(q1, fs[1..], max)
  {
  }

  lemma ConcatFirst<F>(q: seq<F>, fs: seq<F>)
    requires fs != []
    ensures (q + [fs[0]]) + fs[1..] == q + fs
  {
  }

  /** Trimming before more frames arrive loses nothing the final trim
      would keep. */
  lemma {:induction false} NewestOfNewestRun<F>(s: seq<F>, fs: seq<F>, max: nat)
    ensures Newest(Newest(s, max) + fs, max) == Newest(s + fs, max)
    decreases |fs|
  {
    var t := Newest(s, max);
    assert t + fs == (s + fs)[|s| - |t|..];
  }

  /** `getLatestFrame`: nothing from an empty queue, otherwise its newest
      frame. */
  function Latest<F>(q: seq<F>): (r: Option<F>)
    ensures r.None? <==> q == []
    ensures r.Some? ==> r.value == q[|q| - 1]
  {
    if q == [] then None else Some(q[|q| - 1])
  }

  /** The latest frame after an arrival is the frame that arrived, unless
      the queue bound is zero. */
  lemma LatestAfterBufferedIsArrival<F>(q: seq<F>, f: F, max: nat)
    requires max > 0
    ensures Latest(Buffered(q, f, max)) == Some(f)
  {
  }
}
