/** The global-shutter camera base class: its capture flags and its
    bounded queue of frames captured in external-trigger mode. Each method
    is proved against the function of the same name in CameraCapture. */
module CameraBase {
  import opened Outcomes
  import opened CameraCapture

  class GSCameraBase<F> {
    var cameraAttached: bool
    var configGenerated: bool
    var isCameraOpen: bool
    var isConfigured: bool
    var cameraStarted: bool
    var isCapturing: bool
    var triggerMode: TriggerMode
    var activeStream: StreamType
    /** Frames captured in external-trigger mode, oldest first. */
    var frameBuffer: seq<F>
    var maxFrameBuffer: nat
    /** The free-running hand-off to `captureFrame`. */
    var latestFrame: Option<F>
    var frameReady: bool

    ghost function Flags(): Capture
      reads this
    {
      Capture(cameraAttached, configGenerated, isCameraOpen, isConfigured,
              cameraStarted, isCapturing, triggerMode, activeStream)
    }

    ghost predicate Valid()
      reads this
    {
      Flags().Consistent()
    }

    /** Everything but the frame queue is as it was. */
    twostate predicate QueueOnly()
      reads this
    {
      Flags() == old(Flags()) && maxFrameBuffer == old(maxFrameBuffer)
      && latestFrame == old(latestFrame) && frameReady == old(frameReady)
    }

    /** The stream the object starts on is not given by the class's own
        declarations, so it is a parameter. */
    constructor(mode: TriggerMode, stream: StreamType)
      ensures Valid() && Flags() == Initial(mode, stream)
      ensures frameBuffer == [] && maxFrameBuffer == 100
      ensures latestFrame == None && !frameReady
    {
      cameraAttached, configGenerated := false, false;
      isCameraOpen, isConfigured := false, false;
      cameraStarted, isCapturing := false, false;
      triggerMode, activeStream := mode, stream;
      frameBuffer, maxFrameBuffer := [], 100;
      latestFrame, frameReady := None, false;
    }

    method OpenCamera(res: OpenResult) returns (ok: bool)
      requires Valid()
      modifies this
      ensures Valid() && (Flags(), ok) == CameraCapture.OpenCamera(old(Flags()), res)
      ensures frameBuffer == old(frameBuffer) && maxFrameBuffer == old(maxFrameBuffer)
      ensures latestFrame == old(latestFrame) && frameReady == old(frameReady)
    {
      if isCameraOpen {
        return true;
      }
      if res == NoCamera {
        return false;
      }
      cameraAttached := true;
      if res == AcquireFailed {
        return false;
      }
      isCameraOpen := true;
      ok := isCameraOpen;
    }

    predicate ConfigureTriggerMode(mode: TriggerMode)
      reads this
      ensures ConfigureTriggerMode(mode) <==> CameraCapture.ConfigureTriggerMode(Flags(), mode)
    {
      if !cameraAttached || !configGenerated then false
      else if mode == ExternalTrigger then false
      else true
    }

    method ReconfigureForActiveStream(res: ConfigResult) returns (ok: bool)
      requires Valid() && (activeStream != StreamTypeMax ==> cameraAttached)
      modifies this
      ensures Valid() && (Flags(), ok) == CameraCapture.ReconfigureForActiveStream(old(Flags()), res)
      ensures frameBuffer == old(frameBuffer) && maxFrameBuffer == old(maxFrameBuffer)
      ensures latestFrame == old(latestFrame) && frameReady == old(frameReady)
    {
      if activeStream == StreamTypeMax {
        return false;
      }
      if res == ConfigMissing {
        configGenerated := false;
        return false;
      }
      configGenerated := true;
      if res == ConfigRejected {
        return false;
      }
      isConfigured := true;
      ok := true;
    }

    method InitializeCamera(res: ConfigResult) returns (ok: bool)
      requires Valid()
      modifies this
      ensures Valid() && (Flags(), ok) == CameraCapture.InitializeCamera(old(Flags()), res)
      ensures frameBuffer == old(frameBuffer) && maxFrameBuffer == old(maxFrameBuffer)
      ensures latestFrame == old(latestFrame) && frameReady == old(frameReady)
    {
      if !isCameraOpen {
        return false;
      }
      ok := ReconfigureForActiveStream(res);
      if !ok {
        return false;
      }
      if !ConfigureTriggerMode(triggerMode) {
        return false;
      }
      ok := true;
    }

    method SetTriggerMode(mode: TriggerMode) returns (ok: bool)
      requires Valid()
      modifies this
      ensures Valid() && (Flags(), ok) == CameraCapture.SetTriggerMode(old(Flags()), mode)
      ensures frameBuffer == old(frameBuffer) && maxFrameBuffer == old(maxFrameBuffer)
      ensures latestFrame == old(latestFrame) && frameReady == old(frameReady)
    {
      if isCapturing {
        return false;
      }
      if isConfigured && ConfigureTriggerMode(mode) {
        triggerMode := mode;
        return true;
      }
      ok := false;
    }

    method StartContinuousCapture(startRc: int) returns (ok: bool)
      requires Valid()
      modifies this
      ensures Valid() && (Flags(), ok) == CameraCapture.StartContinuousCapture(old(Flags()), startRc)
      ensures frameBuffer == old(frameBuffer) && maxFrameBuffer == old(maxFrameBuffer)
      ensures latestFrame == old(latestFrame) && frameReady == old(frameReady)
    {
      if !isCameraOpen || !isConfigured {
        return false;
      }
      if isCapturing {
        return true;
      }
      if !cameraStarted {
        if startRc != 0 {
          return false;
        }
        cameraStarted := true;
      }
      isCapturing := true;
      ok := true;
    }

    method StopContinuousCapture() returns (ok: bool)
      requires Valid()
      modifies this
      ensures Valid() && (Flags(), ok) == CameraCapture.StopContinuousCapture(old(Flags()))
      ensures frameBuffer == old(frameBuffer) && maxFrameBuffer == old(maxFrameBuffer)
      ensures latestFrame == old(latestFrame) && frameReady == old(frameReady)
    {
      isCapturing := false;
      if cameraStarted {
        cameraStarted := false;
      }
      ok := true;
    }

    /** The 100 ms settling sleep and the freeing of requests and buffers
        are not modelled. */
    method SwitchStream(s: StreamType, stopRc: int, res: ConfigResult, startRc: int) returns (ok: bool)
      requires Valid() && (s != activeStream ==> cameraAttached)
      modifies this
      ensures Valid() && (Flags(), ok) == CameraCapture.SwitchStream(old(Flags()), s, stopRc, res, startRc)
      ensures frameBuffer == old(frameBuffer) && maxFrameBuffer == old(maxFrameBuffer)
      ensures latestFrame == old(latestFrame) && frameReady == old(frameReady)
    {
      if activeStream == s {
        return true;
      }
      var wasCapturing := isCapturing;
      if wasCapturing {
        isCapturing := false;
      }
      if cameraStarted {
        if stopRc != 0 {
          return false;
        }
        cameraStarted := false;
      }
      activeStream := s;
      ok := ReconfigureForActiveStream(res);
      if !ok {
        return false;
      }
      if wasCapturing {
        ok := StartContinuousCapture(startRc);
        return;
      }
      ok := true;
    }

    /** `addFrameToBuffer`: push, then pop the oldest while over the bound. */
    method AddFrameToBuffer(f: F)
      modifies this
      ensures frameBuffer == Buffered(old(frameBuffer), f, maxFrameBuffer)
      ensures QueueOnly()
    {
      ghost var pushed := frameBuffer + [f];
      frameBuffer := frameBuffer + [f];
      while |frameBuffer| > maxFrameBuffer
        invariant |frameBuffer| <= |pushed| && frameBuffer == pushed[|pushed| - |frameBuffer|..]
        invariant |frameBuffer| >= maxFrameBuffer || frameBuffer == pushed
        invariant QueueOnly()
        decreases |frameBuffer|
      {
        frameBuffer := frameBuffer[1..];
      }
    }

    /** The routing in `requestComplete` of a completed request whose buffer
        was found: queued when capturing in external-trigger mode, otherwise
        handed to `captureFrame` as the latest frame. */
    method RequestComplete(frame: F)
      modifies this
      ensures if triggerMode == ExternalTrigger && isCapturing
              then frameBuffer == Buffered(old(frameBuffer), frame, maxFrameBuffer)
                   && latestFrame == old(latestFrame) && frameReady == old(frameReady)
              else frameBuffer == old(frameBuffer) && latestFrame == Some(frame) && frameReady
      ensures Flags() == old(Flags()) && maxFrameBuffer == old(maxFrameBuffer)
    {
      if triggerMode == ExternalTrigger && isCapturing {
        AddFrameToBuffer(frame);
      } else {
        latestFrame := Some(frame);
        frameReady := true;
      }
    }

    /** `getLatestFrame`: pops everything and returns the last frame popped. */
    method GetLatestFrame() returns (frame: Option<F>)
      modifies this
      ensures frame == Latest(old(frameBuffer)) && frameBuffer == []
      ensures QueueOnly()
    {
      if frameBuffer == [] {
        return None;
      }
      ghost var queued := frameBuffer;
      var latest := frameBuffer[0];
      while frameBuffer != []
        invariant |frameBuffer| <= |queued| && frameBuffer == queued[|queued| - |frameBuffer|..]
        invariant frameBuffer == [] ==> latest == queued[|queued| - 1]
        invariant QueueOnly()
        decreases |frameBuffer|
      {
        latest := frameBuffer[0];
        frameBuffer := frameBuffer[1..];
      }
      frame := Some(latest);
    }

    /** `getAllAvailableFrames`: pops everything, oldest first. */
    method GetAllAvailableFrames() returns (frames: seq<F>)
      modifies this
      ensures frames == old(frameBuffer) && frameBuffer == []
      ensures QueueOnly()
    {
      frames := [];
      while frameBuffer != []
        invariant frames + frameBuffer == old(frameBuffer)
        invariant QueueOnly()
        decreases |frameBuffer|
      {
        frames := frames + [frameBuffer[0]];
        frameBuffer := frameBuffer[1..];
      }
    }

    function HasFramesAvailable(): (r: bool)
      reads this
      ensures r <==> Latest(frameBuffer).Some?
    {
      !(frameBuffer == [])
    }

    function GetFrameQueueSize(): (n: nat)
      reads this
      ensures n == |frameBuffer|
    {
      |frameBuffer|
    }

    method ClearFrameBuffer()
      modifies this
      ensures frameBuffer == []
      ensures QueueOnly()
    {
      while frameBuffer != []
        invariant QueueOnly()
        decreases |frameBuffer|
      {
        frameBuffer := frameBuffer[1..];
      }
    }

    /** Lowering the bound does not trim the queue; the next arrival does. */
    method SetMaxFrameBuffer(maxFrames: nat)
      modifies this
      ensures maxFrameBuffer == maxFrames
      ensures Flags() == old(Flags()) && frameBuffer == old(frameBuffer)
      ensures latestFrame == old(latestFrame) && frameReady == old(frameReady)
    {
      maxFrameBuffer := maxFrames;
    }
  }
}
