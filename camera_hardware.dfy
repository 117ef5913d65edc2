/** The simulated camera of the camera-hardware class: the canned image
    sequence `getNextFrame` plays back, the resets before a photo or video,
    and the resolution chosen for each camera model. Images are modelled by
    their index in the canned sequence. */
module SimulatedCamera {
  import opened Outcomes

  /** Indices into the canned sequence. */
  const StationaryBall0: nat := 0
  const PreHitCloseBall: nat := 2
  const PostHitBallGone: nat := 3
  const NumStationaryImages: nat := 2
  const NumStaticImagesToSend: nat := 14

  datatype TestVideoState = ImagesLoaded | TakingInitialStaticFrames | FirstMovementFrame | BallGoneFrames | VideoStateMax

  datatype Sim = Sim(state: TestVideoState, staticImagesSent: int, currentStaticImageIndex: int)

  /** A freshly built object, and the state both prepare calls reset to. */
  function Fresh(): (s: Sim)
    ensures s.state == ImagesLoaded && s.staticImagesSent == 0 && s.currentStaticImageIndex == 0
  {
    Sim(ImagesLoaded, 0, 0)
  }

  /** One `getNextFrame` call: the new state and the index of the image
      returned (None for the empty image of an unknown state). */
  function NextFrame(s: Sim): (r: (Sim, Option<nat>))
    ensures r.1.None? <==> s.state == VideoStateMax
    ensures r.1.Some? ==> r.1.value <= PostHitBallGone
    ensures s.state == BallGoneFrames ==> r == (s, Some(PostHitBallGone))
    ensures s.state == TakingInitialStaticFrames && s.currentStaticImageIndex >= 0 ==>
              r.1 == Some((s.currentStaticImageIndex + 1) % 2)
              && (r.0.state == FirstMovementFrame <==> s.staticImagesSent >= NumStaticImagesToSend)
  {
    match s.state
      case ImagesLoaded =>
        (Sim(TakingInitialStaticFrames, 0, 0), Some(StationaryBall0))
      case TakingInitialStaticFrames =>
        var sent := s.staticImagesSent + 1;
        var next := if sent > NumStaticImagesToSend then FirstMovementFrame else TakingInitialStaticFrames;
        var index := (s.currentStaticImageIndex + 1) % NumStationaryImages;
        (Sim(next, sent, index), Some(StationaryBall0 + index))
      case FirstMovementFrame =>
        (s.(state := BallGoneFrames), Some(PreHitCloseBall))
      case BallGoneFrames =>
        (s, Some(PostHitBallGone))
      case VideoStateMax =>
        (s, None)
  }

  /** The images returned by n calls in a row. */
  function Run(s: Sim, n: nat): (r: seq<Option<nat>>)
    ensures |r| == n
    decreases n
  {
    if n == 0 then [] else [NextFrame(s).1] + Run(NextFrame(s).0, n - 1)
  }

  /** The image index the i-th call after a reset returns: sixteen static
      frames alternating 0 and 1, one pre-hit frame, then the ball-gone
      frame for ever. */
  function Expected(i: nat): nat {
    if i < 16 then i % 2 else if i == 16 then PreHitCloseBall else PostHitBallGone
  }

  /** The state after i calls from a reset. */
  ghost function After(i: nat): Sim {
    if i == 0 then Fresh()
    else if i <= 16 then
      Sim(if i - 1 <= NumStaticImagesToSend then TakingInitialStaticFrames else FirstMovementFrame, i - 1, (i - 1) % 2)
    else Sim(BallGoneFrames, 15, 1)
  }

  lemma AfterStep(i: nat)
    ensures NextFrame(After(i)) == (After(i + 1), Some(Expected(i)))
  {
  }

  lemma {:induction false} RunFrom(i: nat, n: nat)
    ensures forall k :: 0 <= k < n ==> Run(After(i), n)[k] == Some(Expected(i + k))
    decreases n
  {
    if n > 0 {
      AfterStep(i);
      RunFrom(i + 1, n - 1);
      var r := Run(After(i), n);
      assert r == [Some(Expected(i))] + Run(After(i + 1), n - 1);
      forall k | 0 <= k < n
        ensures r[k] == Some(Expected(i + k))
      {
        if k > 0 {
          assert r[k] == Run(After(i + 1), n - 1)[k - 1];
        }
      }
    }
  }

  /** After a reset the playback is: sixteen static frames, the pre-hit
      frame, then the ball-gone frame on every later call. */
  lemma SimulatedSequence(n: nat)
    ensures forall k :: 0 <= k < n ==> Run(Fresh(), n)[k] == Some(Expected(k))
  {
    assert After(0) == Fresh();
    RunFrom(0, n);
  }

  datatype CameraModel = PiCam13 | PiCam2 | PiHQCam6mmWideLens | PiGSCam6mmWideLens | PiGSCam3_6mmLens | InnoMakerIMX296GS3_6mmM12Lens | UnknownModel

  predicate IsGlobalShutter(m: CameraModel) {
    m == PiGSCam6mmWideLens || m == InnoMakerIMX296GS3_6mmM12Lens || m == PiGSCam3_6mmLens
  }

  datatype Resolution = Resolution(x: int, y: int, videoX: int, videoY: int)

  /** The resolution part of `init_camera_parameters`: the global-shutter,
      HQ and v2 models take the override pair when both overrides are
      positive and their own default otherwise; the v1.3 and unknown models
      have a fixed size. */
  function ResolutionFor(m: CameraModel, overrideX: int, overrideY: int): (r: Resolution)
    ensures IsGlobalShutter(m) ==>
              (overrideX > 0 && overrideY > 0 ==> r.x == overrideX && r.y == overrideY)
              && (!(overrideX > 0 && overrideY > 0) ==> r.x == 1456 && r.y == 1088)
              && r.videoX == r.x && r.videoY == 1080
    ensures !IsGlobalShutter(m) ==> r.videoX == r.x && r.videoY == r.y
    ensures (m == PiHQCam6mmWideLens || m == PiCam2) && overrideX > 0 && overrideY > 0 ==>
              r.x == overrideX && r.y == overrideY
    ensures m == PiCam13 ==> r == Resolution(2592, 1944, 2592, 1944)
    ensures m == UnknownModel ==> r == Resolution(1024, 768, 1024, 768)
    ensures r.x > 0 && r.y > 0
  {
    var overridden := overrideX > 0 && overrideY > 0;
    if IsGlobalShutter(m) then
      var (x, y) := if overridden then (overrideX, overrideY) else (1456, 1088);
      Resolution(x, y, x, 1080)
    else if m == PiHQCam6mmWideLens then
      var (x, y) := if overridden then (overrideX, overrideY) else (4056, 3040);
      Resolution(x, y, x, y)
    else if m == PiCam2 then
      var (x, y) := if overridden then (overrideX, overrideY) else (3280, 2464);
      Resolution(x, y, x, y)
    else if m == PiCam13 then
      Resolution(2592, 1944, 2592, 1944)
    else
      Resolution(1024, 768, 1024, 768)
  }

  /** The camera-hardware object as far as the simulation goes. */
  class CameraHardware {
    var testVideoState: TestVideoState
    var staticImagesSent: int
    var currentStaticImageIndex: int
    var cameraReady: bool
    var cameraInitialized: bool
    var resolutionX: int
    var resolutionY: int
    var videoResolutionX: int
    var videoResolutionY: int

    ghost function SimState(): Sim
      reads this
    {
      Sim(testVideoState, staticImagesSent, currentStaticImageIndex)
    }

    /** The constructor runs `init_camera_parameters`; the overrides are the
        class-wide override pair (-1 when unset). */
    constructor(m: CameraModel, overrideX: int, overrideY: int)
      ensures SimState() == Fresh() && !cameraReady && cameraInitialized
      ensures Resolution(resolutionX, resolutionY, videoResolutionX, videoResolutionY) == ResolutionFor(m, overrideX, overrideY)
    {
      testVideoState := ImagesLoaded;
      staticImagesSent, currentStaticImageIndex := 0, 0;
      cameraReady := false;
      new;
      InitCameraParameters(m, overrideX, overrideY);
    }

    method InitCameraParameters(m: CameraModel, overrideX: int, overrideY: int)
      modifies this
      ensures Resolution(resolutionX, resolutionY, videoResolutionX, videoResolutionY) == ResolutionFor(m, overrideX, overrideY)
      ensures cameraInitialized
      ensures SimState() == old(SimState()) && cameraReady == old(cameraReady)
    {
      var overridden := overrideX > 0 && overrideY > 0;
      if IsGlobalShutter(m) {
        if overridden {
          resolutionX, resolutionY := overrideX, overrideY;
        } else {
          resolutionX, resolutionY := 1456, 1088;
        }
        videoResolutionX, videoResolutionY := resolutionX, 1080;
      } else if m == PiHQCam6mmWideLens {
        if overridden {
          resolutionX, resolutionY := overrideX, overrideY;
        } else {
          resolutionX, resolutionY := 4056, 3040;
        }
        videoResolutionX, videoResolutionY := resolutionX, resolutionY;
      } else if m == PiCam2 {
        if overridden {
          resolutionX, resolutionY := overrideX, overrideY;
        } else {
          resolutionX, resolutionY := 3280, 2464;
        }
        videoResolutionX, videoResolutionY := resolutionX, resolutionY;
      } else if m == PiCam13 {
        resolutionX, resolutionY := 2592, 1944;
        videoResolutionX, videoResolutionY := resolutionX, resolutionY;
      } else {
        resolutionX, resolutionY := 1024, 768;
        videoResolutionX, videoResolutionY := resolutionX, resolutionY;
      }
      cameraInitialized := true;
    }

    method GetNextFrame() returns (image: Option<nat>)
      modifies this
      ensures (SimState(), image) == NextFrame(old(SimState()))
      ensures cameraReady == old(cameraReady) && cameraInitialized == old(cameraInitialized)
      ensures resolutionX == old(resolutionX) && resolutionY == old(resolutionY)
      ensures videoResolutionX == old(videoResolutionX) && videoResolutionY == old(videoResolutionY)
    {
      match testVideoState {
        case ImagesLoaded =>
          currentStaticImageIndex := 0;
          staticImagesSent := 0;
          testVideoState := TakingInitialStaticFrames;
          image := Some(StationaryBall0);
        case TakingInitialStaticFrames =>
          staticImagesSent := staticImagesSent + 1;
          if staticImagesSent > NumStaticImagesToSend {
            testVideoState := FirstMovementFrame;
          }
          currentStaticImageIndex := currentStaticImageIndex + 1;
          currentStaticImageIndex := currentStaticImageIndex % NumStationaryImages;
          image := Some(StationaryBall0 + currentStaticImageIndex);
        case FirstMovementFrame =>
          testVideoState := BallGoneFrames;
          image := Some(PreHitCloseBall);
        case BallGoneFrames =>
          testVideoState := BallGoneFrames;
          image := Some(PostHitBallGone);
        case VideoStateMax =>
          image := None;
      }
    }

    /** `prepareToTakeVideo` and `prepareToTakePhoto` on the Linux build:
        reset the playback and report success without readying the
        camera. */
    method PrepareToTakeVideo() returns (ok: bool)
      modifies this
      ensures ok && SimState() == Fresh() && cameraReady == old(cameraReady)
      ensures cameraInitialized == old(cameraInitialized)
      ensures resolutionX == old(resolutionX) && resolutionY == old(resolutionY)
      ensures videoResolutionX == old(videoResolutionX) && videoResolutionY == old(videoResolutionY)
    {
      staticImagesSent := 0;
      testVideoState := ImagesLoaded;
      currentStaticImageIndex := 0;
      ok := true;
    }

    method PrepareToTakePhoto() returns (ok: bool)
      modifies this
      ensures ok && SimState() == Fresh() && cameraReady == old(cameraReady)
      ensures cameraInitialized == old(cameraInitialized)
      ensures resolutionX == old(resolutionX) && resolutionY == old(resolutionY)
      ensures videoResolutionX == old(videoResolutionX) && videoResolutionY == old(videoResolutionY)
    {
      staticImagesSent := 0;
      testVideoState := ImagesLoaded;
      currentStaticImageIndex := 0;
      ok := true;
    }

    /** `take_photo` on the Linux build: an empty image whether or not the
        camera is ready, since the capture code there is commented out. */
    method TakePhoto() returns (image: Option<nat>)
      ensures image == None
    {
      if !cameraReady {
        return None;
      }
      image := None;
    }
  }
}
