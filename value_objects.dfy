/** The value objects of the image-analysis domain: ball positions, image
    buffers, ball states and confidence levels. Doubles are modelled as
    exact reals, so NaN and infinity do not arise; distances are compared
    through their squares, which order non-negative distances the same
    way. */
module ImageDomain {
  import opened Outcomes

  datatype BallPosition = BallPosition(
    x: real,
    y: real,
    radius: real,
    confidence: real,
    timestamp: int,
    detectionMethod: string)
  {
    /** A detection counts only with positive confidence and radius. */
    predicate IsValid() {
      confidence > 0.0 && radius > 0.0
    }
  }

  /** The default-constructed position: at the origin, radius and
      confidence zero, method "unknown". */
  function DefaultBallPosition(): (p: BallPosition)
    ensures !p.IsValid() && p.confidence == 0.0 && p.radius == 0.0
  {
    BallPosition(0.0, 0.0, 0.0, 0.0, 0, "unknown")
  }

  /** The parameterised constructor: refuses a confidence outside [0, 1]
      and a negative radius. */
  function MakeBallPosition(x: real, y: real, radius: real, confidence: real, timestamp: int, detectionMethod: string): (r: Result<BallPosition>)
    ensures r.Success? <==> 0.0 <= confidence <= 1.0 && radius >= 0.0
    ensures r.Success? ==> r.value == BallPosition(x, y, radius, confidence, timestamp, detectionMethod)
    ensures r.Success? ==> (r.value.IsValid() <==> confidence > 0.0 && radius > 0.0)
  {
    if confidence < 0.0 || confidence > 1.0 then Failure("Confidence must be between 0.0 and 1.0")
    else if radius < 0.0 then Failure("Radius must be non-negative")
    else Success(BallPosition(x, y, radius, confidence, timestamp, detectionMethod))
  }

  function Square(v: real): (s: real)
    ensures s >= 0.0
  {
    if v < 0.0 then
      assert v * v == (-v) * (-v);
      v * v
    else v * v
  }

  /** The square of `DistanceFrom`. */
  function DistanceSquared(a: BallPosition, b: BallPosition): (d: real)
    ensures d >= 0.0
  {
    Square(a.x - b.x) + Square(a.y - b.y)
  }

  /** `IsNearlyEqual`: a negative tolerance is refused; otherwise the
      distance is at most the tolerance. */
  function IsNearlyEqual(a: BallPosition, b: BallPosition, tolerance: real): (r: Result<bool>)
    ensures r.Failure? <==> tolerance < 0.0
    ensures r.Success? ==> (r.value <==> DistanceSquared(a, b) <= tolerance * tolerance)
  {
    if tolerance < 0.0 then Failure("Tolerance must be non-negative")
    else Success(DistanceSquared(a, b) <= tolerance * tolerance)
  }

  lemma SquaresOrdered(s: real, t: real)
    requires 0.0 <= s <= t
    ensures s * s <= t * t
  {
    assert s * s <= s * t;
    assert s * t <= t * t;
  }

  /** Nearly-equal is reflexive and symmetric, and a larger tolerance
      accepts everything a smaller one does. */
  lemma NearlyEqualProperties(a: BallPosition, b: BallPosition, t: real, u: real)
    requires 0.0 <= t <= u
    ensures IsNearlyEqual(a, a, t) == Success(true)
    ensures IsNearlyEqual(a, b, t) == IsNearlyEqual(b, a, t)
    ensures IsNearlyEqual(a, b, t).value ==> IsNearlyEqual(a, b, u).value
  {
    SquaresOrdered(t, u);
    assert Square(b.x - a.x) == Square(a.x - b.x);
    assert Square(b.y - a.y) == Square(a.y - b.y);
    assert Square(a.x - a.x) == 0.0;
  }

  /** Image data, by its dimensions; a matrix with no rows or no columns is
      empty. */
  datatype ImageData = ImageData(rows: nat, cols: nat)
  {
    predicate Empty() {
      rows == 0 || cols == 0
    }
  }

  datatype ImageBuffer = ImageBuffer(data: ImageData, timestamp: int, cameraId: string, metadata: string)
  {
    predicate IsValid() {
      !data.Empty()
    }

    function TimeDifferenceFrom(other: ImageBuffer): (d: int)
      ensures d + other.timestamp == timestamp
    {
      timestamp - other.timestamp
    }
  }

  /** The default-constructed buffer holds no image. */
  function DefaultImageBuffer(): (b: ImageBuffer)
    ensures !b.IsValid()
  {
    ImageBuffer(ImageData(0, 0), 0, "", "")
  }

  /** The buffer constructor: refuses empty data, so every buffer it
      builds is valid. The source's second test, for non-positive
      dimensions, is kept in its place but can never fire here: dimensions
      are `nat`, and a zero dimension is already refused as empty. */
  function MakeImageBuffer(image: ImageData, timestamp: int, cameraId: string, metadata: string): (r: Result<ImageBuffer>)
    ensures r.Success? <==> !image.Empty()
    ensures r.Success? ==> r.value.IsValid() && r.value.data == image && r.value.timestamp == timestamp
  {
    if image.Empty() then Failure("Image data cannot be empty")
    else if image.rows <= 0 || image.cols <= 0 then Failure("Image must have positive dimensions")
    else Success(ImageBuffer(image, timestamp, cameraId, metadata))
  }

  datatype BallState = Absent | Teed | Moving | Reset

  function BallStateToString(s: BallState): (name: string)
    ensures |name| >= 4
  {
    match s
      case Absent => "ABSENT"
      case Teed => "TEED"
      case Moving => "MOVING"
      case Reset => "RESET"
  }

  function BallStateFromString(name: string): Option<BallState> {
    if name == "ABSENT" then Some(Absent)
    else if name == "TEED" then Some(Teed)
    else if name == "MOVING" then Some(Moving)
    else if name == "RESET" then Some(Reset)
    else None
  }

  /** Reading a state's name back gives the state. */
  lemma BallStateNamesRoundTrip(s: BallState)
    ensures BallStateFromString(BallStateToString(s)) == Some(s)
  {
    match s
    case Absent =>
    case Teed =>
    case Moving =>
    case Reset =>
  }

  lemma BallStateNamesDistinct(s: BallState, t: BallState)
    requires s != t
    ensures BallStateToString(s) != BallStateToString(t)
  {
    BallStateNamesRoundTrip(s);
    BallStateNamesRoundTrip(t);
  }

  datatype ConfidenceLevel = VeryLow | Low | Medium | High | VeryHigh
  {
    function Rank(): nat {
      match this
        case VeryLow => 0
        case Low => 1
        case Medium => 2
        case High => 3
        case VeryHigh => 4
    }
  }

  /** `GetConfidenceLevel`: a confidence outside [0, 1] is refused; the
      bands are [0, .3), [.3, .5), [.5, .7), [.7, .9) and [.9, 1]. */
  function GetConfidenceLevel(confidence: real): (r: Result<ConfidenceLevel>)
    ensures r.Failure? <==> confidence < 0.0 || confidence > 1.0
    ensures r.Success? ==>
              (r.value == VeryLow <==> confidence < 0.3)
              && (r.value == Low <==> 0.3 <= confidence < 0.5)
              && (r.value == Medium <==> 0.5 <= confidence < 0.7)
              && (r.value == High <==> 0.7 <= confidence < 0.9)
              && (r.value == VeryHigh <==> 0.9 <= confidence)
  {
    if confidence < 0.0 || confidence > 1.0 then Failure("Confidence must be between 0.0 and 1.0")
    else if confidence < 0.3 then Success(VeryLow)
    else if confidence < 0.5 then Success(Low)
    else if confidence < 0.7 then Success(Medium)
    else if confidence < 0.9 then Success(High)
    else Success(VeryHigh)
  }

  /** A higher confidence never gets a lower level. */
  lemma ConfidenceLevelMonotone(a: real, b: real)
    requires 0.0 <= a <= b <= 1.0
    ensures GetConfidenceLevel(a).value.Rank() <= GetConfidenceLevel(b).value.Rank()
  {
  }

  function ConfidenceLevelToString(level: ConfidenceLevel): (name: string)
    ensures |name| >= 3
  {
    match level
      case VeryLow => "VERY_LOW"
      case Low => "LOW"
      case Medium => "MEDIUM"
      case High => "HIGH"
      case VeryHigh => "VERY_HIGH"
  }

  function ConfidenceLevelFromString(name: string): Option<ConfidenceLevel> {
    if name == "VERY_LOW" then Some(VeryLow)
    else if name == "LOW" then Some(Low)
    else if name == "MEDIUM" then Some(Medium)
    else if name == "HIGH" then Some(High)
    else if name == "VERY_HIGH" then Some(VeryHigh)
    else None
  }

  /** Reading a level's name back gives the level. */
  lemma ConfidenceLevelNamesRoundTrip(s: ConfidenceLevel)
    ensures ConfidenceLevelFromString(ConfidenceLevelToString(s)) == Some(s)
  {
    match s
    case VeryLow =>
    case Low =>
    case Medium =>
    case High =>
    case VeryHigh =>
  }

  lemma ConfidenceLevelNamesDistinct(s: ConfidenceLevel, t: ConfidenceLevel)
    requires s != t
    ensures ConfidenceLevelToString(s) != ConfidenceLevelToString(t)
  {
    ConfidenceLevelNamesRoundTrip(s);
    ConfidenceLevelNamesRoundTrip(t);
  }
}
