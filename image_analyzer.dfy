/** The OpenCV-based image analyzer, with the circles the Hough transform
    finds given as input: their scoring into candidates, candidate
    selection, the Hough and radius settings, and the assembly of the
    teed-ball, reset and flight results. */
module ImageAnalyzer {
  import opened Outcomes
  import opened ImageDomain
  import opened AnalysisResults

  const DefaultHoughParam1: real := 100.0
  const DefaultHoughParam2: real := 30.0
  const DefaultHoughDp: real := 1.0
  const DefaultMinRadius: int := 10
  const DefaultMaxRadius: int := 100
  const ResetDistanceThreshold: real := 100.0
  const TemporalSpacingUs: real := 5000.0

  /** A circle as the Hough transform reports it: centre and radius. */
  datatype HoughCircle = HoughCircle(x: real, y: real, radius: real)

  /** The candidate built from a circle, before its confidence is scored. */
  function Unscored(c: HoughCircle): BallPosition {
    BallPosition(c.x, c.y, c.radius, 0.0, 0, "opencv_hough")
  }

  /** What a candidate is ranked by: its confidence, or, when a position is
      expected, nearness to it (the negated squared distance). */
  function Score(c: BallPosition, expected: Option<BallPosition>): real {
    match expected
      case None => c.confidence
      case Some(e) => -DistanceSquared(c, e)
  }

  /** The index of the first candidate of highest score. */
  function BestIndex(cs: seq<BallPosition>, expected: Option<BallPosition>): (i: nat)
    requires cs != []
    ensures i < |cs|
    ensures forall j :: 0 <= j < |cs| ==> Score(cs[j], expected) <= Score(cs[i], expected)
    ensures forall j :: 0 <= j < i ==> Score(cs[j], expected) < Score(cs[i], expected)
    decreases |cs|
  {
    if |cs| == 1 then 0
    else
      var front := cs[..|cs| - 1];
      var k := BestIndex(front, expected);
      assert forall j :: 0 <= j < |front| ==> front[j] == cs[j];
      if Score(cs[|cs| - 1], expected) > Score(cs[k], expected) then |cs| - 1 else k
  }

  /** Scanning one more candidate: it replaces the best so far only when it
      scores strictly higher. */
  lemma BestIndexExtend(cs: seq<BallPosition>, expected: Option<BallPosition>, i: nat)
    requires 0 < i < |cs|
    ensures var k := BestIndex(cs[..i], expected);
            BestIndex(cs[..i + 1], expected)
            == if Score(cs[i], expected) > Score(cs[k], expected) then i else k
  {
    assert cs[..i + 1][..i] == cs[..i];
  }

  /** The filtering loop of `AnalyzeBallFlight`. */
  method KeepConfident(circles: seq<BallPosition>) returns (kept: seq<BallPosition>)
    ensures kept == Confident(circles)
  {
    kept := [];
    for i := 0 to |circles|
      invariant kept == Confident(circles[..i])
    {
      assert circles[..i + 1][..i] == circles[..i];
      if circles[i].confidence >= 0.3 {
        kept := kept + [circles[i]];
      }
    }
    assert circles[..|circles|] == circles;
  }

  /** The first highest-scoring candidate is the only index with both
      properties, so the selection is determined by them. */
  lemma BestIndexUnique(cs: seq<BallPosition>, expected: Option<BallPosition>, i: nat)
    requires cs != [] && i < |cs|
    requires forall j :: 0 <= j < |cs| ==> Score(cs[j], expected) <= Score(cs[i], expected)
    requires forall j :: 0 <= j < i ==> Score(cs[j], expected) < Score(cs[i], expected)
    ensures i == BestIndex(cs, expected)
  {
    var k := BestIndex(cs, expected);
    assert !(i < k) && !(k < i);
  }

  /** The candidates the flight analysis keeps: confidence at least 0.3,
      in their original order. */
  function Confident(cs: seq<BallPosition>): (r: seq<BallPosition>)
    ensures |r| <= |cs|
    ensures forall c :: c in r ==> c in cs && c.confidence >= 0.3
    ensures forall c :: c in cs && c.confidence >= 0.3 ==> c in r
    ensures multiset(r) <= multiset(cs)
    decreases |cs|
  {
    if cs == [] then []
    else
      var front := cs[..|cs| - 1];
      var last := cs[|cs| - 1];
      assert cs == front + [last];
      Confident(front) + (if last.confidence >= 0.3 then [last] else [])
  }

  predicate SortedByX(s: seq<BallPosition>) {
    forall a, b :: 0 <= a < b < |s| ==> s[a].x <= s[b].x
  }

  predicate FullyInside(p: BallPosition, image: ImageData) {
    !(p.x - p.radius < 0.0 || p.x + p.radius >= image.cols as real
      || p.y - p.radius < 0.0 || p.y + p.radius >= image.rows as real)
  }

  /** Within a tenth of the smaller image side from an edge. */
  predicate NearEdge(p: BallPosition, image: ImageData) {
    var margin := (if image.cols < image.rows then image.cols else image.rows) as real * 0.1;
    p.x < margin || p.x > image.cols as real - margin || p.y < margin || p.y > image.rows as real - margin
  }

  function Clamp01(v: real): (r: real)
    ensures 0.0 <= r <= 1.0
    ensures 0.0 <= v <= 1.0 ==> r == v
  {
    if v > 1.0 then 1.0 else if v < 0.0 then 0.0 else v
  }

  /** `CreateErrorResult`: no ball, confidence zero, the message as the only
      debug line. */
  function CreateErrorResult(message: string): (r: TeedBallResult)
    ensures !r.HasBall() && r.position.None? && r.confidence == 0.0
    ensures r.analysisMethod == "opencv_error" && r.debugInfo == [message]
  {
    TeedBallResult(Absent, None, 0.0, "opencv_error", [message])
  }

  function CreateFlightErrorResult(message: string): (r: FlightAnalysisResult)
    ensures r.detectedBalls == [] && r.confidence == 0.0
    ensures !r.HasMultipleBalls() && !r.HasValidVelocityData() && !r.HasValidSpinData()
    ensures r.analysisMethod == "opencv_error" && r.debugInfo == [message]
  {
    FlightAnalysisResult([], None, None, 0.0, 0.0, "opencv_error", [message])
  }

  /** `IsValidBallPosition`: the centre lies in the image and the position
      is a valid detection. */
  function IsValidBallPosition(p: BallPosition, image: ImageData): (r: bool)
    ensures r ==> p.IsValid() && !image.Empty()
    ensures r <==> 0.0 <= p.x < image.cols as real && 0.0 <= p.y < image.rows as real && p.IsValid()
  {
    p.x >= 0.0 && p.x < image.cols as real && p.y >= 0.0 && p.y < image.rows as real
    && p.radius > 0.0 && p.confidence > 0.0
  }

  function NatToString(n: nat): (s: string)
    ensures |s| >= 1
  {
    var digit := ["0", "1", "2", "3", "4", "5", "6", "7", "8", "9"][n % 10];
    if n < 10 then digit else NatToString(n / 10) + digit
  }

  /** Puts `c` after every element of x at most its own. */
  method InsertByX(t: seq<BallPosition>, c: BallPosition) returns (u: seq<BallPosition>)
    requires SortedByX(t)
    ensures SortedByX(u) && multiset(u) == multiset(t) + multiset{c}
  {
    var j := 0;
    while j < |t| && t[j].x <= c.x
      invariant 0 <= j <= |t|
      invariant forall k :: 0 <= k < j ==> t[k].x <= c.x
    {
      j := j + 1;
    }
    assert forall k :: j <= k < |t| ==> c.x < t[k].x by {
      if j < |t| {
        forall k | j <= k < |t|
          ensures c.x < t[k].x
        {
          assert t[j].x <= t[k].x || j == k;
        }
      }
    }
    InsertKeepsSorted(t, c, j);
    u := t[..j] + [c] + t[j..];
    calc {
      multiset(u);
      multiset(t[..j]) + multiset{c} + multiset(t[j..]);
      { assert t == t[..j] + t[j..]; }
      multiset(t) + multiset{c};
    }
  }

  /** Putting `c` between the elements at most it and those above it keeps
      the order. */
  lemma InsertKeepsSorted(t: seq<BallPosition>, c: BallPosition, j: nat)
    requires SortedByX(t) && j <= |t|
    requires forall k :: 0 <= k < j ==> t[k].x <= c.x
    requires forall k :: j <= k < |t| ==> c.x < t[k].x
    ensures SortedByX(t[..j] + [c] + t[j..])
  {
    var u := t[..j] + [c] + t[j..];
    assert forall i :: 0 <= i < |u| ==> u[i] == if i < j then t[i] else if i == j then c else t[i - 1];
  }

  /** Sorts by x, ascending; the order of equal x values is not fixed, as
      with the unstable library sort it stands for. */
  method SortByX(s: seq<BallPosition>) returns (t: seq<BallPosition>)
    ensures SortedByX(t) && multiset(t) == multiset(s)
  {
    t := [];
    for i := 0 to |s|
      invariant SortedByX(t) && multiset(t) == multiset(s[..i])
    {
      t := InsertByX(t, s[i]);
      assert s[..i + 1] == s[..i] + [s[i]];
    }
    assert s[..|s|] == s;
  }

  /** A quotient of something below a positive divisor is below one. */
  lemma RatioBelowOne(a: real, b: real)
    requires 0.0 < b && a < b
    ensures a / b < 1.0
  {
    assert (a / b) * b == a;
  }

  class OpenCVImageAnalyzer {
    var houghParam1: real
    var houghParam2: real
    var houghDp: real
    var minRadius: int
    var maxRadius: int

    /** The settings stay positive and the radius window non-empty. */
    ghost predicate Valid()
      reads this
    {
      houghParam1 > 0.0 && houghParam2 > 0.0 && houghDp > 0.0 && 0 < minRadius < maxRadius
    }

    constructor()
      ensures Valid()
      ensures houghParam1 == DefaultHoughParam1 && houghParam2 == DefaultHoughParam2 && houghDp == DefaultHoughDp
      ensures minRadius == DefaultMinRadius && maxRadius == DefaultMaxRadius
    {
      houghParam1, houghParam2, houghDp := DefaultHoughParam1, DefaultHoughParam2, DefaultHoughDp;
      minRadius, maxRadius := DefaultMinRadius, DefaultMaxRadius;
    }

    /** Any non-positive argument is refused and nothing changes. */
    method SetHoughParameters(param1: real, param2: real, dp: real := 1.0)
      requires Valid()
      modifies this
      ensures Valid()
      ensures if param1 <= 0.0 || param2 <= 0.0 || dp <= 0.0
              then houghParam1 == old(houghParam1) && houghParam2 == old(houghParam2) && houghDp == old(houghDp)
              else houghParam1 == param1 && houghParam2 == param2 && houghDp == dp
      ensures minRadius == old(minRadius) && maxRadius == old(maxRadius)
    {
      if param1 <= 0.0 || param2 <= 0.0 || dp <= 0.0 {
        return;
      }
      houghParam1 := param1;
      houghParam2 := param2;
      houghDp := dp;
    }

    /** A non-positive limit or an empty window is refused and nothing
        changes. */
    method SetRadiusLimits(minR: int, maxR: int)
      requires Valid()
      modifies this
      ensures Valid()
      ensures if minR <= 0 || maxR <= 0 || minR >= maxR
              then minRadius == old(minRadius) && maxRadius == old(maxRadius)
              else minRadius == minR && maxRadius == maxR
      ensures houghParam1 == old(houghParam1) && houghParam2 == old(houghParam2) && houghDp == old(houghDp)
    {
      if minR <= 0 || maxR <= 0 || minR >= maxR {
        return;
      }
      minRadius := minR;
      maxRadius := maxR;
    }

    /** `CalculateConfidence`: zero for an empty image, 0.1 for a circle not
        fully inside it, otherwise 0.8 scaled down for a radius outside the
        window and for nearness to an edge; never more than 0.8 for a
        circle inside the image. */
    function CalculateConfidence(p: BallPosition, image: ImageData): (c: real)
      reads this
      requires Valid()
      ensures 0.0 <= c <= 1.0
      ensures image.Empty() ==> c == 0.0
      ensures !image.Empty() && !FullyInside(p, image) ==> c == 0.1
      ensures !image.Empty() && FullyInside(p, image) ==> c <= 0.8
      ensures (!image.Empty() && FullyInside(p, image) && minRadius as real <= p.radius <= maxRadius as real
               && !NearEdge(p, image)) ==> c == 0.8
    {
      if image.Empty() then 0.0
      else if !FullyInside(p, image) then 0.1
      else
        var radiusConfidence :=
          if p.radius < minRadius as real then RatioBelowOne(p.radius, minRadius as real); p.radius / minRadius as real
          else if p.radius > maxRadius as real then RatioBelowOne(maxRadius as real, p.radius); maxRadius as real / p.radius
          else 1.0;
        var edgeConfidence := if NearEdge(p, image) then 0.8 else 1.0;
        Clamp01(radiusConfidence * edgeConfidence * 0.8)
    }

    /** The candidate for one circle, scored against the image. */
    function Detected(c: HoughCircle, image: ImageData): (p: BallPosition)
      reads this
      requires Valid()
      ensures p.x == c.x && p.y == c.y && p.radius == c.radius && p.detectionMethod == "opencv_hough"
      ensures p.confidence == CalculateConfidence(Unscored(c), image)
    {
      Unscored(c).(confidence := CalculateConfidence(Unscored(c), image))
    }

    /** The candidates for the circles, in the detector's order; none
        scores above 0.8. */
    function ScoredAll(found: seq<HoughCircle>, image: ImageData): (ps: seq<BallPosition>)
      reads this
      requires Valid()
      ensures |ps| == |found|
      ensures forall i :: 0 <= i < |ps| ==> ps[i] == Detected(found[i], image)
      ensures forall i :: 0 <= i < |ps| ==> 0.0 <= ps[i].confidence <= 0.8
    {
      if found == [] then []
      else ScoredAll(found[..|found| - 1], image) + [Detected(found[|found| - 1], image)]
    }

    /** `DetectCircles` after the Hough transform: one candidate per circle,
        its confidence given by `CalculateConfidence`. Preprocessing keeps
        the image's size, so the circles are scored against it. */
    method DetectCircles(image: ImageData, found: seq<HoughCircle>) returns (positions: seq<BallPosition>)
      requires Valid()
      ensures positions == ScoredAll(found, image)
    {
      positions := [];
      for i := 0 to |found|
        invariant positions == ScoredAll(found[..i], image)
      {
        assert found[..i + 1][..i] == found[..i];
        var position := Unscored(found[i]);
        position := position.(confidence := CalculateConfidence(position, image));
        positions := positions + [position];
      }
      assert found[..|found|] == found;
    }

    /** `SelectBestCandidate`: the default position for no candidates,
        otherwise the first candidate of highest confidence, or, when a
        position is expected, the first one nearest to it. */
    method SelectBestCandidate(cs: seq<BallPosition>, expected: Option<BallPosition>) returns (best: BallPosition)
      ensures cs == [] ==> best == DefaultBallPosition()
      ensures cs != [] ==> best == cs[BestIndex(cs, expected)]
    {
      if cs == [] {
        return DefaultBallPosition();
      }
      if expected.Some? {
        best := NearestCandidate(cs, expected.value);
      } else {
        best := MostConfidentCandidate(cs);
      }
    }

    /** The scan with an expected position: the first candidate at the least
        distance from it. */
    method NearestCandidate(cs: seq<BallPosition>, e: BallPosition) returns (best: BallPosition)
      requires cs != []
      ensures best == cs[BestIndex(cs, Some(e))]
    {
      best := cs[0];
      ghost var k := 0;
      var minDistance := DistanceSquared(best, e);
      for i := 0 to |cs|
        invariant k < |cs| && best == cs[k] && minDistance == DistanceSquared(best, e)
        invariant i == 0 ==> k == 0
        invariant i > 0 ==> k == BestIndex(cs[..i], Some(e))
      {
        if i > 0 {
          BestIndexExtend(cs, Some(e), i);
        }
        var distance := DistanceSquared(cs[i], e);
        if distance < minDistance {
          best := cs[i];
          minDistance := distance;
          k := i;
        }
      }
      assert cs[..|cs|] == cs;
    }

    /** The scan without one: the first candidate of highest confidence. */
    method MostConfidentCandidate(cs: seq<BallPosition>) returns (best: BallPosition)
      requires cs != []
      ensures best == cs[BestIndex(cs, None)]
    {
      best := cs[0];
      ghost var k := 0;
      for i := 0 to |cs|
        invariant k < |cs| && best == cs[k]
        invariant i == 0 ==> k == 0
        invariant i > 0 ==> k == BestIndex(cs[..i], None)
      {
        if i > 0 {
          BestIndexExtend(cs, None, i);
        }
        if cs[i].confidence > best.confidence {
          best := cs[i];
          k := i;
        }
      }
      assert cs[..|cs|] == cs;
    }

    /** `AnalyzeTeedBall`, given the circles the Hough transform found: an
        invalid image gives the error result; no circles give no ball;
        otherwise the selected candidate is reported, teed when its
        confidence is at least one half, which is never above 0.8. */
    method AnalyzeTeedBall(image: ImageBuffer, expected: Option<BallPosition>, found: seq<HoughCircle>) returns (r: TeedBallResult)
      requires Valid()
      ensures !image.IsValid() ==> r == CreateErrorResult("Invalid image buffer")
      ensures image.IsValid() && found == [] ==>
                r.state == Absent && r.position.None? && r.confidence == 0.0
      ensures image.IsValid() && found != [] ==>
                var circles := ScoredAll(found, image.data);
                var b := circles[BestIndex(circles, expected)];
                r.position == Some(b) && r.confidence == b.confidence
                && (r.state == Teed <==> b.confidence >= 0.5) && (r.state == Absent <==> b.confidence < 0.5)
      ensures r.HasBall() ==> r.confidence >= 0.5
      ensures 0.0 <= r.confidence <= 0.8
    {
      if !image.IsValid() {
        return CreateErrorResult("Invalid image buffer");
      }
      var circles := DetectCircles(image.data, found);
      if circles == [] {
        return TeedBallResult(Absent, None, 0.0, "opencv_hough_circles", ["No circles detected"]);
      }
      var best := SelectBestCandidate(circles, expected);
      var state := if best.confidence >= 0.5 then Teed else Absent;
      r := TeedBallResult(state, Some(best), best.confidence, "opencv_hough_circles",
                          ["Detected " + NatToString(|circles|) + " circles"]);
    }

    /** `DetectBallReset`: the teed-ball analysis without an expected
        position, marked as a reset when the selected circle lies more than
        100 pixels from the previous position, whatever its confidence. */
    method DetectBallReset(image: ImageBuffer, previous: BallPosition, found: seq<HoughCircle>) returns (r: TeedBallResult)
      requires Valid()
      ensures r.analysisMethod == "opencv_reset_detection"
      ensures var circles := ScoredAll(found, image.data);
              r.state == Reset <==>
                image.IsValid() && circles != []
                && DistanceSquared(circles[BestIndex(circles, None)], previous) > ResetDistanceThreshold * ResetDistanceThreshold
      ensures var circles := ScoredAll(found, image.data);
              r.state != Reset ==>
                (r.state == Teed <==> image.IsValid() && circles != [] && circles[BestIndex(circles, None)].confidence >= 0.5)
      ensures var circles := ScoredAll(found, image.data);
              image.IsValid() && circles != [] ==> r.position == Some(circles[BestIndex(circles, None)])
      ensures 0.0 <= r.confidence <= 0.8
    {
      r := AnalyzeTeedBall(image, None, found);
      if r.position.Some? {
        var distance := DistanceSquared(r.position.value, previous);
        if distance > ResetDistanceThreshold * ResetDistanceThreshold {
          r := r.(state := Reset, debugInfo := r.debugInfo + ["Ball position significantly changed - possible reset"]);
        }
      }
      r := r.(analysisMethod := "opencv_reset_detection");
    }

    /** `AnalyzeBallFlight`, given the circles the Hough transform found:
        the candidates of confidence at least 0.3, sorted by x; with two or more,
        confidence 0.8 and a velocity from the first to the last. */
    method AnalyzeBallFlight(image: ImageBuffer, reference: BallPosition, found: seq<HoughCircle>) returns (r: FlightAnalysisResult)
      requires Valid()
      ensures !image.IsValid() ==> r == CreateFlightErrorResult("Invalid strobed image")
      ensures var kept := Confident(ScoredAll(found, image.data));
              image.IsValid() ==> SortedByX(r.detectedBalls) && multiset(r.detectedBalls) == multiset(kept)
      ensures var kept := Confident(ScoredAll(found, image.data));
              image.IsValid() ==>
                (r.confidence == 0.8 <==> |kept| >= 2) && (|kept| < 2 ==> r.confidence == 0.0 && r.velocityVector.None?)
      ensures r.HasValidVelocityData() <==> image.IsValid() && r.HasMultipleBalls()
      ensures r.spinRates.None?
    {
      if !image.IsValid() {
        return CreateFlightErrorResult("Invalid strobed image");
      }
      var circles := DetectCircles(image.data, found);
      var kept := KeepConfident(circles);
      var sorted := SortByX(kept);
      assert |sorted| == |kept| by {
        assert |multiset(sorted)| == |multiset(kept)|;
      }
      r := FlightAnalysisResult(sorted, None, None, 0.0, 0.0, "opencv_multi_ball_detection", []);
      if |sorted| >= 2 {
        var spacing := TemporalSpacingUs;
        var first := sorted[0];
        var last := sorted[|sorted| - 1];
        var dx := last.x - first.x;
        var dy := last.y - first.y;
        var dt := spacing * (|sorted| - 1) as real;
        r := r.(confidence := 0.8, temporalSpacingUs := spacing);
        if dt > 0.0 {
          var velocityX := (dx / dt) * 1000000.0 * 0.001;
          var velocityY := (dy / dt) * 1000000.0 * 0.001;
          r := r.(velocityVector := Some(Vec3(velocityX, velocityY, 0.0)));
        }
      }
    }
  }

  /** A circle scored by the analyzer is never rated very-high: inside the
      image it scores at most 0.8, otherwise 0.1 or 0. */
  lemma DetectedCircleNeverVeryHigh(a: OpenCVImageAnalyzer, p: BallPosition, image: ImageData)
    requires a.Valid()
    ensures GetConfidenceLevel(a.CalculateConfidence(p, image)).value != VeryHigh
  {
  }
}
