/** The result records the image analyzer returns, and their
    predicates. */
module AnalysisResults {
  import Outcomes
  import opened ImageDomain

  /** The outcome of a teed-ball analysis. The default record has no ball,
      no position and confidence zero. */
  datatype TeedBallResult = TeedBallResult(
    state: BallState,
    position: Outcomes.Option<BallPosition>,
    confidence: real,
    analysisMethod: string,
    debugInfo: seq<string>)
  {
    predicate HasBall() {
      state == Teed || state == Reset
    }

    /** Delegates to the domain function, whose range check it keeps. */
    function GetConfidenceLevel(): (r: Outcomes.Result<ConfidenceLevel>)
      ensures r.Failure? <==> confidence < 0.0 || confidence > 1.0
      ensures r.Success? ==> (r.value.Rank() >= 2 <==> confidence >= 0.5)
    {
      ImageDomain.GetConfidenceLevel(confidence)
    }
  }

  function DefaultTeedBallResult(): (r: TeedBallResult)
    ensures r.state == Absent && r.position.None? && r.confidence == 0.0
    ensures !r.HasBall() && r.GetConfidenceLevel() == Outcomes.Success(VeryLow)
  {
    TeedBallResult(Absent, Outcomes.None, 0.0, "", [])
  }

  /** The outcome of movement detection. */
  datatype MovementResult = MovementResult(
    movementDetected: bool,
    lastKnownPosition: Outcomes.Option<BallPosition>,
    movementConfidence: real,
    movementMagnitude: real,
    analysisMethod: string,
    debugInfo: seq<string>)
  {
    function GetConfidenceLevel(): (r: Outcomes.Result<ConfidenceLevel>)
      ensures r.Failure? <==> movementConfidence < 0.0 || movementConfidence > 1.0
      ensures r.Success? ==> (r.value.Rank() >= 2 <==> movementConfidence >= 0.5)
    {
      ImageDomain.GetConfidenceLevel(movementConfidence)
    }
  }

  datatype Vec3 = Vec3(x: real, y: real, z: real)

  /** The outcome of a strobed-flight analysis. */
  datatype FlightAnalysisResult = FlightAnalysisResult(
    detectedBalls: seq<BallPosition>,
    spinRates: Outcomes.Option<Vec3>,
    velocityVector: Outcomes.Option<Vec3>,
    temporalSpacingUs: real,
    confidence: real,
    analysisMethod: string,
    debugInfo: seq<string>)
  {
    predicate HasMultipleBalls() {
      |detectedBalls| >= 2
    }

    /** Spin and velocity count only with confidence above one half. */
    predicate HasValidSpinData() {
      spinRates.Some? && confidence > 0.5
    }

    predicate HasValidVelocityData() {
      velocityVector.Some? && confidence > 0.5
    }

    function GetConfidenceLevel(): (r: Outcomes.Result<ConfidenceLevel>)
      ensures r.Failure? <==> confidence < 0.0 || confidence > 1.0
      ensures r.Success? ==> (r.value.Rank() >= 2 <==> confidence >= 0.5)
    {
      ImageDomain.GetConfidenceLevel(confidence)
    }
  }

  /** Spin or velocity data that counts as valid always comes with a
      confidence of at least the Medium band. */
  lemma ValidMotionDataIsAtLeastMedium(r: FlightAnalysisResult)
    requires 0.0 <= r.confidence <= 1.0
    requires r.HasValidSpinData() || r.HasValidVelocityData()
    ensures r.GetConfidenceLevel().Success? && r.GetConfidenceLevel().value.Rank() >= 2
    ensures r.GetConfidenceLevel().value != Medium || r.confidence < 0.7
  {
  }

  function DefaultFlightAnalysisResult(): (r: FlightAnalysisResult)
    ensures !r.HasMultipleBalls() && !r.HasValidSpinData() && !r.HasValidVelocityData()
  {
    FlightAnalysisResult([], Outcomes.None, Outcomes.None, 0.0, 0.0, "", [])
  }

  /** The generic success-or-failure wrapper. A failure carries the
      default value of its payload type, here passed in as `empty`. */
  datatype AnalysisResult<T> = AnalysisResult(success: bool, data: T, errorMessage: string, debugInfo: seq<string>)
  {
    static function Success(result: T): (r: AnalysisResult<T>)
      ensures r.IsSuccess() && r.data == result && r.errorMessage == "" && r.debugInfo == []
    {
      AnalysisResult(true, result, "", [])
    }

    static function Failure(error: string, empty: T): (r: AnalysisResult<T>)
      ensures r.IsFailure() && r.data == empty && r.errorMessage == error && r.debugInfo == []
    {
      AnalysisResult(false, empty, error, [])
    }

    predicate IsSuccess() {
      success
    }

    predicate IsFailure() {
      !success
    }
  }
}
