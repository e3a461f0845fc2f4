/**
 * The insight path of backend/ai/gemini_reasoning.py: the routing that decides
 * between the narrative service and the local rule-based analysis and records
 * each outcome on the shared circuit breaker, the local analysis itself (a
 * five-tier risk scale, a trend over the first and last thirds of the
 * forecast, peak detection at 1.3 times the mean) and the breaker status read.
 *
 * The local analysis is modelled by its tier and branch choices; the wording
 * of the narrative is not.
 */
module GeminiReasoning {
  import opened Wrappers
  import RiskTiers
  import Fusion
  import opened Forecasting
  import opened Breaker

  // ---------------------------------------------------------------------------
  // Trend over the first and last thirds

  function Sum(xs: seq<int>): int {
    if |xs| == 0 then 0 else xs[0] + Sum(xs[1..])
  }

  function Mean(xs: seq<int>): real
    requires |xs| > 0
  {
    Sum(xs) as real / |xs| as real
  }

  /** The predicted counts of a forecast, in order. */
  function Counts(points: seq<ForecastPoint>): (c: seq<int>)
    ensures |c| == |points|
    ensures forall i :: 0 <= i < |c| ==> c[i] == points[i].predictedCount
  {
    seq(|points|, i requires 0 <= i < |points| => points[i].predictedCount)
  }

  /** Leading window: the first `n / 3` counts, or the first count alone when `n < 3`. */
  function EarlyWindow(c: seq<int>): seq<int>
    requires |c| >= 1
  {
    if |c| >= 3 then c[..|c| / 3] else [c[0]]
  }

  /**
   * Trailing window: the slice from `-n // 3`, or the last count alone when
   * `n < 3`. Python's `//` floors; Dafny's `/` with a positive divisor does
   * too, so `-n / 3` is the same start offset.
   */
  function LateWindow(c: seq<int>): seq<int>
    requires |c| >= 1
  {
    if |c| >= 3 then c[|c| + (-|c|) / 3..] else [c[|c| - 1]]
  }

  /**
   * The windows are a non-empty prefix of `n / 3` counts and a non-empty suffix
   * of `ceil(n / 3)` counts, so for `n` not a multiple of 3 the late window is
   * one count longer than the early one.
   */
  lemma WindowShapes(c: seq<int>)
    requires |c| >= 3
    ensures |EarlyWindow(c)| == |c| / 3 >= 1 && EarlyWindow(c) == c[..|c| / 3]
    ensures |LateWindow(c)| == (|c| + 2) / 3 >= 1 && LateWindow(c) == c[|c| - (|c| + 2) / 3..]
  {
    var n := |c|;
    assert n + (-n) / 3 == n - (n + 2) / 3 by {
      var q := (n + 2) / 3;
      assert 3 * q <= n + 2 < 3 * q + 3;
      assert 3 * (-q) <= -n < 3 * (-q) + 3;
    }
  }

  /** The local trend: relative change from the early mean to the late mean, against ±15 per cent. */
  function AnalyzeCongestionTrend(counts: seq<int>): (r: Trend)
    ensures r != Stable ==> |counts| >= 2 && Mean(EarlyWindow(counts)) > 0.0
  {
    if |counts| < 2 then Stable
    else
      var avgEarly := Mean(EarlyWindow(counts));
      var avgLate := Mean(LateWindow(counts));
      var changePct := if avgEarly > 0.0 then (avgLate - avgEarly) / avgEarly * 100.0 else 0.0;
      if changePct > 15.0 then Increasing
      else if changePct < -15.0 then Decreasing
      else Stable
  }

  /**
   * The thirds trend is increasing exactly when there are two counts, the early
   * mean is positive and the late mean exceeds 1.15 times it; decreasing
   * exactly when the late mean is below 0.85 times it.
   */
  lemma AnalyzeCongestionTrendCharacterized(counts: seq<int>)
    ensures AnalyzeCongestionTrend(counts) == Increasing <==>
      |counts| >= 2 && Mean(EarlyWindow(counts)) > 0.0 &&
      Mean(LateWindow(counts)) > Mean(EarlyWindow(counts)) * 1.15
    ensures AnalyzeCongestionTrend(counts) == Decreasing <==>
      |counts| >= 2 && Mean(EarlyWindow(counts)) > 0.0 &&
      Mean(LateWindow(counts)) < Mean(EarlyWindow(counts)) * 0.85
  {
    if |counts| >= 2 && Mean(EarlyWindow(counts)) > 0.0 {
      RelativeChangeThresholds(Mean(EarlyWindow(counts)), Mean(LateWindow(counts)));
    }
  }

  /** Worked cases: a doubling tail rises, a halving tail falls, small wobbles are stable. */
  lemma TrendExamples()
    ensures AnalyzeCongestionTrend([100, 100, 100, 100, 200, 200]) == Increasing
    ensures AnalyzeCongestionTrend([200, 200, 100, 100]) == Decreasing
    ensures AnalyzeCongestionTrend([100, 105, 98, 102]) == Stable
  {
    var a := [100, 100, 100, 100, 200, 200];
    assert EarlyWindow(a) == [100, 100];
    assert LateWindow(a) == [200, 200];
    var b := [200, 200, 100, 100];
    assert EarlyWindow(b) == [200];
    assert LateWindow(b) == [100, 100];
    var c := [100, 105, 98, 102];
    assert EarlyWindow(c) == [100];
    assert LateWindow(c) == [98, 102];
  }

  // ---------------------------------------------------------------------------
  // Peak detection

  /** The peak threshold: 1.3 times the mean predicted count. */
  function PeakThreshold(points: seq<ForecastPoint>): real
    requires |points| > 0
  {
    Mean(Counts(points)) * 1.3
  }

  /** Positions of the points whose predicted count is above `threshold`, in input order. */
  function PeakIndices(points: seq<ForecastPoint>, threshold: real): seq<int>
    decreases |points|
  {
    if |points| == 0 then []
    else
      var n := |points| - 1;
      PeakIndices(points[..n], threshold) +
        (if points[n].predictedCount as real > threshold then [n] else [])
  }

  /**
   * The peak positions are exactly the positions of the points above the
   * threshold, each once and in increasing order.
   */
  lemma {:induction false} PeakIndicesExact(points: seq<ForecastPoint>, threshold: real)
    ensures forall k :: 0 <= k < |PeakIndices(points, threshold)| ==>
      0 <= PeakIndices(points, threshold)[k] < |points| &&
      points[PeakIndices(points, threshold)[k]].predictedCount as real > threshold
    ensures forall k, l :: 0 <= k < l < |PeakIndices(points, threshold)| ==>
      PeakIndices(points, threshold)[k] < PeakIndices(points, threshold)[l]
    ensures forall j :: 0 <= j < |points| && points[j].predictedCount as real > threshold ==>
      j in PeakIndices(points, threshold)
    decreases |points|
  {
    if |points| > 0 {
      var n := |points| - 1;
      var prefix := points[..n];
      PeakIndicesExact(prefix, threshold);
      var prev := PeakIndices(prefix, threshold);
      var r := PeakIndices(points, threshold);
      assert r == prev + (if points[n].predictedCount as real > threshold then [n] else []);
      forall k | 0 <= k < |prev|
        ensures prev[k] < n && points[prev[k]] == prefix[prev[k]]
      {
      }
      forall j | 0 <= j < |points| && points[j].predictedCount as real > threshold
        ensures j in r
      {
        if j < n {
          assert prefix[j] == points[j];
          assert j in prev;
        }
      }
    }
  }

  /** Timestamps of the points above `threshold`, in input order. */
  function PeakTimes(points: seq<ForecastPoint>, threshold: real): seq<int>
    decreases |points|
  {
    if |points| == 0 then []
    else
      var n := |points| - 1;
      PeakTimes(points[..n], threshold) +
        (if points[n].predictedCount as real > threshold then [points[n].timestamp] else [])
  }

  /** The reported timestamps are those of the peak positions, one for one. */
  lemma {:induction false} PeakTimesAtIndices(points: seq<ForecastPoint>, threshold: real)
    ensures |PeakTimes(points, threshold)| == |PeakIndices(points, threshold)|
    ensures forall k :: 0 <= k < |PeakIndices(points, threshold)| ==>
      0 <= PeakIndices(points, threshold)[k] < |points| &&
      PeakTimes(points, threshold)[k] == points[PeakIndices(points, threshold)[k]].timestamp
    decreases |points|
  {
    if |points| > 0 {
      var n := |points| - 1;
      PeakTimesAtIndices(points[..n], threshold);
      PeakIndicesExact(points[..n], threshold);
    }
  }

  /** What the peak detection reports: the first three peak timestamps, none for an empty forecast. */
  function TopPeaks(points: seq<ForecastPoint>): seq<int> {
    if |points| == 0 then []
    else
      var all := PeakTimes(points, PeakThreshold(points));
      if |all| <= 3 then all else all[..3]
  }

  /** The peak scan: collects every peak timestamp in order, then keeps the first three. */
  method IdentifyPeakPeriods(points: seq<ForecastPoint>) returns (peaks: seq<int>)
    ensures peaks == TopPeaks(points)
    ensures |peaks| <= 3
    ensures |points| == 0 ==> peaks == []
  {
    peaks := [];
    if |points| == 0 {
      return;
    }
    var threshold := PeakThreshold(points);
    var i := 0;
    while i < |points|
      invariant 0 <= i <= |points|
      invariant peaks == PeakTimes(points[..i], threshold)
    {
      assert points[..i + 1][..i] == points[..i];
      if points[i].predictedCount as real > threshold {
        peaks := peaks + [points[i].timestamp];
      }
      i := i + 1;
    }
    assert points[..|points|] == points;
    if |peaks| > 3 {
      peaks := peaks[..3];
    }
  }

  /** Sum of a constant sequence. */
  lemma {:induction false} SumConstant(xs: seq<int>, c: int)
    requires forall i :: 0 <= i < |xs| ==> xs[i] == c
    ensures Sum(xs) == |xs| * c
  {
    if |xs| > 0 {
      SumConstant(xs[1..], c);
    }
  }

  /** The mean of a constant sequence is that constant. */
  lemma MeanConstant(xs: seq<int>, c: int)
    requires |xs| > 0
    requires forall i :: 0 <= i < |xs| ==> xs[i] == c
    ensures Mean(xs) == c as real
  {
    SumConstant(xs, c);
    var n := |xs| as real;
    assert Sum(xs) as real == n * c as real;
    assert n * c as real / n == c as real;
  }

  /** No point above the threshold means no peak positions. */
  lemma {:induction false} NoPeaksBelowThreshold(points: seq<ForecastPoint>, threshold: real)
    requires forall i :: 0 <= i < |points| ==> points[i].predictedCount as real <= threshold
    ensures PeakIndices(points, threshold) == [] && PeakTimes(points, threshold) == []
    decreases |points|
  {
    if |points| > 0 {
      NoPeaksBelowThreshold(points[..|points| - 1], threshold);
    }
  }

  /** A constant non-negative forecast has no peaks: no count exceeds 1.3 times itself. */
  lemma ConstantForecastHasNoPeaks(points: seq<ForecastPoint>, c: int)
    requires |points| > 0 && c >= 0
    requires forall i :: 0 <= i < |points| ==> points[i].predictedCount == c
    ensures PeakIndices(points, PeakThreshold(points)) == []
    ensures TopPeaks(points) == []
  {
    MeanConstant(Counts(points), c);
    NoPeaksBelowThreshold(points, PeakThreshold(points));
  }

  /** Worked case: counts 10, 10, 10, 50, 10, 10 have mean about 16.7 and exactly one peak, the 50. */
  lemma PeakExample(points: seq<ForecastPoint>)
    requires |points| == 6
    requires Counts(points) == [10, 10, 10, 50, 10, 10]
    ensures PeakIndices(points, PeakThreshold(points)) == [3]
    ensures TopPeaks(points) == [points[3].timestamp]
  {
    var threshold := PeakThreshold(points);
    var c := Counts(points);
    assert c[5..] == [10] && c[4..] == [10, 10] && c[3..] == [50, 10, 10];
    assert c[2..] == [10, 50, 10, 10] && c[1..] == [10, 10, 50, 10, 10];
    assert Sum(c[5..]) == 10;
    assert Sum(c[4..]) == 10 + Sum(c[4..][1..]) == 20 by { assert c[4..][1..] == c[5..]; }
    assert Sum(c[3..]) == 50 + Sum(c[3..][1..]) == 70 by { assert c[3..][1..] == c[4..]; }
    assert Sum(c[2..]) == 10 + Sum(c[2..][1..]) == 80 by { assert c[2..][1..] == c[3..]; }
    assert Sum(c[1..]) == 10 + Sum(c[1..][1..]) == 90 by { assert c[1..][1..] == c[2..]; }
    assert Sum(c) == 100;
    assert threshold == 100.0 / 6.0 * 1.3;
    assert 10.0 < threshold < 50.0;
    forall j | 0 <= j < 6 ensures points[j].predictedCount == c[j] { }
    assert PeakIndices(points[..1], threshold) == [] by { assert points[..1][..0] == []; }
    assert PeakIndices(points[..2], threshold) == [] by { assert points[..2][..1] == points[..1]; }
    assert PeakIndices(points[..3], threshold) == [] by { assert points[..3][..2] == points[..2]; }
    assert PeakIndices(points[..4], threshold) == [3] by { assert points[..4][..3] == points[..3]; }
    assert PeakIndices(points[..5], threshold) == [3] by { assert points[..5][..4] == points[..4]; }
    assert PeakIndices(points[..6], threshold) == [3] by { assert points[..6][..5] == points[..5]; }
    assert points[..6] == points;
    PeakTimesAtIndices(points, threshold);
    var idx := PeakIndices(points, threshold);
    assert idx == [3];
  }

  // ---------------------------------------------------------------------------
  // The local rule-based analysis

  /** The fallback's own five-tier scale. */
  datatype FallbackTier = Low | Moderate | Elevated | Severe | Critical

  function FallbackRank(t: FallbackTier): nat {
    match t
    case Low => 0
    case Moderate => 1
    case Elevated => 2
    case Severe => 3
    case Critical => 4
  }

  /** Five tiers with strict thresholds at 95, 85, 70 and 50 per cent. */
  function FallbackRiskLevel(utilization: real): (r: FallbackTier)
    ensures r == Critical <==> utilization > 95.0
    ensures r == Severe <==> 85.0 < utilization <= 95.0
    ensures r == Elevated <==> 70.0 < utilization <= 85.0
    ensures r == Moderate <==> 50.0 < utilization <= 70.0
    ensures r == Low <==> utilization <= 50.0
  {
    if utilization > 95.0 then Critical
    else if utilization > 85.0 then Severe
    else if utilization > 70.0 then Elevated
    else if utilization > 50.0 then Moderate
    else Low
  }

  /** Higher utilization never yields a lower fallback tier. */
  lemma FallbackRiskMonotone(u: real, v: real)
    requires u <= v
    ensures FallbackRank(FallbackRiskLevel(u)) <= FallbackRank(FallbackRiskLevel(v))
  {
  }

  /**
   * How the two scales relate. They agree on LOW (at most 50 per cent), and the
   * fallback's CRITICAL implies the endpoint's CRITICAL; elsewhere they cut
   * differently, so 92 per cent is CRITICAL on the endpoint's scale but SEVERE
   * on the fallback's, and 72 per cent is MEDIUM against ELEVATED.
   */
  lemma RiskScalesCompared(u: real)
    ensures FallbackRiskLevel(u) == Low <==> RiskTiers.Classify(u) == RiskTiers.Low
    ensures FallbackRiskLevel(u) == Critical ==> RiskTiers.Classify(u) == RiskTiers.Critical
    ensures FallbackRiskLevel(u) == Moderate ==> RiskTiers.Classify(u) == RiskTiers.Medium
    ensures RiskTiers.Classify(92.0) == RiskTiers.Critical && FallbackRiskLevel(92.0) == Severe
    ensures RiskTiers.Classify(72.0) == RiskTiers.Medium && FallbackRiskLevel(72.0) == Elevated
  {
  }

  /** The risk-factor lines, each with the figure it quotes. */
  datatype RiskFactor =
    | CapacityUtilization(utilization: real)
    | UpwardTrend
    | PeakPeriods(count: nat)
    | HighFlightActivity(activeFlights: int)

  /** The three blocks of the immediate-actions and resource-allocation sections. */
  datatype Posture = Surge | Reinforced | Standard

  /** The two blocks of the short-term section. */
  datatype ShortTermPlan = PrepareForPeaks | RoutineOptimization

  /** The tier and branch choices the local narrative is built from. */
  datatype FallbackReport = FallbackReport(
    utilization: real,
    risk: FallbackTier,
    trend: Trend,
    peaks: seq<int>,
    riskFactors: seq<RiskFactor>,
    immediateActions: Posture,
    shortTerm: ShortTermPlan,
    reinforcementWindows: seq<int>,
    resourceAllocation: Posture,
    dataPoints: nat)

  /** The block chosen for immediate actions and for resource allocation: above 85, above 70, else. */
  function PostureFor(utilization: real): Posture {
    if utilization > 85.0 then Surge
    else if utilization > 70.0 then Reinforced
    else Standard
  }

  /**
   * The action blocks follow the five-tier scale: the surge block exactly for
   * SEVERE and CRITICAL, the reinforced block exactly for ELEVATED.
   */
  lemma PostureFollowsFallbackTier(u: real)
    ensures PostureFor(u) == Surge <==> FallbackRiskLevel(u) in {Severe, Critical}
    ensures PostureFor(u) == Reinforced <==> FallbackRiskLevel(u) == Elevated
    ensures PostureFor(u) == Standard <==> FallbackRiskLevel(u) in {Moderate, Low}
  {
  }

  /** The risk-factor lines, in the order they are listed. */
  function RiskFactorsFor(utilization: real, trend: Trend, peakCount: nat, activeFlights: int): seq<RiskFactor> {
    var f0: seq<RiskFactor> := [];
    var f1 := if utilization > 80.0 then f0 + [CapacityUtilization(utilization)] else f0;
    var f2 := if trend == Increasing then f1 + [UpwardTrend] else f1;
    var f3 := if peakCount > 0 then f2 + [PeakPeriods(peakCount)] else f2;
    if activeFlights > 20 then f3 + [HighFlightActivity(activeFlights)] else f3
  }

  /**
   * Each risk factor is listed exactly when its condition holds: utilization
   * above 80, an increasing trend, at least one peak, more than 20 active
   * flights; so there are at most four, one per condition.
   */
  lemma RiskFactorsListed(utilization: real, trend: Trend, peakCount: nat, activeFlights: int)
    ensures var f := RiskFactorsFor(utilization, trend, peakCount, activeFlights);
      && (CapacityUtilization(utilization) in f <==> utilization > 80.0)
      && (UpwardTrend in f <==> trend == Increasing)
      && (PeakPeriods(peakCount) in f <==> peakCount > 0)
      && (HighFlightActivity(activeFlights) in f <==> activeFlights > 20)
      && |f| == (if utilization > 80.0 then 1 else 0) + (if trend == Increasing then 1 else 0) +
                (if peakCount > 0 then 1 else 0) + (if activeFlights > 20 then 1 else 0)
      && |f| <= 4
  {
  }

  /** What a local analysis of `current` and `forecast` consists of. */
  ghost predicate IsFallbackFor(report: FallbackReport, current: Fusion.Snapshot, forecast: seq<ForecastPoint>)
    requires current.terminalCapacity != 0
  {
    var u := RiskTiers.Utilization(current.cctvCount, current.terminalCapacity);
    var trend := AnalyzeCongestionTrend(Counts(forecast));
    var peaks := TopPeaks(forecast);
    && report.utilization == u
    && report.risk == FallbackRiskLevel(u)
    && report.trend == trend
    && report.peaks == peaks
    && report.riskFactors == RiskFactorsFor(u, trend, |peaks|, current.activeFlights)
    && report.immediateActions == PostureFor(u)
    && report.shortTerm == (if trend == Increasing || u > 70.0 then PrepareForPeaks else RoutineOptimization)
    && report.reinforcementWindows == (if |peaks| <= 2 then peaks else peaks[..2])
    && report.resourceAllocation == PostureFor(u)
    && report.dataPoints == |forecast|
  }

  /**
   * The local analysis. It divides by the snapshot's capacity, so a zero
   * capacity raises; otherwise the report is a function of its inputs alone.
   */
  method GenerateFallbackInsights(current: Fusion.Snapshot, forecast: seq<ForecastPoint>)
    returns (r: Result<FallbackReport, RiskTiers.Failure>)
    ensures r.Err? <==> current.terminalCapacity == 0
    ensures r.Ok? ==> IsFallbackFor(r.value, current, forecast)
    ensures r.Ok? ==> |r.value.peaks| <= 3 && |r.value.reinforcementWindows| <= 2 && |r.value.riskFactors| <= 4
  {
    if current.terminalCapacity == 0 {
      return Err(RiskTiers.ZeroDivisionError);
    }
    var utilization := RiskTiers.Utilization(current.cctvCount, current.terminalCapacity);
    var trend := AnalyzeCongestionTrend(Counts(forecast));
    var peaks := IdentifyPeakPeriods(forecast);
    var risk := FallbackRiskLevel(utilization);

    var factors: seq<RiskFactor> := [];
    if utilization > 80.0 {
      factors := factors + [CapacityUtilization(utilization)];
    }
    if trend == Increasing {
      factors := factors + [UpwardTrend];
    }
    if |peaks| > 0 {
      factors := factors + [PeakPeriods(|peaks|)];
    }
    if current.activeFlights > 20 {
      factors := factors + [HighFlightActivity(current.activeFlights)];
    }

    var immediate := PostureFor(utilization);
    var shortTerm := if trend == Increasing || utilization > 70.0 then PrepareForPeaks else RoutineOptimization;
    var windows := if |peaks| <= 2 then peaks else peaks[..2];
    var resources := PostureFor(utilization);

    r := Ok(FallbackReport(utilization, risk, trend, peaks, factors, immediate, shortTerm, windows, resources, |forecast|));
  }

  // ---------------------------------------------------------------------------
  // Routing between the narrative service and the local analysis

  /** What the narrative service call came back with: text (possibly empty) or a raised error. */
  datatype CallOutcome = Responded(text: string) | Raised(message: string)

  /** The insight text handed back to the endpoint. */
  datatype Insight = ServiceText(text: string) | LocalAnalysis(report: FallbackReport)

  /** The local analysis as the insight, or the error it raised. */
  function AsInsight(local: Result<FallbackReport, RiskTiers.Failure>): Result<Insight, RiskTiers.Failure> {
    match local
    case Ok(report) => Ok(LocalAnalysis(report))
    case Err(e) => Err(e)
  }

  /** True when the service answered with non-empty text. */
  predicate Succeeded(outcome: CallOutcome) {
    outcome.Responded? && |outcome.text| > 0
  }

  /**
   * The breaker after one insight request: untouched without a configured
   * client; after the attempt check only, when that refuses; otherwise the
   * attempt check followed by exactly one recorded outcome. With a zero
   * capacity the prompt's own utilization raises before the service is
   * called, and that counts as a failure.
   */
  function BreakerAfterRequest(b: BreakerState, threshold: int, timeout: real, clientConfigured: bool,
                               capacity: int, outcome: CallOutcome, now: real): (r: BreakerState)
    requires b.state == Open ==> b.lastFailureTime.Some?
    ensures !clientConfigured ==> r == b
    ensures clientConfigured && !Attempt(b, timeout, now).0 ==> r == b
    ensures clientConfigured && Attempt(b, timeout, now).0 && capacity != 0 && Succeeded(outcome) ==>
      r.failureCount == 0 && r.state == Closed && r.lastFailureTime == b.lastFailureTime
    ensures clientConfigured && Attempt(b, timeout, now).0 && !(capacity != 0 && Succeeded(outcome)) ==>
      && r.failureCount == b.failureCount + 1 && r.lastFailureTime == Some(now)
      && r.state == (if b.failureCount + 1 >= threshold then Open else Attempt(b, timeout, now).1.state)
  {
    if !clientConfigured then b
    else
      var (allowed, probed) := Attempt(b, timeout, now);
      if !allowed then probed
      else if capacity != 0 && Succeeded(outcome) then AfterSuccess(probed)
      else AfterFailure(probed, threshold, now)
  }

  /**
   * One request records at most one outcome: the failure count moves by at
   * most one, and a success is recorded only for non-empty text; every raised
   * error, whatever its message, is recorded the same way.
   */
  lemma AtMostOneOutcomeRecorded(b: BreakerState, threshold: int, timeout: real, clientConfigured: bool,
                                 capacity: int, outcome: CallOutcome, now: real)
    requires Inv(b, threshold)
    ensures var after := BreakerAfterRequest(b, threshold, timeout, clientConfigured, capacity, outcome, now);
      && Inv(after, threshold)
      && (after.failureCount == b.failureCount || after.failureCount == b.failureCount + 1 ||
          (after.failureCount == 0 && after.state == Closed && Succeeded(outcome)))
    ensures clientConfigured && Attempt(b, timeout, now).0 && !(capacity != 0 && Succeeded(outcome)) &&
            b.state != Closed ==>
      BreakerAfterRequest(b, threshold, timeout, clientConfigured, capacity, outcome, now).state == Open
    ensures outcome.Raised? ==> forall m ::
      BreakerAfterRequest(b, threshold, timeout, clientConfigured, capacity, Raised(m), now) ==
      BreakerAfterRequest(b, threshold, timeout, clientConfigured, capacity, outcome, now)
  {
    TransitionsPreserveInv(b, threshold, timeout, now);
    if clientConfigured {
      TransitionsPreserveInv(Attempt(b, timeout, now).1, threshold, timeout, now);
    }
  }

  /**
   * Asks for insights: without a configured client, or when the breaker
   * refuses, the local analysis is used straight away and nothing is recorded.
   * Otherwise non-empty text is recorded as a success and returned; empty
   * text or a raised error is recorded as one failure and the local analysis
   * is used. `now` is the clock for both the attempt check and the failure.
   */
  method GenerateGeminiInsights(cb: CircuitBreaker, clientConfigured: bool, current: Fusion.Snapshot,
                                forecast: seq<ForecastPoint>, outcome: CallOutcome, now: real)
    returns (r: Result<Insight, RiskTiers.Failure>)
    requires cb.Valid()
    modifies cb
    ensures cb.Valid()
    ensures cb.Model() == BreakerAfterRequest(old(cb.Model()), cb.failureThreshold, cb.timeout,
                                              clientConfigured, current.terminalCapacity, outcome, now)
    ensures r.Err? <==> current.terminalCapacity == 0
    ensures r.Ok? && r.value.ServiceText? <==>
      clientConfigured && Attempt(old(cb.Model()), cb.timeout, now).0 &&
      current.terminalCapacity != 0 && Succeeded(outcome)
    ensures r.Ok? && r.value.ServiceText? ==> r.value.text == outcome.text
    ensures r.Ok? && r.value.LocalAnalysis? ==> IsFallbackFor(r.value.report, current, forecast)
  {
    var allowed := false;
    if clientConfigured {
      allowed := cb.CanAttempt(now);
    }
    if !allowed {
      var local := GenerateFallbackInsights(current, forecast);
      r := AsInsight(local);
      return;
    }
    if current.terminalCapacity == 0 {
      // The prompt's utilization divides by the capacity inside the guarded block.
      cb.CallFailed(now);
      var local := GenerateFallbackInsights(current, forecast);
      r := AsInsight(local);
      return;
    }
    match outcome {
      case Responded(text) =>
        if |text| > 0 {
          cb.CallSucceeded();
          r := Ok(ServiceText(text));
          return;
        }
        cb.CallFailed(now);
      case Raised(_) =>
        cb.CallFailed(now);
    }
    var local := GenerateFallbackInsights(current, forecast);
    r := AsInsight(local);
  }

  // ---------------------------------------------------------------------------
  // Breaker status

  datatype BreakerStatus = BreakerStatus(state: State, failureCount: int, lastFailureTime: Option<real>, canAttempt: bool)

  /**
   * The status read: state, count and failure time are read before the
   * attempt check runs, so a status can report OPEN together with
   * `canAttempt` true while the breaker has just moved to HALF_OPEN.
   */
  method GetCircuitBreakerStatus(cb: CircuitBreaker, now: real) returns (status: BreakerStatus)
    requires cb.Valid()
    modifies cb
    ensures cb.Valid()
    ensures status.state == old(cb.state)
    ensures status.failureCount == old(cb.failureCount)
    ensures status.lastFailureTime == old(cb.lastFailureTime)
    ensures (status.canAttempt, cb.Model()) == Attempt(old(cb.Model()), cb.timeout, now)
    ensures status.state == Open && status.canAttempt ==> cb.state == HalfOpen
  {
    var state := cb.GetState();
    var failureCount := cb.failureCount;
    var lastFailureTime := cb.lastFailureTime;
    var canAttempt := cb.CanAttempt(now);
    status := BreakerStatus(state, failureCount, lastFailureTime, canAttempt);
  }
}
