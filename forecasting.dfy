/**
 * Forecast engine: projects the snapshot's passenger count over the coming
 * hours in 15-minute steps, with an hour-of-day trend regime perturbed by
 * injected noise, and summarises a forecast's direction
 * (backend/forecasting/arima.py).
 */
module Forecasting {
  import opened RiskTiers
  import opened Fusion

  /** Direction of change over a forecast window. */
  datatype Trend = Stable | Increasing | Decreasing

  /** One forecast point; `lower` and `upper` are the confidence band. */
  datatype ForecastPoint = ForecastPoint(
    timestamp: int,
    predictedCount: int,
    utilizationRate: real,
    riskLevel: RiskLevel,
    lower: int,
    upper: int)

  const StepMinutes: int := 15
  const MinutesPerDay: int := 1440

  /** Number of points for a horizon of `hours`: four per hour, none for a non-positive horizon. */
  function StepCount(hours: int): nat {
    if hours > 0 then 4 * hours else 0
  }

  /** Hour of the day of a timestamp counted in minutes from a midnight. */
  function HourOf(t: int): (h: int)
    ensures 0 <= h < 24
  {
    (t % MinutesPerDay) / 60
  }

  /** The regime's trend multiplier before noise; all bounds are inclusive. */
  function RegimeBase(hour: int): (r: real)
    ensures r == 1.3 <==> 6 <= hour <= 9
    ensures r == 1.4 <==> 16 <= hour <= 19
    ensures r == 0.5 <==> hour >= 22 || hour <= 5
    ensures r == 1.0 <==> (9 < hour < 16 || 19 < hour < 22)
  {
    if 6 <= hour <= 9 then 1.3
    else if 16 <= hour <= 19 then 1.4
    else if hour >= 22 || hour <= 5 then 0.5
    else 1.0
  }

  /** Python's `int(x)` on a real: truncation toward zero. */
  function Truncate(x: real): (r: int)
    ensures x >= 0.0 ==> 0 <= r && r as real <= x < r as real + 1.0
    ensures x < 0.0 ==> r <= 0 && x <= r as real < x + 1.0
  {
    if x >= 0.0 then x.Floor else -((-x).Floor)
  }

  /** `max(0, min(v, capacity))`. */
  function Clamp(v: int, capacity: int): int {
    if v < capacity then (if v < 0 then 0 else v)
    else (if capacity < 0 then 0 else capacity)
  }

  /** Predicted count for a trend multiplier: truncated, then clamped into `[0, capacity]`. */
  function PredictedCount(baseCount: int, capacity: int, trend: real): (r: int)
    ensures r >= 0
    ensures capacity >= 0 ==> r <= capacity
    ensures capacity < 0 ==> r == 0
    ensures 0 <= Truncate(baseCount as real * trend) <= capacity ==> r == Truncate(baseCount as real * trend)
    ensures 0 <= capacity < Truncate(baseCount as real * trend) ==> r == capacity
    ensures Truncate(baseCount as real * trend) < 0 ==> r == 0
  {
    Clamp(Truncate(baseCount as real * trend), capacity)
  }

  /** Utilization of a predicted count; 0 when the capacity is not positive. */
  function PointUtilization(predicted: int, capacity: int): real {
    if capacity > 0 then Utilization(predicted, capacity) else 0.0
  }

  /** Half-width of the confidence band: `int(predicted * 0.15)`. */
  function BandHalfWidth(predicted: int): (w: int)
    requires predicted >= 0
    ensures 0 <= w <= predicted
    ensures w as real <= predicted as real * 0.15 < w as real + 1.0
  {
    Truncate(predicted as real * 0.15)
  }

  /** The `i`-th point of the forecast of `current` given that step's noise sample. */
  function PointAt(current: Snapshot, i: int, noise: real): ForecastPoint {
    var t := current.timestamp + StepMinutes * i;
    var p := PredictedCount(current.cctvCount, current.terminalCapacity, RegimeBase(HourOf(t)) + noise);
    var u := PointUtilization(p, current.terminalCapacity);
    var w := BandHalfWidth(p);
    ForecastPoint(t, p, u, Classify(u),
                  if p - w < 0 then 0 else p - w,
                  if current.terminalCapacity < p + w then current.terminalCapacity else p + w)
  }

  /** What every point promises when the capacity is non-negative. */
  predicate WellFormed(pt: ForecastPoint, capacity: int) {
    && 0 <= pt.lower <= pt.predictedCount <= pt.upper <= capacity
    && 0.0 <= pt.utilizationRate <= 100.0
    && pt.riskLevel == Classify(pt.utilizationRate)
  }

  /**
   * With a non-negative capacity the predicted count lies in `[0, capacity]`,
   * the band encloses it within the same bounds, and the utilization is a
   * percentage whose tier is the point's risk.
   */
  lemma PointAtWellFormed(current: Snapshot, i: int, noise: real)
    requires current.terminalCapacity >= 0
    ensures WellFormed(PointAt(current, i, noise), current.terminalCapacity)
  {
    var pt := PointAt(current, i, noise);
    if current.terminalCapacity > 0 {
      UtilizationBounds(pt.predictedCount, current.terminalCapacity);
    }
  }

  /** A negative capacity forces every prediction to 0 and leaves the band's upper end below its lower end. */
  lemma NegativeCapacityInvertsBand(current: Snapshot, i: int, noise: real)
    requires current.terminalCapacity < 0
    ensures PointAt(current, i, noise).predictedCount == 0
    ensures PointAt(current, i, noise).upper == current.terminalCapacity < PointAt(current, i, noise).lower
  {
  }

  /**
   * The forecast loop: one point per 15-minute step from the snapshot's own
   * timestamp, each from the hour's regime multiplier plus that step's noise.
   */
  method ForecastCongestion(current: Snapshot, hours: int, noise: seq<real>)
    returns (points: seq<ForecastPoint>)
    requires |noise| == StepCount(hours)
    ensures |points| == StepCount(hours)
    ensures forall i :: 0 <= i < |points| ==> points[i] == PointAt(current, i, noise[i])
    ensures forall i :: 0 <= i < |points| ==> points[i].timestamp == current.timestamp + StepMinutes * i
    ensures forall i, j :: 0 <= i < j < |points| ==> points[i].timestamp < points[j].timestamp
    ensures current.terminalCapacity >= 0 ==>
      forall i :: 0 <= i < |points| ==> WellFormed(points[i], current.terminalCapacity)
  {
    var capacity := current.terminalCapacity;
    points := [];
    var i := 0;
    while i < StepCount(hours)
      invariant 0 <= i <= StepCount(hours)
      invariant |points| == i
      invariant forall k :: 0 <= k < i ==> points[k] == PointAt(current, k, noise[k])
      invariant capacity >= 0 ==> forall k :: 0 <= k < i ==> WellFormed(points[k], capacity)
    {
      var point := PointAt(current, i, noise[i]);
      if capacity >= 0 {
        PointAtWellFormed(current, i, noise[i]);
      }
      points := points + [point];
      i := i + 1;
    }
  }

  /**
   * A relative change of more than 15 per cent up (or down) from a positive
   * reference is the same as exceeding 1.15 (or falling below 0.85) times it.
   */
  lemma RelativeChangeThresholds(reference: real, value: real)
    requires reference > 0.0
    ensures (value - reference) / reference * 100.0 > 15.0 <==> value > reference * 1.15
    ensures (value - reference) / reference * 100.0 < -15.0 <==> value < reference * 0.85
  {
    var q := (value - reference) / reference;
    assert q * reference == value - reference;
    if q * 100.0 > 15.0 {
      assert q > 0.15;
      assert q * reference > 0.15 * reference;
    }
    if value > reference * 1.15 {
      assert q * reference > 0.15 * reference;
      assert q > 0.15;
    }
    if q * 100.0 < -15.0 {
      assert q < -0.15;
      assert q * reference < -0.15 * reference;
    }
    if value < reference * 0.85 {
      assert q * reference < -0.15 * reference;
      assert q < -0.15;
    }
  }

  /** Overall trend of a forecast: compares only its first and last predicted counts. */
  function CalculateTrend(points: seq<ForecastPoint>): (r: Trend)
    ensures r != Stable ==> |points| >= 2 && points[0].predictedCount > 0
  {
    if |points| < 2 then Stable
    else
      var first := points[0].predictedCount;
      var last := points[|points| - 1].predictedCount;
      var change := if first > 0 then (last - first) as real / first as real * 100.0 else 0.0;
      if change > 15.0 then Increasing
      else if change < -15.0 then Decreasing
      else Stable
  }

  /**
   * The first-versus-last trend in integer terms: increasing exactly when there
   * are two points, the first count is positive and the last exceeds it by more
   * than 15 per cent (20 * last > 23 * first); decreasing exactly when the last
   * is more than 15 per cent below it (20 * last < 17 * first).
   */
  lemma CalculateTrendCharacterized(points: seq<ForecastPoint>)
    ensures CalculateTrend(points) == Increasing <==>
      |points| >= 2 && points[0].predictedCount > 0 &&
      20 * points[|points| - 1].predictedCount > 23 * points[0].predictedCount
    ensures CalculateTrend(points) == Decreasing <==>
      |points| >= 2 && points[0].predictedCount > 0 &&
      20 * points[|points| - 1].predictedCount < 17 * points[0].predictedCount
  {
    if |points| >= 2 && points[0].predictedCount > 0 {
      var first := points[0].predictedCount as real;
      var last := points[|points| - 1].predictedCount as real;
      RelativeChangeThresholds(first, last);
      assert (last - first) == (points[|points| - 1].predictedCount - points[0].predictedCount) as real;
    }
  }
}
