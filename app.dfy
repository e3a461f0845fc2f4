/**
 * The analysis endpoint's pure rules and its sequencing (backend/app.py):
 * merge, forecast, insight, overall risk, recommendations. The HTTP layer is
 * not modelled; an exception inside the pipeline becomes an `Err`, which the
 * endpoint turns into a server error.
 */
module App {
  import opened Wrappers
  import opened RiskTiers
  import Fusion
  import Forecasting
  import GeminiReasoning
  import Breaker

  /** The endpoint's input record; its fields are not range-checked. */
  datatype ManualDataInput = ManualDataInput(
    cctvCount: int,
    terminalCapacity: int,
    flightSchedule: Fusion.FlightReading,
    timestamp: int)

  datatype CurrentMetrics = CurrentMetrics(cctvCount: int, terminalCapacity: int, utilizationRate: real, timestamp: int)

  datatype ForecastResponse = ForecastResponse(
    currentMetrics: CurrentMetrics,
    forecast: seq<Forecasting.ForecastPoint>,
    geminiInsights: GeminiReasoning.Insight,
    riskLevel: string,
    recommendations: seq<string>)

  /** The forecast horizon the endpoint asks for. */
  const DefaultHours: int := 6

  /**
   * The snapshot the merge builds from the endpoint's input: the input's count,
   * timestamp and capacity with the flight record's values (0 when missing),
   * and the utilization, level and density the merge derives from them.
   */
  function MergedInput(data: ManualDataInput): Fusion.Snapshot {
    var capacity := data.terminalCapacity;
    var flights := data.flightSchedule;
    var u := if capacity > 0 then Utilization(data.cctvCount, capacity) else 0.0;
    var arriving := flights.arrivingFlights.GetOr(0);
    var departing := flights.departingFlights.GetOr(0);
    Fusion.Snapshot(data.timestamp, data.cctvCount, capacity, flights.activeFlights.GetOr(0),
                    arriving, departing, u, Fusion.Rated(Classify(u)),
                    if capacity > 0 then (arriving + departing) as real / 2.0 else 0.0)
  }

  /**
   * The overall risk: the four-tier class of the snapshot's count over its
   * capacity. The forecast argument is not consulted; a zero capacity raises.
   */
  function CalculateRiskLevel(current: Fusion.Snapshot, forecast: seq<Forecasting.ForecastPoint>): (r: Result<RiskLevel, Failure>)
    ensures r.Err? <==> current.terminalCapacity == 0
  {
    if current.terminalCapacity == 0 then Err(ZeroDivisionError)
    else Ok(Classify(Utilization(current.cctvCount, current.terminalCapacity)))
  }

  /** The overall risk never depends on the forecast it is given. */
  lemma RiskLevelIgnoresForecast(current: Fusion.Snapshot, f: seq<Forecasting.ForecastPoint>, g: seq<Forecasting.ForecastPoint>)
    ensures CalculateRiskLevel(current, f) == CalculateRiskLevel(current, g)
  {
  }

  /**
   * For a positive capacity the overall risk is the congestion level the merge
   * already derived for the same snapshot.
   */
  lemma RiskLevelAgreesWithMerge(current: Fusion.Snapshot, f: seq<Forecasting.ForecastPoint>)
    requires current.terminalCapacity > 0
    requires current.utilizationRate == Utilization(current.cctvCount, current.terminalCapacity)
    requires current.congestionLevel == Fusion.Rated(Classify(current.utilizationRate))
    ensures CalculateRiskLevel(current, f) == Ok(current.congestionLevel.level)
  {
  }

  /**
   * The fixed, ordered action list for a risk string: four items for
   * CRITICAL, three for HIGH, two for MEDIUM and the single LOW item for any
   * other string. The forecast argument is not consulted.
   */
  function GenerateRecommendations(riskLevel: string, forecast: seq<Forecasting.ForecastPoint>): (r: seq<string>)
    ensures riskLevel == "CRITICAL" ==> |r| == 4
    ensures riskLevel == "HIGH" ==> |r| == 3
    ensures riskLevel == "MEDIUM" ==> |r| == 2
    ensures riskLevel != "CRITICAL" && riskLevel != "HIGH" && riskLevel != "MEDIUM" ==>
      r == ["Normal operations - continue monitoring"]
  {
    if riskLevel == "CRITICAL" then
      ["Immediately activate overflow protocols",
       "Deploy additional security personnel",
       "Consider flight gate reassignments",
       "Implement crowd control measures"]
    else if riskLevel == "HIGH" then
      ["Alert staff to prepare for increased passenger flow",
       "Monitor queues closely at security checkpoints",
       "Prepare backup resources"]
    else if riskLevel == "MEDIUM" then
      ["Continue standard monitoring procedures",
       "Be prepared to scale up resources if needed"]
    else
      ["Normal operations - continue monitoring"]
  }

  /** A tier's list has one item more than the tier's rank. */
  lemma RecommendationCountByTier(level: RiskLevel, f: seq<Forecasting.ForecastPoint>)
    ensures |GenerateRecommendations(Name(level), f)| == Rank(level) + 1
  {
    match level
    case Low => assert Name(Low) != "CRITICAL" && Name(Low) != "HIGH" && Name(Low) != "MEDIUM";
    case Medium =>
    case High =>
    case Critical =>
  }

  /**
   * A more severe tier never gets fewer actions, and a LOW tier gets the same
   * list as any unrecognised string.
   */
  lemma RecommendationsGrowWithRisk(a: RiskLevel, b: RiskLevel, f: seq<Forecasting.ForecastPoint>, other: string)
    requires Rank(a) <= Rank(b)
    requires other != "CRITICAL" && other != "HIGH" && other != "MEDIUM"
    ensures |GenerateRecommendations(Name(a), f)| <= |GenerateRecommendations(Name(b), f)|
    ensures GenerateRecommendations(Name(Low), f) == GenerateRecommendations(other, f)
  {
    RecommendationCountByTier(a, f);
    RecommendationCountByTier(b, f);
    RecommendationCountByTier(Low, f);
  }

  /**
   * The `/analyze` pipeline. The merge gets the input's count and timestamp as
   * the camera record and its capacity as the capacity record; the forecast
   * covers six hours with the given noise samples; the breaker sees the
   * request as `GenerateGeminiInsights` describes. A zero capacity raises in
   * the insight step. Otherwise the response's risk is the four-tier class of
   * the input's utilization and its recommendations are exactly the list for
   * that risk, whichever insight text was produced.
   */
  method AnalyzeCongestion(data: ManualDataInput, cb: Breaker.CircuitBreaker, clientConfigured: bool,
                           noise: seq<real>, outcome: GeminiReasoning.CallOutcome, now: real)
    returns (r: Result<ForecastResponse, Failure>)
    requires |noise| == Forecasting.StepCount(DefaultHours)
    requires cb.Valid()
    modifies cb
    ensures cb.Valid()
    ensures cb.Model() == GeminiReasoning.BreakerAfterRequest(old(cb.Model()), cb.failureThreshold, cb.timeout,
                                                             clientConfigured, data.terminalCapacity, outcome, now)
    ensures r.Err? <==> data.terminalCapacity == 0
    ensures r.Ok? ==>
      var u := Utilization(data.cctvCount, data.terminalCapacity);
      && r.value.riskLevel == Name(Classify(u))
      && r.value.recommendations == GenerateRecommendations(r.value.riskLevel, r.value.forecast)
      && r.value.currentMetrics == CurrentMetrics(data.cctvCount, data.terminalCapacity, u, data.timestamp)
      && |r.value.forecast| == 24
      && (forall i :: 0 <= i < 24 ==> r.value.forecast[i].timestamp == data.timestamp + 15 * i)
    ensures r.Ok? ==> forall i :: 0 <= i < 24 ==>
      r.value.forecast[i] == Forecasting.PointAt(MergedInput(data), i, noise[i])
    ensures r.Ok? && data.terminalCapacity >= 0 ==> forall i :: 0 <= i < 24 ==>
      Forecasting.WellFormed(r.value.forecast[i], data.terminalCapacity)
    ensures r.Ok? && r.value.geminiInsights.ServiceText? <==>
      clientConfigured && Breaker.Attempt(old(cb.Model()), cb.timeout, now).0 &&
      data.terminalCapacity != 0 && GeminiReasoning.Succeeded(outcome)
    ensures r.Ok? && r.value.geminiInsights.ServiceText? ==> r.value.geminiInsights.text == outcome.text
    ensures r.Ok? && r.value.geminiInsights.LocalAnalysis? ==>
      GeminiReasoning.IsFallbackFor(r.value.geminiInsights.report, MergedInput(data), r.value.forecast)
  {
    var cctvData := Fusion.CctvReading(Some(data.cctvCount), Some(data.timestamp));
    var capacityData := Fusion.CapacityReading(Some(data.terminalCapacity));
    // The timestamp key is present, so the merge's clock reading is never used.
    var merged := Fusion.MergeData(cctvData, data.flightSchedule, capacityData, data.timestamp);
    assert merged == MergedInput(data);

    var forecastResult := Forecasting.ForecastCongestion(merged, DefaultHours, noise);

    var insights := GeminiReasoning.GenerateGeminiInsights(cb, clientConfigured, merged, forecastResult, outcome, now);
    if insights.Err? {
      return Err(insights.error);
    }

    var risk := CalculateRiskLevel(merged, forecastResult);
    var riskLevel := Name(risk.value);
    var recommendations := GenerateRecommendations(riskLevel, forecastResult);

    var metrics := CurrentMetrics(data.cctvCount, data.terminalCapacity,
                                  Utilization(data.cctvCount, data.terminalCapacity), data.timestamp);
    r := Ok(ForecastResponse(metrics, forecastResult, insights.value, riskLevel, recommendations));
  }
}
