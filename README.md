# Airport congestion analysis pipeline — a Dafny model

This project models the backend analysis pipeline of an airport-congestion service:

- **Snapshot merge** (`Fusion`): a camera count reading, a flight-activity reading and a capacity
  reading are folded into one snapshot. Missing keys get defaults. Utilization, a four-tier
  congestion level and a flight density are derived.
- **Forecast engine** (`Forecasting`): `4 × hours` points at 15-minute steps. Each point gets a
  predicted count (truncated, then clamped to `[0, capacity]`), a utilization, a risk tier and a
  ±15 % confidence band. The hour of the day picks a trend regime. The random noise of the source
  is an injected sequence of samples. The first-versus-last trend summary is also modelled.
- **Shared risk classifier** (`RiskTiers`): strict thresholds at 90, 75 and 50 per cent.
- **Circuit breaker** (`Breaker`): the class with fields `failureCount`, `state` and
  `lastFailureTime`, cycling CLOSED → OPEN → HALF_OPEN → CLOSED/OPEN. Its clock is the parameter
  `now`. Its methods are specified by transition functions on a state value. Lemmas about those
  functions cover invariants and runs of calls.
- **Insight routing and local analysis** (`GeminiReasoning`): the routing decides, per request,
  whether the breaker is consulted and which outcome is recorded. The local analysis has a
  five-tier risk scale, a trend over the first and last thirds of the forecast, peak detection at
  1.3 × the mean, and the branch choices of the narrative. The breaker status read is included.
- **Endpoint** (`App`): the overall risk, the recommendation table, and the
  merge → forecast → insight → risk → recommendations sequencing of `/analyze`.
- **Legacy one-step forecast** (`LegacyArima`): load ratio plus 0.03 per inbound flight, capped at 1.

Behaviours of the code that the model keeps:

- The two risk scales stay separate: four tiers in the endpoint, merge and forecast; five tiers in
  the local analysis. `GeminiReasoning.RiskScalesCompared` states where they agree and where they
  differ.
- The two trend rules stay separate. The forecast module compares the first and last counts. The
  local analysis compares the means of the first `⌊n/3⌋` and the last `⌈n/3⌉` counts.
- A capacity of 0 is not rejected by the merge. It makes the insight step raise a division by
  zero, so the endpoint answers with a server error (`Err`). If the breaker had allowed an
  attempt, that error is raised inside the guarded block. It is then recorded as a service failure,
  although the service was never called.
- A negative capacity forces every prediction to 0. The band's upper end is then the negative
  capacity, below its lower end of 0 (`Forecasting.NegativeCapacityInvertsBand`).
- The code does not reject a capacity ≤ 0, truncates rather than rounds the predicted count, and
  its forecast-module trend compares only the first and last counts. The model follows the code.

## Model

| member | source | states |
|---|---|---|
| RiskTiers.Classify | backend/app.py:135-142 | each tier holds exactly on its interval: CRITICAL above 90, HIGH in (75, 90], MEDIUM in (50, 75], LOW at most 50; the same chain is used at backend/fusion/merge.py:39-47 and backend/forecasting/arima.py:50-57 |
| RiskTiers.ClassifyMonotone | backend/app.py:135-142 | higher utilization never gives a lower tier |
| RiskTiers.UtilizationBounds | backend/fusion/merge.py:33-36 | for count ≥ 0 and capacity > 0 the rate is ≥ 0, and it is ≤ 100 exactly when count ≤ capacity |
| Fusion.MergeData | backend/fusion/merge.py:21-54 | defaults count 0, capacity 1000, flights 0, timestamp from the camera record; utilization count/capacity×100 and density (arriving+departing)/2 only for capacity > 0; otherwise 0, 0 and LOW; the UNKNOWN placeholder never survives; the level is the tier of the utilization |
| Fusion.AllPresent | backend/fusion/merge.py:56-67 | the `all(...)` check holds exactly when every required field is a key |
| Fusion.ValidateMergedData | backend/fusion/merge.py:56-67 | the check holds exactly when `timestamp`, `cctv_count`, `terminal_capacity` and `utilization_rate` are all keys |
| Fusion.MergedSnapshotValidates | backend/fusion/merge.py:56-67 | the key set of every snapshot, one key per field, passes the completeness check |
| Fusion.MissingRequiredFieldFails | backend/fusion/merge.py:60-67 | dropping any one of the four required keys fails the check |
| Forecasting.RegimeBase | backend/forecasting/arima.py:29-40 | base 1.3 exactly for hours 6–9, 1.4 exactly for 16–19, 0.5 exactly for ≥ 22 or ≤ 5, 1.0 otherwise, all bounds inclusive |
| Forecasting.Truncate | backend/forecasting/arima.py:43 | `int()` truncates toward zero: the result is within 1 of the real value, on the zero side |
| Forecasting.PredictedCount | backend/forecasting/arima.py:43-44 | the prediction is ≥ 0 and ≤ capacity for capacity ≥ 0, is 0 for a negative capacity, and equals the truncated product when that is already in range |
| Forecasting.BandHalfWidth | backend/forecasting/arima.py:65-66 | the half-width `int(p×0.15)` lies in [0, p] and within 1 below 0.15p |
| Forecasting.PointAtWellFormed | backend/forecasting/arima.py:43-67 | for capacity ≥ 0: 0 ≤ lower ≤ predicted ≤ upper ≤ capacity, utilization in [0, 100], risk is the tier of the unrounded utilization |
| Forecasting.NegativeCapacityInvertsBand | backend/forecasting/arima.py:43-67 | for a negative capacity the prediction is 0 and the band's upper end (the capacity) is below its lower end |
| Forecasting.ForecastCongestion | backend/forecasting/arima.py:5-70 | exactly `hours*4` points (none for hours ≤ 0); point i is stamped start + 15i and is computed from the hour's regime plus noise sample i; timestamps strictly increase; every point is well formed for capacity ≥ 0 |
| Forecasting.RelativeChangeThresholds | backend/forecasting/arima.py:82-89 | a change of more than +15 % (below −15 %) from a positive reference means exceeding 1.15× (falling below 0.85×) it |
| Forecasting.CalculateTrend | backend/forecasting/arima.py:72-89 | fewer than two points, or a first count ≤ 0, always give "stable" |
| Forecasting.CalculateTrendCharacterized | backend/forecasting/arima.py:72-89 | "increasing" exactly when there are ≥ 2 points, the first count is positive and 20·last > 23·first; "decreasing" exactly when 20·last < 17·first; stable otherwise, including for < 2 points and a first count ≤ 0 |
| Breaker.AfterFailure | backend/ai/gemini_reasoning.py:21-27 | count + 1 and failure time := now; OPEN afterwards exactly when the new count reaches the threshold or it was OPEN already; HALF_OPEN afterwards exactly when it was HALF_OPEN and the threshold is not reached |
| Breaker.AfterSuccess | backend/ai/gemini_reasoning.py:30-33 | a success from any state gives CLOSED with count 0 and leaves the failure time as it was |
| Breaker.Attempt | backend/ai/gemini_reasoning.py:36-50 | allowed and unchanged when CLOSED or HALF_OPEN; when OPEN, allowed exactly when now − last failure > timeout (strict), and then HALF_OPEN, otherwise still OPEN; count and time never change |
| Breaker.TransitionsPreserveInv | backend/ai/gemini_reasoning.py:21-50 | failure, success and the attempt check all keep "not CLOSED ⇒ count ≥ threshold and a failure time is set" |
| Breaker.HalfOpenFailureReopens | backend/ai/gemini_reasoning.py:21-27 | in a reachable state one failure during HALF_OPEN returns the breaker to OPEN |
| Breaker.ConsecutiveFailures | backend/ai/gemini_reasoning.py:21-27 | from a fresh breaker, k failures leave count k; below the threshold it stays CLOSED; the threshold-th failure opens it, stamped with that failure's time |
| Breaker.OpenedBreakerRefusesThenProbes | backend/ai/gemini_reasoning.py:36-50 | right after the threshold-th failure an attempt at the same moment is refused, and once more than the timeout has passed an attempt is allowed and moves the breaker to HALF_OPEN |
| Breaker.SharedBreakerCycle | backend/ai/gemini_reasoning.py:57 | the process-wide breaker (threshold 3, timeout 60) stays CLOSED after two failures, opens on the third, refuses an attempt at that moment and allows one more than 60 seconds later as the HALF_OPEN trial |
| Breaker.CircuitBreaker.constructor | backend/ai/gemini_reasoning.py:14-19 | a new breaker is CLOSED with count 0 and no failure time, and keeps its threshold and timeout |
| Breaker.CircuitBreaker.CallFailed | backend/ai/gemini_reasoning.py:21-27 | count + 1, failure time := now, OPEN exactly when the new count reaches the threshold, state otherwise unchanged; keeps the invariant |
| Breaker.CircuitBreaker.CallSucceeded | backend/ai/gemini_reasoning.py:30-33 | count := 0, state := CLOSED, failure time untouched; keeps the invariant |
| Breaker.CircuitBreaker.CanAttempt | backend/ai/gemini_reasoning.py:36-50 | the result and the new state are those of the attempt check (see Breaker.Attempt) |
| Breaker.CircuitBreaker.GetState | backend/ai/gemini_reasoning.py:52-53 | in a valid breaker a reported state other than CLOSED means the threshold was reached and a failure time is set |
| GeminiReasoning.WindowShapes | backend/ai/gemini_reasoning.py:320-321 | for n ≥ 3 the early window is the first ⌊n/3⌋ counts and the late window the last ⌈n/3⌉ counts, because `-n//3` floors |
| GeminiReasoning.AnalyzeCongestionTrend | backend/ai/gemini_reasoning.py:312-333 | fewer than two points, or an early mean ≤ 0, always give "stable" |
| GeminiReasoning.AnalyzeCongestionTrendCharacterized | backend/ai/gemini_reasoning.py:316-333 | "increasing" exactly when there are ≥ 2 points, the early mean is positive and the late mean exceeds 1.15× it; "decreasing" exactly when it is below 0.85× it |
| GeminiReasoning.TrendExamples | backend/ai/gemini_reasoning.py:316-333 | [100,100,100,100,200,200] is increasing, [200,200,100,100] decreasing, [100,105,98,102] stable |
| GeminiReasoning.PeakIndicesExact | backend/ai/gemini_reasoning.py:343-349 | the peak positions are exactly the positions whose count exceeds the threshold, each once, in input order |
| GeminiReasoning.PeakTimesAtIndices | backend/ai/gemini_reasoning.py:347-349 | the collected timestamps are, one for one, those of the peak positions |
| GeminiReasoning.IdentifyPeakPeriods | backend/ai/gemini_reasoning.py:335-351 | the loop returns the first three peak timestamps; never more than three; empty for an empty forecast |
| GeminiReasoning.ConstantForecastHasNoPeaks | backend/ai/gemini_reasoning.py:343-349 | a constant non-negative forecast has no peaks |
| GeminiReasoning.PeakExample | backend/ai/gemini_reasoning.py:343-351 | counts 10,10,10,50,10,10 give exactly one peak, the fourth point |
| GeminiReasoning.FallbackRiskLevel | backend/ai/gemini_reasoning.py:190-204 | five tiers with strict bounds: CRITICAL above 95, SEVERE (85, 95], ELEVATED (70, 85], MODERATE (50, 70], LOW at most 50 |
| GeminiReasoning.FallbackRiskMonotone | backend/ai/gemini_reasoning.py:190-204 | higher utilization never gives a lower five-tier level |
| GeminiReasoning.RiskScalesCompared | backend/ai/gemini_reasoning.py:190-204 | the five-tier and four-tier scales agree on LOW and on five-tier CRITICAL ⇒ four-tier CRITICAL, and disagree at 92 (CRITICAL vs SEVERE) and 72 (MEDIUM vs ELEVATED) |
| GeminiReasoning.PostureFollowsFallbackTier | backend/ai/gemini_reasoning.py:248-296 | the immediate-action and resource blocks switch at > 85 and > 70: the surge block exactly for SEVERE/CRITICAL, the reinforced block exactly for ELEVATED |
| GeminiReasoning.RiskFactorsListed | backend/ai/gemini_reasoning.py:221-230 | each risk factor is listed exactly when its condition holds (utilization > 80, increasing trend, at least one peak, > 20 active flights), so the list has one entry per true condition and at most four |
| GeminiReasoning.GenerateFallbackInsights | backend/ai/gemini_reasoning.py:170-310 | raises exactly for capacity 0; otherwise the report holds the five-tier risk, the thirds trend, the top peaks, the risk factors in order (> 80 %, increasing trend, peaks, > 20 flights), the blocks chosen at 85/70, the short-term block for an increasing trend or > 70 %, and at most two reinforcement windows |
| GeminiReasoning.BreakerAfterRequest | backend/ai/gemini_reasoning.py:80-168 | without a client the breaker is not consulted and stays as it was; after a refused attempt it is also unchanged; an allowed request with non-empty text and a non-zero capacity resets it to CLOSED with count 0; every other allowed request adds one failure stamped now and leaves it OPEN when the new count reaches the threshold, otherwise in the state the attempt check left |
| GeminiReasoning.AtMostOneOutcomeRecorded | backend/ai/gemini_reasoning.py:80-168 | one request keeps the breaker invariant, moves the failure count by at most one unless it records a success, leaves an OPEN or HALF_OPEN breaker OPEN when it records a failure, and records every raised error the same way whatever its message |
| GeminiReasoning.GenerateGeminiInsights | backend/ai/gemini_reasoning.py:65-168 | no client: breaker untouched and local analysis; refused attempt: local analysis, nothing recorded; non-empty text: success recorded and the text returned; empty text or an error: one failure recorded and local analysis |
| GeminiReasoning.GetCircuitBreakerStatus | backend/ai/gemini_reasoning.py:353-362 | state, count and failure time are read before the attempt check, so the status can say OPEN while the breaker has just moved to HALF_OPEN |
| App.CalculateRiskLevel | backend/app.py:130-142 | raises exactly for capacity 0 (see App.RiskLevelAgreesWithMerge for its value) |
| App.RiskLevelIgnoresForecast | backend/app.py:130-133 | the overall risk is the same whatever forecast is passed, for every snapshot |
| App.RiskLevelAgreesWithMerge | backend/app.py:130-142 | for capacity > 0 the overall risk equals the congestion level the merge derived |
| App.GenerateRecommendations | backend/app.py:144-169 | 4 items for CRITICAL, 3 for HIGH, 2 for MEDIUM, and the single LOW item for every other string |
| App.RecommendationCountByTier | backend/app.py:144-169 | the list for a tier has rank + 1 items: 1 for LOW up to 4 for CRITICAL |
| App.RecommendationsGrowWithRisk | backend/app.py:144-169 | a more severe tier never gets fewer items, and LOW gets the same list as any unrecognised string |
| App.AnalyzeCongestion | backend/app.py:54-94 | fails exactly for capacity 0; otherwise the risk is the tier of count/capacity×100, the recommendations are the list for that risk whatever the insight text, the metrics echo the input; the forecast has 24 points 15 minutes apart from the input time, point i is the forecast engine's point i for the merged snapshot with noise sample i, and every point is well formed for capacity ≥ 0; the insight is the service text exactly when the client is configured, the attempt is allowed, the capacity is non-zero and the text is non-empty, and otherwise the local analysis of the merged snapshot and forecast |
| LegacyArima.ForecastCongestion | backend/arima.py:1-14 | the projection is never above 1.0; it is the capped sum; the trend is never "decreasing", and "increasing" exactly when inbound flights > 0 and the load ratio < 1.0 |

## Left out

- HTTP layer: the FastAPI endpoints, CORS, `/simulate`, `/health`, uvicorn startup. An `Err` result stands for the exception that the endpoint turns into a server error.
- The call to the narrative service and its prompt text. Its answer is an abstract outcome: text (possibly empty) or a raised error with a message.
- The classification of error messages (503, 404, 429, other). It only picks a log line; every branch records one failure. All `print` output is left out too.
- Randomness: `np.random.normal` noise is an injected sequence of real samples. Its distribution, including the different spread per regime, is not modelled.
- The clock: `time.time()` is the parameter `now`. In `GeminiReasoning.GenerateGeminiInsights` one `now` serves both the attempt check and the failure stamp; the source reads the clock again after the call returns.
- Date handling: timestamps are whole minutes from a midnight, and the hour is the minute of the day divided by 60. ISO-8601 parsing and formatting are not modelled.
- Floating point: divisions, the factors 0.15, 1.3 and 0.03, and the means are exact reals. `round(…, 2)` on the stored utilization and on the legacy projection is not modelled, so a stored value is the unrounded one.
- The wording of the local narrative (banners, number formatting, sentences). Only its tier and branch choices are modelled.
- Concurrency: the breaker is shared by concurrent requests in the source. The model is single-threaded.
- The manual breaker reset in backend/ai/app_with_circuit_breaker.py. That file imports a module that does not exist.
- Forecasting.ForecastCongestion: the defaults for a missing `cctv_count` (100), `terminal_capacity` (1000) and `timestamp` (now) are not modelled. The function always receives a merged snapshot, which has all three keys.
- App.CalculateRiskLevel: the capacity default of 1 for a missing key is not modelled, for the same reason.
- GeminiReasoning.GenerateFallbackInsights: the defaults for missing `cctv_count`, `terminal_capacity` and `active_flights` keys are not modelled, for the same reason.
- Dictionaries holding values of other types (a `None` count, a string capacity) and the type errors they would raise. Counts are integers.
- The random sensor simulators (data_ingestion), the unused pydantic schemas, the live-service tests, backend/main.py, backend/test_models.py, backend/ai/anomaly_detection.py and the frontend.
