/**
 * The earlier one-step forecast (backend/arima.py): a load ratio pushed up by
 * three points per inbound flight, capped at a full terminal.
 */
module LegacyArima {
  import opened Forecasting

  /** The two keys the function reads from its input dictionary. */
  datatype LoadState = LoadState(loadRatio: real, inboundFlights: int)

  datatype LoadForecast = LoadForecast(predictedLoad15Min: real, trend: Trend)

  /** The projected load and its direction, decided on the unrounded projection. */
  function ForecastCongestion(s: LoadState): (r: LoadForecast)
    ensures r.predictedLoad15Min <= 1.0
    ensures r.predictedLoad15Min <= s.loadRatio + 0.03 * s.inboundFlights as real
    ensures r.predictedLoad15Min == 1.0 || r.predictedLoad15Min == s.loadRatio + 0.03 * s.inboundFlights as real
    ensures r.trend != Decreasing
    ensures r.trend == Increasing <==> s.inboundFlights > 0 && s.loadRatio < 1.0
  {
    var inboundPressure := s.inboundFlights as real * 0.03;
    var predicted := if s.loadRatio + inboundPressure < 1.0 then s.loadRatio + inboundPressure else 1.0;
    LoadForecast(predicted, if predicted > s.loadRatio then Increasing else Stable)
  }
}
