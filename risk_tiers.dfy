/**
 * The four-tier risk classifier shared by the snapshot merger, the forecast
 * engine and the endpoint's overall risk: strict thresholds at 90, 75 and 50
 * per cent utilization.
 */
module RiskTiers {

  datatype RiskLevel = Low | Medium | High | Critical

  /** Ordinal position of a tier, for comparing severities. */
  function Rank(level: RiskLevel): nat {
    match level
    case Low => 0
    case Medium => 1
    case High => 2
    case Critical => 3
  }

  /** The string the service reports for a tier. */
  function Name(level: RiskLevel): string {
    match level
    case Low => "LOW"
    case Medium => "MEDIUM"
    case High => "HIGH"
    case Critical => "CRITICAL"
  }

  /** Classifies a utilization percentage; a value exactly on a threshold falls into the lower tier. */
  function Classify(utilization: real): (r: RiskLevel)
    ensures r == Critical <==> utilization > 90.0
    ensures r == High <==> 75.0 < utilization <= 90.0
    ensures r == Medium <==> 50.0 < utilization <= 75.0
    ensures r == Low <==> utilization <= 50.0
  {
    if utilization > 90.0 then Critical
    else if utilization > 75.0 then High
    else if utilization > 50.0 then Medium
    else Low
  }

  /** The exception raised when a utilization is computed over a zero capacity. */
  datatype Failure = ZeroDivisionError

  /** Passenger count as a percentage of capacity; the caller rules out a zero capacity. */
  function Utilization(count: int, capacity: int): real
    requires capacity != 0
  {
    count as real / capacity as real * 100.0
  }

  /**
   * For a non-negative count and a positive capacity the rate is non-negative,
   * and it exceeds 100 exactly when the terminal is over capacity.
   */
  lemma UtilizationBounds(count: int, capacity: int)
    requires count >= 0 && capacity > 0
    ensures Utilization(count, capacity) >= 0.0
    ensures Utilization(count, capacity) <= 100.0 <==> count <= capacity
  {
    var q := count as real / capacity as real;
    assert q * capacity as real == count as real;
    if count <= capacity {
      assert q <= 1.0;
    } else {
      assert q > 1.0;
    }
  }

  /** Higher utilization never yields a lower tier. */
  lemma ClassifyMonotone(u: real, v: real)
    requires u <= v
    ensures Rank(Classify(u)) <= Rank(Classify(v))
  {
  }
}
