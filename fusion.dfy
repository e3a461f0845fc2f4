/**
 * Snapshot merge: folds a camera count reading, a flight-activity reading and
 * a capacity reading into one operational snapshot with derived utilization,
 * congestion tier and flight density (backend/fusion/merge.py).
 */
module Fusion {
  import opened Wrappers
  import opened RiskTiers

  /** The camera record: keys `count` and `timestamp` (minutes on a day-anchored clock). */
  datatype CctvReading = CctvReading(count: Option<int>, timestamp: Option<int>)

  /** The flight-schedule record. */
  datatype FlightReading = FlightReading(
    activeFlights: Option<int>,
    arrivingFlights: Option<int>,
    departingFlights: Option<int>)

  /** The capacity record. */
  datatype CapacityReading = CapacityReading(terminalCapacity: Option<int>)

  /** The congestion level slot of the merged record; `Unknown` is the placeholder it starts with. */
  datatype Congestion = Unknown | Rated(level: RiskLevel)

  /** The merged operational snapshot, one field per key of the merged dictionary. */
  datatype Snapshot = Snapshot(
    timestamp: int,
    cctvCount: int,
    terminalCapacity: int,
    activeFlights: int,
    arrivingFlights: int,
    departingFlights: int,
    utilizationRate: real,
    congestionLevel: Congestion,
    flightDensity: real)

  const DefaultCapacity: int := 1000

  /**
   * Builds the record with defaults for missing keys, then fills in the derived
   * fields one after another. `now` stands for the clock reading used when the
   * camera record carries no timestamp. A non-positive capacity is not
   * rejected: it leaves utilization at 0, the level LOW and the density 0.
   */
  method MergeData(cctv: CctvReading, aodb: FlightReading, capacity: CapacityReading, now: int)
    returns (merged: Snapshot)
    ensures merged.timestamp == cctv.timestamp.GetOr(now)
    ensures merged.cctvCount == cctv.count.GetOr(0)
    ensures merged.terminalCapacity == capacity.terminalCapacity.GetOr(DefaultCapacity)
    ensures merged.activeFlights == aodb.activeFlights.GetOr(0)
    ensures merged.arrivingFlights == aodb.arrivingFlights.GetOr(0)
    ensures merged.departingFlights == aodb.departingFlights.GetOr(0)
    ensures merged.terminalCapacity > 0 ==>
      merged.utilizationRate == Utilization(merged.cctvCount, merged.terminalCapacity) &&
      merged.flightDensity == (merged.arrivingFlights + merged.departingFlights) as real / 2.0
    ensures merged.terminalCapacity <= 0 ==>
      merged.utilizationRate == 0.0 && merged.congestionLevel == Rated(Low) && merged.flightDensity == 0.0
    ensures merged.congestionLevel != Unknown
    ensures merged.congestionLevel == Rated(Classify(merged.utilizationRate))
  {
    merged := Snapshot(
      timestamp := cctv.timestamp.GetOr(now),
      cctvCount := cctv.count.GetOr(0),
      terminalCapacity := capacity.terminalCapacity.GetOr(DefaultCapacity),
      activeFlights := aodb.activeFlights.GetOr(0),
      arrivingFlights := aodb.arrivingFlights.GetOr(0),
      departingFlights := aodb.departingFlights.GetOr(0),
      utilizationRate := 0.0,
      congestionLevel := Unknown,
      flightDensity := 0.0);

    if merged.terminalCapacity > 0 {
      merged := merged.(utilizationRate := Utilization(merged.cctvCount, merged.terminalCapacity));
    }

    var rate := merged.utilizationRate;
    if rate > 90.0 {
      merged := merged.(congestionLevel := Rated(Critical));
    } else if rate > 75.0 {
      merged := merged.(congestionLevel := Rated(High));
    } else if rate > 50.0 {
      merged := merged.(congestionLevel := Rated(Medium));
    } else {
      merged := merged.(congestionLevel := Rated(Low));
    }

    var density := if merged.terminalCapacity > 0
      then (merged.arrivingFlights + merged.departingFlights) as real / 2.0
      else 0.0;
    merged := merged.(flightDensity := density);
  }

  /**
   * The keys of the dictionary a snapshot stands for: one per field of
   * `Snapshot`, whatever the field values are.
   */
  function SnapshotKeys(s: Snapshot): set<string> {
    {"timestamp", "cctv_count", "terminal_capacity", "active_flights", "arriving_flights",
     "departing_flights", "utilization_rate", "congestion_level", "flight_density"}
  }

  /** The keys the completeness check insists on, in the order it checks them. */
  const RequiredFields: seq<string> := ["timestamp", "cctv_count", "terminal_capacity", "utilization_rate"]

  /** Every field of `fields` is a key of the dictionary whose key set is `keys`. */
  function AllPresent(fields: seq<string>, keys: set<string>): (r: bool)
    ensures r <==> forall i :: 0 <= i < |fields| ==> fields[i] in keys
  {
    |fields| == 0 || (fields[0] in keys && AllPresent(fields[1..], keys))
  }

  /** The completeness check on a dictionary, which only looks at its keys. */
  function ValidateMergedData(keys: set<string>): (r: bool)
    ensures r <==> "timestamp" in keys && "cctv_count" in keys && "terminal_capacity" in keys &&
                   "utilization_rate" in keys
  {
    assert RequiredFields[0] == "timestamp" && RequiredFields[1] == "cctv_count" &&
           RequiredFields[2] == "terminal_capacity" && RequiredFields[3] == "utilization_rate";
    AllPresent(RequiredFields, keys)
  }

  /** Every merged snapshot passes the completeness check. */
  lemma MergedSnapshotValidates(s: Snapshot)
    ensures ValidateMergedData(SnapshotKeys(s))
  {
  }

  /** Dropping any one required key makes the check fail. */
  lemma MissingRequiredFieldFails(keys: set<string>, i: nat)
    requires i < |RequiredFields|
    ensures !ValidateMergedData(keys - {RequiredFields[i]})
  {
  }
}
