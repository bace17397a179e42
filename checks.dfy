/** The per-event fraud checks of `FraudDetector`. Each reads the new event
    and, for speed, teleportation and pattern, the user's stored history
    (the events seen before this one, oldest first), and returns either no
    alert or one alert. Great-circle (haversine) distance is a parameter:
    `distance(lat1, lon1, lat2, lon2)` in kilometres. */
module Checks {
  import opened Wrappers
  import opened Events
  import opened History

  const MaxSpeedKmh: real := 50.0
  const MaxLocationsPerMinute: int := 20
  const MinAccuracyMeters: real := 100.0
  const TeleportThresholdKm: real := 1.0
  const TeleportTimeSeconds: real := 3.0
  /** Degrees within which two coordinates count as identical. */
  const IdenticalTolerance: real := 0.000001

  type DistanceKm = (real, real, real, real) -> real

  function Min(a: real, b: real): real
  {
    if a <= b then a else b
  }

  function Abs(x: real): real
  {
    if x < 0.0 then -x else x
  }

  /** The newest stored event. */
  function Last(history: seq<LocationEvent>): LocationEvent
    requires history != []
  {
    history[|history| - 1]
  }

  function DistanceBetween(distance: DistanceKm, from: LocationEvent, to: LocationEvent): real
  {
    distance(from.latitude, from.longitude, to.latitude, to.longitude)
  }

  /** Python 3 true division of the millisecond difference by 1000. */
  function TimeDiffSeconds(last: LocationEvent, current: LocationEvent): real
  {
    (current.timestamp - last.timestamp) as real / 1000.0
  }

  function SpeedKmh(distanceKm: real, timeDiffSeconds: real): real
    requires timeDiffSeconds != 0.0
  {
    distanceKm / timeDiffSeconds * 3600.0
  }

  /** The speed rule against the newest stored event `last`. */
  function SpeedAlert(userId: string, current: LocationEvent, last: LocationEvent, distance: DistanceKm)
    : (r: Option<FraudAlert>)
    ensures r.Some? <==>
      TimeDiffSeconds(last, current) > 5.0 &&
      SpeedKmh(DistanceBetween(distance, last, current), TimeDiffSeconds(last, current)) > MaxSpeedKmh
    ensures r.Some? ==>
      var a := r.value;
      a.alertType == ImpossibleSpeed && a.userId == userId && a.timestamp == current.timestamp &&
      a.location == Some(Position(current)) &&
      50.0 < a.riskScore <= 95.0 &&
      a.riskScore == Min(95.0, SpeedKmh(DistanceBetween(distance, last, current), TimeDiffSeconds(last, current)))
  {
    var distanceKm := DistanceBetween(distance, last, current);
    var timeDiff := TimeDiffSeconds(last, current);
    if timeDiff <= 0.0 then None
    else
      var speedKmh := SpeedKmh(distanceKm, timeDiff);
      if speedKmh > MaxSpeedKmh && timeDiff > 5.0 then
        Some(FraudAlert(userId, ImpossibleSpeed, Min(95.0, 50.0 + (speedKmh - MaxSpeedKmh)), current.timestamp,
                        SpeedDetails(speedKmh, distanceKm, timeDiff, MaxSpeedKmh), Some(Position(current))))
      else None
  }

  /** `check_impossible_speed`: compares the event with the newest stored
      one; alerts when the implied speed exceeds 50 km/h over more than 5 s. */
  function CheckImpossibleSpeed(userId: string, current: LocationEvent, history: seq<LocationEvent>,
                                distance: DistanceKm): (r: Option<FraudAlert>)
    ensures history == [] ==> r == None
    ensures r.Some? <==>
      history != [] &&
      TimeDiffSeconds(Last(history), current) > 5.0 &&
      SpeedKmh(DistanceBetween(distance, Last(history), current), TimeDiffSeconds(Last(history), current)) > MaxSpeedKmh
    ensures r.Some? ==>
      var a := r.value;
      a.alertType == ImpossibleSpeed && a.userId == userId && a.timestamp == current.timestamp &&
      a.location == Some(Position(current)) &&
      50.0 < a.riskScore <= 95.0 &&
      a.riskScore == Min(95.0, SpeedKmh(DistanceBetween(distance, Last(history), current), TimeDiffSeconds(Last(history), current)))
  {
    var recent := Recent(history, 2);
    if |recent| < 1 then None
    else
      assert recent[|recent| - 1] == Last(history);
      SpeedAlert(userId, current, recent[|recent| - 1], distance)
  }

  /** The speed rule without division: an alert is raised exactly when the
      user moved more than `timeDiff / 72` km (50 km/h) in more than 5 s. */
  lemma SpeedAlertWithoutDivision(userId: string, current: LocationEvent, history: seq<LocationEvent>,
                                  distance: DistanceKm)
    ensures CheckImpossibleSpeed(userId, current, history, distance).Some? <==>
      history != [] &&
      TimeDiffSeconds(Last(history), current) > 5.0 &&
      DistanceBetween(distance, Last(history), current) * 72.0 > TimeDiffSeconds(Last(history), current)
  {
    if history != [] && TimeDiffSeconds(Last(history), current) > 5.0 {
      SpeedAboveLimit(DistanceBetween(distance, Last(history), current), TimeDiffSeconds(Last(history), current));
    }
  }

  lemma SpeedAboveLimit(d: real, t: real)
    requires t > 0.0
    ensures SpeedKmh(d, t) > MaxSpeedKmh <==> d * 72.0 > t
  {
    var v := d / t;
    assert v * t == d;
    assert SpeedKmh(d, t) == v * 3600.0;
    if v * 72.0 > 1.0 {
      assert (v * 72.0 - 1.0) * t > 0.0;
    } else {
      assert (1.0 - v * 72.0) * t >= 0.0;
    }
  }

  /** `check_teleportation`: more than 1 km from the newest stored event in
      less than 3 s. The time difference is not required to be positive, so
      an event stamped earlier than the stored one also qualifies. */
  function CheckTeleportation(userId: string, current: LocationEvent, history: seq<LocationEvent>,
                              distance: DistanceKm): (r: Option<FraudAlert>)
    ensures history == [] ==> r == None
    ensures r.Some? <==>
      history != [] &&
      DistanceBetween(distance, Last(history), current) > 1.0 &&
      TimeDiffSeconds(Last(history), current) < 3.0
    ensures r.Some? ==>
      var a := r.value;
      a.alertType == Teleportation && a.userId == userId && a.timestamp == current.timestamp &&
      a.location == Some(Position(current)) && a.riskScore == 90.0
  {
    var recent := Recent(history, 2);
    if |recent| < 1 then None
    else
      var last := recent[|recent| - 1];
      var distanceKm := DistanceBetween(distance, last, current);
      var timeDiff := TimeDiffSeconds(last, current);
      if distanceKm > TeleportThresholdKm && timeDiff < TeleportTimeSeconds then
        Some(FraudAlert(userId, Teleportation, 90.0, current.timestamp,
                        TeleportDetails(distanceKm, timeDiff, TeleportThresholdKm, TeleportTimeSeconds),
                        Some(Position(current))))
      else None
  }

  /** The speed rule needs more than 5 s and the teleport rule less than
      3 s, so one event never raises both. */
  lemma SpeedAndTeleportExclusive(userId: string, current: LocationEvent, history: seq<LocationEvent>,
                                  distance: DistanceKm)
    ensures !(CheckImpossibleSpeed(userId, current, history, distance).Some? &&
              CheckTeleportation(userId, current, history, distance).Some?)
  {
  }

  /** `check_rapid_updates` once its per-minute counter has been read: the
      counter value and the wall clock (milliseconds) are inputs. */
  function CheckRapidUpdates(userId: string, updateCount: int, nowMillis: int): (r: Option<FraudAlert>)
    ensures r.Some? <==> updateCount > MaxLocationsPerMinute
    ensures r.Some? ==>
      var a := r.value;
      a.alertType == RapidLocationUpdates && a.userId == userId && a.riskScore == 70.0 &&
      a.timestamp == nowMillis && a.location == None &&
      a.details == RapidUpdateDetails(updateCount, MaxLocationsPerMinute)
  {
    if updateCount > MaxLocationsPerMinute then
      Some(FraudAlert(userId, RapidLocationUpdates, 70.0, nowMillis,
                      RapidUpdateDetails(updateCount, MaxLocationsPerMinute), None))
    else None
  }

  /** `check_poor_accuracy`: reported accuracy worse than 100 m. It reads no
      history and takes the user from the event itself. */
  function CheckPoorAccuracy(current: LocationEvent): (r: Option<FraudAlert>)
    ensures r.Some? <==> current.accuracy > MinAccuracyMeters
    ensures r.Some? ==>
      var a := r.value;
      a.alertType == PoorGpsAccuracy && a.userId == current.userId && a.riskScore == 40.0 &&
      a.timestamp == current.timestamp && a.location == Some(Position(current))
  {
    if current.accuracy > MinAccuracyMeters then
      Some(FraudAlert(current.userId, PoorGpsAccuracy, 40.0, current.timestamp,
                      AccuracyDetails(current.accuracy, MinAccuracyMeters), Some(Position(current))))
    else None
  }

  // ---------------------------------------------------------------------------
  // check_pattern_anomalies

  predicate IdenticalPosition(stored: LocationEvent, current: LocationEvent)
  {
    Abs(stored.latitude - current.latitude) < IdenticalTolerance &&
    Abs(stored.longitude - current.longitude) < IdenticalTolerance
  }

  /** How many of `recent` sit on the current event's coordinates. */
  function IdenticalCount(recent: seq<LocationEvent>, current: LocationEvent): (n: nat)
    ensures n <= |recent|
    ensures (forall i :: 0 <= i < |recent| ==> IdenticalPosition(recent[i], current)) ==> n == |recent|
  {
    if recent == [] then 0
    else (if IdenticalPosition(recent[0], current) then 1 else 0) + IdenticalCount(recent[1..], current)
  }

  /** Gaps in milliseconds between consecutive stored events. */
  function Intervals(recent: seq<LocationEvent>): seq<int>
  {
    if |recent| < 2 then []
    else seq(|recent| - 1, i requires 0 <= i < |recent| - 1 => recent[i + 1].timestamp - recent[i].timestamp)
  }

  function Sum(xs: seq<int>): int
  {
    if xs == [] then 0 else xs[0] + Sum(xs[1..])
  }

  function Mean(xs: seq<int>): real
    requires xs != []
  {
    Sum(xs) as real / |xs| as real
  }

  function SumSquaredDeviation(xs: seq<int>, m: real): (r: real)
    ensures r >= 0.0
  {
    if xs == [] then 0.0
    else (xs[0] as real - m) * (xs[0] as real - m) + SumSquaredDeviation(xs[1..], m)
  }

  /** Population variance. */
  function Variance(xs: seq<int>): (r: real)
    requires xs != []
    ensures r >= 0.0
  {
    SumSquaredDeviation(xs, Mean(xs)) / |xs| as real
  }

  /** `check_pattern_anomalies`: looks at the newest (at most) 10 stored
      events and needs at least 5. More than 3 of them on the current
      coordinates gives `identical_coordinates` (risk 75), which takes
      precedence; otherwise intervals with variance below 1000 ms² and a
      positive mean give `robotic_timing` (risk 80). */
  function PatternAnomaly(userId: string, current: LocationEvent, history: seq<LocationEvent>): (r: Option<FraudAlert>)
    ensures |history| < 5 ==> r == None
    ensures r.Some? ==>
      r.value.userId == userId && r.value.timestamp == current.timestamp &&
      r.value.location == Some(Position(current))
    ensures r.Some? && r.value.alertType == IdenticalCoordinates <==>
      |history| >= 5 && IdenticalCount(Recent(history, 10), current) > 3
    ensures r.Some? && r.value.alertType == RoboticTiming <==>
      |history| >= 5 && IdenticalCount(Recent(history, 10), current) <= 3 &&
      Variance(Intervals(Recent(history, 10))) < 1000.0 && Mean(Intervals(Recent(history, 10))) > 0.0
    ensures r.Some? ==>
      (r.value.alertType == IdenticalCoordinates && r.value.riskScore == 75.0) ||
      (r.value.alertType == RoboticTiming && r.value.riskScore == 80.0)
  {
    var recent := Recent(history, 10);
    if |recent| < 5 then None
    else
      var identical := IdenticalCount(recent, current);
      if identical > 3 then
        Some(FraudAlert(userId, IdenticalCoordinates, 75.0, current.timestamp,
                        IdenticalDetails(identical, Position(current)), Some(Position(current))))
      else
        var intervals := Intervals(recent);
        var avg := Mean(intervals);
        var variance := Variance(intervals);
        if variance < 1000.0 && avg > 0.0 then
          Some(FraudAlert(userId, RoboticTiming, 80.0, current.timestamp,
                          TimingDetails(variance, avg), Some(Position(current))))
        else None
  }

  /** The pattern check as the source runs it: the intervals are collected
      by a loop over the recent events. */
  method CheckPatternAnomalies(userId: string, current: LocationEvent, history: seq<LocationEvent>)
    returns (r: Option<FraudAlert>)
    ensures r == PatternAnomaly(userId, current, history)
  {
    var recent := Recent(history, 10);
    if |recent| < 5 {
      return None;
    }
    var identical := IdenticalCount(recent, current);
    if identical > 3 {
      return Some(FraudAlert(userId, IdenticalCoordinates, 75.0, current.timestamp,
                             IdenticalDetails(identical, Position(current)), Some(Position(current))));
    }
    // The source re-tests `len(recent) >= 5` and `if time_intervals` here;
    // both always hold at this point.
    var intervals := TimeIntervals(recent);
    var avg := Mean(intervals);
    var variance := Variance(intervals);
    if variance < 1000.0 && avg > 0.0 {
      return Some(FraudAlert(userId, RoboticTiming, 80.0, current.timestamp,
                             TimingDetails(variance, avg), Some(Position(current))));
    }
    return None;
  }

  /** The loop of `check_pattern_anomalies` that collects the gaps between
      consecutive events. */
  method TimeIntervals(recent: seq<LocationEvent>) returns (intervals: seq<int>)
    ensures |intervals| == if |recent| < 2 then 0 else |recent| - 1
    ensures forall k :: 0 <= k < |intervals| ==> intervals[k] == recent[k + 1].timestamp - recent[k].timestamp
    ensures intervals == Intervals(recent)
  {
    intervals := [];
    if |recent| == 0 {
      return;
    }
    for i := 1 to |recent|
      invariant |intervals| == i - 1
      invariant forall k :: 0 <= k < i - 1 ==> intervals[k] == recent[k + 1].timestamp - recent[k].timestamp
    {
      intervals := intervals + [recent[i].timestamp - recent[i - 1].timestamp];
    }
  }

  /** Only the newest 10 stored events matter to the pattern check. */
  lemma PatternSeesOnlyLastTen(userId: string, current: LocationEvent, history: seq<LocationEvent>)
    ensures PatternAnomaly(userId, current, history) == PatternAnomaly(userId, current, Recent(history, 10))
  {
    var recent := Recent(history, 10);
    assert Recent(recent, 10) == recent;
  }

  lemma {:induction false} SumOfConstant(xs: seq<int>, c: int)
    requires forall i :: 0 <= i < |xs| ==> xs[i] == c
    ensures Sum(xs) == |xs| * c
  {
    if xs != [] {
      SumOfConstant(xs[1..], c);
    }
  }

  lemma {:induction false} NoDeviationFromConstant(xs: seq<int>, c: int)
    requires forall i :: 0 <= i < |xs| ==> xs[i] == c
    ensures SumSquaredDeviation(xs, c as real) == 0.0
  {
    if xs != [] {
      NoDeviationFromConstant(xs[1..], c);
    }
  }

  /** Events arriving at a fixed positive period are flagged as robotic,
      unless the identical-coordinates rule fires first. */
  lemma RegularTimingIsRobotic(userId: string, current: LocationEvent, history: seq<LocationEvent>, period: int)
    requires |history| >= 5 && period > 0
    requires IdenticalCount(Recent(history, 10), current) <= 3
    requires forall i :: 0 < i < |history| ==> history[i].timestamp - history[i - 1].timestamp == period
    ensures PatternAnomaly(userId, current, history).Some?
    ensures PatternAnomaly(userId, current, history).value.alertType == RoboticTiming
  {
    var intervals := Intervals(Recent(history, 10));
    RecentIntervalsConstant(history, period);
    ConstantStatistics(intervals, period);
    assert Variance(intervals) < 1000.0 && Mean(intervals) > 0.0;
  }

  /** A constant gap between all stored events is also the gap between the
      newest ten. */
  lemma RecentIntervalsConstant(history: seq<LocationEvent>, period: int)
    requires |history| >= 2
    requires forall i :: 0 < i < |history| ==> history[i].timestamp - history[i - 1].timestamp == period
    ensures Intervals(Recent(history, 10)) != []
    ensures forall k :: 0 <= k < |Intervals(Recent(history, 10))| ==> Intervals(Recent(history, 10))[k] == period
  {
    var recent := Recent(history, 10);
    var offset := |history| - |recent|;
    var intervals := Intervals(recent);
    forall k | 0 <= k < |intervals|
      ensures intervals[k] == period
    {
      assert recent[k + 1] == history[offset + k + 1] && recent[k] == history[offset + k];
    }
  }

  /** A constant sequence has that constant as mean and no variance. */
  lemma ConstantStatistics(xs: seq<int>, c: int)
    requires xs != []
    requires forall i :: 0 <= i < |xs| ==> xs[i] == c
    ensures Mean(xs) == c as real && Variance(xs) == 0.0
  {
    SumOfConstant(xs, c);
    var n := |xs|;
    assert (n * c) as real == n as real * c as real;
    assert Mean(xs) == c as real;
    NoDeviationFromConstant(xs, c);
  }
}
