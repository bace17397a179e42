/** `FraudDetector.analyze_location_event`: runs the five checks in a fixed
    order against the user's history as it was before the event, keeps the
    alerts that were raised in that order, and only then appends the event
    to the history. */
module Detector {
  import opened Wrappers
  import opened Events
  import opened History
  import opened Checks

  /** Position of each alert type's check in the evaluation order. */
  function Rank(t: AlertType): nat
  {
    match t
    case ImpossibleSpeed => 0
    case Teleportation => 1
    case RapidLocationUpdates => 2
    case PoorGpsAccuracy => 3
    case IdenticalCoordinates => 4
    case RoboticTiming => 4
  }

  /** A check result that, if raised, is of a type checked at position `k`. */
  predicate HasRank(o: Option<FraudAlert>, k: nat)
  {
    o.Some? ==> Rank(o.value.alertType) == k
  }

  /** A check result that, if raised, is about the event's user, scores
      between 40 and 95, and, when the user has no history, is one of the
      two history-free alerts. */
  predicate Attributed(o: Option<FraudAlert>, event: LocationEvent, noHistory: bool)
  {
    o.Some? ==>
      o.value.userId == event.userId && 40.0 <= o.value.riskScore <= 95.0 &&
      (noHistory ==> o.value.alertType == RapidLocationUpdates || o.value.alertType == PoorGpsAccuracy)
  }

  predicate Ranked(alerts: seq<FraudAlert>)
  {
    forall i, j :: 0 <= i < j < |alerts| ==> Rank(alerts[i].alertType) < Rank(alerts[j].alertType)
  }

  /** `[alert for alert in checks if alert is not None]` over the five
      check results in evaluation order. */
  function Collect(speed: Option<FraudAlert>, teleport: Option<FraudAlert>, rapid: Option<FraudAlert>,
                   accuracy: Option<FraudAlert>, pattern: Option<FraudAlert>): seq<FraudAlert>
  {
    Somes([speed, teleport, rapid, accuracy, pattern])
  }

  /** The alerts `analyze_location_event` returns for `event` when the user's
      stored history is `history`: exactly the raised check results. */
  function Analyze(history: seq<LocationEvent>, event: LocationEvent, distance: DistanceKm,
                   updateCount: int, nowMillis: int): (alerts: seq<FraudAlert>)
    ensures |alerts| <= 5
    ensures forall a :: a in alerts <==>
      Some(a) in [CheckImpossibleSpeed(event.userId, event, history, distance),
                  CheckTeleportation(event.userId, event, history, distance),
                  CheckRapidUpdates(event.userId, updateCount, nowMillis),
                  CheckPoorAccuracy(event),
                  PatternAnomaly(event.userId, event, history)]
  {
    Collect(CheckImpossibleSpeed(event.userId, event, history, distance),
            CheckTeleportation(event.userId, event, history, distance),
            CheckRapidUpdates(event.userId, updateCount, nowMillis),
            CheckPoorAccuracy(event),
            PatternAnomaly(event.userId, event, history))
  }

  /** The type and attribution facts of each check, one check at a time. */
  lemma SpeedFacts(history: seq<LocationEvent>, event: LocationEvent, distance: DistanceKm)
    ensures var r := CheckImpossibleSpeed(event.userId, event, history, distance);
      HasRank(r, 0) && Attributed(r, event, history == [])
  {
  }

  lemma TeleportFacts(history: seq<LocationEvent>, event: LocationEvent, distance: DistanceKm)
    ensures var r := CheckTeleportation(event.userId, event, history, distance);
      HasRank(r, 1) && Attributed(r, event, history == [])
  {
  }

  lemma RapidFacts(event: LocationEvent, updateCount: int, nowMillis: int, noHistory: bool)
    ensures var r := CheckRapidUpdates(event.userId, updateCount, nowMillis);
      HasRank(r, 2) && Attributed(r, event, noHistory)
  {
  }

  lemma AccuracyFacts(event: LocationEvent, noHistory: bool)
    ensures var r := CheckPoorAccuracy(event);
      HasRank(r, 3) && Attributed(r, event, noHistory) && (r.Some? <==> event.accuracy > MinAccuracyMeters)
  {
  }

  lemma PatternFacts(history: seq<LocationEvent>, event: LocationEvent)
    ensures var r := PatternAnomaly(event.userId, event, history);
      HasRank(r, 4) && Attributed(r, event, history == [])
  {
  }

  /** Alerts come out in check order, so each check contributes at most one. */
  lemma AnalyzeKeepsCheckOrder(history: seq<LocationEvent>, event: LocationEvent, distance: DistanceKm,
                               updateCount: int, nowMillis: int)
    ensures Ranked(Analyze(history, event, distance, updateCount, nowMillis))
  {
    SpeedFacts(history, event, distance);
    TeleportFacts(history, event, distance);
    RapidFacts(event, updateCount, nowMillis, history == []);
    AccuracyFacts(event, history == []);
    PatternFacts(history, event);
    CollectKeepsCheckOrder(CheckImpossibleSpeed(event.userId, event, history, distance),
                           CheckTeleportation(event.userId, event, history, distance),
                           CheckRapidUpdates(event.userId, updateCount, nowMillis),
                           CheckPoorAccuracy(event),
                           PatternAnomaly(event.userId, event, history));
  }

  /** Results whose types follow the check order stay in that order. */
  lemma CollectKeepsCheckOrder(speed: Option<FraudAlert>, teleport: Option<FraudAlert>, rapid: Option<FraudAlert>,
                               accuracy: Option<FraudAlert>, pattern: Option<FraudAlert>)
    requires HasRank(speed, 0) && HasRank(teleport, 1) && HasRank(rapid, 2)
    requires HasRank(accuracy, 3) && HasRank(pattern, 4)
    ensures Ranked(Collect(speed, teleport, rapid, accuracy, pattern))
  {
    var results := [speed, teleport, rapid, accuracy, pattern];
    assert forall p :: 0 <= p < |results| ==> HasRank(results[p], p);
    SomesRankedFrom(results, 0);
  }

  /** Filtering out the checks that raised nothing keeps the raised alerts
      in check order: when the result at position `p` has rank `base + p`,
      the alerts kept are ranked in strictly increasing order from `base`. */
  lemma {:induction false} SomesRankedFrom(results: seq<Option<FraudAlert>>, base: nat)
    requires forall p :: 0 <= p < |results| ==> HasRank(results[p], base + p)
    ensures Ranked(Somes(results))
    ensures forall a :: a in Somes(results) ==> Rank(a.alertType) >= base
  {
    if results != [] {
      var rest := results[1..];
      assert forall p :: 0 <= p < |rest| ==> rest[p] == results[p + 1];
      SomesRankedFrom(rest, base + 1);
      if results[0].Some? {
        assert Somes(results) == [results[0].value] + Somes(rest);
      }
    }
  }

  /** Every alert is about the event's user and scores between 40 and 95;
      a user with no stored history can only get the two alerts that do
      not read it. */
  lemma AnalyzeAlertsAttributed(history: seq<LocationEvent>, event: LocationEvent, distance: DistanceKm,
                                updateCount: int, nowMillis: int)
    ensures forall a :: a in Analyze(history, event, distance, updateCount, nowMillis) ==>
      a.userId == event.userId && 40.0 <= a.riskScore <= 95.0 &&
      (history == [] ==> a.alertType == RapidLocationUpdates || a.alertType == PoorGpsAccuracy)
  {
    SpeedFacts(history, event, distance);
    TeleportFacts(history, event, distance);
    RapidFacts(event, updateCount, nowMillis, history == []);
    AccuracyFacts(event, history == []);
    PatternFacts(history, event);
    CollectAttributed(CheckImpossibleSpeed(event.userId, event, history, distance),
                      CheckTeleportation(event.userId, event, history, distance),
                      CheckRapidUpdates(event.userId, updateCount, nowMillis),
                      CheckPoorAccuracy(event),
                      PatternAnomaly(event.userId, event, history), event, history == []);
  }

  /** A property every raised result has, every collected alert has. */
  lemma CollectAttributed(speed: Option<FraudAlert>, teleport: Option<FraudAlert>, rapid: Option<FraudAlert>,
                          accuracy: Option<FraudAlert>, pattern: Option<FraudAlert>, event: LocationEvent,
                          noHistory: bool)
    requires Attributed(speed, event, noHistory) && Attributed(teleport, event, noHistory)
    requires Attributed(rapid, event, noHistory) && Attributed(accuracy, event, noHistory)
    requires Attributed(pattern, event, noHistory)
    ensures forall a :: a in Collect(speed, teleport, rapid, accuracy, pattern) ==> Attributed(Some(a), event, noHistory)
  {
  }

  /** An accuracy alert is among the results exactly when the event's
      accuracy is worse than 100 m, whatever the other checks decide. */
  lemma AnalyzeReportsPoorAccuracy(history: seq<LocationEvent>, event: LocationEvent, distance: DistanceKm,
                                   updateCount: int, nowMillis: int)
    ensures (exists a :: a in Analyze(history, event, distance, updateCount, nowMillis) && a.alertType == PoorGpsAccuracy)
      <==> event.accuracy > MinAccuracyMeters
  {
    SpeedFacts(history, event, distance);
    TeleportFacts(history, event, distance);
    RapidFacts(event, updateCount, nowMillis, history == []);
    AccuracyFacts(event, history == []);
    PatternFacts(history, event);
    OnlyFourthReportsAccuracy(CheckImpossibleSpeed(event.userId, event, history, distance),
                              CheckTeleportation(event.userId, event, history, distance),
                              CheckRapidUpdates(event.userId, updateCount, nowMillis),
                              CheckPoorAccuracy(event),
                              PatternAnomaly(event.userId, event, history));
  }

  /** Of results in check order, only the fourth can be an accuracy alert. */
  lemma OnlyFourthReportsAccuracy(speed: Option<FraudAlert>, teleport: Option<FraudAlert>, rapid: Option<FraudAlert>,
                                  accuracy: Option<FraudAlert>, pattern: Option<FraudAlert>)
    requires HasRank(speed, 0) && HasRank(teleport, 1) && HasRank(rapid, 2)
    requires HasRank(accuracy, 3) && HasRank(pattern, 4)
    ensures (exists a :: a in Collect(speed, teleport, rapid, accuracy, pattern) && a.alertType == PoorGpsAccuracy)
      <==> accuracy.Some?
  {
    if accuracy.Some? {
      assert accuracy.value in Collect(speed, teleport, rapid, accuracy, pattern);
    }
  }

  /** Speed needs more than 5 s between the events and teleportation less
      than 3 s, so no event gets both alerts. */
  lemma AnalyzeNeverSpeedAndTeleport(history: seq<LocationEvent>, event: LocationEvent, distance: DistanceKm,
                                     updateCount: int, nowMillis: int)
    ensures var alerts := Analyze(history, event, distance, updateCount, nowMillis);
      !((exists a :: a in alerts && a.alertType == ImpossibleSpeed) &&
        (exists b :: b in alerts && b.alertType == Teleportation))
  {
    SpeedFacts(history, event, distance);
    TeleportFacts(history, event, distance);
    RapidFacts(event, updateCount, nowMillis, history == []);
    AccuracyFacts(event, history == []);
    PatternFacts(history, event);
    SpeedAndTeleportExclusive(event.userId, event, history, distance);
    NotBothFirstAndSecond(CheckImpossibleSpeed(event.userId, event, history, distance),
                          CheckTeleportation(event.userId, event, history, distance),
                          CheckRapidUpdates(event.userId, updateCount, nowMillis),
                          CheckPoorAccuracy(event),
                          PatternAnomaly(event.userId, event, history));
  }

  /** Of results in check order, a speed alert can only come from the first
      and a teleportation alert only from the second. */
  lemma NotBothFirstAndSecond(speed: Option<FraudAlert>, teleport: Option<FraudAlert>, rapid: Option<FraudAlert>,
                              accuracy: Option<FraudAlert>, pattern: Option<FraudAlert>)
    requires HasRank(speed, 0) && HasRank(teleport, 1) && HasRank(rapid, 2)
    requires HasRank(accuracy, 3) && HasRank(pattern, 4)
    requires !(speed.Some? && teleport.Some?)
    ensures var alerts := Collect(speed, teleport, rapid, accuracy, pattern);
      !((exists a :: a in alerts && a.alertType == ImpossibleSpeed) &&
        (exists b :: b in alerts && b.alertType == Teleportation))
  {
  }

  class FraudDetector {
    const locationHistory: LocationHistory

    ghost predicate Valid()
      reads this, locationHistory
    {
      locationHistory.Valid()
    }

    constructor ()
      ensures Valid() && fresh(locationHistory)
      ensures locationHistory.maxHistory == MaxHistory && locationHistory.userLocations == map[]
    {
      locationHistory := new LocationHistory(MaxHistory);
    }

    /** `analyze_location_event`: the haversine distance, the rapid-update
        counter's value and the clock are supplied by the caller. The checks
        see the history without `event`; afterwards the event is appended. */
    method AnalyzeLocationEvent(event: LocationEvent, distance: DistanceKm, updateCount: int, nowMillis: int)
      returns (alerts: seq<FraudAlert>)
      requires Valid()
      modifies locationHistory
      ensures Valid()
      ensures alerts == Analyze(old(locationHistory.Locations(event.userId)), event, distance, updateCount, nowMillis)
      ensures locationHistory.userLocations ==
        old(locationHistory.userLocations)[event.userId :=
          DequeAppend(old(locationHistory.Locations(event.userId)), event, locationHistory.maxHistory)]
      ensures locationHistory.Locations(event.userId) ==
        DequeAppend(old(locationHistory.Locations(event.userId)), event, locationHistory.maxHistory)
      ensures forall u :: u != event.userId ==> locationHistory.Locations(u) == old(locationHistory.Locations(u))
    {
      var history := locationHistory.Locations(event.userId);
      var pattern := CheckPatternAnomalies(event.userId, event, history);
      alerts := Collect(CheckImpossibleSpeed(event.userId, event, history, distance),
                        CheckTeleportation(event.userId, event, history, distance),
                        CheckRapidUpdates(event.userId, updateCount, nowMillis),
                        CheckPoorAccuracy(event),
                        pattern);
      locationHistory.AddLocation(event.userId, event);
    }
  }

  /** The first event of a user the detector has not seen, whatever other
      users it holds, can only raise the history-free alerts, raises the
      accuracy alert exactly when its accuracy is poor, and leaves the
      other users' buffers alone. */
  method FirstEventOfUser(d: FraudDetector, event: LocationEvent, distance: DistanceKm, updateCount: int,
                          nowMillis: int)
    returns (alerts: seq<FraudAlert>)
    requires d.Valid() && event.userId !in d.locationHistory.userLocations
    modifies d.locationHistory
    ensures d.Valid()
    ensures forall a :: a in alerts ==> a.alertType == RapidLocationUpdates || a.alertType == PoorGpsAccuracy
    ensures (exists a :: a in alerts && a.alertType == PoorGpsAccuracy) <==> event.accuracy > MinAccuracyMeters
    ensures d.locationHistory.Locations(event.userId) == DequeAppend([], event, d.locationHistory.maxHistory)
    ensures forall u :: u != event.userId ==> d.locationHistory.Locations(u) == old(d.locationHistory.Locations(u))
  {
    assert d.locationHistory.Locations(event.userId) == [];
    alerts := d.AnalyzeLocationEvent(event, distance, updateCount, nowMillis);
    AnalyzeAlertsAttributed([], event, distance, updateCount, nowMillis);
    AnalyzeReportsPoorAccuracy([], event, distance, updateCount, nowMillis);
  }
}
