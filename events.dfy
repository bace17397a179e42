/** The two records the fraud detector works on: the location event read
    from the game's event stream and the fraud alert it emits. Python floats
    are modelled as reals (no IEEE rounding); timestamps are integer
    milliseconds. */
module Events {
  import opened Wrappers

  datatype LocationEvent = LocationEvent(
    userId: string,
    timestamp: int,          // milliseconds
    latitude: real,
    longitude: real,
    accuracy: real,          // metres
    speed: Option<real>,
    platform: string,
    sessionId: string,
    deviceId: string)

  /** The `alert_type` strings the detector can produce, as a closed set. */
  datatype AlertType =
    | ImpossibleSpeed
    | Teleportation
    | RapidLocationUpdates
    | PoorGpsAccuracy
    | IdenticalCoordinates
    | RoboticTiming
  {
    /** The string the detector writes into the alert. */
    function Name(): (s: string)
      ensures |s| > 0
    {
      match this
      case ImpossibleSpeed => "impossible_speed"
      case Teleportation => "teleportation"
      case RapidLocationUpdates => "rapid_location_updates"
      case PoorGpsAccuracy => "poor_gps_accuracy"
      case IdenticalCoordinates => "identical_coordinates"
      case RoboticTiming => "robotic_timing"
    }
  }

  /** Distinct alert types have distinct names, so the name identifies the type. */
  lemma NameInjective(a: AlertType, b: AlertType)
    requires a.Name() == b.Name()
    ensures a == b
  {
  }

  /** The `details` dictionary of each alert type, one variant per type. */
  datatype Details =
    | SpeedDetails(calculatedSpeedKmh: real, distanceKm: real, timeDiffSeconds: real, maxAllowedSpeed: real)
    | TeleportDetails(distanceKm: real, timeDiffSeconds: real, thresholdKm: real, thresholdSeconds: real)
    | RapidUpdateDetails(updatesPerMinute: int, threshold: int)
    | AccuracyDetails(accuracyMeters: real, thresholdMeters: real)
    | IdenticalDetails(identicalCount: nat, coordinate: (real, real))
    | TimingDetails(timingVariance: real, averageIntervalMs: real)

  datatype FraudAlert = FraudAlert(
    userId: string,
    alertType: AlertType,
    riskScore: real,
    timestamp: int,
    details: Details,
    location: Option<(real, real)>)

  /** The `(latitude, longitude)` pair an alert carries for an event. */
  function Position(e: LocationEvent): (real, real)
  {
    (e.latitude, e.longitude)
  }
}
