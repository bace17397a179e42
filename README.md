# Location-game fraud detection and dashboard queries, modelled in Dafny

This project models two parts of a location-based game's analytics backend:

- **The real-time fraud detector** (`aws-realtime/kinesis_fraud_detector.py`):
  - the per-user bounded location history;
  - the five fraud checks (impossible speed, teleportation, rapid updates,
    poor GPS accuracy, movement-pattern anomalies);
  - `analyze_location_event`, which runs the checks in order and then
    records the event;
  - the decision part of `AlertingService.send_alert`: suppression by a
    recent alert, the cooldown, and the message severity.
- **The dashboard's Druid query builders** (`dashboard-api/app.py`):
  `DruidQueryBuilder.build_timeseries_query` and `build_topn_query`.

Modules:

| file | module | content |
|---|---|---|
| `wrappers.dfy` | `Wrappers` | `Option` and the filter that keeps the `Some` values in order |
| `events.dfy` | `Events` | `LocationEvent`, `FraudAlert`, the alert types and their names |
| `history.dfy` | `History` | the `deque(maxlen=…)` semantics and the `LocationHistory` class |
| `checks.dfy` | `Checks` | the five checks and the pattern statistics |
| `detector.dfy` | `Detector` | `analyze_location_event` as a function and as a method of `FraudDetector` |
| `alerting.dfy` | `Alerting` | severity, cooldown, alert key, suppression, the cooldown store |
| `druidquery.dfy` | `DruidQuery` | JSON values, the query record, the two query builders and readers of their results |

The model mirrors the source's form:

- `LocationHistory` updates a dictionary in place, so it is a class.
  Its map field is reassigned by `AddLocation`.
- `FraudDetector` owns a history and `AlertingService` owns a cooldown
  store, so both are classes too.
- The pattern check's interval loop is a method with a loop invariant.
  It is proved equal to the function that specifies it.
- The checks and the query builders compute values only, so they are
  functions.

Python floats are modelled as Dafny reals, without rounding. Timestamps are
integer milliseconds.

### Thresholds and behaviour as the code has them

All in `aws-realtime/kinesis_fraud_detector.py`:

| topic | value in the code | line |
|---|---|---|
| history capacity per user | 50 events | 51 |
| impossible speed | above 50 km/h with more than 5 s between events; risk `min(95, 50 + excess)` | 114, 156, 160 |
| teleportation | more than 1 km in less than 3 s; risk 90 | 118-119, 188, 190 |
| rapid updates | more than 20 updates in a minute; risk 70 | 115, 210, 214 |
| poor GPS accuracy | worse than 100 m; risk 40 | 117, 227, 231 |
| identical coordinates | more than 3 of the last ten stored positions; risk 75 | 254, 258 |
| robotic timing | interval variance below 1000 and positive mean; risk 80 | 279, 283 |
| result | the list of raised alerts, in check order | 308 |
| storing the event | after the checks | 311 |
| `MAX_TILES_PER_MINUTE` | declared, never used | 116 |

## Model

| member | source | states |
|---|---|---|
| Wrappers.Somes | aws-realtime/kinesis_fraud_detector.py:307-308 | the kept alerts are exactly the non-`None` check results, and there are no more of them than checks |
| Wrappers.SomesConcat | aws-realtime/kinesis_fraud_detector.py:308 | filtering distributes over concatenation, so the kept values keep their order and multiplicity |
| Wrappers.SomesOfOne | aws-realtime/kinesis_fraud_detector.py:308 | a single `Some` entry is kept as its value and a `None` entry is dropped |
| Events.NameInjective | aws-realtime/kinesis_fraud_detector.py:158-292 | distinct alert types are written with distinct `alert_type` strings |
| Events.AlertType.Name | aws-realtime/kinesis_fraud_detector.py:158-292 | every alert type is written as a non-empty `alert_type` string |
| History.LastN | aws-realtime/kinesis_fraud_detector.py:51-53 | the bounded buffer's content is the newest `min(len, n)` elements, as a suffix |
| History.DequeAppend | aws-realtime/kinesis_fraud_detector.py:55-56 | appending to a non-full deque extends it; appending to a full one drops exactly the oldest element; the new event is always last; the length never exceeds the capacity |
| History.LastNThenAppend | aws-realtime/kinesis_fraud_detector.py:55-56 | trimming to the newest n and then appending gives what appending and then trimming gives |
| History.AppendAllTrimmed | aws-realtime/kinesis_fraud_detector.py:55-56 | a buffer that was trimmed before further appends ends as if it had never been trimmed |
| History.AppendAllKeepsNewest | aws-realtime/kinesis_fraud_detector.py:51-56 | after any sequence of appends, the buffer is exactly the last `maxlen` events ever appended, in arrival order |
| History.Recent | aws-realtime/kinesis_fraud_detector.py:58-60 | `list[-count:]` is a suffix: `min(count, len)` elements for a positive count, the whole list for 0, and a dropped prefix for a negative count |
| History.BoundSurvivesUpdate | aws-realtime/kinesis_fraud_detector.py:55-56 | replacing one user's buffer by one within the capacity keeps every user's buffer within the capacity |
| History.LocationHistory.constructor | aws-realtime/kinesis_fraud_detector.py:51-53 | a new history has the given capacity and no users |
| History.LocationHistory.Locations | aws-realtime/kinesis_fraud_detector.py:58-60 | a user never seen has an empty buffer; no buffer of a valid history exceeds its capacity |
| History.LocationHistory.AddLocation | aws-realtime/kinesis_fraud_detector.py:55-56 | the user's buffer becomes the deque append of the event; every other user's buffer is unchanged; capacity is respected |
| History.LocationHistory.GetRecentLocations | aws-realtime/kinesis_fraud_detector.py:58-60 | an unknown user gets `[]`; otherwise the newest `count` events of the user, as a suffix of the buffer |
| Checks.CheckImpossibleSpeed | aws-realtime/kinesis_fraud_detector.py:136-171 | an alert is raised iff there is a previous event more than 5 s earlier and the implied speed exceeds 50 km/h; its risk is `min(95, speed)`, which lies in (50, 95]; it carries the user, the event time and the position |
| Checks.SpeedAlert | aws-realtime/kinesis_fraud_detector.py:147-171 | given the previous event, an alert is raised iff more than 5 s passed and the implied speed exceeds 50 km/h; its risk is `min(95, speed)`, in (50, 95] |
| Checks.SpeedAboveLimit | aws-realtime/kinesis_fraud_detector.py:151-156 | for a positive time, the speed in km/h exceeds 50 iff distance·72 exceeds the time in seconds |
| Checks.SpeedAlertWithoutDivision | aws-realtime/kinesis_fraud_detector.py:147-156 | the speed rule, restated without division: the alert fires iff dt > 5 s and distance·72 > dt |
| Checks.CheckTeleportation | aws-realtime/kinesis_fraud_detector.py:173-203 | an alert is raised iff there is a previous event, the jump exceeds 1 km and less than 3 s passed; risk 90 |
| Checks.SpeedAndTeleportExclusive | aws-realtime/kinesis_fraud_detector.py:156-188 | no event raises both a speed alert and a teleportation alert |
| Checks.CheckRapidUpdates | aws-realtime/kinesis_fraud_detector.py:205-223 | an alert is raised iff the one-minute update counter exceeds 20; risk 70; it has no location and is stamped with the clock |
| Checks.CheckPoorAccuracy | aws-realtime/kinesis_fraud_detector.py:225-240 | an alert is raised iff the accuracy exceeds 100 m; risk 40; it is attributed to the event's own user |
| Checks.IdenticalCount | aws-realtime/kinesis_fraud_detector.py:250-252 | the count of stored positions within 0.000001° of the current one is at most the number of stored events, and equals it when all of them match |
| Checks.Variance | aws-realtime/kinesis_fraud_detector.py:275-276 | the variance of the intervals is never negative |
| Checks.SumSquaredDeviation | aws-realtime/kinesis_fraud_detector.py:276 | the sum of squared deviations is never negative |
| Checks.PatternAnomaly | aws-realtime/kinesis_fraud_detector.py:242-292 | no alert with fewer than 5 events; identical coordinates (risk 75) iff more than 3 of the last ten match; otherwise robotic timing (risk 80) iff the interval variance is below 1000 and the mean interval is positive |
| Checks.CheckPatternAnomalies | aws-realtime/kinesis_fraud_detector.py:242-292 | the method with the interval loop returns exactly `PatternAnomaly` |
| Checks.TimeIntervals | aws-realtime/kinesis_fraud_detector.py:269-272 | the loop produces one interval per pair of consecutive events, each being the later timestamp minus the earlier one |
| Checks.PatternSeesOnlyLastTen | aws-realtime/kinesis_fraud_detector.py:244 | events older than the last ten have no influence on the pattern check |
| Checks.SumOfConstant | aws-realtime/kinesis_fraud_detector.py:275 | the sum of n equal intervals is n times the interval |
| Checks.NoDeviationFromConstant | aws-realtime/kinesis_fraud_detector.py:276 | equal intervals have no squared deviation from their own value |
| Checks.ConstantStatistics | aws-realtime/kinesis_fraud_detector.py:275-276 | equal intervals have that interval as their mean and 0 as their variance |
| Checks.RecentIntervalsConstant | aws-realtime/kinesis_fraud_detector.py:244-272 | when consecutive stored events are a constant gap apart, the intervals of the last ten are non-empty and all equal that gap |
| Checks.RegularTimingIsRobotic | aws-realtime/kinesis_fraud_detector.py:267-290 | with at least 5 stored events, at most 3 of them identical, and a constant positive gap, a robotic-timing alert is raised |
| Detector.Analyze | aws-realtime/kinesis_fraud_detector.py:294-313 | the returned alerts are exactly the raised check results, at most five of them |
| Detector.AnalyzeKeepsCheckOrder | aws-realtime/kinesis_fraud_detector.py:298-308 | alerts come out in check order (speed, teleport, rapid, accuracy, pattern), so each check contributes at most one |
| Detector.CollectKeepsCheckOrder | aws-realtime/kinesis_fraud_detector.py:298-308 | results whose types follow the check positions 0..4 stay in strictly increasing check order after filtering |
| Detector.SomesRankedFrom | aws-realtime/kinesis_fraud_detector.py:307-308 | filtering out `None` from results ranked by position keeps the raised alerts strictly ordered by rank, none ranked below the first position |
| Detector.SpeedFacts | aws-realtime/kinesis_fraud_detector.py:136-171 | a speed alert has the first check position, is for the event's user, scores in [40, 95] and needs history |
| Detector.TeleportFacts | aws-realtime/kinesis_fraud_detector.py:173-203 | a teleportation alert has the second check position, is for the event's user, scores in [40, 95] and needs history |
| Detector.RapidFacts | aws-realtime/kinesis_fraud_detector.py:205-223 | a rapid-updates alert has the third check position, is for the event's user and scores in [40, 95] |
| Detector.AccuracyFacts | aws-realtime/kinesis_fraud_detector.py:225-240 | an accuracy alert has the fourth check position, is for the event's user, scores in [40, 95], and is raised iff the accuracy exceeds 100 m |
| Detector.PatternFacts | aws-realtime/kinesis_fraud_detector.py:242-292 | a pattern alert has the fifth check position, is for the event's user, scores in [40, 95] and needs history |
| Detector.AnalyzeAlertsAttributed | aws-realtime/kinesis_fraud_detector.py:294-313 | every alert is for the event's user with a risk in [40, 95]; a user with no history can only get rapid-update or accuracy alerts |
| Detector.CollectAttributed | aws-realtime/kinesis_fraud_detector.py:307-308 | filtering keeps user, score range and history-freedom shared by all five check results |
| Detector.AnalyzeReportsPoorAccuracy | aws-realtime/kinesis_fraud_detector.py:294-313 | the analysed alerts contain a poor-accuracy alert iff the event's accuracy exceeds 100 m |
| Detector.OnlyFourthReportsAccuracy | aws-realtime/kinesis_fraud_detector.py:298-308 | when only the fourth check can report poor accuracy, the collected alerts contain such an alert iff that check raised one |
| Detector.AnalyzeNeverSpeedAndTeleport | aws-realtime/kinesis_fraud_detector.py:294-313 | no analysed event yields both an impossible-speed and a teleportation alert |
| Detector.NotBothFirstAndSecond | aws-realtime/kinesis_fraud_detector.py:298-308 | when the first two checks never both fire, the collected alerts never hold both a speed and a teleportation alert |
| Detector.FraudDetector.constructor | aws-realtime/kinesis_fraud_detector.py:108-109 | a new detector owns a fresh, empty history of capacity 50 |
| Detector.FraudDetector.AnalyzeLocationEvent | aws-realtime/kinesis_fraud_detector.py:294-313 | the alerts are computed from the history as it was before the event; afterwards the event is appended to its user's buffer and every other buffer is unchanged |
| Detector.FirstEventOfUser | aws-realtime/kinesis_fraud_detector.py:294-313 | for a user the detector has not seen, whatever other users it holds: only history-free alerts, an accuracy alert iff the accuracy exceeds 100 m, the user's buffer becomes the one event, and other users' buffers are unchanged |
| Alerting.SeverityOf | aws-realtime/kinesis_fraud_detector.py:454 | HIGH iff the score is at least 80, MEDIUM iff it is in [60, 80), LOW iff it is below 60 |
| Alerting.Severity.Name | aws-realtime/kinesis_fraud_detector.py:454 | every severity is written as a non-empty name |
| Alerting.SeverityMonotone | aws-realtime/kinesis_fraud_detector.py:454 | a higher score never gets a lower severity |
| Alerting.CooldownSeconds | aws-realtime/kinesis_fraud_detector.py:442-443 | 60 s iff the score is at least 90, otherwise 300 s |
| Alerting.AlertKey | aws-realtime/kinesis_fraud_detector.py:435 | the key is `alert:` + user + `:` + type name |
| Alerting.NamesHaveNoColon | aws-realtime/kinesis_fraud_detector.py:435 | no alert type's name contains a colon |
| Alerting.AlertKeyIdentifiesUserAndType | aws-realtime/kinesis_fraud_detector.py:435 | two alerts share a cooldown key iff they have the same user and type, even when user ids contain colons |
| Alerting.ColonInsideName | aws-realtime/kinesis_fraud_detector.py:435 | users of different lengths never produce the same key |
| Alerting.Message | aws-realtime/kinesis_fraud_detector.py:446-455 | the message carries the alert's fields unchanged plus the severity of its score |
| Alerting.Decide | aws-realtime/kinesis_fraud_detector.py:434-444 | suppress iff a recent alert exists and the score is below 90; otherwise publish under the alert's key with the score's cooldown |
| Alerting.HighRiskAlwaysPublished | aws-realtime/kinesis_fraud_detector.py:438-454 | a score of 90 or more is always published, as HIGH, with the 60 s cooldown |
| Alerting.Step | aws-realtime/kinesis_fraud_detector.py:434-444 | suppression leaves the store unchanged; publishing sets the key to expire after the cooldown |
| Alerting.CooldownWindow | aws-realtime/kinesis_fraud_detector.py:434-444 | after a publish at t, a same-key alert below 90 is suppressed exactly until t + cooldown |
| Alerting.CooldownIsPerKey | aws-realtime/kinesis_fraud_detector.py:434-444 | a publish does not affect alerts of another user or type |
| Alerting.AlertingService.constructor | aws-realtime/kinesis_fraud_detector.py:424-429 | the service starts over the store Redis holds when it connects, which may already contain unexpired keys |
| Alerting.AlertingService.SendAlert | aws-realtime/kinesis_fraud_detector.py:431-455 | returns nothing iff an unexpired key exists and the score is below 90; otherwise returns the message; the store moves as `Step` says |
| DruidQuery.BuildTimeseriesQuery | dashboard-api/app.py:69-98 | query type "timeseries", the data source and granularity as given, the single interval `start/end`, the 60000 ms timeout; the given aggregations, or the default pair when none or empty; no topN keys; the "and" filter over the filters iff they are non-empty, reading back as those filters; dimensions iff the dimensions are non-empty, unchanged |
| DruidQuery.BuildTopNQuery | dashboard-api/app.py:101-130 | query type "topN", granularity "all", the single interval `start/end`, the 60000 ms timeout; dimension, metric and threshold passed through; always the default aggregation pair; never dimensions; the "and" filter over the filters iff they are non-empty, reading back as those filters |
| DruidQuery.FirstIndex | dashboard-api/app.py:83 | the position of the first occurrence of a character, or none iff it does not occur |
| DruidQuery.SplitInterval | dashboard-api/app.py:83 | splitting at the first '/' yields a '/'-free start that rejoins to the original interval; there is no split iff there is no '/' |
| DruidQuery.SplitIntervalInverse | dashboard-api/app.py:83 | splitting undoes joining whenever the start has no '/' |
| DruidQuery.QueriesCarryInterval | dashboard-api/app.py:83-116 | both builders' queries carry the requested start and end |
| DruidQuery.BuildersAgree | dashboard-api/app.py:69-130 | a timeseries query with default aggregations and no dimensions equals the topN query over the same arguments with the topN keys removed and the requested granularity: same data source, interval, aggregations, filter and timeout |
| DruidQuery.DefaultArguments | dashboard-api/app.py:73-107 | the defaulted granularity is "hour" and the defaulted threshold is 10 |

## Left out

- `FraudDetector.haversine_distance` is not modelled. It uses trigonometry on floats. Each check receives the distance function as a parameter `distance`.
- `RedisCache.increment_counter` is not modelled. It depends on Redis and the clock. `CheckRapidUpdates` takes the counter's value (`updateCount`) and the clock (`nowMillis`) as inputs.
- `RedisCache.set_user_state` and `get_user_state` are not modelled. The core never calls them.
- `KinesisConsumer`, `main` and the thread pool are not modelled. They do network I/O and concurrency.
- Publishing to SNS, logging, `json.dumps` and the exception handler of `send_alert` are not modelled. They are I/O. `SendAlert` returns the message it would publish.
- Redis `GET`/`SETEX` are modelled as a map from key to expiry millisecond. Eviction and connection errors are not modelled.
- `MAX_TILES_PER_MINUTE` is declared but never used by the code, so it has no counterpart here.
- Floats are modelled as reals. IEEE rounding of the speed, mean and variance computations is not modelled.
- `Events.Details`: the `coordinate` detail of an identical-coordinates alert is kept as a pair. The code formats it as the string `"lat,lon"`.
- The dashboard's Flask endpoints, the `cache_result` decorator, `execute_druid_query` and the health checks are not modelled. They involve HTTP, Redis, hashing and wall-clock formatting.
- The Glue ETL pipeline (`aws-etl/glue_etl_pipeline.py`) is not part of this model.
- The query body is a record with one field per JSON key; a key that only some queries have is an optional field. Key order in the JSON object and serialisation are not modelled.
- `DruidQuery.BuildTimeseriesQuery`: filter elements and aggregations are typed JSON values. Python does not check the element types of these lists.
- Default arguments ("hour", 10) become the constants `DefaultGranularity` and `DefaultThreshold`, which callers pass explicitly. Dafny functions have no default arguments.
