/** The decision part of `AlertingService.send_alert`: whether an alert is
    suppressed by an earlier alert of the same user and type, how long the
    cooldown it starts lasts, and the severity its message carries. Redis is
    modelled as a map from alert key to the millisecond at which the key
    expires; the clock is a parameter. Publishing to SNS and logging are not
    modelled. */
module Alerting {
  import opened Wrappers
  import opened Events

  /** The alert's risk score at or above which a recent alert never
      suppresses it and its cooldown is the short one. */
  const HighRiskScore: real := 90.0
  const ShortCooldownSeconds: nat := 60
  const LongCooldownSeconds: nat := 300

  datatype Severity = High | Medium | Low
  {
    function Name(): (s: string)
      ensures |s| > 0
    {
      match this
      case High => "HIGH"
      case Medium => "MEDIUM"
      case Low => "LOW"
    }

    /** Low < Medium < High. */
    function Level(): nat
    {
      match this
      case Low => 0
      case Medium => 1
      case High => 2
    }
  }

  /** The `severity` field: HIGH from 80, MEDIUM from 60, LOW below. */
  function SeverityOf(score: real): (s: Severity)
    ensures s == High <==> score >= 80.0
    ensures s == Medium <==> 60.0 <= score < 80.0
    ensures s == Low <==> score < 60.0
  {
    if score >= 80.0 then High else if score >= 60.0 then Medium else Low
  }

  /** A higher risk score never gets a lower severity. */
  lemma SeverityMonotone(a: real, b: real)
    requires a <= b
    ensures SeverityOf(a).Level() <= SeverityOf(b).Level()
  {
  }

  /** The cooldown, in seconds, that publishing an alert starts. */
  function CooldownSeconds(score: real): (c: nat)
    ensures c == ShortCooldownSeconds <==> score >= HighRiskScore
    ensures c == LongCooldownSeconds <==> score < HighRiskScore
  {
    if score >= HighRiskScore then ShortCooldownSeconds else LongCooldownSeconds
  }

  /** `f"alert:{user_id}:{alert_type}"`. */
  function AlertKey(alert: FraudAlert): (k: string)
    ensures |k| == 7 + |alert.userId| + |alert.alertType.Name()|
  {
    "alert:" + alert.userId + ":" + alert.alertType.Name()
  }

  predicate NoColon(s: string)
  {
    ':' !in s
  }

  lemma NamesHaveNoColon(t: AlertType)
    ensures NoColon(t.Name())
  {
  }

  /** Two alerts share a cooldown key exactly when they have the same user
      and the same type: no alert type's name contains a colon, so the last
      colon of the key separates the user from the type, whatever colons the
      user id itself holds. */
  lemma AlertKeyIdentifiesUserAndType(a: FraudAlert, b: FraudAlert)
    ensures AlertKey(a) == AlertKey(b) <==> a.userId == b.userId && a.alertType == b.alertType
  {
    if AlertKey(a) == AlertKey(b) {
      if |a.userId| < |b.userId| {
        ColonInsideName(a, b);
      } else if |b.userId| < |a.userId| {
        ColonInsideName(b, a);
      } else {
        var k := AlertKey(a);
        assert a.userId == k[6..6 + |a.userId|];
        assert b.userId == AlertKey(b)[6..6 + |b.userId|];
        assert a.alertType.Name() == k[7 + |a.userId|..];
        assert b.alertType.Name() == AlertKey(b)[7 + |b.userId|..];
        NameInjective(a.alertType, b.alertType);
      }
    }
  }

  /** Alerts whose users have different lengths have different keys: equal
      keys would put the colon that follows the longer user inside the type
      name of the other. */
  lemma ColonInsideName(a: FraudAlert, b: FraudAlert)
    requires |a.userId| < |b.userId|
    ensures AlertKey(a) != AlertKey(b)
  {
    var name := a.alertType.Name();
    NamesHaveNoColon(a.alertType);
    if |AlertKey(b)| == |AlertKey(a)| {
      var p := 6 + |b.userId|;
      assert AlertKey(b)[p] == ':';
      assert name == AlertKey(a)[7 + |a.userId|..];
      assert AlertKey(a)[p] == name[p - 7 - |a.userId|];
    }
  }

  /** The message dictionary published for an alert. */
  datatype AlertMessage = AlertMessage(
    alertType: string,
    userId: string,
    riskScore: real,
    timestamp: int,
    details: Details,
    location: Option<(real, real)>,
    severity: string)

  function Message(alert: FraudAlert): (m: AlertMessage)
    ensures m.alertType == alert.alertType.Name() && m.userId == alert.userId
    ensures m.riskScore == alert.riskScore && m.timestamp == alert.timestamp
    ensures m.details == alert.details && m.location == alert.location
    ensures m.severity == SeverityOf(alert.riskScore).Name()
  {
    AlertMessage(alert.alertType.Name(), alert.userId, alert.riskScore, alert.timestamp,
                 alert.details, alert.location, SeverityOf(alert.riskScore).Name())
  }

  /** What `send_alert` does with an alert: return early, or set the
      cooldown key and publish the message. */
  datatype Decision =
    | Suppress
    | Publish(key: string, cooldownSeconds: nat, message: AlertMessage)

  /** The decision, given whether the alert's key is still present in the
      cache (`recent_alert` is truthy). */
  function Decide(alert: FraudAlert, recentAlert: bool): (d: Decision)
    ensures d.Suppress? <==> recentAlert && alert.riskScore < HighRiskScore
    ensures d.Publish? ==> d.key == AlertKey(alert) && d.message == Message(alert)
    ensures d.Publish? ==> d.cooldownSeconds == CooldownSeconds(alert.riskScore)
  {
    if recentAlert && alert.riskScore < HighRiskScore then Suppress
    else Publish(AlertKey(alert), CooldownSeconds(alert.riskScore), Message(alert))
  }

  /** An alert of risk 90 or more is always published, as HIGH, with the
      one-minute cooldown, whatever was sent before. */
  lemma HighRiskAlwaysPublished(alert: FraudAlert, recentAlert: bool)
    requires alert.riskScore >= HighRiskScore
    ensures Decide(alert, recentAlert).Publish?
    ensures Decide(alert, recentAlert).cooldownSeconds == ShortCooldownSeconds
    ensures Decide(alert, recentAlert).message.severity == "HIGH"
  {
  }

  /** Cooldown keys and the millisecond each one expires at. */
  type Cooldowns = map<string, int>

  /** Redis `GET` of the key: present while the clock is before its expiry. */
  predicate Active(cooldowns: Cooldowns, key: string, nowMillis: int)
  {
    key in cooldowns && nowMillis < cooldowns[key]
  }

  /** `send_alert` on the cache state `cooldowns` at time `nowMillis`: the
      decision and the cache state afterwards (`SETEX` with the cooldown). */
  function Step(cooldowns: Cooldowns, alert: FraudAlert, nowMillis: int): (r: (Decision, Cooldowns))
    ensures r.0 == Decide(alert, Active(cooldowns, AlertKey(alert), nowMillis))
    ensures r.0.Suppress? ==> r.1 == cooldowns
    ensures r.0.Publish? ==> r.1 == cooldowns[AlertKey(alert) := nowMillis + 1000 * r.0.cooldownSeconds]
  {
    var d := Decide(alert, Active(cooldowns, AlertKey(alert), nowMillis));
    match d
    case Suppress => (d, cooldowns)
    case Publish(key, seconds, _) => (d, cooldowns[key := nowMillis + 1000 * seconds])
  }

  /** After an alert is published at `t`, another alert of the same user and
      type that scores below 90 is suppressed until the cooldown runs out
      and published again from then on. */
  lemma CooldownWindow(cooldowns: Cooldowns, first: FraudAlert, t: int, second: FraudAlert, u: int)
    requires Step(cooldowns, first, t).0.Publish?
    requires second.userId == first.userId && second.alertType == first.alertType
    requires second.riskScore < HighRiskScore
    ensures var after := Step(cooldowns, first, t).1;
      Step(after, second, u).0.Suppress? <==> u < t + 1000 * CooldownSeconds(first.riskScore)
  {
    AlertKeyIdentifiesUserAndType(first, second);
  }

  /** An alert of another user or another type is unaffected by the
      cooldown a published alert starts. */
  lemma CooldownIsPerKey(cooldowns: Cooldowns, first: FraudAlert, t: int, second: FraudAlert, u: int)
    requires second.userId != first.userId || second.alertType != first.alertType
    ensures var after := Step(cooldowns, first, t).1;
      Step(after, second, u).0 == Step(cooldowns, second, u).0
  {
    AlertKeyIdentifiesUserAndType(first, second);
  }

  /** The cooldown-and-publish part of `AlertingService`; the SNS client is
      not modelled, the published message is returned instead. */
  class AlertingService {
    var cooldowns: Cooldowns

    /** The store is whatever the Redis server holds when the service
        connects; it may keep unexpired keys from an earlier run. */
    constructor (initial: Cooldowns)
      ensures cooldowns == initial
    {
      cooldowns := initial;
    }

    /** `send_alert` at time `nowMillis`: `None` when the alert is
        suppressed, otherwise the message to publish. */
    method SendAlert(alert: FraudAlert, nowMillis: int) returns (published: Option<AlertMessage>)
      modifies this
      ensures published.None? <==> Active(old(cooldowns), AlertKey(alert), nowMillis) && alert.riskScore < HighRiskScore
      ensures published.Some? ==> published.value == Message(alert)
      ensures cooldowns == Step(old(cooldowns), alert, nowMillis).1
    {
      var key := AlertKey(alert);
      var recentAlert := key in cooldowns && nowMillis < cooldowns[key];
      if recentAlert && alert.riskScore < HighRiskScore {
        return None;
      }
      var cooldown := if alert.riskScore >= HighRiskScore then ShortCooldownSeconds else LongCooldownSeconds;
      cooldowns := cooldowns[key := nowMillis + 1000 * cooldown];
      published := Some(Message(alert));
    }
  }
}
