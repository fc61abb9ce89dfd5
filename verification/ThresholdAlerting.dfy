/** The metric alert service with configurable limits (services/AlertService.java): for each
    of CPU, Disk and RAM whose usage reaches its limit, notify and record an alert unless one
    was recorded for the same (ip, type) within the last 24 hours. The step function, the
    message and the closed form of a round are shared with the fixed-limit variant. */
module ThresholdAlerting {
  import opened Domain
  import opened Text
  import opened AlertLookup
  import opened Repositories
  import opened Thresholds

  const CPU: string := "CPU"
  const DISK: string := "Disk"
  const RAM: string := "RAM"

  const DEFAULT_CPU_LIMIT: real := 95.0
  const DEFAULT_DISK_LIMIT: real := 85.0
  const DEFAULT_RAM_LIMIT: real := 80.0

  /** `getMetricValue`: the usage a type names, 0.0 for any other type. */
  function GetMetricValue(metricType: string, m: Metrics): real
  {
    if metricType == CPU then m.cpuUsage
    else if metricType == DISK then m.diskUsage
    else if metricType == RAM then m.ramUsage
    else 0.0
  }

  /** Position of a metric type in the order the service checks them. */
  function Rank(metricType: string): nat
  {
    if metricType == CPU then 0 else if metricType == DISK then 1 else 2
  }

  /** `"Alert! %s (%s) has high %s usage: %.2f%%"`; `fmt` renders `%.2f`. */
  function UsageMessage(m: Metrics, metricType: string, fmt: real -> string): string
  {
    "Alert! " + m.hostname + " (" + m.ip + ") has high " + metricType + " usage: "
    + fmt(GetMetricValue(metricType, m)) + "%"
  }

  /** The alert document a firing saves: no port, stamped `now`, `date` where the writer sets one. */
  function UsageAlert(m: Metrics, metricType: string, now: int, date: Option<int>): Alert
  {
    Alert(m.hostname, m.ip, metricType, None, now, date)
  }

  function UsageNotification(m: Metrics, metricType: string, fmt: real -> string): Notification
  {
    Notification(metricType, UsageMessage(m, metricType, fmt))
  }

  /** The history under (ip, type) holds nothing newer than 24 hours before `now`. */
  predicate Quiet(alerts: seq<Alert>, ip: string, metricType: string, now: int)
  {
    NoneAfter(alerts, ByType(ip, metricType), WindowStart(now))
  }

  /** `checkAndSendAlertForMetric`: nothing when the latest alert under (ip, type) is newer
      than the cutoff; otherwise one notification, then one alert record. */
  function MetricAlertStep(e: Effects, m: Metrics, metricType: string, now: int, date: Option<int>,
                           fmt: real -> string): (r: Effects)
    ensures Quiet(e.alerts, m.ip, metricType, now) ==>
              r == Effects(e.alerts + [UsageAlert(m, metricType, now, date)],
                           e.outbox + [UsageNotification(m, metricType, fmt)])
    ensures !Quiet(e.alerts, m.ip, metricType, now) ==> r == e
  {
    ServiceFiresIff(e.alerts, ByType(m.ip, metricType), WindowStart(now));
    if ServiceSuppresses(LatestAlert(e.alerts, ByType(m.ip, metricType)), WindowStart(now)) then e
    else Effects(e.alerts + [UsageAlert(m, metricType, now, date)],
                 e.outbox + [UsageNotification(m, metricType, fmt)])
  }

  /** One round: the step for each breached type, in order. */
  function MetricAlerts(e: Effects, types: seq<string>, m: Metrics, now: int, date: Option<int>,
                        fmt: real -> string): Effects
    decreases |types|
  {
    if types == [] then e
    else MetricAlertStep(MetricAlerts(e, types[..|types| - 1], m, now, date, fmt),
                         m, types[|types| - 1], now, date, fmt)
  }

  predicate Distinct(types: seq<string>)
  {
    forall i, j :: 0 <= i < j < |types| ==> types[i] != types[j]
  }

  /** `r` is `s` with some elements deleted: what is left keeps its order. */
  predicate SubsequenceOf(r: seq<string>, s: seq<string>)
    decreases |s|
  {
    r == [] ||
    (s != [] &&
     ((r[|r| - 1] == s[|s| - 1] && SubsequenceOf(r[..|r| - 1], s[..|s| - 1])) ||
      SubsequenceOf(r, s[..|s| - 1])))
  }

  /** The breached types that fire: those whose history under (ip, type) is quiet, in order. */
  function FiringTypes(alerts: seq<Alert>, types: seq<string>, ip: string, now: int): (r: seq<string>)
    ensures |r| <= |types|
    ensures forall mt :: mt in r <==> mt in types && Quiet(alerts, ip, mt, now)
    ensures Distinct(types) ==> Distinct(r)
    decreases |types|
  {
    if types == [] then []
    else
      var mt := types[|types| - 1];
      var earlier := FiringTypes(alerts, types[..|types| - 1], ip, now);
      assert forall x :: x in types <==> x in types[..|types| - 1] || x == mt;
      if Quiet(alerts, ip, mt, now) then earlier + [mt] else earlier
  }

  /** The firing types keep the order of the checked types. */
  lemma {:induction false} FiringTypesInOrder(alerts: seq<Alert>, types: seq<string>, ip: string, now: int)
    ensures SubsequenceOf(FiringTypes(alerts, types, ip, now), types)
    decreases |types|
  {
    if types != [] {
      FiringTypesInOrder(alerts, types[..|types| - 1], ip, now);
    }
  }

  function UsageAlerts(m: Metrics, types: seq<string>, now: int, date: Option<int>): (r: seq<Alert>)
    ensures |r| == |types|
  {
    seq(|types|, i requires 0 <= i < |types| => UsageAlert(m, types[i], now, date))
  }

  function UsageNotifications(m: Metrics, types: seq<string>, fmt: real -> string): (r: seq<Notification>)
    ensures |r| == |types|
  {
    seq(|types|, i requires 0 <= i < |types| => UsageNotification(m, types[i], fmt))
  }

  /** Unfolding a round by its last type. */
  lemma MetricAlertsSnoc(e: Effects, types: seq<string>, mt: string, m: Metrics, now: int,
                         date: Option<int>, fmt: real -> string)
    ensures MetricAlerts(e, types + [mt], m, now, date, fmt) ==
            MetricAlertStep(MetricAlerts(e, types, m, now, date, fmt), m, mt, now, date, fmt)
  {
    assert (types + [mt])[..|types|] == types;
  }

  /** Alerts of other types do not change whether a type's history is quiet. */
  lemma QuietIgnoresOthers(alerts: seq<Alert>, extra: seq<Alert>, ip: string, mt: string, now: int)
    requires forall i :: 0 <= i < |extra| ==> extra[i].metricType != mt
    ensures Quiet(alerts + extra, ip, mt, now) <==> Quiet(alerts, ip, mt, now)
  {
    var all := alerts + extra;
    assert forall i :: 0 <= i < |alerts| ==> all[i] == alerts[i];
    assert forall i :: |alerts| <= i < |all| ==> all[i] == extra[i - |alerts|];
  }

  /** Unfolding the firing types by the last type checked. */
  lemma FiringSnoc(alerts: seq<Alert>, types: seq<string>, mt: string, ip: string, now: int)
    ensures FiringTypes(alerts, types + [mt], ip, now) ==
            if Quiet(alerts, ip, mt, now) then FiringTypes(alerts, types, ip, now) + [mt]
            else FiringTypes(alerts, types, ip, now)
  {
    assert (types + [mt])[..|types|] == types;
  }

  lemma UsageSnoc(m: Metrics, fire: seq<string>, mt: string, now: int, date: Option<int>, fmt: real -> string)
    ensures UsageAlerts(m, fire + [mt], now, date) == UsageAlerts(m, fire, now, date) + [UsageAlert(m, mt, now, date)]
    ensures UsageNotifications(m, fire + [mt], fmt) == UsageNotifications(m, fire, fmt) + [UsageNotification(m, mt, fmt)]
  {
  }

  /** A round appends, for each distinct breached type whose (ip, type) history is quiet and in
      the order checked, one alert record and one notification, and nothing else. */
  lemma {:induction false} MetricAlertsClosedForm(e: Effects, types: seq<string>, m: Metrics, now: int,
                                                  date: Option<int>, fmt: real -> string)
    requires Distinct(types)
    ensures var fire := FiringTypes(e.alerts, types, m.ip, now);
            MetricAlerts(e, types, m, now, date, fmt) ==
              Effects(e.alerts + UsageAlerts(m, fire, now, date), e.outbox + UsageNotifications(m, fire, fmt))
    decreases |types|
  {
    if types != [] {
      var n := |types| - 1;
      var mt := types[n];
      var prefix := types[..n];
      assert types == prefix + [mt];
      assert Distinct(prefix) && mt !in prefix;
      var fire := FiringTypes(e.alerts, prefix, m.ip, now);
      calc {
        MetricAlerts(e, types, m, now, date, fmt);
        { MetricAlertsSnoc(e, prefix, mt, m, now, date, fmt); }
        MetricAlertStep(MetricAlerts(e, prefix, m, now, date, fmt), m, mt, now, date, fmt);
        { MetricAlertsClosedForm(e, prefix, m, now, date, fmt); }
        MetricAlertStep(Effects(e.alerts + UsageAlerts(m, fire, now, date), e.outbox + UsageNotifications(m, fire, fmt)),
                        m, mt, now, date, fmt);
        { StepAfterRound(e, fire, mt, m, now, date, fmt);
          FiringSnoc(e.alerts, prefix, mt, m.ip, now); }
        Effects(e.alerts + UsageAlerts(m, FiringTypes(e.alerts, types, m.ip, now), now, date),
                e.outbox + UsageNotifications(m, FiringTypes(e.alerts, types, m.ip, now), fmt));
      }
    }
  }

  /** One more step after a round that fired `fire`: a type not among them fires exactly
      when its history before the round was quiet. */
  lemma StepAfterRound(e: Effects, fire: seq<string>, mt: string, m: Metrics, now: int,
                       date: Option<int>, fmt: real -> string)
    requires mt !in fire
    ensures var fire' := if Quiet(e.alerts, m.ip, mt, now) then fire + [mt] else fire;
      MetricAlertStep(Effects(e.alerts + UsageAlerts(m, fire, now, date), e.outbox + UsageNotifications(m, fire, fmt)),
                      m, mt, now, date, fmt)
      == Effects(e.alerts + UsageAlerts(m, fire', now, date), e.outbox + UsageNotifications(m, fire', fmt))
  {
    var extra := UsageAlerts(m, fire, now, date);
    forall i | 0 <= i < |extra| ensures extra[i].metricType != mt {
      assert fire[i] in fire;
    }
    QuietIgnoresOthers(e.alerts, extra, m.ip, mt, now);
    UsageSnoc(m, fire, mt, now, date, fmt);
  }

  /** Every alert a round records is at least 24 hours after every earlier alert under the
      same (ip, type). */
  lemma MetricAlertSpacing(e: Effects, types: seq<string>, m: Metrics, now: int, date: Option<int>,
                           fmt: real -> string, j: nat, i: nat)
    requires Distinct(types)
    requires var r := MetricAlerts(e, types, m, now, date, fmt);
      |e.alerts| <= j < |r.alerts| && i < |e.alerts|
      && Matches(e.alerts[i], ByType(r.alerts[j].ip, r.alerts[j].metricType))
    ensures var r := MetricAlerts(e, types, m, now, date, fmt);
      r.alerts[i].timestamp + SUPPRESSION_WINDOW_MS <= r.alerts[j].timestamp
  {
    MetricAlertsClosedForm(e, types, m, now, date, fmt);
    var fire := FiringTypes(e.alerts, types, m.ip, now);
    var r := MetricAlerts(e, types, m, now, date, fmt);
    var x := r.alerts[j];
    assert x == UsageAlerts(m, fire, now, date)[j - |e.alerts|];
    assert fire[j - |e.alerts|] in fire;
    assert r.alerts[i] == e.alerts[i];
  }

  /** The limit for a type: the stored threshold's value, or the default when none is stored. */
  function LimitFor(ts: seq<Threshold>, metricType: string, default: real): real
  {
    match FindByMetricType(ts, metricType)
    case Some(t) => t.thresholdValue
    case None => default
  }

  function DefaultLimit(metricType: string): real
  {
    if metricType == CPU then DEFAULT_CPU_LIMIT
    else if metricType == DISK then DEFAULT_DISK_LIMIT
    else DEFAULT_RAM_LIMIT
  }

  lemma LimitForConfigured(ts: seq<Threshold>, metricType: string, default: real)
    requires UniqueTypes(ts)
    ensures (forall i :: 0 <= i < |ts| ==> ts[i].metricType != metricType) ==>
              LimitFor(ts, metricType, default) == default
    ensures forall i :: 0 <= i < |ts| && ts[i].metricType == metricType ==>
              LimitFor(ts, metricType, default) == ts[i].thresholdValue
  {
    forall i | 0 <= i < |ts| && ts[i].metricType == metricType
      ensures LimitFor(ts, metricType, default) == ts[i].thresholdValue
    {
      FindUnique(ts, i);
    }
  }

  /** The types whose usage reaches its limit (inclusive), in the order CPU, Disk, RAM. */
  function BreachedTypes(ts: seq<Threshold>, m: Metrics): (r: seq<string>)
    ensures forall mt :: mt in r <==>
              (mt == CPU || mt == DISK || mt == RAM) && GetMetricValue(mt, m) >= LimitFor(ts, mt, DefaultLimit(mt))
    ensures forall i, j :: 0 <= i < j < |r| ==> Rank(r[i]) < Rank(r[j])
    ensures |r| <= 3
  {
    (if m.cpuUsage >= LimitFor(ts, CPU, DEFAULT_CPU_LIMIT) then [CPU] else [])
    + (if m.diskUsage >= LimitFor(ts, DISK, DEFAULT_DISK_LIMIT) then [DISK] else [])
    + (if m.ramUsage >= LimitFor(ts, RAM, DEFAULT_RAM_LIMIT) then [RAM] else [])
  }

  lemma RankDistinct(types: seq<string>)
    requires forall i, j :: 0 <= i < j < |types| ==> Rank(types[i]) < Rank(types[j])
    ensures Distinct(types)
  {
  }

  lemma BreachedClosedForm(e: Effects, ts: seq<Threshold>, m: Metrics, now: int, date: Option<int>, fmt: real -> string)
    ensures var fire := FiringTypes(e.alerts, BreachedTypes(ts, m), m.ip, now);
            MetricAlerts(e, BreachedTypes(ts, m), m, now, date, fmt) ==
              Effects(e.alerts + UsageAlerts(m, fire, now, date), e.outbox + UsageNotifications(m, fire, fmt))
  {
    RankDistinct(BreachedTypes(ts, m));
    MetricAlertsClosedForm(e, BreachedTypes(ts, m), m, now, date, fmt);
  }

  /** One of the three checks of a call: the metric's step when its usage reaches its limit. */
  function StepIf(e: Effects, breached: bool, m: Metrics, metricType: string, now: int, fmt: real -> string): Effects
  {
    if breached then MetricAlertStep(e, m, metricType, now, Some(now), fmt) else e
  }

  /** The three checks, CPU then Disk then RAM, are the round over the breached types. */
  lemma ChecksInOrder(e0: Effects, ts: seq<Threshold>, m: Metrics, now: int, fmt: real -> string)
    ensures var c, d, r := m.cpuUsage >= LimitFor(ts, CPU, DEFAULT_CPU_LIMIT),
                           m.diskUsage >= LimitFor(ts, DISK, DEFAULT_DISK_LIMIT),
                           m.ramUsage >= LimitFor(ts, RAM, DEFAULT_RAM_LIMIT);
      MetricAlerts(e0, BreachedTypes(ts, m), m, now, Some(now), fmt) ==
        StepIf(StepIf(StepIf(e0, c, m, CPU, now, fmt), d, m, DISK, now, fmt), r, m, RAM, now, fmt)
  {
    var c, d, r := m.cpuUsage >= LimitFor(ts, CPU, DEFAULT_CPU_LIMIT),
                   m.diskUsage >= LimitFor(ts, DISK, DEFAULT_DISK_LIMIT),
                   m.ramUsage >= LimitFor(ts, RAM, DEFAULT_RAM_LIMIT);
    var l1: seq<string> := if c then [CPU] else [];
    var l2 := l1 + (if d then [DISK] else []);
    var l3 := l2 + (if r then [RAM] else []);
    assert BreachedTypes(ts, m) == l3;
    if c {
      MetricAlertsSnoc(e0, [], CPU, m, now, Some(now), fmt);
    }
    if d {
      MetricAlertsSnoc(e0, l1, DISK, m, now, Some(now), fmt);
    } else {
      assert l2 == l1;
    }
    if r {
      MetricAlertsSnoc(e0, l2, RAM, m, now, Some(now), fmt);
    } else {
      assert l3 == l2;
    }
  }

  /** The limit is inclusive: with no stored thresholds 95.0 CPU breaches and 94.99 does not. */
  lemma InclusiveLimit(hostname: string, ip: string, t: int)
    ensures BreachedTypes([], Metrics(hostname, ip, t, 95.0, 0.0, 0.0)) == [CPU]
    ensures BreachedTypes([], Metrics(hostname, ip, t, 94.99, 0.0, 0.0)) == []
  {
  }

  class AlertService {
    const alertRepo: AlertRepository
    const thresholdRepo: ThresholdRepository
    const notifier: Notifier

    constructor(alertRepo: AlertRepository, thresholdRepo: ThresholdRepository, notifier: Notifier)
      ensures this.alertRepo == alertRepo && this.thresholdRepo == thresholdRepo && this.notifier == notifier
    {
      this.alertRepo := alertRepo;
      this.thresholdRepo := thresholdRepo;
      this.notifier := notifier;
    }

    /** `checkAndSendAlerts`: for each type whose usage reaches its stored or default limit
        and whose (ip, type) history is quiet, exactly one notification and one dated alert,
        CPU then Disk then RAM. `now` is the clock reading of the call. */
    method CheckAndSendAlerts(m: Metrics, now: int, fmt: real -> string)
      modifies alertRepo, notifier
      ensures var fire := FiringTypes(old(alertRepo.alerts), BreachedTypes(thresholdRepo.thresholds, m), m.ip, now);
        && alertRepo.alerts == old(alertRepo.alerts) + UsageAlerts(m, fire, now, Some(now))
        && notifier.outbox == old(notifier.outbox) + UsageNotifications(m, fire, fmt)
    {
      ghost var alerts0, outbox0 := alertRepo.alerts, notifier.outbox;
      ghost var e0 := Effects(alerts0, outbox0);
      var cpuThreshold := FindByMetricType(thresholdRepo.thresholds, CPU);
      var cpuLimit := if cpuThreshold.Some? then cpuThreshold.value.thresholdValue else DEFAULT_CPU_LIMIT;
      assert cpuLimit == LimitFor(thresholdRepo.thresholds, CPU, DEFAULT_CPU_LIMIT);
      if m.cpuUsage >= cpuLimit {
        CheckAndSendAlertForMetric(CPU, m, now, fmt);
      }
      ghost var e1 := Effects(alertRepo.alerts, notifier.outbox);
      assert e1 == StepIf(e0, m.cpuUsage >= cpuLimit, m, CPU, now, fmt);
      var diskThreshold := FindByMetricType(thresholdRepo.thresholds, DISK);
      var diskLimit := if diskThreshold.Some? then diskThreshold.value.thresholdValue else DEFAULT_DISK_LIMIT;
      assert diskLimit == LimitFor(thresholdRepo.thresholds, DISK, DEFAULT_DISK_LIMIT);
      if m.diskUsage >= diskLimit {
        CheckAndSendAlertForMetric(DISK, m, now, fmt);
      }
      ghost var e2 := Effects(alertRepo.alerts, notifier.outbox);
      assert e2 == StepIf(e1, m.diskUsage >= diskLimit, m, DISK, now, fmt);
      var ramThreshold := FindByMetricType(thresholdRepo.thresholds, RAM);
      var ramLimit := if ramThreshold.Some? then ramThreshold.value.thresholdValue else DEFAULT_RAM_LIMIT;
      assert ramLimit == LimitFor(thresholdRepo.thresholds, RAM, DEFAULT_RAM_LIMIT);
      if m.ramUsage >= ramLimit {
        CheckAndSendAlertForMetric(RAM, m, now, fmt);
      }
      assert Effects(alertRepo.alerts, notifier.outbox) == StepIf(e2, m.ramUsage >= ramLimit, m, RAM, now, fmt);
      ChecksInOrder(e0, thresholdRepo.thresholds, m, now, fmt);
      BreachedClosedForm(e0, thresholdRepo.thresholds, m, now, Some(now), fmt);
      ghost var fire := FiringTypes(alerts0, BreachedTypes(thresholdRepo.thresholds, m), m.ip, now);
      assert Effects(alertRepo.alerts, notifier.outbox) ==
             Effects(alerts0 + UsageAlerts(m, fire, now, Some(now)), outbox0 + UsageNotifications(m, fire, fmt));
    }

    /** `checkAndSendAlertForMetric`: one notification and one alert stamped `now` unless an
        alert under (ip, type) is newer than 24 hours before `now`. */
    method CheckAndSendAlertForMetric(metricType: string, m: Metrics, now: int, fmt: real -> string)
      modifies alertRepo, notifier
      ensures Effects(alertRepo.alerts, notifier.outbox) ==
              MetricAlertStep(old(Effects(alertRepo.alerts, notifier.outbox)), m, metricType, now, Some(now), fmt)
    {
      var twentyFourHoursAgo := WindowStart(now);
      var lastAlert := LatestAlert(alertRepo.alerts, ByType(m.ip, metricType));
      if lastAlert.Some? && lastAlert.value.timestamp > twentyFourHoursAgo {
        return;
      }
      var message := UsageMessage(m, metricType, fmt);
      SendCustomTelegramAlert(metricType, message);
      alertRepo.alerts := alertRepo.alerts + [UsageAlert(m, metricType, now, Some(now))];
    }

    /** `sendCustomTelegramAlert`: hands the message to the notifier; a delivery failure is
        logged and swallowed, so the call always returns normally. */
    method SendCustomTelegramAlert(metricType: string, message: string)
      modifies notifier
      ensures notifier.outbox == old(notifier.outbox) + [Notification(metricType, message)]
    {
      notifier.outbox := notifier.outbox + [Notification(metricType, message)];
    }
  }
}
