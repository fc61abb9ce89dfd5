/** The older metric alert service with hard-coded limits (service/AlertService.java). It runs
    the same suppression step as the configurable service; its records carry no `date`, and
    its limits are the configurable service's defaults. */
module FixedAlerting {
  import opened Domain
  import opened AlertLookup
  import opened Repositories
  import opened ThresholdAlerting

  /** The types whose usage reaches the fixed limits 95 / 85 / 80, in the order CPU, Disk, RAM. */
  function FixedBreachedTypes(m: Metrics): seq<string>
  {
    (if m.cpuUsage >= 95.0 then [CPU] else [])
    + (if m.diskUsage >= 85.0 then [DISK] else [])
    + (if m.ramUsage >= 80.0 then [RAM] else [])
  }

  /** The fixed limits are exactly the configurable service's limits with no stored threshold. */
  lemma FixedLimitsAreDefaults(m: Metrics)
    ensures FixedBreachedTypes(m) == BreachedTypes([], m)
  {
    assert LimitFor([], CPU, DEFAULT_CPU_LIMIT) == 95.0;
    assert LimitFor([], DISK, DEFAULT_DISK_LIMIT) == 85.0;
    assert LimitFor([], RAM, DEFAULT_RAM_LIMIT) == 80.0;
  }

  class AlertService {
    const alertRepo: AlertRepository
    const notifier: Notifier

    constructor(alertRepo: AlertRepository, notifier: Notifier)
      ensures this.alertRepo == alertRepo && this.notifier == notifier
    {
      this.alertRepo := alertRepo;
      this.notifier := notifier;
    }

    /** `checkAndSendAlerts`: for each type at or over its fixed limit whose (ip, type) history
        is quiet, exactly one notification and one undated alert, CPU then Disk then RAM. */
    method CheckAndSendAlerts(m: Metrics, now: int, fmt: real -> string)
      modifies alertRepo, notifier
      ensures var fire := FiringTypes(old(alertRepo.alerts), FixedBreachedTypes(m), m.ip, now);
        && alertRepo.alerts == old(alertRepo.alerts) + UsageAlerts(m, fire, now, None)
        && notifier.outbox == old(notifier.outbox) + UsageNotifications(m, fire, fmt)
    {
      ghost var e0 := Effects(alertRepo.alerts, notifier.outbox);
      ghost var checked: seq<string> := [];
      if m.cpuUsage >= 95.0 {
        CheckAndSendAlertForMetric(CPU, m, now, fmt);
        MetricAlertsSnoc(e0, checked, CPU, m, now, None, fmt);
        checked := checked + [CPU];
      }
      assert Effects(alertRepo.alerts, notifier.outbox) == MetricAlerts(e0, checked, m, now, None, fmt);
      if m.diskUsage >= 85.0 {
        CheckAndSendAlertForMetric(DISK, m, now, fmt);
        MetricAlertsSnoc(e0, checked, DISK, m, now, None, fmt);
        checked := checked + [DISK];
      }
      assert Effects(alertRepo.alerts, notifier.outbox) == MetricAlerts(e0, checked, m, now, None, fmt);
      if m.ramUsage >= 80.0 {
        CheckAndSendAlertForMetric(RAM, m, now, fmt);
        MetricAlertsSnoc(e0, checked, RAM, m, now, None, fmt);
        checked := checked + [RAM];
      }
      assert checked == FixedBreachedTypes(m);
      FixedLimitsAreDefaults(m);
      BreachedClosedForm(e0, [], m, now, None, fmt);
    }

    /** `checkAndSendAlertForMetric`: one notification and one alert stamped `now` (no date)
        unless an alert under (ip, type) is newer than 24 hours before `now`. */
    method CheckAndSendAlertForMetric(metricType: string, m: Metrics, now: int, fmt: real -> string)
      modifies alertRepo, notifier
      ensures Effects(alertRepo.alerts, notifier.outbox) ==
              MetricAlertStep(old(Effects(alertRepo.alerts, notifier.outbox)), m, metricType, now, None, fmt)
    {
      var lastAlert := LatestAlert(alertRepo.alerts, ByType(m.ip, metricType));
      var twentyFourHoursAgo := WindowStart(now);
      if lastAlert.Some? && lastAlert.value.timestamp > twentyFourHoursAgo {
        return;
      }
      SendTelegramAlert(metricType, m, fmt);
      alertRepo.alerts := alertRepo.alerts + [UsageAlert(m, metricType, now, None)];
    }

    /** `sendTelegramAlert`: formats the usage message and hands it to the notifier; a
        delivery failure is logged and swallowed. */
    method SendTelegramAlert(metricType: string, m: Metrics, fmt: real -> string)
      modifies notifier
      ensures notifier.outbox == old(notifier.outbox) + [UsageNotification(m, metricType, fmt)]
    {
      notifier.outbox := notifier.outbox + [Notification(metricType, UsageMessage(m, metricType, fmt))];
    }
  }
}
