/** Records stored by the monitoring service (the documents declared under model/) and the
    constants shared by the sweep and the two metric alert services. */
module Domain {

  datatype Option<+T> = None | Some(value: T)

  /** A registered agent (model/AgentInfo.java). `openPorts` and `status` are nullable in
      the source, hence optional here; `id` is whatever the record carried when stored. */
  datatype AgentInfo = AgentInfo(
    id: Option<string>,
    hostname: string,
    ip: string,
    openPorts: Option<seq<int>>,
    timestamp: int,
    agentPort: int,
    status: Option<string>)

  /** An alert firing (model/Alert.java); `port` only for PORT alerts, `date` only where the
      writer sets it. Times are epoch milliseconds. */
  datatype Alert = Alert(
    hostname: string,
    ip: string,
    metricType: string,
    port: Option<int>,
    timestamp: int,
    date: Option<int>)

  /** A metrics sample (model/Metrics.java). The usages are doubles that are only compared
      and formatted; as `real` they are finite numbers. */
  datatype Metrics = Metrics(
    hostname: string,
    ip: string,
    timestamp: int,
    cpuUsage: real,
    diskUsage: real,
    ramUsage: real)

  /** A configured limit for one metric type (model/Threshold.java). */
  datatype Threshold = Threshold(id: Option<string>, metricType: string, thresholdValue: real)

  /** The sweep's lock document (model/JobLock.java). */
  datatype JobLock = JobLock(id: string, jobName: string, lockId: string, timestamp: int)

  /** An external application allowed to push alerts (model/ApiClient.java). */
  datatype ApiClient = ApiClient(appName: string, apiKey: string, createdAt: int, createdAtHuman: string)

  /** One message handed to the Telegram notifier, with the signal type it was sent for. */
  datatype Notification = Notification(metricType: string, text: string)

  /** What an alerting step leaves behind: the alert collection and the notifier's outbox. */
  datatype Effects = Effects(alerts: seq<Alert>, outbox: seq<Notification>)

  /** 24 hours in milliseconds: `Instant.now().minusSeconds(24 * 3600).toEpochMilli()`. */
  const SUPPRESSION_WINDOW_MS: int := 24 * 3600 * 1000

  /** The suppression cutoff computed from a clock reading `now`. */
  function WindowStart(now: int): int
  {
    now - SUPPRESSION_WINDOW_MS
  }
}
