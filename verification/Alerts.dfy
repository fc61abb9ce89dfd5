/** The alert collection's two derived queries (repository/AlertRepository.java) and the two
    24-hour suppression tests built on them: the sweep's and the metric services'. */
module AlertLookup {
  import opened Domain

  /** A deduplication key. AGENT and metric alerts key on (ip, metricType); PORT alerts
      also on the port. The hostname is never part of a key. */
  datatype AlertKey =
    | ByType(ip: string, metricType: string)
    | ByPort(ip: string, metricType: string, port: int)

  /** The filter of `findTopByIpAndMetricType...` and `findTopByIpAndMetricTypeAndPort...`. */
  predicate Matches(a: Alert, k: AlertKey)
  {
    a.ip == k.ip && a.metricType == k.metricType && (k.ByPort? ==> a.port == Some(k.port))
  }

  /** The key a stored alert was deduplicated under. */
  function KeyOf(a: Alert): AlertKey
  {
    if a.metricType == "PORT" && a.port.Some? then ByPort(a.ip, a.metricType, a.port.value)
    else ByType(a.ip, a.metricType)
  }

  /** `findTop...OrderByTimestampDesc`: a matching alert with the greatest timestamp, or
      nothing when no alert matches. */
  function LatestAlert(alerts: seq<Alert>, k: AlertKey): (r: Option<Alert>)
    ensures r.None? <==> forall i :: 0 <= i < |alerts| ==> !Matches(alerts[i], k)
    ensures r.Some? ==> r.value in alerts && Matches(r.value, k)
    ensures r.Some? ==> forall i :: 0 <= i < |alerts| && Matches(alerts[i], k) ==>
                          alerts[i].timestamp <= r.value.timestamp
  {
    if alerts == [] then None
    else
      var last := alerts[|alerts| - 1];
      var earlier := LatestAlert(alerts[..|alerts| - 1], k);
      if !Matches(last, k) then earlier
      else if earlier.Some? && earlier.value.timestamp > last.timestamp then earlier
      else Some(last)
  }

  /** The sweep fires when nothing matches or the latest match is strictly older than the
      cutoff (PortStatusJob.java:85 and :114). */
  predicate SweepMayFire(last: Option<Alert>, cutoff: int)
  {
    last.None? || last.value.timestamp < cutoff
  }

  /** The metric services stay silent when the latest match is strictly newer than the
      cutoff (services/AlertService.java:77, service/AlertService.java:52). */
  predicate ServiceSuppresses(last: Option<Alert>, cutoff: int)
  {
    last.Some? && last.value.timestamp > cutoff
  }

  /** Every alert under the key is strictly older than the cutoff. */
  predicate AllBefore(alerts: seq<Alert>, k: AlertKey, cutoff: int)
  {
    forall i :: 0 <= i < |alerts| && Matches(alerts[i], k) ==> alerts[i].timestamp < cutoff
  }

  /** No alert under the key is newer than the cutoff. */
  predicate NoneAfter(alerts: seq<Alert>, k: AlertKey, cutoff: int)
  {
    forall i :: 0 <= i < |alerts| && Matches(alerts[i], k) ==> alerts[i].timestamp <= cutoff
  }

  /** The sweep's test, read over the whole collection: it fires exactly when every alert
      under the key is strictly older than the cutoff. */
  lemma SweepMayFireIff(alerts: seq<Alert>, k: AlertKey, cutoff: int)
    ensures SweepMayFire(LatestAlert(alerts, k), cutoff) <==> AllBefore(alerts, k, cutoff)
  {
    var r := LatestAlert(alerts, k);
    if r.Some? {
      var i :| 0 <= i < |alerts| && alerts[i] == r.value;
      assert Matches(alerts[i], k);
    }
  }

  /** The services' test, read over the whole collection: they fire exactly when every
      alert under the key is at or before the cutoff. */
  lemma ServiceFiresIff(alerts: seq<Alert>, k: AlertKey, cutoff: int)
    ensures !ServiceSuppresses(LatestAlert(alerts, k), cutoff) <==> NoneAfter(alerts, k, cutoff)
  {
    var r := LatestAlert(alerts, k);
    if r.Some? {
      var i :| 0 <= i < |alerts| && alerts[i] == r.value;
      assert Matches(alerts[i], k);
    }
  }

  /** The two tests disagree exactly when the latest match sits on the cutoff: there the
      metric services fire again and the sweep does not. */
  lemma BoundaryDiscrepancy(alerts: seq<Alert>, k: AlertKey, cutoff: int)
    ensures SweepMayFire(LatestAlert(alerts, k), cutoff) != !ServiceSuppresses(LatestAlert(alerts, k), cutoff)
            <==> LatestAlert(alerts, k).Some? && LatestAlert(alerts, k).value.timestamp == cutoff
    ensures LatestAlert(alerts, k).Some? && LatestAlert(alerts, k).value.timestamp == cutoff ==>
            !SweepMayFire(LatestAlert(alerts, k), cutoff) && !ServiceSuppresses(LatestAlert(alerts, k), cutoff)
  {
  }

  /** Appending an alert under the key makes it, or something at least as recent, the
      latest; appending one under another key changes nothing. */
  lemma LatestAfterAppend(alerts: seq<Alert>, a: Alert, k: AlertKey)
    ensures Matches(a, k) ==>
              LatestAlert(alerts + [a], k).Some? && LatestAlert(alerts + [a], k).value.timestamp >= a.timestamp
    ensures !Matches(a, k) ==> LatestAlert(alerts + [a], k) == LatestAlert(alerts, k)
  {
    assert (alerts + [a])[..|alerts|] == alerts;
  }
}
