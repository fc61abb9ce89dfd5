/** The MongoDB collections the services share, one object per repository bean. Each holds
    its documents in `findAll` order; the services reassign the field where the source
    calls `save`, `delete` or `deleteById`. The notifier stands for the Telegram client:
    its outbox lists every message handed to it. */
module Repositories {
  import opened Domain

  /** The position a single-result derived query (`findBy…`) answers with: the first record
      satisfying `matches`, or nothing when none does. */
  function FirstIndex<T>(records: seq<T>, matches: T -> bool): (r: Option<nat>)
    ensures r.None? <==> forall i :: 0 <= i < |records| ==> !matches(records[i])
    ensures r.Some? ==> r.value < |records| && matches(records[r.value])
    ensures r.Some? ==> forall i :: 0 <= i < r.value ==> !matches(records[i])
  {
    if records == [] then None
    else if matches(records[0]) then Some(0)
    else match FirstIndex(records[1..], matches)
      case None => None
      case Some(i) => Some(i + 1)
  }

  /** The "agents" collection (repositories/AgentInfoRepository.java). */
  class AgentRepository {
    var agents: seq<AgentInfo>
  }

  /** The "alerts" collection (repository/AlertRepository.java). */
  class AlertRepository {
    var alerts: seq<Alert>
  }

  /** The "jobLocks" collection, keyed by document id (repositories/JobLockRepository.java). */
  class JobLockRepository {
    var locks: map<string, JobLock>
  }

  /** The "thresholds" collection (repositories/ThresholdRepository.java). */
  class ThresholdRepository {
    var thresholds: seq<Threshold>
  }

  /** The "apiClients" collection (repositories/ApiClientRepository.java). */
  class ApiClientRepository {
    var clients: seq<ApiClient>
  }

  /** The Telegram chat the alert services post to. */
  class Notifier {
    var outbox: seq<Notification>
  }
}
