/** The liveness sweep (job/PortStatusJob.java). Guarded by a lock document keyed by the
    instance's UUID, it visits every registered agent in `findAll` order: it probes the
    agent's own port and moves the agent's status to UP or DOWN, raising a deduplicated AGENT
    alert when the agent is down, then probes each declared port and raises a deduplicated
    PORT alert for each closed one. Both alert kinds use one cutoff, 24 hours before the job
    started, and fire only when the latest alert under the key is strictly older than it.

    The TCP probe is the oracle `reachable(ip, port)`. `start` is the clock reading taken
    when the lock is created and the cutoff computed; `stamp` is the reading written into
    the alerts of the run. */
module PortStatusJob {
  import opened Domain
  import opened Text
  import opened AlertLookup
  import opened Repositories
  import ThresholdAlerting

  const JOB_NAME: string := "PortStatusJob"
  const AGENT: string := "AGENT"
  const PORT: string := "PORT"
  const UP: string := "UP"
  const DOWN: string := "DOWN"

  /** How a run of the job ends: skipped because the lock was held, completed, or aborted by
      an exception while visiting the agent at position `at`. */
  datatype Outcome = Skipped | Completed | Aborted(at: nat)

  /** The job's lock, as written by the instance `uuid` at time `at`, is in the store. */
  predicate HeldLock(locks: map<string, JobLock>, uuid: string, at: int)
  {
    uuid in locks && locks[uuid] == JobLock(uuid, JOB_NAME, uuid, at)
  }

  // ---------------------------------------------------------------- agent status

  /** The status after a probe: kept when it already equals the target ignoring case, the
      target itself otherwise (a missing status never matches). */
  function Transition(current: Option<string>, target: string): (r: Option<string>)
    ensures r.Some? && EqualsIgnoreCase(r.value, target)
    ensures r == current <==> current.Some? && EqualsIgnoreCase(target, current.value)
    ensures r != current ==> r == Some(target)
  {
    if current.Some? && EqualsIgnoreCase(target, current.value) then current else Some(target)
  }

  /** A status that already says "down" in lower case is not rewritten. */
  lemma LowerCaseStatusKept()
    ensures Transition(Some("down"), DOWN) == Some("down")
    ensures Transition(None, DOWN) == Some(DOWN)
  {
    assert Lower("down") == Lower(DOWN);
  }

  function Target(a: AgentInfo, reachable: (string, int) -> bool): string
  {
    if reachable(a.ip, a.agentPort) then UP else DOWN
  }

  /** The agent record after its probe: only the status may differ. */
  function Swept(a: AgentInfo, reachable: (string, int) -> bool): (r: AgentInfo)
    ensures r.(status := a.status) == a
    ensures r.status.Some? && EqualsIgnoreCase(r.status.value, Target(a, reachable))
    ensures r == a <==> a.status.Some? && EqualsIgnoreCase(Target(a, reachable), a.status.value)
  {
    a.(status := Transition(a.status, Target(a, reachable)))
  }

  /** The agent collection once the first `n` agents have been visited. */
  function SweptPrefix(agents: seq<AgentInfo>, n: nat, reachable: (string, int) -> bool): (r: seq<AgentInfo>)
    requires n <= |agents|
    ensures |r| == |agents|
    ensures forall j :: 0 <= j < |agents| ==> r[j].(status := agents[j].status) == agents[j]
    ensures forall j :: n <= j < |agents| ==> r[j] == agents[j]
  {
    seq(|agents|, j requires 0 <= j < |agents| => if j < n then Swept(agents[j], reachable) else agents[j])
  }

  // ---------------------------------------------------------------- alerts and messages

  /** `openPorts`, with a null list read as no ports. */
  function DeclaredPorts(a: AgentInfo): seq<int>
  {
    match a.openPorts
    case None => []
    case Some(ps) => ps
  }

  function AgentAlert(a: AgentInfo, stamp: int): Alert
  {
    Alert(a.hostname, a.ip, AGENT, None, stamp, Some(stamp))
  }

  function PortAlert(a: AgentInfo, port: int, stamp: int): Alert
  {
    Alert(a.hostname, a.ip, PORT, Some(port), stamp, None)
  }

  /** `"Alert! Agent %s (%s) is down on port %d."` */
  function AgentDownMessage(a: AgentInfo): string
  {
    "Alert! Agent " + a.hostname + " (" + a.ip + ") is down on port " + IntToString(a.agentPort) + "."
  }

  /** `"Alert! %s (%s): port %d is down."` */
  function PortDownMessage(a: AgentInfo, port: int): string
  {
    "Alert! " + a.hostname + " (" + a.ip + "): port " + IntToString(port) + " is down."
  }

  /** One deduplicated firing of the sweep: when every alert under the new alert's key is
      strictly older than the cutoff, one notification and then the alert; otherwise nothing. */
  function SweepAlertStep(e: Effects, y: Alert, text: string, cutoff: int): (r: Effects)
    ensures AllBefore(e.alerts, KeyOf(y), cutoff) ==>
              r == Effects(e.alerts + [y], e.outbox + [Notification(y.metricType, text)])
    ensures !AllBefore(e.alerts, KeyOf(y), cutoff) ==> r == e
  {
    SweepMayFireIff(e.alerts, KeyOf(y), cutoff);
    if SweepMayFire(LatestAlert(e.alerts, KeyOf(y)), cutoff) then
      Effects(e.alerts + [y], e.outbox + [Notification(y.metricType, text)])
    else e
  }

  /** The agent-port part of a visit: an AGENT alert (no port, dated) with its notification
      exactly when the agent port is unreachable and no AGENT alert for the ip is at or after
      the cutoff. */
  function AgentAlertEffects(e: Effects, a: AgentInfo, reachable: (string, int) -> bool, cutoff: int, stamp: int): (r: Effects)
    ensures !reachable(a.ip, a.agentPort) && AllBefore(e.alerts, ByType(a.ip, AGENT), cutoff) ==>
              r == Effects(e.alerts + [AgentAlert(a, stamp)], e.outbox + [Notification(AGENT, AgentDownMessage(a))])
    ensures reachable(a.ip, a.agentPort) || !AllBefore(e.alerts, ByType(a.ip, AGENT), cutoff) ==> r == e
  {
    if reachable(a.ip, a.agentPort) then e
    else SweepAlertStep(e, AgentAlert(a, stamp), AgentDownMessage(a), cutoff)
  }

  /** The port loop of a visit over `ports`, in order. */
  function PortsEffects(e: Effects, a: AgentInfo, ports: seq<int>, reachable: (string, int) -> bool,
                        cutoff: int, stamp: int): Effects
    decreases |ports|
  {
    if ports == [] then e
    else
      var p := PortsEffects(e, a, ports[..|ports| - 1], reachable, cutoff, stamp);
      var port := ports[|ports| - 1];
      if reachable(a.ip, port) then p
      else SweepAlertStep(p, PortAlert(a, port, stamp), PortDownMessage(a, port), cutoff)
  }

  /** Checking one more declared port extends the port loop's effects by that port's step. */
  lemma PortsEffectsNext(e: Effects, a: AgentInfo, ports: seq<int>, k: nat, reachable: (string, int) -> bool,
                         cutoff: int, stamp: int)
    requires k < |ports|
    ensures var p := PortsEffects(e, a, ports[..k], reachable, cutoff, stamp);
      PortsEffects(e, a, ports[..k + 1], reachable, cutoff, stamp) ==
        if reachable(a.ip, ports[k]) then p
        else SweepAlertStep(p, PortAlert(a, ports[k], stamp), PortDownMessage(a, ports[k]), cutoff)
  {
    assert ports[..k + 1][..k] == ports[..k];
  }

  /** One visit: the agent port, then the declared ports. */
  function AgentEffects(e: Effects, a: AgentInfo, reachable: (string, int) -> bool, cutoff: int, stamp: int): Effects
  {
    PortsEffects(AgentAlertEffects(e, a, reachable, cutoff, stamp), a, DeclaredPorts(a), reachable, cutoff, stamp)
  }

  /** The visits of `agents`, in order. */
  function SweepEffects(e: Effects, agents: seq<AgentInfo>, reachable: (string, int) -> bool,
                        cutoff: int, stamp: int): Effects
    decreases |agents|
  {
    if agents == [] then e
    else AgentEffects(SweepEffects(e, agents[..|agents| - 1], reachable, cutoff, stamp),
                      agents[|agents| - 1], reachable, cutoff, stamp)
  }

  /** An agent with a null or empty port list is probed on its agent port only. */
  lemma NoDeclaredPortsNoProbes(e: Effects, a: AgentInfo, reachable: (string, int) -> bool, cutoff: int, stamp: int)
    requires a.openPorts.None? || a.openPorts == Some([])
    ensures AgentEffects(e, a, reachable, cutoff, stamp) == AgentAlertEffects(e, a, reachable, cutoff, stamp)
  {
  }

  // ---------------------------------------------------------------- the issues a sweep finds

  /** The keys of the declared ports found closed. */
  function PortDownKeys(a: AgentInfo, ports: seq<int>, reachable: (string, int) -> bool): set<AlertKey>
  {
    set p | p in ports && !reachable(a.ip, p) :: ByPort(a.ip, PORT, p)
  }

  /** The keys of everything found down on one agent. */
  function AgentDownKeys(a: AgentInfo, reachable: (string, int) -> bool): set<AlertKey>
  {
    (if reachable(a.ip, a.agentPort) then {} else {ByType(a.ip, AGENT)})
    + PortDownKeys(a, DeclaredPorts(a), reachable)
  }

  function DownKeys(agents: seq<AgentInfo>, reachable: (string, int) -> bool): set<AlertKey>
    decreases |agents|
  {
    if agents == [] then {}
    else DownKeys(agents[..|agents| - 1], reachable) + AgentDownKeys(agents[|agents| - 1], reachable)
  }

  /** A key the sweep can use: PORT keys carry a port, AGENT keys do not. */
  predicate Shaped(k: AlertKey)
  {
    k.ByPort? <==> k.metricType == PORT
  }

  lemma KeyOfMatches(x: Alert, k: AlertKey)
    requires Shaped(k)
    ensures Matches(x, KeyOf(x))
    ensures Matches(x, k) ==> KeyOf(x) == k
  {
  }

  /** What a sweep from `e0` has done once the issues `keys` have been visited: it has only
      appended; every new alert is stamped `stamp`, keys an issue found, had nothing at or
      after the cutoff under its key before the run, and is paired with a notification of its
      type; no two new alerts share a key; and every issue found is covered by an alert at or
      after the cutoff. */
  predicate Accounted(e0: Effects, r: Effects, cutoff: int, stamp: int, keys: set<AlertKey>)
  {
    && |e0.alerts| <= |r.alerts| && r.alerts[..|e0.alerts|] == e0.alerts
    && |e0.outbox| <= |r.outbox| && r.outbox[..|e0.outbox|] == e0.outbox
    && |r.alerts| - |e0.alerts| == |r.outbox| - |e0.outbox|
    && (forall k :: k in keys ==> Shaped(k) && !AllBefore(r.alerts, k, cutoff))
    && (forall j :: |e0.alerts| <= j < |r.alerts| ==>
          && r.alerts[j].timestamp == stamp
          && KeyOf(r.alerts[j]) in keys
          && AllBefore(e0.alerts, KeyOf(r.alerts[j]), cutoff)
          && r.outbox[j - |e0.alerts| + |e0.outbox|].metricType == r.alerts[j].metricType)
    && (forall j1, j2 :: |e0.alerts| <= j1 < j2 < |r.alerts| ==> KeyOf(r.alerts[j1]) != KeyOf(r.alerts[j2]))
  }

  /** Appending keeps every alert, so a key covered before stays covered. */
  lemma CoveredAfterAppend(alerts: seq<Alert>, y: Alert, k: AlertKey, cutoff: int)
    requires !AllBefore(alerts, k, cutoff)
    ensures !AllBefore(alerts + [y], k, cutoff)
  {
    var i :| 0 <= i < |alerts| && Matches(alerts[i], k) && alerts[i].timestamp >= cutoff;
    assert (alerts + [y])[i] == alerts[i];
  }

  /** One firing step keeps the sweep accounted for, with the step's key added. */
  lemma StepAccounted(e0: Effects, p: Effects, y: Alert, text: string, cutoff: int, stamp: int, keys: set<AlertKey>)
    requires Accounted(e0, p, cutoff, stamp, keys)
    requires y.timestamp == stamp && cutoff <= stamp && (y.metricType == PORT ==> y.port.Some?)
    ensures Accounted(e0, SweepAlertStep(p, y, text, cutoff), cutoff, stamp, keys + {KeyOf(y)})
  {
    var k := KeyOf(y);
    var r := SweepAlertStep(p, y, text, cutoff);
    if AllBefore(p.alerts, k, cutoff) {
      assert r.alerts == p.alerts + [y];
      assert forall j :: 0 <= j < |p.alerts| ==> r.alerts[j] == p.alerts[j];
      assert forall j :: 0 <= j < |p.outbox| ==> r.outbox[j] == p.outbox[j];
      assert r.alerts[..|e0.alerts|] == e0.alerts;
      assert r.outbox[..|e0.outbox|] == e0.outbox;
      assert AllBefore(e0.alerts, k, cutoff) by {
        forall i | 0 <= i < |e0.alerts| && Matches(e0.alerts[i], k) ensures e0.alerts[i].timestamp < cutoff {
          assert p.alerts[i] == e0.alerts[i];
        }
      }
      forall j | |e0.alerts| <= j < |p.alerts| ensures KeyOf(p.alerts[j]) != k {
        KeyOfMatches(p.alerts[j], k);
      }
      forall k' | k' in keys ensures !AllBefore(r.alerts, k', cutoff) {
        CoveredAfterAppend(p.alerts, y, k', cutoff);
      }
      KeyOfMatches(y, k);
      assert r.alerts[|p.alerts|] == y;
    }
  }

  lemma {:induction false} PortsAccounted(e0: Effects, p: Effects, a: AgentInfo, ports: seq<int>,
                                          reachable: (string, int) -> bool, cutoff: int, stamp: int, keys: set<AlertKey>)
    requires Accounted(e0, p, cutoff, stamp, keys) && cutoff <= stamp
    ensures Accounted(e0, PortsEffects(p, a, ports, reachable, cutoff, stamp), cutoff, stamp,
                      keys + PortDownKeys(a, ports, reachable))
    decreases |ports|
  {
    if ports != [] {
      var n := |ports| - 1;
      var port := ports[n];
      PortsAccounted(e0, p, a, ports[..n], reachable, cutoff, stamp, keys);
      var q := PortsEffects(p, a, ports[..n], reachable, cutoff, stamp);
      var before := keys + PortDownKeys(a, ports[..n], reachable);
      assert forall x :: x in ports <==> x in ports[..n] || x == port;
      if reachable(a.ip, port) {
        assert PortDownKeys(a, ports, reachable) == PortDownKeys(a, ports[..n], reachable);
      } else {
        assert PortDownKeys(a, ports, reachable) == PortDownKeys(a, ports[..n], reachable) + {ByPort(a.ip, PORT, port)};
        StepAccounted(e0, q, PortAlert(a, port, stamp), PortDownMessage(a, port), cutoff, stamp, before);
      }
    }
  }

  lemma AgentAccounted(e0: Effects, p: Effects, a: AgentInfo, reachable: (string, int) -> bool,
                       cutoff: int, stamp: int, keys: set<AlertKey>)
    requires Accounted(e0, p, cutoff, stamp, keys) && cutoff <= stamp
    ensures Accounted(e0, AgentEffects(p, a, reachable, cutoff, stamp), cutoff, stamp, keys + AgentDownKeys(a, reachable))
  {
    var q := AgentAlertEffects(p, a, reachable, cutoff, stamp);
    var mid := if reachable(a.ip, a.agentPort) then keys else keys + {ByType(a.ip, AGENT)};
    if !reachable(a.ip, a.agentPort) {
      StepAccounted(e0, p, AgentAlert(a, stamp), AgentDownMessage(a), cutoff, stamp, keys);
    }
    PortsAccounted(e0, q, a, DeclaredPorts(a), reachable, cutoff, stamp, mid);
    assert mid + PortDownKeys(a, DeclaredPorts(a), reachable) == keys + AgentDownKeys(a, reachable);
  }

  lemma {:induction false} SweepAccounted(e0: Effects, agents: seq<AgentInfo>, reachable: (string, int) -> bool,
                                          cutoff: int, stamp: int)
    requires cutoff <= stamp
    ensures Accounted(e0, SweepEffects(e0, agents, reachable, cutoff, stamp), cutoff, stamp, DownKeys(agents, reachable))
    decreases |agents|
  {
    if agents == [] {
      assert e0.alerts[..|e0.alerts|] == e0.alerts;
      assert e0.outbox[..|e0.outbox|] == e0.outbox;
    } else {
      var n := |agents| - 1;
      SweepAccounted(e0, agents[..n], reachable, cutoff, stamp);
      AgentAccounted(e0, SweepEffects(e0, agents[..n], reachable, cutoff, stamp), agents[n], reachable,
                     cutoff, stamp, DownKeys(agents[..n], reachable));
    }
  }

  /** A sweep read as a whole, when its alerts are stamped at or after the cutoff: it only
      appends alerts and notifications, one notification per alert and of the same type; every
      new alert is stamped `stamp` and keys an issue the sweep found down; no two new alerts
      share a key (at most one AGENT alert per ip and one PORT alert per (ip, port)); and an
      issue found down gets a new alert exactly when no alert under its key was at or after
      the cutoff before the run. */
  lemma SweepSummary(e0: Effects, agents: seq<AgentInfo>, reachable: (string, int) -> bool, cutoff: int, stamp: int)
    requires cutoff <= stamp
    ensures var r := SweepEffects(e0, agents, reachable, cutoff, stamp);
      && |e0.alerts| <= |r.alerts| && r.alerts[..|e0.alerts|] == e0.alerts
      && |e0.outbox| <= |r.outbox| && r.outbox[..|e0.outbox|] == e0.outbox
      && |r.alerts| - |e0.alerts| == |r.outbox| - |e0.outbox|
      && (forall j :: |e0.alerts| <= j < |r.alerts| ==>
            && r.alerts[j].timestamp == stamp
            && KeyOf(r.alerts[j]) in DownKeys(agents, reachable)
            && r.outbox[j - |e0.alerts| + |e0.outbox|].metricType == r.alerts[j].metricType)
      && (forall j1, j2 :: |e0.alerts| <= j1 < j2 < |r.alerts| ==> KeyOf(r.alerts[j1]) != KeyOf(r.alerts[j2]))
      && (forall k :: k in DownKeys(agents, reachable) ==>
            ((exists j :: |e0.alerts| <= j < |r.alerts| && KeyOf(r.alerts[j]) == k) <==> AllBefore(e0.alerts, k, cutoff)))
  {
    var r := SweepEffects(e0, agents, reachable, cutoff, stamp);
    var keys := DownKeys(agents, reachable);
    SweepAccounted(e0, agents, reachable, cutoff, stamp);
    forall k | k in keys
      ensures (exists j :: |e0.alerts| <= j < |r.alerts| && KeyOf(r.alerts[j]) == k) <==> AllBefore(e0.alerts, k, cutoff)
    {
      if AllBefore(e0.alerts, k, cutoff) {
        assert forall i :: 0 <= i < |e0.alerts| ==> r.alerts[i] == e0.alerts[i];
        var j :| 0 <= j < |r.alerts| && Matches(r.alerts[j], k) && r.alerts[j].timestamp >= cutoff;
        KeyOfMatches(r.alerts[j], k);
      }
    }
  }

  /** Visiting one more agent extends both the agent collection and the effects by that visit. */
  lemma VisitNext(e0: Effects, agents: seq<AgentInfo>, i: nat, reachable: (string, int) -> bool, cutoff: int, stamp: int)
    requires i < |agents|
    ensures SweptPrefix(agents, i + 1, reachable) == SweptPrefix(agents, i, reachable)[i := Swept(agents[i], reachable)]
    ensures SweepEffects(e0, agents[..i + 1], reachable, cutoff, stamp) ==
            AgentEffects(SweepEffects(e0, agents[..i], reachable, cutoff, stamp), agents[i], reachable, cutoff, stamp)
  {
    assert agents[..i + 1][..i] == agents[..i];
  }

  /** The job's own clock: alerts stamped no earlier than the start are at or after the cutoff. */
  lemma StampAfterCutoff(start: int, stamp: int)
    requires start <= stamp
    ensures WindowStart(start) <= stamp
  {
  }

  // ---------------------------------------------------------------- the job

  class PortStatusJob {
    const jobUuid: string
    const agentRepo: AgentRepository
    const alertRepo: AlertRepository
    const lockRepo: JobLockRepository
    const alertService: ThresholdAlerting.AlertService

    constructor(jobUuid: string, agentRepo: AgentRepository, alertRepo: AlertRepository,
                lockRepo: JobLockRepository, alertService: ThresholdAlerting.AlertService)
      ensures this.jobUuid == jobUuid && this.agentRepo == agentRepo && this.alertRepo == alertRepo
      ensures this.lockRepo == lockRepo && this.alertService == alertService
    {
      this.jobUuid := jobUuid;
      this.agentRepo := agentRepo;
      this.alertRepo := alertRepo;
      this.lockRepo := lockRepo;
      this.alertService := alertService;
    }

    /** `checkPortsStatus`. `fault`, when it names a position of the agent list, is the visit
        at which a repository call throws; the lock is released on that path too. */
    method CheckPortsStatus(reachable: (string, int) -> bool, start: int, stamp: int, fault: Option<nat>)
      returns (outcome: Outcome)
      modifies lockRepo, agentRepo, alertRepo, alertService.notifier
      ensures jobUuid in old(lockRepo.locks) ==>
        && outcome == Skipped
        && lockRepo.locks == old(lockRepo.locks)
        && agentRepo.agents == old(agentRepo.agents)
        && alertRepo.alerts == old(alertRepo.alerts)
        && alertService.notifier.outbox == old(alertService.notifier.outbox)
      ensures jobUuid !in old(lockRepo.locks) ==>
        && jobUuid !in lockRepo.locks
        && lockRepo.locks == old(lockRepo.locks)
        && outcome != Skipped
        && (outcome.Aborted? <==> fault.Some? && fault.value < |old(agentRepo.agents)|)
        && (outcome.Aborted? ==> fault == Some(outcome.at))
        && (var done := if outcome.Aborted? then outcome.at else |old(agentRepo.agents)|;
            && done <= |old(agentRepo.agents)|
            && agentRepo.agents == SweptPrefix(old(agentRepo.agents), done, reachable)
            && Effects(alertRepo.alerts, alertService.notifier.outbox) ==
               SweepEffects(old(Effects(alertRepo.alerts, alertService.notifier.outbox)),
                            old(agentRepo.agents)[..done], reachable, WindowStart(start), stamp))
    {
      if jobUuid in lockRepo.locks {
        return Skipped;
      }
      var jobLock := JobLock(jobUuid, JOB_NAME, jobUuid, start);
      lockRepo.locks := lockRepo.locks[jobUuid := jobLock];
      var twentyFourHoursAgo := WindowStart(start);
      var agents := agentRepo.agents;
      var done := VisitAgents(agents, reachable, twentyFourHoursAgo, stamp, fault, start);
      outcome := if done < |agents| then Aborted(done) else Completed;
      lockRepo.locks := lockRepo.locks - {jobUuid};
    }

    /** The body of the try block: the visits in `findAll` order, stopped by a throwing visit.
        `visited` is the number of agents whose visit completed. The job's lock, written at
        `lockedAt`, is in place when the visits start, and the visits leave it there. */
    method VisitAgents(agents: seq<AgentInfo>, reachable: (string, int) -> bool, cutoff: int, stamp: int,
                       fault: Option<nat>, ghost lockedAt: int) returns (visited: nat)
      requires agentRepo.agents == agents
      requires HeldLock(lockRepo.locks, jobUuid, lockedAt)
      modifies agentRepo, alertRepo, alertService.notifier
      ensures HeldLock(lockRepo.locks, jobUuid, lockedAt)
      ensures visited <= |agents|
      ensures visited < |agents| <==> fault.Some? && fault.value < |agents|
      ensures visited < |agents| ==> fault == Some(visited)
      ensures agentRepo.agents == SweptPrefix(agents, visited, reachable)
      ensures Effects(alertRepo.alerts, alertService.notifier.outbox) ==
              SweepEffects(old(Effects(alertRepo.alerts, alertService.notifier.outbox)), agents[..visited], reachable, cutoff, stamp)
    {
      ghost var e0 := Effects(alertRepo.alerts, alertService.notifier.outbox);
      var last := if fault.Some? && fault.value < |agents| then fault.value else |agents|;
      var i := 0;
      while i < last
        invariant 0 <= i <= last
        invariant agentRepo.agents == SweptPrefix(agents, i, reachable)
        invariant Effects(alertRepo.alerts, alertService.notifier.outbox) ==
                  SweepEffects(e0, agents[..i], reachable, cutoff, stamp)
      {
        var agent := agents[i];
        VisitNext(e0, agents, i, reachable, cutoff, stamp);
        CheckAgentPort(i, agent, reachable, cutoff, stamp);
        CheckDeclaredPorts(agent, reachable, cutoff, stamp);
        i := i + 1;
      }
      assert agents[..|agents|] == agents;
      visited := i;
    }

    /** The agent-port half of one visit: the status write (only when the status does not
        already match ignoring case) and the AGENT alert. */
    method CheckAgentPort(i: nat, agent: AgentInfo, reachable: (string, int) -> bool, cutoff: int, stamp: int)
      requires i < |agentRepo.agents| && agentRepo.agents[i] == agent
      modifies agentRepo, alertRepo, alertService.notifier
      ensures agentRepo.agents == old(agentRepo.agents)[i := Swept(agent, reachable)]
      ensures Effects(alertRepo.alerts, alertService.notifier.outbox) ==
              AgentAlertEffects(old(Effects(alertRepo.alerts, alertService.notifier.outbox)), agent, reachable, cutoff, stamp)
    {
      var ip := agent.ip;
      var hostname := agent.hostname;
      var agentPort := agent.agentPort;
      if !reachable(ip, agentPort) {
        if !(agent.status.Some? && EqualsIgnoreCase(DOWN, agent.status.value)) {
          agentRepo.agents := agentRepo.agents[i := agent.(status := Some(DOWN))];
        }
        var lastAgentAlert := LatestAlert(alertRepo.alerts, ByType(ip, AGENT));
        if lastAgentAlert.None? || lastAgentAlert.value.timestamp < cutoff {
          var message := AgentDownMessage(agent);
          alertService.SendCustomTelegramAlert(AGENT, message);
          alertRepo.alerts := alertRepo.alerts + [AgentAlert(agent, stamp)];
        }
      } else {
        if !(agent.status.Some? && EqualsIgnoreCase(UP, agent.status.value)) {
          agentRepo.agents := agentRepo.agents[i := agent.(status := Some(UP))];
        }
      }
    }

    /** The port loop of one visit: nothing for a null or empty list, otherwise each declared
        port in order. */
    method CheckDeclaredPorts(agent: AgentInfo, reachable: (string, int) -> bool, cutoff: int, stamp: int)
      modifies alertRepo, alertService.notifier
      ensures Effects(alertRepo.alerts, alertService.notifier.outbox) ==
              PortsEffects(old(Effects(alertRepo.alerts, alertService.notifier.outbox)), agent,
                           DeclaredPorts(agent), reachable, cutoff, stamp)
    {
      var ports := agent.openPorts;
      if ports.None? || |ports.value| == 0 {
        return;
      }
      ghost var e0 := Effects(alertRepo.alerts, alertService.notifier.outbox);
      var k := 0;
      while k < |ports.value|
        invariant 0 <= k <= |ports.value|
        invariant Effects(alertRepo.alerts, alertService.notifier.outbox) ==
                  PortsEffects(e0, agent, ports.value[..k], reachable, cutoff, stamp)
      {
        PortsEffectsNext(e0, agent, ports.value, k, reachable, cutoff, stamp);
        CheckPort(agent, ports.value[k], reachable, cutoff, stamp);
        k := k + 1;
      }
      assert ports.value[..|ports.value|] == ports.value;
    }

    /** One declared port: when it does not answer, a PORT alert and its notification unless
        a PORT alert for the ip and port is at or after the cutoff. */
    method CheckPort(agent: AgentInfo, port: int, reachable: (string, int) -> bool, cutoff: int, stamp: int)
      modifies alertRepo, alertService.notifier
      ensures Effects(alertRepo.alerts, alertService.notifier.outbox) ==
              var e := old(Effects(alertRepo.alerts, alertService.notifier.outbox));
              if reachable(agent.ip, port) then e
              else SweepAlertStep(e, PortAlert(agent, port, stamp), PortDownMessage(agent, port), cutoff)
    {
      if !reachable(agent.ip, port) {
        var lastPortAlert := LatestAlert(alertRepo.alerts, ByPort(agent.ip, PORT, port));
        if lastPortAlert.None? || lastPortAlert.value.timestamp < cutoff {
          var message := PortDownMessage(agent, port);
          alertService.SendCustomTelegramAlert(PORT, message);
          alertRepo.alerts := alertRepo.alerts + [PortAlert(agent, port, stamp)];
        }
      }
    }
  }
}
