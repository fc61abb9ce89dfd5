/** Agent registration (services/AgentRegistrationService.java): an upsert keyed on the pair
    (ip, hostname). A known agent gets its ports, timestamp and agent port refreshed in
    place; an unknown one is stored as sent. Because the upsert is the only way agents are
    added, the collection holds at most one record per pair; `UniqueIdentities` is that
    invariant, and it is what keeps the single-result lookup from failing. */
module AgentRegistration {
  import opened Domain
  import opened Repositories

  predicate SameIdentity(a: AgentInfo, ip: string, hostname: string)
  {
    a.ip == ip && a.hostname == hostname
  }

  /** At most one record per (ip, hostname). */
  predicate UniqueIdentities(agents: seq<AgentInfo>)
  {
    forall i, j :: 0 <= i < j < |agents| ==> !SameIdentity(agents[j], agents[i].ip, agents[i].hostname)
  }

  /** Position of the record `findByIpAndHostname` returns, the first one if several match. */
  function IndexOfIdentity(agents: seq<AgentInfo>, ip: string, hostname: string): (r: Option<nat>)
    ensures r.None? <==> forall i :: 0 <= i < |agents| ==> !SameIdentity(agents[i], ip, hostname)
    ensures r.Some? ==> r.value < |agents| && SameIdentity(agents[r.value], ip, hostname)
    ensures r.Some? ==> forall i :: 0 <= i < r.value ==> !SameIdentity(agents[i], ip, hostname)
  {
    FirstIndex(agents, (a: AgentInfo) => SameIdentity(a, ip, hostname))
  }

  /** In a collection with one record per pair, a record is the only match for its pair. */
  lemma IndexOfUnique(agents: seq<AgentInfo>, k: nat)
    requires UniqueIdentities(agents) && k < |agents|
    ensures IndexOfIdentity(agents, agents[k].ip, agents[k].hostname) == Some(k)
  {
    assert forall j :: 0 <= j < k ==> !SameIdentity(agents[j], agents[k].ip, agents[k].hostname);
  }

  /** The existing record after the three setters: ports, timestamp and agent port come from
      the registration, everything else (id, ip, hostname, status) stays. */
  function Refreshed(existing: AgentInfo, incoming: AgentInfo): (r: AgentInfo)
    ensures r.id == existing.id && r.ip == existing.ip && r.hostname == existing.hostname
    ensures r.status == existing.status
    ensures r.openPorts == incoming.openPorts && r.timestamp == incoming.timestamp
    ensures r.agentPort == incoming.agentPort
  {
    existing.(openPorts := incoming.openPorts, timestamp := incoming.timestamp, agentPort := incoming.agentPort)
  }

  /** The collection after `registerAgent(x)`. */
  function Register(agents: seq<AgentInfo>, x: AgentInfo): seq<AgentInfo>
  {
    match IndexOfIdentity(agents, x.ip, x.hostname)
    case None => agents + [x]
    case Some(k) => agents[k := Refreshed(agents[k], x)]
  }

  /** Registering a known pair refreshes that one record in place: same count, same id,
      ip, hostname and status, the new ports, timestamp and agent port, every other record
      untouched. */
  lemma RegisterKnown(agents: seq<AgentInfo>, x: AgentInfo, k: nat)
    requires UniqueIdentities(agents)
    requires k < |agents| && SameIdentity(agents[k], x.ip, x.hostname)
    ensures var r := Register(agents, x);
      && |r| == |agents|
      && r[k].id == agents[k].id && r[k].status == agents[k].status
      && SameIdentity(r[k], x.ip, x.hostname)
      && r[k].openPorts == x.openPorts && r[k].timestamp == x.timestamp && r[k].agentPort == x.agentPort
      && (forall i :: 0 <= i < |agents| && i != k ==> r[i] == agents[i])
  {
    IndexOfUnique(agents, k);
  }

  /** Registering an unknown pair stores the record exactly as sent, status included, after
      the existing ones. */
  lemma RegisterUnknown(agents: seq<AgentInfo>, x: AgentInfo)
    requires forall i :: 0 <= i < |agents| ==> !SameIdentity(agents[i], x.ip, x.hostname)
    ensures Register(agents, x) == agents + [x]
  {
  }

  /** Registration keeps one record per pair, and afterwards exactly one record carries the
      registered pair. */
  lemma RegisterKeepsUnique(agents: seq<AgentInfo>, x: AgentInfo)
    requires UniqueIdentities(agents)
    ensures UniqueIdentities(Register(agents, x))
    ensures exists k :: 0 <= k < |Register(agents, x)| && SameIdentity(Register(agents, x)[k], x.ip, x.hostname)
    ensures forall i, j ::
              (0 <= i < |Register(agents, x)| && 0 <= j < |Register(agents, x)|
               && SameIdentity(Register(agents, x)[i], x.ip, x.hostname)
               && SameIdentity(Register(agents, x)[j], x.ip, x.hostname)) ==> i == j
  {
    var r := Register(agents, x);
    match IndexOfIdentity(agents, x.ip, x.hostname)
    case None =>
      assert r[|agents|] == x;
    case Some(k) =>
      assert forall i :: 0 <= i < |agents| ==> r[i].ip == agents[i].ip && r[i].hostname == agents[i].hostname;
      assert SameIdentity(r[k], x.ip, x.hostname);
  }

  /** Two registrations of the same pair leave one record for it, with the second call's
      ports, timestamp and agent port, and the same record count as after the first. */
  lemma RegisterTwice(agents: seq<AgentInfo>, x: AgentInfo, y: AgentInfo)
    requires UniqueIdentities(agents)
    requires x.ip == y.ip && x.hostname == y.hostname
    ensures var once, twice := Register(agents, x), Register(Register(agents, x), y);
      && |twice| == |once|
      && exists k :: 0 <= k < |twice| && SameIdentity(twice[k], y.ip, y.hostname)
           && twice[k].openPorts == y.openPorts && twice[k].timestamp == y.timestamp
           && twice[k].agentPort == y.agentPort
           && twice[k].id == once[k].id && twice[k].status == once[k].status
           && (forall i :: 0 <= i < |twice| && i != k ==> !SameIdentity(twice[i], y.ip, y.hostname))
  {
    var once := Register(agents, x);
    RegisterKeepsUnique(agents, x);
    var k :| 0 <= k < |once| && SameIdentity(once[k], x.ip, x.hostname);
    RegisterKnown(once, y, k);
    RegisterKeepsUnique(once, y);
  }

  /** Repeating a registration changes nothing. */
  lemma RegisterIdempotent(agents: seq<AgentInfo>, x: AgentInfo)
    requires UniqueIdentities(agents)
    ensures Register(Register(agents, x), x) == Register(agents, x)
  {
    var once := Register(agents, x);
    RegisterKeepsUnique(agents, x);
    match IndexOfIdentity(agents, x.ip, x.hostname)
    case None =>
      IndexOfUnique(once, |agents|);
      assert once[|agents|] == x;
    case Some(k) =>
      assert once[k] == Refreshed(agents[k], x);
      IndexOfUnique(once, k);
      assert Refreshed(once[k], x) == once[k];
  }

  class AgentRegistrationService {
    const repo: AgentRepository

    constructor(repo: AgentRepository)
      ensures this.repo == repo
    {
      this.repo := repo;
    }

    /** `registerAgent`: refreshes the record with the same (ip, hostname) or stores the new
        one, and returns what was saved. */
    method RegisterAgent(agentInfo: AgentInfo) returns (saved: AgentInfo)
      requires UniqueIdentities(repo.agents)
      modifies repo
      ensures repo.agents == Register(old(repo.agents), agentInfo)
      ensures UniqueIdentities(repo.agents)
      ensures saved in repo.agents && SameIdentity(saved, agentInfo.ip, agentInfo.hostname)
      ensures saved.openPorts == agentInfo.openPorts && saved.timestamp == agentInfo.timestamp
      ensures saved.agentPort == agentInfo.agentPort
    {
      RegisterKeepsUnique(repo.agents, agentInfo);
      var existing := IndexOfIdentity(repo.agents, agentInfo.ip, agentInfo.hostname);
      if existing.Some? {
        var k := existing.value;
        var agent := repo.agents[k];
        agent := agent.(openPorts := agentInfo.openPorts);
        agent := agent.(timestamp := agentInfo.timestamp);
        agent := agent.(agentPort := agentInfo.agentPort);
        repo.agents := repo.agents[k := agent];
        saved := agent;
      } else {
        repo.agents := repo.agents + [agentInfo];
        saved := agentInfo;
      }
    }
  }
}
