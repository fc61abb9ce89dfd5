/** The registry of external applications (services/ApiClientService.java). A client is
    created only under an application name not yet registered, so the collection holds at
    most one client per name (`UniqueApps`); a key is valid for a name exactly when it is
    the key stored under that name. The clock, the random key and the human-readable date
    formatter are parameters. */
module ApiClients {
  import opened Domain
  import opened Repositories

  /** Position of the client `findByAppName` returns, the first one if several match. */
  function IndexOfApp(clients: seq<ApiClient>, appName: string): (r: Option<nat>)
    ensures r.None? <==> forall i :: 0 <= i < |clients| ==> clients[i].appName != appName
    ensures r.Some? ==> r.value < |clients| && clients[r.value].appName == appName
    ensures r.Some? ==> forall i :: 0 <= i < r.value ==> clients[i].appName != appName
  {
    FirstIndex(clients, (c: ApiClient) => c.appName == appName)
  }

  /** `ApiClientRepository.findByAppName`. */
  function FindByAppName(clients: seq<ApiClient>, appName: string): Option<ApiClient>
  {
    match IndexOfApp(clients, appName)
    case None => None
    case Some(i) => Some(clients[i])
  }

  /** At most one client per application name. */
  predicate UniqueApps(clients: seq<ApiClient>)
  {
    forall i, j :: 0 <= i < j < |clients| ==> clients[i].appName != clients[j].appName
  }

  /** `validateKey`: a client is registered under the name and its key is the one given. */
  predicate ValidKey(clients: seq<ApiClient>, appName: string, apiKey: string)
  {
    var client := FindByAppName(clients, appName);
    client.Some? && client.value.apiKey == apiKey
  }

  /** With one client per name, a key is valid for a name exactly when some stored client
      pairs the two; no stored client for the name means no key is valid. */
  lemma ValidKeyIff(clients: seq<ApiClient>, appName: string, apiKey: string)
    requires UniqueApps(clients)
    ensures ValidKey(clients, appName, apiKey) <==>
            exists i :: 0 <= i < |clients| && clients[i].appName == appName && clients[i].apiKey == apiKey
  {
    if i :| 0 <= i < |clients| && clients[i].appName == appName && clients[i].apiKey == apiKey {
      assert forall j :: 0 <= j < |clients| && j != i ==> clients[j].appName != appName;
    }
  }

  /** The client `createClient` builds. */
  function NewClient(appName: string, now: int, apiKey: string, formatHuman: int -> string): ApiClient
  {
    ApiClient(appName, apiKey, now, formatHuman(now))
  }

  /** Storing a client under a new name keeps one client per name, makes exactly its key
      valid for that name, and changes no other name's lookup. */
  lemma {:induction false} AddClient(clients: seq<ApiClient>, c: ApiClient, appName: string, apiKey: string)
    requires UniqueApps(clients) && FindByAppName(clients, c.appName).None?
    ensures UniqueApps(clients + [c])
    ensures FindByAppName(clients + [c], appName) ==
            if appName == c.appName then Some(c) else FindByAppName(clients, appName)
    ensures ValidKey(clients + [c], c.appName, apiKey) <==> apiKey == c.apiKey
  {
    var cs := clients + [c];
    assert forall i :: 0 <= i < |clients| ==> cs[i] == clients[i];
    if appName == c.appName {
      assert forall i :: 0 <= i < |clients| ==> cs[i].appName != appName;
    } else {
      var r, r' := IndexOfApp(clients, appName), IndexOfApp(cs, appName);
      if r.Some? {
        assert r'.Some? && r'.value <= r.value;
      } else {
        assert cs[|clients|].appName != appName;
      }
    }
    assert forall i :: 0 <= i < |clients| ==> cs[i].appName != c.appName;
    assert cs[|clients|] == c;
    assert IndexOfApp(cs, c.appName) == Some(|clients|);
  }

  class ApiClientService {
    const repo: ApiClientRepository

    constructor(repo: ApiClientRepository)
      ensures this.repo == repo
    {
      this.repo := repo;
    }

    /** `createClient`: nothing (None) and no change when the name is taken; otherwise one
        client with that name, the fresh key and `now` is stored and returned, and the key
        then validates for the name. */
    method CreateClient(appName: string, now: int, freshKey: string, formatHuman: int -> string)
      returns (created: Option<ApiClient>)
      requires UniqueApps(repo.clients)
      modifies repo
      ensures UniqueApps(repo.clients)
      ensures old(FindByAppName(repo.clients, appName)).Some? ==>
                created.None? && repo.clients == old(repo.clients)
      ensures old(FindByAppName(repo.clients, appName)).None? ==>
                && created == Some(NewClient(appName, now, freshKey, formatHuman))
                && repo.clients == old(repo.clients) + [created.value]
                && (forall k :: ValidKey(repo.clients, appName, k) <==> k == freshKey)
      ensures forall name :: name != appName ==>
                FindByAppName(repo.clients, name) == old(FindByAppName(repo.clients, name))
    {
      if FindByAppName(repo.clients, appName).Some? {
        return None;
      }
      var client := NewClient(appName, now, freshKey, formatHuman);
      forall name ensures FindByAppName(repo.clients + [client], name) ==
                            if name == appName then Some(client) else FindByAppName(repo.clients, name) {
        AddClient(repo.clients, client, name, freshKey);
      }
      forall k ensures ValidKey(repo.clients + [client], appName, k) <==> k == freshKey {
        AddClient(repo.clients, client, appName, k);
      }
      repo.clients := repo.clients + [client];
      created := Some(client);
    }

    /** `validateKey`: true only when a client is registered under the name with that key;
        with one client per name, true whenever such a client exists. */
    method ValidateKey(appName: string, apiKey: string) returns (valid: bool)
      ensures valid ==> exists i :: 0 <= i < |repo.clients| && repo.clients[i].appName == appName
                                    && repo.clients[i].apiKey == apiKey
      ensures (UniqueApps(repo.clients) && exists i :: 0 <= i < |repo.clients| && repo.clients[i].appName == appName
                                                       && repo.clients[i].apiKey == apiKey) ==> valid
      ensures valid == ValidKey(repo.clients, appName, apiKey)
    {
      var client := FindByAppName(repo.clients, appName);
      valid := client.Some? && client.value.apiKey == apiKey;
      if UniqueApps(repo.clients) {
        ValidKeyIff(repo.clients, appName, apiKey);
      }
    }
  }
}
