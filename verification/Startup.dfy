/** cmd/dapr-mcp-server/main.go: from the environment value to a connected registry. */
module Startup {
  import opened Text
  import opened AppsConfig
  import opened AppRegistry

  const MAX_RETRIES: nat := 5

  /** The outcome of each connection attempt, in order. */
  type Dial = nat -> Result<Client, string>

  /** What dialling an app's address does, attempt by attempt. */
  type Network = (string, string) -> Dial

  ghost predicate Reachable(dial: Dial) {
    exists i: nat | i < MAX_RETRIES :: dial(i).Success?
  }

  ghost predicate FirstConnection(dial: Dial, c: Client) {
    exists i: nat | i < MAX_RETRIES :: dial(i) == Success(c) && forall j: nat | j < i :: dial(j).Failure?
  }

  /** connectWithRetry: the first of at most five attempts to succeed, or the last error. */
  method ConnectWithRetry(dial: Dial) returns (r: Result<Client, string>, attempts: nat)
    ensures r.Success? <==> Reachable(dial)
    ensures r.Success? ==> FirstConnection(dial, r.value)
    ensures r.Failure? ==> attempts == 5 && r == dial(4)
    ensures 1 <= attempts <= 5 && r == dial(attempts - 1) && forall j: nat | j < attempts - 1 :: dial(j).Failure?
  {
    var i := 0;
    attempts := 0;
    r := Failure("");
    while i < MAX_RETRIES
      invariant 0 <= i <= MAX_RETRIES && attempts == i
      invariant forall j: nat | j < i :: dial(j).Failure?
      invariant i > 0 ==> r == dial(i - 1)
    {
      r := dial(i);
      attempts := attempts + 1;
      if r.Success? {
        return;
      }
      i := i + 1;
    }
  }

  datatype StartupError =
    | BadConfig(error: ParseError)
    | Unreachable(appID: string, addr: string, last: string)

  type Pool = map<string, Client>

  ghost predicate AllReachable(apps: Apps, net: Network) {
    forall id | id in apps :: Reachable(net(id, apps[id]))
  }

  /** One client per parsed app-id, each the first connection made to its address. */
  ghost predicate PoolOf(pool: Pool, apps: Apps, net: Network) {
    && pool.Keys == apps.Keys
    && forall id | id in apps :: FirstConnection(net(id, apps[id]), pool[id])
  }

  ghost predicate IsStartup(raw: string, net: Network, r: Result<Pool, StartupError>) {
    match r
    case Success(pool) => exists apps :: IsParse(raw, Success(apps)) && PoolOf(pool, apps, net)
    case Failure(BadConfig(error)) => IsParse(raw, Failure(error))
    case Failure(Unreachable(id, addr, last)) =>
      exists apps :: IsParse(raw, Success(apps)) && id in apps && addr == apps[id]
        && !Reachable(net(id, addr)) && net(id, addr)(MAX_RETRIES - 1) == Failure(last)
  }

  method ConnectAll(ghost raw: string, apps: Apps, net: Network) returns (r: Result<Pool, StartupError>)
    requires IsParse(raw, Success(apps))
    ensures r.Failure? ==> r.error.Unreachable?
    ensures IsStartup(raw, net, r)
  {
    var pool: Pool := map[];
    var left := apps.Keys;
    while left != {}
      invariant left <= apps.Keys && pool.Keys == apps.Keys - left
      invariant forall id | id in pool :: FirstConnection(net(id, apps[id]), pool[id])
      decreases left
    {
      var appID :| appID in left;
      left := left - {appID};
      var client, _ := ConnectWithRetry(net(appID, apps[appID]));
      if client.Failure? {
        return Failure(Unreachable(appID, apps[appID], client.error));
      }
      pool := pool[appID := client.value];
    }
    assert PoolOf(pool, apps, net);
    return Success(pool);
  }

  /** initializeWorkflowApps: all or nothing, visiting the parsed apps in any order. */
  method InitializeWorkflowApps(raw: string, net: Network) returns (r: Result<Pool, StartupError>)
    ensures IsStartup(raw, net, r)
  {
    var parsed := ParseAppsConfig(raw);
    if parsed.Failure? {
      return Failure(BadConfig(parsed.error));
    }
    r := ConnectAll(raw, parsed.value, net);
  }

  lemma PoolMeansReachable(pool: Pool, apps: Apps, net: Network)
    requires PoolOf(pool, apps, net)
    ensures AllReachable(apps, net)
  {
    forall id | id in apps ensures Reachable(net(id, apps[id])) {
      assert FirstConnection(net(id, apps[id]), pool[id]);
    }
  }

  /** The server starts iff the value parses and every app connects within five attempts,
      and then the pool is fixed by the value and the connections: no iteration order shows. */
  lemma StartsIff(raw: string, net: Network, parsed: Result<Apps, ParseError>, r: Result<Pool, StartupError>)
    requires IsParse(raw, parsed) && IsStartup(raw, net, r)
    ensures r.Success? <==> parsed.Success? && AllReachable(parsed.value, net)
    ensures r.Success? ==> PoolOf(r.value, parsed.value, net) && "" !in r.value
  {
    if r.Success? {
      var apps :| IsParse(raw, Success(apps)) && PoolOf(r.value, apps, net);
      ParseUnique(raw, parsed, Success(apps));
      ParsedAppsAreGood(raw, apps);
      PoolMeansReachable(r.value, apps, net);
    } else if r.error.BadConfig? {
      ParseUnique(raw, parsed, Failure(r.error.error));
    } else {
      var apps :| IsParse(raw, Success(apps)) && r.error.appID in apps && r.error.addr == apps[r.error.appID]
                  && !Reachable(net(r.error.appID, r.error.addr));
      ParseUnique(raw, parsed, Success(apps));
    }
  }

  lemma PoolUnique(apps: Apps, net: Network, a: Pool, b: Pool)
    requires PoolOf(a, apps, net) && PoolOf(b, apps, net)
    ensures a == b
  {
    forall id | id in apps ensures a[id] == b[id] {
      var d := net(id, apps[id]);
      assert FirstConnection(d, a[id]) && FirstConnection(d, b[id]);
    }
  }

  /** The own sidecar's label: what its metadata reports, else the fallback. */
  function OwnAppID(metadata: Option<string>): (id: string)
    ensures id != ""
    ensures metadata.Some? && metadata.value != "" ==> id == metadata.value
    ensures metadata == None || metadata == Some("") ==> id == "default"
  {
    if metadata.Some? && metadata.value != "" then metadata.value else "default"
  }

  /** The ids main writes into the instructions, gathered and sorted on its own. */
  method AdvertisedAppIDs(defaultAppID: string, pool: Pool) returns (ids: seq<string>)
    requires defaultAppID != ""
    ensures forall c: Client :: ids == NewRegistry(c, defaultAppID, pool).Accepted()
  {
    ids := [defaultAppID];
    var left := pool.Keys;
    while left != {}
      invariant left <= pool.Keys
      invariant Distinct(ids) && Elements(ids) == pool.Keys - left + {defaultAppID}
      decreases left
    {
      var appID :| appID in left;
      if appID != defaultAppID {
        assert appID !in Elements(ids);
        ids := ids + [appID];
      }
      left := left - {appID};
    }
    assert Elements(ids) == pool.Keys + {defaultAppID};
    SortEnumeration(ids);
    ids := Sort(ids);
  }

  /** A registry built at startup can route every label it reports. */
  lemma StartedRegistryRoutes(raw: string, apps: Apps, net: Network,
                              pool: Pool, own: Client, metadata: Option<string>)
    requires IsParse(raw, Success(apps)) && PoolOf(pool, apps, net)
    ensures var reg := NewRegistry(own, OwnAppID(metadata), pool);
            forall t | t in reg.AllTargets() :: reg.Route(t.appID) == Success(t)
  {
    ParsedAppsAreGood(raw, apps);
    TargetsRouteBack(NewRegistry(own, OwnAppID(metadata), pool));
  }
}
