/** pkg/workflow/registry.go: which workflow client serves which app-id. */
module AppRegistry {
  import opened Text

  /** A connection handle; two handles may well reach the same sidecar. */
  type Client = nat

  datatype Target = Target(appID: string, client: Client)

  datatype RouteError = AppIDRequired(valid: seq<string>) | UnknownAppID(appID: string, valid: seq<string>)

  const FALLBACK_APP_ID := "default"

  ghost function PoolTargets(ids: seq<string>, pool: map<string, Client>): (r: seq<Target>)
    requires Elements(ids) <= pool.Keys
    ensures |r| == |ids|
    ensures forall i | 0 <= i < |ids| :: ids[i] in pool && r[i] == Target(ids[i], pool[ids[i]])
  {
    if ids == [] then [] else
      assert ids[0] in Elements(ids);
      assert Elements(ids[1..]) <= Elements(ids);
      [Target(ids[0], pool[ids[0]])] + PoolTargets(ids[1..], pool)
  }

  datatype Registry = Registry(defaultClient: Client, defaultAppID: string, byAppID: map<string, Client>) {

    predicate MultiApp() {
      byAppID != map[]
    }

    // ----- reference definitions, independent of map iteration order -----

    ghost function Accepted(): seq<string> {
      InOrder(byAppID.Keys + {defaultAppID})
    }

    ghost function AllTargets(): seq<Target> {
      (if defaultAppID in byAppID then [] else [Target(defaultAppID, defaultClient)])
      + PoolTargets(InOrder(byAppID.Keys), byAppID)
    }

    ghost function Route(appID: string): Result<Target, RouteError> {
      if appID == "" then
        if MultiApp() then Failure(AppIDRequired(Accepted())) else Success(Target(defaultAppID, defaultClient))
      else if appID in byAppID then Success(Target(appID, byAppID[appID]))
      else if appID == defaultAppID then Success(Target(appID, defaultClient))
      else Failure(UnknownAppID(appID, Accepted()))
    }

    // ----- the methods -----

    method AppIDs() returns (ids: seq<string>)
      ensures ids == Accepted()
    {
      ids := [defaultAppID];
      var left := byAppID.Keys;
      while left != {}
        invariant left <= byAppID.Keys
        invariant Distinct(ids) && Elements(ids) == byAppID.Keys - left + {defaultAppID}
        decreases left
      {
        var id :| id in left;
        if id != defaultAppID {
          assert id !in Elements(ids);
          ids := ids + [id];
        }
        left := left - {id};
      }
      assert Elements(ids) == byAppID.Keys + {defaultAppID};
      SortEnumeration(ids);
      ids := Sort(ids);
    }

    method AddPool(ids: seq<string>) returns (added: seq<Target>)
      requires Elements(ids) == byAppID.Keys
      ensures added == PoolTargets(ids, byAppID)
    {
      added := [];
      for i := 0 to |ids|
        invariant |added| == i
        invariant forall j | 0 <= j < i :: ids[j] in byAppID && added[j] == Target(ids[j], byAppID[ids[j]])
      {
        assert ids[i] in Elements(ids);
        added := added + [Target(ids[i], byAppID[ids[i]])];
      }
    }

    method Targets() returns (targets: seq<Target>)
      ensures targets == AllTargets()
    {
      targets := [];
      if defaultAppID !in byAppID {
        targets := targets + [Target(defaultAppID, defaultClient)];
      }
      var ids := SortedKeys(byAppID.Keys);
      var pool := AddPool(ids);
      targets := targets + pool;
    }

    method ClientFor(appID: string) returns (r: Result<Target, RouteError>)
      ensures r == Route(appID)
    {
      if appID == "" {
        if MultiApp() {
          var valid := AppIDs();
          return Failure(AppIDRequired(valid));
        }
        return Success(Target(defaultAppID, defaultClient));
      }
      if appID in byAppID {
        return Success(Target(appID, byAppID[appID]));
      }
      if appID == defaultAppID {
        return Success(Target(appID, defaultClient));
      }
      var valid := AppIDs();
      return Failure(UnknownAppID(appID, valid));
    }
  }

  /** newRegistry: an empty own app-id is labelled with the fallback. */
  function NewRegistry(defaultClient: Client, defaultAppID: string, byAppID: map<string, Client>): (r: Registry)
    ensures r.defaultAppID != ""
    ensures defaultAppID != "" ==> r.defaultAppID == defaultAppID
    ensures defaultAppID == "" ==> r.defaultAppID == "default"
    ensures r.defaultClient == defaultClient && r.byAppID == byAppID
  {
    Registry(defaultClient, if defaultAppID == "" then FALLBACK_APP_ID else defaultAppID, byAppID)
  }

  ghost predicate DistinctLabels(targets: seq<Target>) {
    forall i, j | 0 <= i < j < |targets| :: targets[i].appID != targets[j].appID
  }

  ghost function Labels(targets: seq<Target>): set<string> {
    set t | t in targets :: t.appID
  }

  /** Position by position: the own app, unless the pool replaces it, then the pool in order. */
  ghost predicate Shaped(r: Registry, ids: seq<string>, ts: seq<Target>) {
    var own := if r.defaultAppID in r.byAppID then 0 else 1;
    && |ts| == own + |ids|
    && (own == 1 ==> ts[0] == Target(r.defaultAppID, r.defaultClient))
    && forall i | own <= i < |ts| :: ids[i - own] in r.byAppID && ts[i] == Target(ids[i - own], r.byAppID[ids[i - own]])
  }

  lemma PrependShape(r: Registry, ids: seq<string>, pool: seq<Target>, ts: seq<Target>)
    requires |pool| == |ids|
    requires forall i | 0 <= i < |ids| :: ids[i] in r.byAppID && pool[i] == Target(ids[i], r.byAppID[ids[i]])
    requires ts == (if r.defaultAppID in r.byAppID then [] else [Target(r.defaultAppID, r.defaultClient)]) + pool
    ensures Shaped(r, ids, ts)
  {
  }

  lemma TargetShape(r: Registry)
    ensures Shaped(r, InOrder(r.byAppID.Keys), r.AllTargets())
  {
    var ids := InOrder(r.byAppID.Keys);
    PrependShape(r, ids, PoolTargets(ids, r.byAppID), r.AllTargets());
  }

  lemma ShapedIsDistinct(r: Registry, ids: seq<string>, ts: seq<Target>)
    requires Shaped(r, ids, ts) && Distinct(ids)
    ensures DistinctLabels(ts)
  {
  }

  lemma ShapedCovers(r: Registry, ids: seq<string>, ts: seq<Target>)
    requires Shaped(r, ids, ts) && Elements(ids) == r.byAppID.Keys
    ensures Labels(ts) == r.byAppID.Keys + {r.defaultAppID}
  {
    var own := |ts| - |ids|;
    forall x | x in r.byAppID.Keys + {r.defaultAppID} ensures x in Labels(ts) {
      if x in r.byAppID {
        assert x in Elements(ids);
        var i :| 0 <= i < |ids| && ids[i] == x;
        assert ts[own + i].appID == x;
      } else {
        assert ts[0].appID == x;
      }
    }
  }

  /** A fan-out never holds the same app-id twice. */
  lemma TargetsDistinct(r: Registry)
    ensures DistinctLabels(r.AllTargets())
  {
    TargetShape(r);
    ShapedIsDistinct(r, InOrder(r.byAppID.Keys), r.AllTargets());
  }

  /** The fan-out covers exactly the app-ids that appIDs lists. */
  lemma TargetsCoverAppIDs(r: Registry)
    ensures Labels(r.AllTargets()) == Elements(r.Accepted())
    ensures Sorted(r.Accepted()) && Distinct(r.Accepted())
  {
    TargetShape(r);
    ShapedCovers(r, InOrder(r.byAppID.Keys), r.AllTargets());
  }

  /** clientFor accepts exactly the ids that appIDs lists, apart from the empty one. */
  lemma AcceptedIffListed(r: Registry, appID: string)
    requires appID != ""
    ensures r.Route(appID).Success? <==> appID in r.Accepted()
    ensures r.Route(appID).Success? ==> r.Route(appID).value in r.AllTargets() && r.Route(appID).value.appID == appID
  {
    assert appID in r.Accepted() <==> appID in Elements(r.Accepted());
    var ts, ids := r.AllTargets(), InOrder(r.byAppID.Keys);
    if appID in r.byAppID {
      assert appID in Elements(ids);
      var i :| 0 <= i < |ids| && ids[i] == appID;
      assert ts[|ts| - |ids| + i] == Target(appID, r.byAppID[appID]);
    } else if appID == r.defaultAppID {
      assert ts[0] == Target(appID, r.defaultClient);
    }
  }

  /** These are the valid app-ids as an error lists them: sorted, once each, the own and the pool's. */
  ghost predicate ListsValid(r: Registry, ids: seq<string>) {
    Sorted(ids) && Distinct(ids) && Elements(ids) == r.byAppID.Keys + {r.defaultAppID}
  }

  /** A call without an app-id is served only by a registry without a pool, and then by the own
      client. With a pool it is refused, and so is an id that nobody has; both errors list the
      valid ids. */
  lemma Refusals(r: Registry, appID: string)
    ensures r.Route("").Success? <==> r.byAppID == map[]
    ensures r.Route("").Success? ==> r.Route("") == Success(Target(r.defaultAppID, r.defaultClient))
    ensures r.Route("").Failure? ==> r.Route("").error.AppIDRequired? && ListsValid(r, r.Route("").error.valid)
    ensures appID != "" && appID != r.defaultAppID && appID !in r.byAppID ==>
              && r.Route(appID).Failure? && r.Route(appID).error.UnknownAppID?
              && r.Route(appID).error.appID == appID && ListsValid(r, r.Route(appID).error.valid)
  {
  }

  lemma TargetIndex(r: Registry, appID: string) returns (i: nat)
    requires appID in r.byAppID
    ensures i < |r.AllTargets()| && r.AllTargets()[i].appID == appID
  {
    TargetShape(r);
    var ids := InOrder(r.byAppID.Keys);
    assert appID in Elements(ids);
    var k :| 0 <= k < |ids| && ids[k] == appID;
    i := |r.AllTargets()| - |ids| + k;
  }

  lemma TargetRoutes(r: Registry, i: nat)
    requires r.defaultAppID != "" && "" !in r.byAppID && i < |r.AllTargets()|
    ensures r.Route(r.AllTargets()[i].appID) == Success(r.AllTargets()[i])
  {
    TargetShape(r);
    var ids := InOrder(r.byAppID.Keys);
    var own := |r.AllTargets()| - |ids|;
    assert i >= own ==> ids[i - own] in Elements(ids);
  }

  /** Asking for a fan-out target by its label gives that very target, for every target,
      exactly when no pool entry has the empty app-id. */
  lemma TargetsRouteBack(r: Registry)
    requires r.defaultAppID != ""
    ensures (forall t | t in r.AllTargets() :: r.Route(t.appID) == Success(t)) <==> "" !in r.byAppID
  {
    var ts := r.AllTargets();
    if "" in r.byAppID {
      var i := TargetIndex(r, "");
      assert ts[i] in ts;
      Refusals(r, "");
    } else {
      forall t | t in ts ensures r.Route(t.appID) == Success(t) {
        var i :| 0 <= i < |ts| && ts[i] == t;
        TargetRoutes(r, i);
      }
    }
  }

  /** Without an empty app-id in the pool, every fan-out target can be named and is found by its name. */
  lemma TargetsNameable(r: Registry, t: Target)
    requires r.defaultAppID != "" && "" !in r.byAppID && t in r.AllTargets()
    ensures t.appID != "" && r.Route(t.appID) == Success(t)
  {
    TargetsRouteBack(r);
    TargetsCoverAppIDs(r);
    assert t.appID in Labels(r.AllTargets());
  }
}
