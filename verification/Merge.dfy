/** pkg/workflow/tools.go: merging the listings of the targets into one result. */
module Merge {
  import opened Text
  import opened Listing
  import opened Counting

  datatype Warning = ListingFailed(error: string) | MetadataMissing(count: nat)

  datatype Merged = Merged(
    instances: seq<Instance>,
    byWorkflow: map<string, nat>, byStatus: map<string, nat>, byApp: map<string, nat>,
    tokens: map<string, string>, warnings: map<string, Warning>)

  // ----- reference: what each listing contributes under its app-id -----

  ghost function CountEntry(l: AppListing): Option<nat> {
    if l.err.Some? then None else Some(|l.instances|)
  }

  ghost function TokenEntry(l: AppListing): Option<string> {
    if l.err.Some? || l.token == "" then None else Some(l.token)
  }

  ghost function WarningEntry(l: AppListing): Option<Warning> {
    if l.err.Some? then Some(ListingFailed(l.err.value))
    else if l.skipped > 0 then Some(MetadataMissing(l.skipped))
    else None
  }

  /** Assigning the entries of the first n listings under their app-ids, the last one winning. */
  ghost function Collect<V>(ls: seq<AppListing>, n: nat, entry: AppListing -> Option<V>): map<string, V>
    requires n <= |ls|
  {
    if n == 0 then map[] else
      var before := Collect(ls, n - 1, entry);
      var e := entry(ls[n - 1]);
      if e.Some? then before[ls[n - 1].appID := e.value] else before
  }

  ghost function Contribution(l: AppListing): seq<Instance> {
    if l.err.Some? then [] else l.instances
  }

  ghost function AllInstances(ls: seq<AppListing>, n: nat): seq<Instance>
    requires n <= |ls|
  {
    if n == 0 then []
    else AllInstances(ls, n - 1) + Contribution(ls[n - 1])
  }

  ghost function Names(xs: seq<Instance>): (r: seq<string>)
    ensures |r| == |xs| && forall i | 0 <= i < |xs| :: r[i] == xs[i].workflowName
  {
    seq(|xs|, i requires 0 <= i < |xs| => xs[i].workflowName)
  }

  ghost function Statuses(xs: seq<Instance>): (r: seq<string>)
    ensures |r| == |xs| && forall i | 0 <= i < |xs| :: r[i] == xs[i].status
  {
    seq(|xs|, i requires 0 <= i < |xs| => xs[i].status)
  }

  ghost predicate Tallies(xs: seq<Instance>, byWorkflow: map<string, nat>, byStatus: map<string, nat>) {
    byWorkflow == Tally(Names(xs)) && byStatus == Tally(Statuses(xs))
  }

  ghost function MergeOf(ls: seq<AppListing>): Merged {
    var xs := AllInstances(ls, |ls|);
    Merged(xs, Tally(Names(xs)), Tally(Statuses(xs)),
           Collect(ls, |ls|, CountEntry), Collect(ls, |ls|, TokenEntry), Collect(ls, |ls|, WarningEntry))
  }

  // ----- the loops -----

  lemma TalliesSnoc(xs: seq<Instance>, byWorkflow: map<string, nat>, byStatus: map<string, nat>, x: Instance)
    requires Tallies(xs, byWorkflow, byStatus)
    ensures Tallies(xs + [x], Increment(byWorkflow, x.workflowName), Increment(byStatus, x.status))
  {
    TallySnoc(Names(xs), x.workflowName);
    TallySnoc(Statuses(xs), x.status);
    assert Names(xs + [x]) == Names(xs) + [x.workflowName];
    assert Statuses(xs + [x]) == Statuses(xs) + [x.status];
  }

  method AddInstances(xs: seq<Instance>, byWorkflow: map<string, nat>, byStatus: map<string, nat>, more: seq<Instance>)
    returns (ys: seq<Instance>, byWorkflow': map<string, nat>, byStatus': map<string, nat>)
    requires Tallies(xs, byWorkflow, byStatus)
    ensures ys == xs + more && Tallies(ys, byWorkflow', byStatus')
  {
    ys, byWorkflow', byStatus' := xs, byWorkflow, byStatus;
    for j := 0 to |more|
      invariant ys == xs + more[..j]
      invariant Tallies(ys, byWorkflow', byStatus')
    {
      TalliesSnoc(ys, byWorkflow', byStatus', more[j]);
      assert more[..j + 1] == more[..j] + [more[j]];
      byWorkflow' := Increment(byWorkflow', more[j].workflowName);
      byStatus' := Increment(byStatus', more[j].status);
      ys := ys + [more[j]];
    }
    assert more[..|more|] == more;
  }

  method MergeListings(ls: seq<AppListing>) returns (m: Merged)
    ensures m == MergeOf(ls)
  {
    var instances: seq<Instance> := [];
    var byWorkflow: map<string, nat>, byStatus: map<string, nat>, byApp: map<string, nat> := map[], map[], map[];
    var tokens: map<string, string> := map[];
    var warnings: map<string, Warning> := map[];
    for i := 0 to |ls|
      invariant instances == AllInstances(ls, i)
      invariant Tallies(instances, byWorkflow, byStatus)
      invariant byApp == Collect(ls, i, CountEntry)
      invariant tokens == Collect(ls, i, TokenEntry)
      invariant warnings == Collect(ls, i, WarningEntry)
    {
      var l := ls[i];
      if l.err.Some? {
        warnings := warnings[l.appID := ListingFailed(l.err.value)];
        continue;
      }
      if l.skipped > 0 {
        warnings := warnings[l.appID := MetadataMissing(l.skipped)];
      }
      if l.token != "" {
        tokens := tokens[l.appID := l.token];
      }
      byApp := byApp[l.appID := |l.instances|];
      instances, byWorkflow, byStatus := AddInstances(instances, byWorkflow, byStatus, l.instances);
    }
    return Merged(instances, byWorkflow, byStatus, byApp, tokens, warnings);
  }

  // ----- what the result says about the listings -----

  ghost predicate DistinctApps(ls: seq<AppListing>) {
    forall i, j | 0 <= i < j < |ls| :: ls[i].appID != ls[j].appID
  }

  ghost predicate Labelled(ls: seq<AppListing>) {
    forall i | 0 <= i < |ls| :: AllOfApp(ls[i].instances, ls[i].appID)
  }

  /** With distinct app-ids nothing overwrites anything: an app-id is a key iff its own listing
      has an entry, with that entry as its value. */
  ghost predicate Exact<V>(ls: seq<AppListing>, n: nat, entry: AppListing -> Option<V>, m: map<string, V>) {
    && n <= |ls|
    && (forall i | 0 <= i < n :: if entry(ls[i]).Some? then ls[i].appID in m && m[ls[i].appID] == entry(ls[i]).value
                                 else ls[i].appID !in m)
    && (forall k | k in m :: exists i | 0 <= i < n :: ls[i].appID == k)
  }

  lemma {:induction false} CollectExact<V>(ls: seq<AppListing>, n: nat, entry: AppListing -> Option<V>)
    requires n <= |ls| && DistinctApps(ls)
    ensures Exact(ls, n, entry, Collect(ls, n, entry))
  {
    if n == 0 {
    } else {
      CollectExact(ls, n - 1, entry);
      var before, after := Collect(ls, n - 1, entry), Collect(ls, n, entry);
      forall k | k in after ensures exists i | 0 <= i < n :: ls[i].appID == k {
        if k in before {
          var i :| 0 <= i < n - 1 && ls[i].appID == k;
        } else {
          assert ls[n - 1].appID == k;
        }
      }
    }
  }

  lemma {:induction false} CollectKeys<V>(ls: seq<AppListing>, n: nat, entry: AppListing -> Option<V>, labels: set<string>)
    requires n <= |ls| && forall i | 0 <= i < |ls| :: ls[i].appID in labels
    ensures Collect(ls, n, entry).Keys <= labels
  {
    if n == 0 {
    } else {
      CollectKeys(ls, n - 1, entry, labels);
    }
  }

  /** The targets split into the keys of counts-by-app and the listing-failed warnings; an
      app whose ids are not all listed is in the warnings; tokens belong to successful apps. */
  lemma MergeIsExact(ls: seq<AppListing>, i: nat)
    requires DistinctApps(ls) && i < |ls|
    ensures var m, l := MergeOf(ls), ls[i];
            && (l.appID in m.byApp <==> l.err.None?)
            && (l.appID in m.byApp ==> m.byApp[l.appID] == |l.instances|)
            && (l.err.Some? <==> l.appID in m.warnings && m.warnings[l.appID].ListingFailed?)
            && (l.err.Some? ==> m.warnings[l.appID] == ListingFailed(l.err.value))
            && (l.err.None? && l.skipped > 0 <==> l.appID in m.warnings && m.warnings[l.appID].MetadataMissing?)
            && (l.err.None? && l.skipped > 0 ==> m.warnings[l.appID] == MetadataMissing(l.skipped))
            && (l.err.None? && l.token != "" <==> l.appID in m.tokens)
            && (l.appID in m.tokens ==> m.tokens[l.appID] == l.token)
  {
    CollectExact(ls, |ls|, CountEntry);
    CollectExact(ls, |ls|, TokenEntry);
    CollectExact(ls, |ls|, WarningEntry);
  }

  /** Counts by app are the true counts: conservation needs the app-ids to be distinct. */
  lemma {:induction false} CountsByAppSum(ls: seq<AppListing>, n: nat)
    requires n <= |ls| && DistinctApps(ls)
    ensures Sum(Collect(ls, n, CountEntry)) == |AllInstances(ls, n)|
  {
    if n == 0 {
    } else {
      CountsByAppSum(ls, n - 1);
      CollectExact(ls, n - 1, CountEntry);
      var before := Collect(ls, n - 1, CountEntry);
      assert ls[n - 1].appID !in before;
      SumUpdate(before, ls[n - 1].appID, |ls[n - 1].instances|);
    }
  }

  /** Listing i of the first n is a success, and so is a later one with its app-id. */
  ghost predicate Overwritten(ls: seq<AppListing>, n: nat, i: int) {
    && 0 <= i < n <= |ls| && ls[i].err.None?
    && exists j | i < j < n :: ls[j].err.None? && ls[j].appID == ls[i].appID
  }

  /** The last success of its app among the first n listings. */
  ghost predicate LastOfApp(ls: seq<AppListing>, n: nat, i: int) {
    0 <= i < n <= |ls| && ls[i].err.None? && !Overwritten(ls, n, i)
  }

  lemma {:induction false} LastIsCounted(ls: seq<AppListing>, n: nat, appID: string)
    requires n <= |ls|
    ensures appID in Collect(ls, n, CountEntry) ==>
              exists i :: LastOfApp(ls, n, i) && ls[i].appID == appID && Collect(ls, n, CountEntry)[appID] == |ls[i].instances|
    ensures appID !in Collect(ls, n, CountEntry) ==> forall i | 0 <= i < n :: ls[i].err.Some? || ls[i].appID != appID
  {
    if n == 0 {
    } else {
      LastIsCounted(ls, n - 1, appID);
      if ls[n - 1].err.None? && ls[n - 1].appID == appID {
        assert LastOfApp(ls, n, n - 1);
      } else if appID in Collect(ls, n - 1, CountEntry) {
        var i :| LastOfApp(ls, n - 1, i) && ls[i].appID == appID && Collect(ls, n - 1, CountEntry)[appID] == |ls[i].instances|;
        assert LastOfApp(ls, n, i);
      }
    }
  }

  /** The counts that assigning instead of adding has lost after n listings. */
  ghost function Lost(ls: seq<AppListing>, n: nat): nat
    requires n <= |ls|
  {
    if n == 0 then 0 else
      var l, before := ls[n - 1], Collect(ls, n - 1, CountEntry);
      Lost(ls, n - 1) + if l.err.None? && l.appID in before then before[l.appID] else 0
  }

  lemma {:induction false} SumAndLost(ls: seq<AppListing>, n: nat)
    requires n <= |ls|
    ensures Sum(Collect(ls, n, CountEntry)) + Lost(ls, n) == |AllInstances(ls, n)|
  {
    if n == 0 {
    } else {
      SumAndLost(ls, n - 1);
      SumUpdate(Collect(ls, n - 1, CountEntry), ls[n - 1].appID, |ls[n - 1].instances|);
    }
  }

  ghost predicate OverwrittenAreEmpty(ls: seq<AppListing>, n: nat) {
    forall i | Overwritten(ls, n, i) :: ls[i].instances == []
  }

  lemma OverwrittenNext(ls: seq<AppListing>, n: nat, i: int)
    requires 0 < n <= |ls|
    ensures Overwritten(ls, n, i) <==>
              || Overwritten(ls, n - 1, i)
              || (0 <= i < n - 1 && ls[i].err.None? && ls[n - 1].err.None? && ls[i].appID == ls[n - 1].appID)
  {
  }

  lemma {:induction false} NothingLostIff(ls: seq<AppListing>, n: nat)
    requires n <= |ls|
    ensures Lost(ls, n) == 0 <==> OverwrittenAreEmpty(ls, n)
  {
    if n == 0 {
    } else {
      NothingLostIff(ls, n - 1);
      var l, before := ls[n - 1], Collect(ls, n - 1, CountEntry);
      LastIsCounted(ls, n - 1, l.appID);
      forall i ensures Overwritten(ls, n, i) <==>
                         || Overwritten(ls, n - 1, i)
                         || (0 <= i < n - 1 && ls[i].err.None? && l.err.None? && ls[i].appID == l.appID) {
        OverwrittenNext(ls, n, i);
      }
      if l.err.None? && l.appID in before {
        var last :| LastOfApp(ls, n - 1, last) && ls[last].appID == l.appID && before[l.appID] == |ls[last].instances|;
        assert Overwritten(ls, n, last);
      }
    }
  }

  /** Exactly when assigned counts are right: they add up to the number of instances iff every
      successful listing that a later one of the same app overwrites is empty. */
  lemma RepeatedAppMiscounts(ls: seq<AppListing>)
    ensures Sum(MergeOf(ls).byApp) == |MergeOf(ls).instances| <==> OverwrittenAreEmpty(ls, |ls|)
  {
    SumAndLost(ls, |ls|);
    NothingLostIff(ls, |ls|);
  }

  /** The instances of one app. */
  ghost function OfApp(xs: seq<Instance>, appID: string): seq<Instance> {
    if xs == [] then [] else
      var last := xs[|xs| - 1];
      OfApp(xs[..|xs| - 1], appID) + if last.appID == appID then [last] else []
  }

  lemma {:induction false} OfAppConcat(xs: seq<Instance>, ys: seq<Instance>, appID: string)
    ensures OfApp(xs + ys, appID) == OfApp(xs, appID) + OfApp(ys, appID)
  {
    if ys == [] {
      assert xs + ys == xs;
    } else {
      var n := |ys| - 1;
      assert (xs + ys)[..|xs + ys| - 1] == xs + ys[..n];
      OfAppConcat(xs, ys[..n], appID);
    }
  }

  lemma {:induction false} OfAppUniform(xs: seq<Instance>, own: string, appID: string)
    requires AllOfApp(xs, own)
    ensures OfApp(xs, appID) == if own == appID then xs else []
  {
    if xs == [] {
    } else {
      var n := |xs| - 1;
      OfAppUniform(xs[..n], own, appID);
      assert xs == xs[..n] + [xs[n]];
    }
  }

  lemma PartGrows(ls: seq<AppListing>, n: nat, appID: string)
    requires 0 < n <= |ls| && AllOfApp(ls[n - 1].instances, ls[n - 1].appID)
    ensures OfApp(AllInstances(ls, n), appID)
         == OfApp(AllInstances(ls, n - 1), appID) + if ls[n - 1].appID == appID then Contribution(ls[n - 1]) else []
  {
    OfAppConcat(AllInstances(ls, n - 1), Contribution(ls[n - 1]), appID);
    OfAppUniform(Contribution(ls[n - 1]), ls[n - 1].appID, appID);
  }

  lemma {:induction false} PartOutside(ls: seq<AppListing>, n: nat, appID: string)
    requires n <= |ls| && Labelled(ls)
    requires forall i | 0 <= i < n :: ls[i].appID != appID
    ensures OfApp(AllInstances(ls, n), appID) == []
  {
    if n == 0 {
    } else {
      PartOutside(ls, n - 1, appID);
      assert ls[n - 1].appID != appID;
      PartGrows(ls, n, appID);
    }
  }

  /** Order preservation: what the merged result holds of a target's app is that app's own
      listing, whole and in its order. */
  lemma {:induction false} MergedPart(ls: seq<AppListing>, n: nat, i: nat)
    requires i < n <= |ls| && DistinctApps(ls) && Labelled(ls)
    ensures OfApp(AllInstances(ls, n), ls[i].appID) == Contribution(ls[i])
  {
    PartGrows(ls, n, ls[i].appID);
    if i < n - 1 {
      MergedPart(ls, n - 1, i);
    } else {
      PartOutside(ls, n - 1, ls[i].appID);
    }
  }

  ghost predicate Lists(ls: seq<AppListing>, n: nat, appID: string)
    requires n <= |ls|
  {
    exists i | 0 <= i < n :: ls[i].appID == appID
  }

  /** Every instance is of a listed app, and the apps follow each other in the listings' order. */
  ghost predicate InOrderOf(xs: seq<Instance>, ls: seq<AppListing>, n: nat)
    requires n <= |ls|
  {
    && (forall u | 0 <= u < |xs| :: Lists(ls, n, xs[u].appID))
    && forall u, v, i, j | 0 <= u < v < |xs| && 0 <= i < n && 0 <= j < n && ls[i].appID == xs[u].appID && ls[j].appID == xs[v].appID ::
         i <= j
  }

  lemma AppendInOrder(xs: seq<Instance>, more: seq<Instance>, ls: seq<AppListing>, n: nat)
    requires 0 < n <= |ls| && DistinctApps(ls) && InOrderOf(xs, ls, n - 1) && AllOfApp(more, ls[n - 1].appID)
    ensures InOrderOf(xs + more, ls, n)
  {
    var ys := xs + more;
    forall u | 0 <= u < |ys| ensures Lists(ls, n, ys[u].appID) {
      assert ys[u] == if u < |xs| then xs[u] else more[u - |xs|];
      assert u < |xs| ==> Lists(ls, n - 1, xs[u].appID);
    }
    forall u, v, i, j | 0 <= u < v < |ys| && 0 <= i < n && 0 <= j < n && ls[i].appID == ys[u].appID && ls[j].appID == ys[v].appID
      ensures i <= j
    {
      if v < |xs| {
        assert ys[u] == xs[u] && ys[v] == xs[v];
        assert Lists(ls, n - 1, xs[u].appID) && Lists(ls, n - 1, xs[v].appID);
      } else {
        assert ys[v] == more[v - |xs|];
      }
    }
  }

  /** Order preservation across apps. */
  lemma {:induction false} MergedInOrder(ls: seq<AppListing>, n: nat)
    requires n <= |ls| && DistinctApps(ls) && Labelled(ls)
    ensures InOrderOf(AllInstances(ls, n), ls, n)
  {
    if n == 0 {
    } else {
      MergedInOrder(ls, n - 1);
      AppendInOrder(AllInstances(ls, n - 1), Contribution(ls[n - 1]), ls, n);
    }
  }

  /** With distinct app-ids a count by app is the number of that app's instances. */
  lemma CountsAreTrue(ls: seq<AppListing>, appID: string)
    requires DistinctApps(ls) && Labelled(ls) && appID in MergeOf(ls).byApp
    ensures MergeOf(ls).byApp[appID] == |OfApp(MergeOf(ls).instances, appID)|
  {
    CollectExact(ls, |ls|, CountEntry);
    var i :| 0 <= i < |ls| && ls[i].appID == appID;
    MergedPart(ls, |ls|, i);
  }

  lemma {:induction false} SourceOf(ls: seq<AppListing>, n: nat, x: Instance) returns (i: nat)
    requires n <= |ls| && Labelled(ls) && x in AllInstances(ls, n)
    ensures i < n && ls[i].err.None? && ls[i].appID == x.appID
  {
    if x in AllInstances(ls, n - 1) {
      i := SourceOf(ls, n - 1, x);
    } else {
      i := n - 1;
    }
  }

  lemma AppIsCounted(ls: seq<AppListing>, x: Instance)
    requires DistinctApps(ls) && Labelled(ls) && x in MergeOf(ls).instances
    ensures x.appID in MergeOf(ls).byApp
  {
    var i := SourceOf(ls, |ls|, x);
    CollectExact(ls, |ls|, CountEntry);
  }
}
