/** pkg/workflow/tools.go: listing one app's workflow instances. */
module Listing {
  import opened Text
  import opened AppRegistry

  datatype Metadata = Metadata(name: string, status: string, createdAt: Option<string>)

  datatype Page = Page(ids: seq<string>, token: string)

  /** What the sidecars answer during one tool call: a page for a target, size and token;
      and metadata for the id at a position of that page. Both may fail at will. */
  datatype Answers = Answers(
    list: (Target, nat, string) -> Result<Page, string>,
    meta: (Target, nat, string) -> Result<Metadata, string>)

  datatype Instance = Instance(appID: string, instanceID: string, workflowName: string, status: string, createdAt: string)

  datatype AppListing = AppListing(
    appID: string, instances: seq<Instance>, token: string, skipped: nat, err: Option<string>)

  const NO_LISTING := AppListing("", [], "", 0, None)

  // ----- what a listing is: the page's ids, those whose metadata was fetched kept, in order -----

  function Summary(appID: string, id: string, m: Metadata): Instance {
    Instance(appID, id, m.name, m.status, if m.createdAt.Some? then m.createdAt.value else "")
  }

  /** For each id of the page, whether its metadata was fetched. */
  ghost function Fetched(w: Answers, t: Target, ids: seq<string>): (r: seq<bool>)
    ensures |r| == |ids| && forall i | 0 <= i < |ids| :: r[i] == w.meta(t, i, ids[i]).Success?
  {
    seq(|ids|, i requires 0 <= i < |ids| => w.meta(t, i, ids[i]).Success?)
  }

  ghost function SummaryOf(appID: string, id: string, answer: Result<Metadata, string>): (r: Instance)
    ensures r.appID == appID && r.instanceID == id
    ensures answer.Success? ==> r == Summary(appID, id, answer.value)
  {
    match answer
    case Success(m) => Summary(appID, id, m)
    case Failure(_) => Instance(appID, id, "", "", "")
  }

  /** For each id of the page its instance, without metadata where none was fetched. */
  ghost function Summaries(w: Answers, t: Target, ids: seq<string>): (r: seq<Instance>)
    ensures |r| == |ids| && forall i | 0 <= i < |ids| :: r[i] == SummaryOf(t.appID, ids[i], w.meta(t, i, ids[i]))
  {
    seq(|ids|, i requires 0 <= i < |ids| => SummaryOf(t.appID, ids[i], w.meta(t, i, ids[i])))
  }

  /** Of the first n elements those that are kept, in their order. */
  ghost function Select<T>(xs: seq<T>, keep: seq<bool>, n: nat): seq<T>
    requires n <= |xs| && n <= |keep|
  {
    if n == 0 then [] else Select(xs, keep, n - 1) + if keep[n - 1] then [xs[n - 1]] else []
  }

  ghost function Dropped(keep: seq<bool>, n: nat): (d: nat)
    requires n <= |keep|
    ensures d <= n
  {
    if n == 0 then 0 else Dropped(keep, n - 1) + if keep[n - 1] then 0 else 1
  }

  /** The listing as far as the first k ids of the page go. */
  ghost function Partial(w: Answers, t: Target, page: Page, k: nat): AppListing
    requires k <= |page.ids|
  {
    var keep := Fetched(w, t, page.ids);
    AppListing(t.appID, Select(Summaries(w, t, page.ids), keep, k), page.token, Dropped(keep, k), None)
  }

  ghost function ListingOf(w: Answers, t: Target, size: nat, token: string): AppListing {
    match w.list(t, size, token)
    case Failure(e) => AppListing(t.appID, [], "", 0, Some(e))
    case Success(page) => Partial(w, t, page, |page.ids|)
  }

  // ----- what a listing accounts for -----

  ghost function InstanceIDs(xs: seq<Instance>): (r: seq<string>)
    ensures |r| == |xs|
    ensures forall i | 0 <= i < |xs| :: r[i] == xs[i].instanceID
  {
    if xs == [] then [] else InstanceIDs(xs[..|xs| - 1]) + [xs[|xs| - 1].instanceID]
  }

  ghost predicate AllOfApp(xs: seq<Instance>, appID: string) {
    forall i | 0 <= i < |xs| :: xs[i].appID == appID
  }

  /** The listing holds, in the sidecar's order, exactly the ids whose metadata was fetched,
      and counts every other one. */
  ghost predicate Accounts(w: Answers, t: Target, page: Page, l: AppListing) {
    var keep, n := Fetched(w, t, page.ids), |page.ids|;
    && l.appID == t.appID && l.token == page.token && l.err.None?
    && AllOfApp(l.instances, t.appID)
    && InstanceIDs(l.instances) == Select(page.ids, keep, n)
    && l.skipped == Dropped(keep, n)
    && |l.instances| + l.skipped == n
  }

  /** The instance shows this id of this app with the metadata's name, status and creation time. */
  ghost predicate Shows(x: Instance, appID: string, id: string, m: Metadata) {
    && x.appID == appID && x.instanceID == id && x.workflowName == m.name && x.status == m.status
    && match m.createdAt case Some(at) => x.createdAt == at case None => x.createdAt == ""
  }

  /** An id whose metadata was fetched stands, with that very metadata, as far down the list as
      there are fetched ids before it. */
  ghost predicate Places(w: Answers, t: Target, ids: seq<string>, xs: seq<Instance>) {
    var keep := Fetched(w, t, ids);
    forall i | 0 <= i < |ids| && keep[i] ::
      i - Dropped(keep, i) < |xs| && Shows(xs[i - Dropped(keep, i)], t.appID, ids[i], w.meta(t, i, ids[i]).value)
  }

  lemma {:induction false} SelectLength<T>(xs: seq<T>, keep: seq<bool>, n: nat)
    requires n <= |xs| && n <= |keep|
    ensures |Select(xs, keep, n)| + Dropped(keep, n) == n
  {
    if n == 0 {
    } else {
      SelectLength(xs, keep, n - 1);
    }
  }

  lemma {:induction false} SelectPlace<T>(xs: seq<T>, keep: seq<bool>, n: nat, i: nat)
    requires i < n <= |xs| && n <= |keep| && keep[i]
    ensures i - Dropped(keep, i) < |Select(xs, keep, n)| && Select(xs, keep, n)[i - Dropped(keep, i)] == xs[i]
  {
    if i == n - 1 {
      SelectLength(xs, keep, i);
    } else {
      SelectPlace(xs, keep, n - 1, i);
    }
  }

  lemma OneMoreID(xs: seq<Instance>, x: Instance)
    ensures InstanceIDs(xs + [x]) == InstanceIDs(xs) + [x.instanceID]
  {
    assert (xs + [x])[..|xs|] == xs;
  }

  /** xs[i] is an instance of the app with id ids[i]. */
  ghost predicate Pairs(xs: seq<Instance>, ids: seq<string>, appID: string) {
    |xs| == |ids| && forall i | 0 <= i < |xs| :: xs[i].appID == appID && xs[i].instanceID == ids[i]
  }

  lemma {:induction false} SelectedIDs(xs: seq<Instance>, ids: seq<string>, appID: string, keep: seq<bool>, n: nat)
    requires n <= |xs| == |keep| && Pairs(xs, ids, appID)
    ensures InstanceIDs(Select(xs, keep, n)) == Select(ids, keep, n)
  {
    if n == 0 {
    } else {
      SelectedIDs(xs, ids, appID, keep, n - 1);
      if keep[n - 1] {
        OneMoreID(Select(xs, keep, n - 1), xs[n - 1]);
      }
    }
  }

  lemma {:induction false} SelectedOfApp(xs: seq<Instance>, appID: string, keep: seq<bool>, n: nat)
    requires n <= |xs| == |keep| && AllOfApp(xs, appID)
    ensures AllOfApp(Select(xs, keep, n), appID)
  {
    if n == 0 {
    } else {
      SelectedOfApp(xs, appID, keep, n - 1);
    }
  }

  lemma SelectionPlaces(w: Answers, t: Target, page: Page)
    ensures Places(w, t, page.ids, Partial(w, t, page, |page.ids|).instances)
    ensures var l := Partial(w, t, page, |page.ids|); |l.instances| + l.skipped == |page.ids|
  {
    var xs, keep := Summaries(w, t, page.ids), Fetched(w, t, page.ids);
    SelectLength(xs, keep, |page.ids|);
    forall i | 0 <= i < |page.ids| && keep[i]
      ensures i - Dropped(keep, i) < |Select(xs, keep, |page.ids|)|
      ensures Shows(Select(xs, keep, |page.ids|)[i - Dropped(keep, i)], t.appID, page.ids[i], w.meta(t, i, page.ids[i]).value)
    {
      SelectPlace(xs, keep, |page.ids|, i);
    }
  }

  /** No silent omission within one app. */
  lemma ListingAccounts(w: Answers, t: Target, size: nat, token: string)
    ensures var l, answer := ListingOf(w, t, size, token), w.list(t, size, token);
            if answer.Success? then Accounts(w, t, answer.value, l) && Places(w, t, answer.value.ids, l.instances)
            else l == AppListing(t.appID, [], "", 0, Some(answer.error))
  {
    if w.list(t, size, token).Success? {
      var page := w.list(t, size, token).value;
      SelectionPlaces(w, t, page);
      var xs, keep := Summaries(w, t, page.ids), Fetched(w, t, page.ids);
      SelectedIDs(xs, page.ids, t.appID, keep, |page.ids|);
      SelectedOfApp(xs, t.appID, keep, |page.ids|);
    }
  }

  // ----- the loop -----

  /** An id whose metadata cannot be fetched is counted, not listed. */
  function Absorb(l: AppListing, id: string, answer: Result<Metadata, string>): AppListing {
    match answer
    case Failure(_) => l.(skipped := l.skipped + 1)
    case Success(m) => l.(instances := l.instances + [Summary(l.appID, id, m)])
  }

  lemma AbsorbNext(w: Answers, t: Target, page: Page, k: nat)
    requires k < |page.ids|
    ensures Partial(w, t, page, k + 1) == Absorb(Partial(w, t, page, k), page.ids[k], w.meta(t, k, page.ids[k]))
  {
  }

  /** listApp, undisturbed: what it returns says of every id of the page what became of it. */
  method ListApp(w: Answers, t: Target, size: nat, token: string) returns (l: AppListing)
    ensures l == ListingOf(w, t, size, token)
    ensures match w.list(t, size, token)
            case Failure(e) => l == AppListing(t.appID, [], "", 0, Some(e))
            case Success(page) => Accounts(w, t, page, l) && Places(w, t, page.ids, l.instances)
  {
    ListingAccounts(w, t, size, token);
    l := AppListing(t.appID, [], "", 0, None);
    var response := w.list(t, size, token);
    if response.Failure? {
      return l.(err := Some(response.error));
    }
    var page := response.value;
    l := l.(token := page.token);
    for k := 0 to |page.ids|
      invariant l == Partial(w, t, page, k)
    {
      AbsorbNext(w, t, page, k);
      l := Absorb(l, page.ids[k], w.meta(t, k, page.ids[k]));
    }
  }
}
