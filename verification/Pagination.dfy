/** Following the continuation tokens of list_workflows: one call without an app-id, then one call
    per app and token until no token is left. */
module Pagination {
  import opened Text
  import opened AppRegistry
  import opened Listing
  import opened Merge
  import opened ListTool
  import FanOut

  /** What one sidecar pages through: a fixed sequence of ids, and the position a token stands
      for. The empty token is the start. */
  datatype Snapshot = Snapshot(ids: seq<string>, pos: string -> nat)

  /** The page for a token starts where the token points and is no larger than asked for. A page
      without a token reaches the end, and one with a token has moved forward. */
  ghost predicate PageFits(snap: Snapshot, size: nat, token: string, page: Page) {
    var from := snap.pos(token);
    && from + |page.ids| <= |snap.ids|
    && |page.ids| <= size
    && page.ids == snap.ids[from..from + |page.ids|]
    && (page.token == "" ==> from + |page.ids| == |snap.ids|)
    && (page.token != "" ==> |page.ids| > 0 && snap.pos(page.token) == from + |page.ids|)
  }

  /** The target's sidecar serves the snapshot and no listing call fails. Metadata calls may. */
  ghost predicate Serves(w: Answers, t: Target, snap: Snapshot) {
    && snap.pos("") == 0
    && forall size: nat, token: string | size >= 1 && snap.pos(token) <= |snap.ids| ::
         w.list(t, size, token).Success? && PageFits(snap, size, token, w.list(t, size, token).value)
  }

  /** Call number n of a caller: the limit passed, the answers the sidecars give, and the
      tool's result for an app-id and a token. */
  datatype Calls = Calls(
    limit: nat -> int, answers: nat -> Answers, result: (nat, string, string) -> Outcome)

  ghost predicate ByTool(reg: Registry, c: Calls) {
    forall n: nat, appID: string, token: string ::
      c.result(n, appID, token) == OutcomeOf(reg, c.answers(n), ListArgs(appID, c.limit(n), token))
  }

  ghost predicate AlwaysServes(c: Calls, t: Target, snap: Snapshot) {
    forall n: nat :: Serves(c.answers(n), t, snap)
  }

  /** The app's instances in a report, and how many its warning says are missing. */
  ghost function Shown(o: Outcome, appID: string): seq<string> {
    if o.Report? then InstanceIDs(OfApp(o.structured.instances, appID)) else []
  }

  ghost function Missing(o: Outcome, appID: string): nat {
    if o.Report? && o.structured.warnings.Some? && appID in o.structured.warnings.value then
      match o.structured.warnings.value[appID]
      case MetadataMissing(n) => n
      case ListingFailed(_) => 0
    else 0
  }

  /** The token the caller has to pass next, from a single-app report or from a fan-out's. */
  ghost function NextToken(o: Outcome, appID: string): string {
    if !o.Report? then ""
    else if o.structured.tokens.Some? then
      if appID in o.structured.tokens.value then o.structured.tokens.value[appID] else ""
    else if o.structured.token.Some? then o.structured.token.value
    else ""
  }

  /** The report accounts for one page of one app: which ids it shows, how many are missing, and
      where to go on. */
  ghost predicate PageAccounted(o: Outcome, t: Target, w: Answers, page: Page) {
    var keep, n := Fetched(w, t, page.ids), |page.ids|;
    && o.Report?
    && Shown(o, t.appID) == Select(page.ids, keep, n)
    && Missing(o, t.appID) == Dropped(keep, n)
    && NextToken(o, t.appID) == page.token
  }

  /** Everything a report says about one page of one app. */
  ghost predicate PageReported(o: Outcome, t: Target, w: Answers, page: Page) {
    PageAccounted(o, t, w, page) && Places(w, t, page.ids, OfApp(o.structured.instances, t.appID))
  }

  ghost function FanOutOf(t: Target, w: Answers, size: nat, token: string): (p: FanOut.Problem)
    ensures |p.targets| == 1
  {
    FanOut.Problem([t], w, size, token)
  }

  lemma SingleListing(p: FanOut.Problem)
    requires |p.targets| == 1 && p.w.list(p.targets[0], p.size, p.token).Success?
    ensures PageReported(ListTargetsOf(false, p), p.targets[0], p.w, p.w.list(p.targets[0], p.size, p.token).value)
  {
    var t, ls := p.targets[0], PlainListings(p, 1);
    PlainIsWellLabelled(p, ls);
    assert ls[0] == p.Expected(0);
    ListingAccounts(p.w, t, p.size, p.token);
    MergedPart(ls, 1, 0);
    MergeIsExact(ls, 0);
  }

  lemma SingleCallReports(reg: Registry, w: Answers, appID: string, limit: int, token: string, t: Target)
    requires !FansOut(reg, ListArgs(appID, limit, token)) && reg.Route(appID) == Success(t)
    requires w.list(t, PageSize(limit), token).Success?
    ensures PageReported(OutcomeOf(reg, w, ListArgs(appID, limit, token)), t, w, w.list(t, PageSize(limit), token).value)
    ensures OutcomeOf(reg, w, ListArgs(appID, limit, token)).structured.appID == Some(t.appID)
    ensures OutcomeOf(reg, w, ListArgs(appID, limit, token)).structured.tokens.None?
  {
    SingleListing(FanOutOf(t, w, PageSize(limit), token));
  }

  lemma FanOutCallReports(reg: Registry, w: Answers, limit: int, t: Target)
    requires reg.MultiApp() && t in reg.AllTargets()
    requires w.list(t, PageSize(limit), "").Success?
    ensures PageReported(OutcomeOf(reg, w, ListArgs("", limit, "")), t, w, w.list(t, PageSize(limit), "").value)
  {
    NoSilentOmission(reg, w, ListArgs("", limit, ""), t);
  }

  lemma SilentListing(p: FanOut.Problem, other: string)
    requires |p.targets| == 1 && p.targets[0].appID != other
    ensures Shown(ListTargetsOf(false, p), other) == [] && Missing(ListTargetsOf(false, p), other) == 0
  {
    var ls := PlainListings(p, 1);
    PlainIsWellLabelled(p, ls);
    PartOutside(ls, 1, other);
    CollectKeys(ls, 1, WarningEntry, {p.targets[0].appID});
  }

  /** A call for one app says nothing about any other. */
  lemma OthersAreSilent(reg: Registry, w: Answers, appID: string, limit: int, token: string, other: string)
    requires appID != "" && appID != other
    ensures var o := OutcomeOf(reg, w, ListArgs(appID, limit, token)); Shown(o, other) == [] && Missing(o, other) == 0
  {
    if reg.Route(appID).Success? {
      SilentListing(FanOutOf(reg.Route(appID).value, w, PageSize(limit), token), other);
    }
  }

  // ----- visits -----

  ghost function AllShown(run: seq<Outcome>, appID: string): seq<string> {
    if run == [] then [] else Shown(run[0], appID) + AllShown(run[1..], appID)
  }

  ghost function AllMissing(run: seq<Outcome>, appID: string): nat {
    if run == [] then 0 else Missing(run[0], appID) + AllMissing(run[1..], appID)
  }

  /** These flags tell which ids the run shows; it reports the others missing. */
  ghost predicate VisitsBy(run: seq<Outcome>, appID: string, ids: seq<string>, keep: seq<bool>) {
    |keep| == |ids| && AllShown(run, appID) == Select(ids, keep, |ids|) && AllMissing(run, appID) == Dropped(keep, |ids|)
  }

  /** All the calls of the run together visit each of the app's ids once, in order, and nothing
      else of the app: some are shown, the rest reported missing. */
  ghost predicate VisitsOnce(run: seq<Outcome>, appID: string, ids: seq<string>) {
    exists keep :: VisitsBy(run, appID, ids, keep)
  }

  /** One report visits these ids of the app. */
  ghost predicate ReportVisits(o: Outcome, appID: string, ids: seq<string>, keep: seq<bool>) {
    |keep| == |ids| && Shown(o, appID) == Select(ids, keep, |ids|) && Missing(o, appID) == Dropped(keep, |ids|)
  }

  lemma {:induction false} SelectPrefix(xs: seq<string>, ys: seq<string>, a: seq<bool>, b: seq<bool>, n: nat)
    requires n <= |xs| == |a|
    ensures Select(xs + ys, a + b, n) == Select(xs, a, n) && Dropped(a + b, n) == Dropped(a, n)
  {
    if n == 0 {
    } else {
      SelectPrefix(xs, ys, a, b, n - 1);
    }
  }

  lemma {:induction false} SelectConcat(xs: seq<string>, ys: seq<string>, a: seq<bool>, b: seq<bool>, n: nat)
    requires |xs| == |a| && n <= |ys| == |b|
    ensures Select(xs + ys, a + b, |xs| + n) == Select(xs, a, |xs|) + Select(ys, b, n)
    ensures Dropped(a + b, |xs| + n) == Dropped(a, |xs|) + Dropped(b, n)
  {
    if n == 0 {
      SelectPrefix(xs, ys, a, b, |xs|);
    } else {
      SelectConcat(xs, ys, a, b, n - 1);
    }
  }

  /** One more report in front of a run that visits the rest. */
  lemma VisitFirst(o: Outcome, run: seq<Outcome>, appID: string, xs: seq<string>, keep: seq<bool>, ys: seq<string>)
    requires ReportVisits(o, appID, xs, keep) && VisitsOnce(run, appID, ys)
    ensures VisitsOnce([o] + run, appID, xs + ys)
  {
    var b :| VisitsBy(run, appID, ys, b);
    SelectConcat(xs, ys, keep, b, |ys|);
    assert ([o] + run)[1..] == run;
    assert VisitsBy([o] + run, appID, xs + ys, keep + b);
  }

  lemma NothingVisited(appID: string)
    ensures VisitsOnce([], appID, [])
  {
    assert VisitsBy([], appID, [], []);
  }

  // ----- what one call does for the caller -----

  /** What each app's sidecar pages through. */
  type World = string -> Snapshot

  ghost predicate Served(reg: Registry, c: Calls, world: World) {
    forall t | t in reg.AllTargets() :: AlwaysServes(c, t, world(t.appID))
  }

  /** A registry whose targets can all be named. */
  ghost predicate Nameable(reg: Registry) {
    reg.defaultAppID != "" && "" !in reg.byAppID
  }

  /** Where the report's token for the app points; without one, the end. */
  ghost function NextPos(snap: Snapshot, appID: string, o: Outcome): nat {
    if NextToken(o, appID) == "" then |snap.ids| else snap.pos(NextToken(o, appID))
  }

  /** The report visits the app's ids from the given position up to where its token points, and
      the token, if there is one, points further on. */
  ghost predicate MovesOn(snap: Snapshot, appID: string, from: nat, o: Outcome) {
    var to := NextPos(snap, appID, o);
    && from <= to <= |snap.ids| && (NextToken(o, appID) != "" ==> from < to)
    && exists keep :: ReportVisits(o, appID, snap.ids[from..to], keep)
  }

  ghost predicate Silent(o: Outcome, appID: string) {
    Shown(o, appID) == [] && Missing(o, appID) == 0
  }

  lemma PageMovesOn(o: Outcome, t: Target, w: Answers, page: Page, snap: Snapshot, size: nat, token: string)
    requires PageAccounted(o, t, w, page) && PageFits(snap, size, token, page)
    ensures MovesOn(snap, t.appID, snap.pos(token), o)
  {
    assert ReportVisits(o, t.appID, page.ids, Fetched(w, t, page.ids));
  }

  /** Calls for one of these apps move that app on and are silent about all others. */
  ghost predicate Pages(c: Calls, labels: set<string>, world: World) {
    && (forall n: nat, a, token | a in labels && world(a).pos(token) <= |world(a).ids| ::
          MovesOn(world(a), a, world(a).pos(token), c.result(n, a, token)))
    && (forall n: nat, a, token, b | a in labels && b != a :: Silent(c.result(n, a, token), b))
  }

  lemma CallMovesOn(reg: Registry, c: Calls, t: Target, snap: Snapshot, n: nat, token: string)
    requires ByTool(reg, c) && AlwaysServes(c, t, snap) && snap.pos(token) <= |snap.ids|
    requires t.appID != "" && reg.Route(t.appID) == Success(t)
    ensures MovesOn(snap, t.appID, snap.pos(token), c.result(n, t.appID, token))
  {
    var w, size := c.answers(n), PageSize(c.limit(n));
    assert Serves(w, t, snap);
    SingleCallReports(reg, w, t.appID, c.limit(n), token, t);
    PageMovesOn(c.result(n, t.appID, token), t, w, w.list(t, size, token).value, snap, size, token);
  }

  lemma ToolPages(reg: Registry, c: Calls, world: World)
    requires Nameable(reg) && ByTool(reg, c) && Served(reg, c, world)
    ensures Pages(c, Labels(reg.AllTargets()), world)
  {
    var labels := Labels(reg.AllTargets());
    forall n: nat, a, token | a in labels && world(a).pos(token) <= |world(a).ids|
      ensures MovesOn(world(a), a, world(a).pos(token), c.result(n, a, token))
    {
      var t :| t in reg.AllTargets() && t.appID == a;
      TargetsNameable(reg, t);
      CallMovesOn(reg, c, t, world(a), n, token);
    }
    forall n: nat, a, token, b | a in labels && b != a ensures Silent(c.result(n, a, token), b) {
      var t :| t in reg.AllTargets() && t.appID == a;
      TargetsNameable(reg, t);
      OthersAreSilent(reg, c.answers(n), a, c.limit(n), token, b);
    }
  }

  // ----- the caller's run: any app that has a token may be called next -----

  /** The app-ids that still have a token, with the token. */
  type Pending = map<string, string>

  ghost predicate Waiting(labels: set<string>, world: World, pending: Pending) {
    && pending.Keys <= labels
    && forall a | a in pending :: world(a).pos(pending[a]) <= |world(a).ids|
  }

  /** The position in an app's ids that the caller has come to; the end, without a token. */
  ghost function At(snap: Snapshot, pending: Pending, appID: string): nat {
    if appID in pending then snap.pos(pending[appID]) else |snap.ids|
  }

  ghost function AfterCall(pending: Pending, appID: string, o: Outcome): Pending {
    if NextToken(o, appID) == "" then pending - {appID} else pending[appID := NextToken(o, appID)]
  }

  /** The picks are the app-ids that calls n, n + 1, ... are made for, each with its last token. */
  ghost predicate Legal(c: Calls, n: nat, pending: Pending, picks: seq<string>)
    decreases |picks|
  {
    picks != [] ==>
      && picks[0] in pending
      && Legal(c, n + 1, AfterCall(pending, picks[0], c.result(n, picks[0], pending[picks[0]])), picks[1..])
  }

  ghost function Reports(c: Calls, n: nat, pending: Pending, picks: seq<string>): seq<Outcome>
    requires Legal(c, n, pending, picks)
    decreases |picks|
  {
    if picks == [] then [] else
      var o := c.result(n, picks[0], pending[picks[0]]);
      [o] + Reports(c, n + 1, AfterCall(pending, picks[0], o), picks[1..])
  }

  ghost function Remaining(c: Calls, n: nat, pending: Pending, picks: seq<string>): Pending
    requires Legal(c, n, pending, picks)
    decreases |picks|
  {
    if picks == [] then pending
    else Remaining(c, n + 1, AfterCall(pending, picks[0], c.result(n, picks[0], pending[picks[0]])), picks[1..])
  }

  /** The report takes an app from one position to the next. */
  ghost predicate Takes(snap: Snapshot, appID: string, from: nat, to: nat, o: Outcome) {
    from <= to <= |snap.ids| && exists keep :: ReportVisits(o, appID, snap.ids[from..to], keep)
  }

  lemma CallTakes(c: Calls, labels: set<string>, world: World, n: nat, pending: Pending, called: string, appID: string)
    requires Pages(c, labels, world) && Waiting(labels, world, pending) && called in pending && appID in labels
    ensures var o := c.result(n, called, pending[called]);
            Takes(world(appID), appID, At(world(appID), pending, appID), At(world(appID), AfterCall(pending, called, o), appID), o)
  {
    var o := c.result(n, called, pending[called]);
    if called == appID {
      assert MovesOn(world(appID), appID, world(appID).pos(pending[appID]), o);
    } else {
      var from := At(world(appID), pending, appID);
      assert Silent(o, appID);
      assert from <= |world(appID).ids|;
      assert world(appID).ids[from..from] == [];
      assert ReportVisits(o, appID, world(appID).ids[from..from], []);
    }
  }

  lemma StillWaiting(c: Calls, labels: set<string>, world: World, n: nat, pending: Pending, called: string)
    requires Pages(c, labels, world) && Waiting(labels, world, pending) && called in pending
    ensures Waiting(labels, world, AfterCall(pending, called, c.result(n, called, pending[called])))
  {
    assert MovesOn(world(called), called, world(called).pos(pending[called]), c.result(n, called, pending[called]));
  }

  lemma VisitStep(o: Outcome, run: seq<Outcome>, snap: Snapshot, appID: string, from: nat, mid: nat, to: nat)
    requires Takes(snap, appID, from, mid, o) && mid <= to <= |snap.ids| && VisitsOnce(run, appID, snap.ids[mid..to])
    ensures VisitsOnce([o] + run, appID, snap.ids[from..to])
  {
    var keep :| ReportVisits(o, appID, snap.ids[from..mid], keep);
    VisitFirst(o, run, appID, snap.ids[from..mid], keep, snap.ids[mid..to]);
    assert snap.ids[from..mid] + snap.ids[mid..to] == snap.ids[from..to];
  }

  /** The run visits what lies between the two positions, and nothing else of the app. */
  ghost predicate Covers(run: seq<Outcome>, snap: Snapshot, appID: string, from: nat, to: nat) {
    from <= to <= |snap.ids| && VisitsOnce(run, appID, snap.ids[from..to])
  }

  /** Whatever order the caller follows the tokens in, and however far it has come: the calls made
      so far visit exactly the ids between where they started and where they are, of every app. */
  lemma {:induction false} RunVisits(c: Calls, labels: set<string>, world: World, n: nat, pending: Pending, picks: seq<string>, appID: string)
    requires Pages(c, labels, world) && Waiting(labels, world, pending)
    requires Legal(c, n, pending, picks) && appID in labels
    ensures Covers(Reports(c, n, pending, picks), world(appID), appID,
                   At(world(appID), pending, appID), At(world(appID), Remaining(c, n, pending, picks), appID))
    decreases |picks|
  {
    var snap := world(appID);
    var from := At(snap, pending, appID);
    if picks == [] {
      assert appID in pending ==> from <= |snap.ids|;
      NothingVisited(appID);
      assert snap.ids[from..from] == [];
    } else {
      var o := c.result(n, picks[0], pending[picks[0]]);
      var next := AfterCall(pending, picks[0], o);
      CallTakes(c, labels, world, n, pending, picks[0], appID);
      StillWaiting(c, labels, world, n, pending, picks[0]);
      RunVisits(c, labels, world, n + 1, next, picks[1..], appID);
      VisitStep(o, Reports(c, n + 1, next, picks[1..]), snap, appID, from, At(snap, next, appID),
                At(snap, Remaining(c, n, pending, picks), appID));
    }
  }

  // ----- and it ends -----

  ghost function LeftOf(snap: Snapshot, pending: Pending, appID: string): nat {
    if appID in pending && At(snap, pending, appID) <= |snap.ids| then |snap.ids| - At(snap, pending, appID) + 1 else 0
  }

  /** A bound on the number of calls that the first k targets still need. */
  ghost function CallsLeft(targets: seq<Target>, k: nat, world: World, pending: Pending): nat
    requires k <= |targets|
  {
    if k == 0 then 0
    else CallsLeft(targets, k - 1, world, pending) + LeftOf(world(targets[k - 1].appID), pending, targets[k - 1].appID)
  }

  lemma {:induction false} OneLess(targets: seq<Target>, k: nat, world: World, before: Pending, after: Pending, called: string)
    requires k <= |targets|
    requires forall a :: LeftOf(world(a), after, a) <= LeftOf(world(a), before, a)
    requires LeftOf(world(called), after, called) < LeftOf(world(called), before, called)
    ensures CallsLeft(targets, k, world, after) <= CallsLeft(targets, k, world, before)
    ensures (exists i | 0 <= i < k :: targets[i].appID == called) ==>
              CallsLeft(targets, k, world, after) < CallsLeft(targets, k, world, before)
  {
    if k == 0 {
    } else {
      OneLess(targets, k - 1, world, before, after, called);
    }
  }

  lemma CallUsesOne(c: Calls, targets: seq<Target>, world: World, n: nat, pending: Pending, called: string)
    requires Pages(c, Labels(targets), world) && Waiting(Labels(targets), world, pending) && called in pending
    ensures CallsLeft(targets, |targets|, world, AfterCall(pending, called, c.result(n, called, pending[called])))
          < CallsLeft(targets, |targets|, world, pending)
  {
    assert MovesOn(world(called), called, world(called).pos(pending[called]), c.result(n, called, pending[called]));
    var t :| t in targets && t.appID == called;
    OneLess(targets, |targets|, world, pending, AfterCall(pending, called, c.result(n, called, pending[called])), called);
  }

  /** Termination: every call uses up one of a number of calls fixed by the pending tokens. */
  lemma {:induction false} RunEnds(c: Calls, targets: seq<Target>, world: World, n: nat, pending: Pending, picks: seq<string>)
    requires Pages(c, Labels(targets), world) && Waiting(Labels(targets), world, pending)
    requires Legal(c, n, pending, picks)
    ensures |picks| + CallsLeft(targets, |targets|, world, Remaining(c, n, pending, picks))
         <= CallsLeft(targets, |targets|, world, pending)
    decreases |picks|
  {
    if picks == [] {
    } else {
      CallUsesOne(c, targets, world, n, pending, picks[0]);
      StillWaiting(c, Labels(targets), world, n, pending, picks[0]);
      RunEnds(c, targets, world, n + 1, AfterCall(pending, picks[0], c.result(n, picks[0], pending[picks[0]])), picks[1..]);
    }
  }

  // ----- the whole run -----

  lemma OnlyTarget(reg: Registry, t: Target)
    requires !reg.MultiApp() && t in reg.AllTargets()
    ensures reg.Route("") == Success(t)
  {
    assert InOrder(reg.byAppID.Keys) == [];
  }

  /** The opening call reports the first page of each target: a fan-out, or a call of the only app. */
  lemma OpeningMovesOn(reg: Registry, c: Calls, t: Target, snap: Snapshot)
    requires ByTool(reg, c) && AlwaysServes(c, t, snap) && t in reg.AllTargets()
    ensures MovesOn(snap, t.appID, 0, c.result(0, "", ""))
  {
    var w, size := c.answers(0), PageSize(c.limit(0));
    assert Serves(w, t, snap);
    if reg.MultiApp() {
      FanOutCallReports(reg, w, c.limit(0), t);
    } else {
      OnlyTarget(reg, t);
      SingleCallReports(reg, w, "", c.limit(0), "", t);
    }
    PageMovesOn(c.result(0, "", ""), t, w, w.list(t, size, "").value, snap, size, "");
  }

  /** The tokens that the opening report has for these apps. */
  ghost function Tokens(labels: set<string>, o: Outcome): Pending {
    map a | a in labels && NextToken(o, a) != "" :: NextToken(o, a)
  }

  ghost predicate Opens(labels: set<string>, world: World, o: Outcome) {
    forall a | a in labels :: MovesOn(world(a), a, 0, o)
  }

  lemma ToolOpens(reg: Registry, c: Calls, world: World)
    requires ByTool(reg, c) && Served(reg, c, world)
    ensures Opens(Labels(reg.AllTargets()), world, c.result(0, "", ""))
  {
    forall a | a in Labels(reg.AllTargets()) ensures MovesOn(world(a), a, 0, c.result(0, "", "")) {
      var t :| t in reg.AllTargets() && t.appID == a;
      assert AlwaysServes(c, t, world(a));
      OpeningMovesOn(reg, c, t, world(a));
    }
  }

  lemma TokensAreWaiting(labels: set<string>, world: World, o: Outcome)
    requires Opens(labels, world, o)
    ensures Waiting(labels, world, Tokens(labels, o))
  {
    forall a | a in Tokens(labels, o) ensures world(a).pos(Tokens(labels, o)[a]) <= |world(a).ids| {
      assert MovesOn(world(a), a, 0, o);
    }
  }

  lemma WholeRunCovers(c: Calls, labels: set<string>, world: World, o: Outcome, picks: seq<string>, appID: string)
    requires Pages(c, labels, world) && Opens(labels, world, o) && appID in labels
    requires Legal(c, 1, Tokens(labels, o), picks)
    ensures Covers([o] + Reports(c, 1, Tokens(labels, o), picks), world(appID), appID, 0,
                   At(world(appID), Remaining(c, 1, Tokens(labels, o), picks), appID))
  {
    var pending, snap := Tokens(labels, o), world(appID);
    TokensAreWaiting(labels, world, o);
    RunVisits(c, labels, world, 1, pending, picks, appID);
    assert MovesOn(snap, appID, 0, o);
    assert At(snap, pending, appID) == NextPos(snap, appID, o);
    VisitStep(o, Reports(c, 1, pending, picks), snap, appID, 0, At(snap, pending, appID),
              At(snap, Remaining(c, 1, pending, picks), appID));
  }

  /** Whole pagination run. After a call without an app-id the caller follows the returned tokens,
      with any limits and taking the apps in any order. The run ends, and over all its calls
      together every id of every target is visited exactly once: shown, or counted missing. */
  lemma EveryIDVisitedOnce(reg: Registry, c: Calls, world: World, picks: seq<string>)
    requires Nameable(reg) && ByTool(reg, c) && Served(reg, c, world)
    requires Legal(c, 1, Tokens(Labels(reg.AllTargets()), c.result(0, "", "")), picks)
    ensures var ts, o := reg.AllTargets(), c.result(0, "", "");
            var pending := Tokens(Labels(ts), o);
            var run, left := [o] + Reports(c, 1, pending, picks), Remaining(c, 1, pending, picks);
            && |picks| <= CallsLeft(ts, |ts|, world, pending)
            && (forall t | t in ts :: Covers(run, world(t.appID), t.appID, 0, At(world(t.appID), left, t.appID)))
            && (left == map[] ==> forall t | t in ts :: VisitsOnce(run, t.appID, world(t.appID).ids))
  {
    var ts, o := reg.AllTargets(), c.result(0, "", "");
    var labels := Labels(ts);
    var pending := Tokens(labels, o);
    var run, left := [o] + Reports(c, 1, pending, picks), Remaining(c, 1, pending, picks);
    ToolPages(reg, c, world);
    ToolOpens(reg, c, world);
    TokensAreWaiting(labels, world, o);
    RunEnds(c, ts, world, 1, pending, picks);
    forall t | t in ts ensures Covers(run, world(t.appID), t.appID, 0, At(world(t.appID), left, t.appID)) {
      assert t.appID in labels;
      WholeRunCovers(c, labels, world, o, picks, t.appID);
    }
    if left == map[] {
      forall t | t in ts ensures VisitsOnce(run, t.appID, world(t.appID).ids) {
        var ids := world(t.appID).ids;
        assert ids[0..|ids|] == ids;
        assert Covers(run, world(t.appID), t.appID, 0, |ids|);
      }
    }
  }
}
