/** pkg/workflow/tools.go: the list_workflows tool, from its arguments to its result. */
module ListTool {
  import opened Text
  import opened AppRegistry
  import opened Listing
  import opened Counting
  import opened Merge
  import FanOut

  const DEFAULT_LIST_LIMIT: nat := 100
  const MAX_LIST_LIMIT: nat := 500

  datatype ListArgs = ListArgs(appID: string, limit: int, token: string)

  datatype ListError = TokenNeedsAppID | BadRoute(route: RouteError) | ListFailed(appID: string, cause: string)

  datatype CountLabel = ByWorkflow | ByStatus | ByApp

  /** The lines of the text result, without their wording. */
  datatype Line =
    | FoundAcross(instances: nat, apps: nat)
    | FoundOn(instances: nat, appID: string)
    | Counts(kind: CountLabel, entries: seq<(string, nat)>)
    | Row(instance: Instance)
    | Warned(appID: string, warning: Warning)
    | MoreOn(appID: string, token: string)

  /** The structured result; a None field is a key that is left out. */
  datatype Structured = Structured(
    instances: seq<Instance>, count: nat, byWorkflow: map<string, nat>, byStatus: map<string, nat>,
    byApp: Option<map<string, nat>>, tokens: Option<map<string, string>>,
    appID: Option<string>, token: Option<string>, warnings: Option<map<string, Warning>>)

  datatype Outcome = ToolError(error: ListError) | Report(lines: seq<Line>, structured: Structured)

  function PageSize(limit: int): (size: nat)
    ensures 1 <= size <= 500
    ensures 1 <= limit <= 500 ==> size == limit
    ensures limit > 500 ==> size == 500
    ensures limit <= 0 ==> size == 100
  {
    if limit > MAX_LIST_LIMIT then MAX_LIST_LIMIT
    else if limit > 0 then limit
    else DEFAULT_LIST_LIMIT
  }

  predicate FansOut(reg: Registry, args: ListArgs) {
    args.appID == "" && reg.MultiApp()
  }

  // ----- rendering -----

  /** The entries of a count map in the order of its keys. */
  ghost function Entries(counts: map<string, nat>, keys: seq<string>): (r: seq<(string, nat)>)
    requires Elements(keys) <= counts.Keys
    ensures |r| == |keys| && forall i | 0 <= i < |keys| :: keys[i] in counts && r[i] == (keys[i], counts[keys[i]])
  {
    assert forall i | 0 <= i < |keys| :: keys[i] in Elements(keys);
    seq(|keys|, i requires 0 <= i < |keys| => (keys[i], counts[keys[i]]))
  }

  ghost function CountsLine(kind: CountLabel, counts: map<string, nat>): Line {
    Counts(kind, Entries(counts, InOrder(counts.Keys)))
  }

  /** The line tells every count of the map once, in the order of its keys, and nothing else. */
  ghost predicate Tells(line: Line, kind: CountLabel, counts: map<string, nat>) {
    && line.Counts? && line.kind == kind
    && (forall i | 0 <= i < |line.entries| :: line.entries[i].0 in counts && line.entries[i].1 == counts[line.entries[i].0])
    && (forall i, j | 0 <= i < j < |line.entries| ::
          LexLe(line.entries[i].0, line.entries[j].0) && line.entries[i].0 != line.entries[j].0)
    && (forall k | k in counts :: exists i | 0 <= i < |line.entries| :: line.entries[i].0 == k)
  }

  lemma CountsLineTells(kind: CountLabel, counts: map<string, nat>)
    ensures Tells(CountsLine(kind, counts), kind, counts)
  {
    var keys := InOrder(counts.Keys);
    var entries := CountsLine(kind, counts).entries;
    forall k | k in counts ensures exists i | 0 <= i < |entries| :: entries[i].0 == k {
      assert k in Elements(keys);
      var i :| 0 <= i < |keys| && keys[i] == k;
      assert entries[i].0 == k;
    }
  }

  /** writeCounts: independent of the iteration order of the map. */
  method WriteCounts(kind: CountLabel, counts: map<string, nat>) returns (line: Line)
    ensures line == CountsLine(kind, counts) && Tells(line, kind, counts)
  {
    var keys := SortedKeys(counts.Keys);
    var entries: seq<(string, nat)> := [];
    for i := 0 to |keys|
      invariant |entries| == i
      invariant forall j | 0 <= j < i :: keys[j] in counts && entries[j] == (keys[j], counts[keys[j]])
    {
      assert keys[i] in Elements(keys);
      entries := entries + [(keys[i], counts[keys[i]])];
    }
    line := Counts(kind, entries);
    assert entries == Entries(counts, InOrder(counts.Keys));
    CountsLineTells(kind, counts);
  }

  ghost function Rows(xs: seq<Instance>): (r: seq<Line>)
    ensures |r| == |xs| && forall i | 0 <= i < |xs| :: r[i] == Row(xs[i])
  {
    seq(|xs|, i requires 0 <= i < |xs| => Row(xs[i]))
  }

  ghost function Find<V>(m: map<string, V>, appID: string): Option<V> {
    if appID in m then Some(m[appID]) else None
  }

  ghost function WarningLine(appID: string, warning: Option<Warning>): seq<Line> {
    if warning.Some? then [Warned(appID, warning.value)] else []
  }

  ghost function PointerLine(appID: string, token: Option<string>): seq<Line> {
    if token.Some? then [MoreOn(appID, token.value)] else []
  }

  ghost function FooterOf(appID: string, warning: Option<Warning>, token: Option<string>): seq<Line> {
    WarningLine(appID, warning) + PointerLine(appID, token)
  }

  ghost function Footers(ls: seq<AppListing>, n: nat, m: Merged): seq<Line>
    requires n <= |ls|
  {
    if n == 0 then [] else
      var a := ls[n - 1].appID;
      Footers(ls, n - 1, m) + FooterOf(a, Find(m.warnings, a), Find(m.tokens, a))
  }

  ghost function HeaderOf(fanOut: bool, targets: seq<Target>, m: Merged): seq<Line>
    requires !fanOut ==> |targets| > 0
  {
    [if fanOut then FoundAcross(|m.instances|, |targets|) else FoundOn(|m.instances|, targets[0].appID)]
    + (if |m.instances| > 0 then [CountsLine(ByWorkflow, m.byWorkflow), CountsLine(ByStatus, m.byStatus)] else [])
    + (if fanOut then [CountsLine(ByApp, m.byApp)] else [])
  }

  method Header(fanOut: bool, targets: seq<Target>, m: Merged) returns (lines: seq<Line>)
    requires !fanOut ==> |targets| > 0
    ensures lines == HeaderOf(fanOut, targets, m)
  {
    if fanOut {
      lines := [FoundAcross(|m.instances|, |targets|)];
    } else {
      lines := [FoundOn(|m.instances|, targets[0].appID)];
    }
    if |m.instances| > 0 {
      var workflows := WriteCounts(ByWorkflow, m.byWorkflow);
      var statuses := WriteCounts(ByStatus, m.byStatus);
      lines := lines + [workflows, statuses];
    }
    if fanOut {
      var apps := WriteCounts(ByApp, m.byApp);
      lines := lines + [apps];
    }
  }

  ghost function LinesOf(fanOut: bool, targets: seq<Target>, ls: seq<AppListing>, m: Merged): seq<Line>
    requires !fanOut ==> |targets| > 0
  {
    HeaderOf(fanOut, targets, m) + Rows(m.instances) + Footers(ls, |ls|, m)
  }

  method AddFooter(before: seq<Line>, appID: string, m: Merged) returns (lines: seq<Line>)
    ensures lines == before + FooterOf(appID, Find(m.warnings, appID), Find(m.tokens, appID))
  {
    lines := before;
    if appID in m.warnings {
      lines := lines + [Warned(appID, m.warnings[appID])];
    }
    if appID in m.tokens {
      lines := lines + [MoreOn(appID, m.tokens[appID])];
    }
  }

  lemma Regroup(a: seq<Line>, b: seq<Line>, c: seq<Line>)
    ensures a + (b + c) == a + b + c
  {
  }

  method AddFooters(before: seq<Line>, ls: seq<AppListing>, m: Merged) returns (lines: seq<Line>)
    ensures lines == before + Footers(ls, |ls|, m)
  {
    lines := before;
    for i := 0 to |ls|
      invariant lines == before + Footers(ls, i, m)
    {
      Regroup(before, Footers(ls, i, m), FooterOf(ls[i].appID, Find(m.warnings, ls[i].appID), Find(m.tokens, ls[i].appID)));
      lines := AddFooter(lines, ls[i].appID, m);
    }
  }

  method Render(fanOut: bool, targets: seq<Target>, ls: seq<AppListing>, m: Merged) returns (lines: seq<Line>)
    requires !fanOut ==> |targets| > 0
    ensures lines == LinesOf(fanOut, targets, ls, m)
  {
    lines := Header(fanOut, targets, m);
    ghost var header := lines;
    for i := 0 to |m.instances|
      invariant lines == header + Rows(m.instances)[..i]
    {
      lines := lines + [Row(m.instances[i])];
    }
    assert Rows(m.instances)[..|m.instances|] == Rows(m.instances);
    lines := AddFooters(lines, ls, m);
  }

  // ----- the tool -----

  /** The listings of a plain loop over the targets. */
  ghost function PlainListings(p: FanOut.Problem, n: nat): (r: seq<AppListing>)
    requires n <= |p.targets|
    ensures |r| == n && forall i | 0 <= i < n :: r[i] == p.Expected(i)
  {
    if n == 0 then [] else PlainListings(p, n - 1) + [p.Expected(n - 1)]
  }

  ghost function StructuredOf(fanOut: bool, targets: seq<Target>, ls: seq<AppListing>): Structured
    requires |ls| == |targets| && (!fanOut ==> |targets| > 0)
  {
    var m := MergeOf(ls);
    Structured(
      m.instances, |m.instances|, m.byWorkflow, m.byStatus,
      if fanOut then Some(m.byApp) else None, if fanOut then Some(m.tokens) else None,
      if fanOut then None else Some(targets[0].appID),
      if fanOut || ls[0].token == "" then None else Some(ls[0].token),
      if m.warnings == map[] then None else Some(m.warnings))
  }

  ghost function ReportOf(fanOut: bool, targets: seq<Target>, ls: seq<AppListing>): Outcome
    requires |ls| == |targets| && (!fanOut ==> |targets| > 0)
  {
    var m := MergeOf(ls);
    Report(LinesOf(fanOut, targets, ls, m), StructuredOf(fanOut, targets, ls))
  }

  /** Listing the given targets: a failed listing is an error only outside a fan-out. */
  ghost function ListTargetsOf(fanOut: bool, p: FanOut.Problem): Outcome
    requires |p.targets| > 0
  {
    var ls := PlainListings(p, |p.targets|);
    if !fanOut && ls[0].err.Some? then ToolError(ListFailed(ls[0].appID, ls[0].err.value))
    else ReportOf(fanOut, p.targets, ls)
  }

  lemma PoolIsListed(reg: Registry)
    requires reg.MultiApp()
    ensures |reg.AllTargets()| > 0
  {
    TargetsCoverAppIDs(reg);
    assert reg.defaultAppID in Elements(reg.Accepted());
  }

  ghost function FanOutProblem(reg: Registry, w: Answers, args: ListArgs): (p: FanOut.Problem)
    requires FansOut(reg, args)
    ensures |p.targets| > 0
  {
    PoolIsListed(reg);
    FanOut.Problem(reg.AllTargets(), w, PageSize(args.limit), "")
  }

  /** The result as a function of the arguments and the sidecars' answers alone. */
  ghost function OutcomeOf(reg: Registry, w: Answers, args: ListArgs): Outcome {
    var size := PageSize(args.limit);
    if FansOut(reg, args) then
      if args.token != "" then ToolError(TokenNeedsAppID)
      else ListTargetsOf(true, FanOutProblem(reg, w, args))
    else
      match reg.Route(args.appID)
      case Failure(e) => ToolError(BadRoute(e))
      case Success(t) => ListTargetsOf(false, FanOut.Problem([t], w, size, args.token))
  }

  method Summarise(fanOut: bool, targets: seq<Target>, ls: seq<AppListing>) returns (o: Outcome)
    requires |ls| == |targets| && (!fanOut ==> |targets| > 0)
    ensures o == ReportOf(fanOut, targets, ls)
  {
    var m := MergeListings(ls);
    var lines := Render(fanOut, targets, ls, m);
    var s := Structured(m.instances, |m.instances|, m.byWorkflow, m.byStatus, None, None, None, None, None);
    if fanOut {
      s := s.(byApp := Some(m.byApp), tokens := Some(m.tokens));
    } else {
      s := s.(appID := Some(targets[0].appID));
      if ls[0].token != "" {
        s := s.(token := Some(ls[0].token));
      }
    }
    if m.warnings != map[] {
      s := s.(warnings := Some(m.warnings));
    }
    return Report(lines, s);
  }

  method ListTargets(fanOut: bool, p: FanOut.Problem) returns (o: Outcome)
    requires |p.targets| > 0
    ensures o == ListTargetsOf(fanOut, p)
  {
    var listings := FanOut.ListAll(p);
    assert listings == PlainListings(p, |p.targets|);
    if !fanOut && listings[0].err.Some? {
      return ToolError(ListFailed(listings[0].appID, listings[0].err.value));
    }
    o := Summarise(fanOut, p.targets, listings);
  }

  method ListWorkflows(reg: Registry, w: Answers, args: ListArgs) returns (o: Outcome)
    ensures o == OutcomeOf(reg, w, args)
  {
    var size := PageSize(args.limit);
    var fanOut := FansOut(reg, args);
    var targets: seq<Target>;
    if fanOut {
      if args.token != "" {
        return ToolError(TokenNeedsAppID);
      }
      PoolIsListed(reg);
      targets := reg.Targets();
    } else {
      var t := reg.ClientFor(args.appID);
      if t.Failure? {
        return ToolError(BadRoute(t.error));
      }
      targets := [t.value];
    }
    o := ListTargets(fanOut, FanOut.Problem(targets, w, size, args.token));
  }

  // ----- when there is no report -----

  /** A token in a call that reaches several apps. */
  ghost predicate StrayToken(reg: Registry, args: ListArgs) {
    args.appID == "" && reg.byAppID != map[] && args.token != ""
  }

  /** The target of a call that reaches one app only. */
  ghost function OnlyTarget(reg: Registry, args: ListArgs): Option<Target> {
    if args.appID == "" && reg.byAppID != map[] then None
    else
      match reg.Route(args.appID)
      case Success(t) => Some(t)
      case Failure(_) => None
  }

  /** The call fails exactly for a token without an app-id where there are several apps, for an app-id
      that is refused, and for a failed listing of the only app; in a fan-out a failed listing
      is no error. */
  lemma ErrorsExact(reg: Registry, w: Answers, args: ListArgs)
    ensures var o, t := OutcomeOf(reg, w, args), OnlyTarget(reg, args);
            && (o == ToolError(TokenNeedsAppID) <==> StrayToken(reg, args))
            && (o.ToolError? && o.error.BadRoute? <==> args.appID != "" && reg.Route(args.appID).Failure?)
            && (args.appID != "" && reg.Route(args.appID).Failure? ==> o == ToolError(BadRoute(reg.Route(args.appID).error)))
            && (o.ToolError? && o.error.ListFailed? <==>
                  t.Some? && w.list(t.value, PageSize(args.limit), args.token).Failure?)
            && (o.ToolError? && o.error.ListFailed? ==>
                  o.error == ListFailed(t.value.appID, w.list(t.value, PageSize(args.limit), args.token).error))
  {
    Refusals(reg, args.appID);
    if OnlyTarget(reg, args).Some? {
      var t := OnlyTarget(reg, args).value;
      var p := FanOut.Problem([t], w, PageSize(args.limit), args.token);
      ListingAccounts(w, t, p.size, p.token);
      assert PlainListings(p, 1)[0] == p.Expected(0);
    }
  }

  // ----- what a report guarantees -----

  ghost function SumOf(counts: Option<map<string, nat>>): nat {
    if counts.Some? then Sum(counts.value) else 0
  }

  lemma PlainIsWellLabelled(p: FanOut.Problem, ls: seq<AppListing>)
    requires DistinctLabels(p.targets) && ls == PlainListings(p, |p.targets|)
    ensures DistinctApps(ls) && Labelled(ls)
    ensures forall i | 0 <= i < |ls| :: ls[i].appID == p.targets[i].appID
  {
    forall i | 0 <= i < |ls| ensures ls[i].appID == p.targets[i].appID && AllOfApp(ls[i].instances, ls[i].appID) {
      ListingAccounts(p.w, p.targets[i], p.size, p.token);
      assert ls[i] == p.Expected(i);
    }
  }

  ghost function LabelOf(kind: CountLabel, x: Instance): string {
    match kind
    case ByWorkflow => x.workflowName
    case ByStatus => x.status
    case ByApp => x.appID
  }

  /** How many of the instances have this workflow, status or app. */
  ghost function HowMany(xs: seq<Instance>, kind: CountLabel, k: string): nat {
    if xs == [] then 0 else HowMany(xs[..|xs| - 1], kind, k) + if LabelOf(kind, xs[|xs| - 1]) == k then 1 else 0
  }

  /** Every workflow (status, app) that occurs is counted, with the number of its instances. */
  ghost predicate TrueCounts(xs: seq<Instance>, kind: CountLabel, counts: map<string, nat>) {
    && (forall i | 0 <= i < |xs| :: LabelOf(kind, xs[i]) in counts)
    && (forall k | k in counts :: counts[k] == HowMany(xs, kind, k))
  }

  lemma {:induction false} TallyCounts(xs: seq<Instance>, kind: CountLabel, names: seq<string>, k: string)
    requires |names| == |xs| && forall i | 0 <= i < |xs| :: names[i] == LabelOf(kind, xs[i])
    ensures multiset(names)[k] == HowMany(xs, kind, k)
  {
    if xs == [] {
    } else {
      var n := |xs| - 1;
      assert names == names[..n] + [names[n]];
      TallyCounts(xs[..n], kind, names[..n], k);
    }
  }

  lemma TallyIsTrue(xs: seq<Instance>, kind: CountLabel, names: seq<string>)
    requires |names| == |xs| && forall i | 0 <= i < |xs| :: names[i] == LabelOf(kind, xs[i])
    ensures TrueCounts(xs, kind, Tally(names))
    ensures forall k | k in Tally(names) :: Tally(names)[k] > 0
  {
    forall i | 0 <= i < |xs| ensures LabelOf(kind, xs[i]) in Tally(names) {
      assert names[i] in names;
    }
    forall k | k in Tally(names) ensures Tally(names)[k] == HowMany(xs, kind, k) > 0 {
      TallyCounts(xs, kind, names, k);
    }
  }

  lemma {:induction false} HowManyOfApp(xs: seq<Instance>, appID: string)
    ensures HowMany(xs, ByApp, appID) == |OfApp(xs, appID)|
  {
    if xs == [] {
    } else {
      HowManyOfApp(xs[..|xs| - 1], appID);
    }
  }

  lemma AppCountsAreTrue(ls: seq<AppListing>)
    requires DistinctApps(ls) && Labelled(ls)
    ensures TrueCounts(MergeOf(ls).instances, ByApp, MergeOf(ls).byApp)
  {
    var xs, byApp := MergeOf(ls).instances, MergeOf(ls).byApp;
    forall appID | appID in byApp ensures byApp[appID] == HowMany(xs, ByApp, appID) {
      CountsAreTrue(ls, appID);
      HowManyOfApp(xs, appID);
    }
    forall i | 0 <= i < |xs| ensures xs[i].appID in byApp {
      AppIsCounted(ls, xs[i]);
    }
  }

  lemma FanOutCounts(p: FanOut.Problem)
    requires DistinctLabels(p.targets)
    ensures var m := MergeOf(PlainListings(p, |p.targets|));
            Sum(m.byApp) == |m.instances| && TrueCounts(m.instances, ByApp, m.byApp)
  {
    var ls := PlainListings(p, |p.targets|);
    PlainIsWellLabelled(p, ls);
    CountsByAppSum(ls, |ls|);
    AppCountsAreTrue(ls);
  }

  /** Count conservation on every report, fan-out or not: each count map holds the true counts and
      adds up to the number of instances. */
  lemma CountsConserved(reg: Registry, w: Answers, args: ListArgs)
    ensures OutcomeOf(reg, w, args).Report? ==>
              var s := OutcomeOf(reg, w, args).structured;
              && s.count == |s.instances| == Sum(s.byWorkflow) == Sum(s.byStatus)
              && TrueCounts(s.instances, ByWorkflow, s.byWorkflow) && (forall k | k in s.byWorkflow :: s.byWorkflow[k] > 0)
              && TrueCounts(s.instances, ByStatus, s.byStatus) && (forall k | k in s.byStatus :: s.byStatus[k] > 0)
              && (s.byApp.Some? <==> FansOut(reg, args))
              && (s.byApp.Some? ==> SumOf(s.byApp) == |s.instances| && TrueCounts(s.instances, ByApp, s.byApp.value))
  {
    if OutcomeOf(reg, w, args).Report? {
      var s := OutcomeOf(reg, w, args).structured;
      TallySum(Names(s.instances));
      TallySum(Statuses(s.instances));
      TallyIsTrue(s.instances, ByWorkflow, Names(s.instances));
      TallyIsTrue(s.instances, ByStatus, Statuses(s.instances));
      if FansOut(reg, args) {
        TargetsDistinct(reg);
        FanOutCounts(FanOutProblem(reg, w, args));
      }
    }
  }

  /** Every instance is of a target's app, and the apps appear in the targets' order. */
  ghost predicate InTargetOrder(xs: seq<Instance>, targets: seq<Target>) {
    && (forall u | 0 <= u < |xs| :: xs[u].appID in Labels(targets))
    && forall u, v, i, j | 0 <= u < v < |xs| && 0 <= i < |targets| && 0 <= j < |targets|
                           && targets[i].appID == xs[u].appID && targets[j].appID == xs[v].appID ::
         i <= j
  }

  lemma OrderOfTargets(xs: seq<Instance>, ls: seq<AppListing>, targets: seq<Target>)
    requires |ls| == |targets| && forall i | 0 <= i < |ls| :: ls[i].appID == targets[i].appID
    requires InOrderOf(xs, ls, |ls|)
    ensures InTargetOrder(xs, targets)
  {
    forall u | 0 <= u < |xs| ensures xs[u].appID in Labels(targets) {
      assert Lists(ls, |ls|, xs[u].appID);
      var i :| 0 <= i < |ls| && ls[i].appID == xs[u].appID;
      assert targets[i] in targets;
    }
    forall u, v, i, j | 0 <= u < v < |xs| && 0 <= i < |targets| && 0 <= j < |targets|
                        && targets[i].appID == xs[u].appID && targets[j].appID == xs[v].appID
      ensures i <= j
    {
      assert ls[i].appID == xs[u].appID && ls[j].appID == xs[v].appID;
    }
  }

  /** Order preservation on every fan-out: the instances of the targets follow each other as the
      targets do, the default first or all in order of their ids. */
  lemma ReportInTargetOrder(reg: Registry, w: Answers, args: ListArgs)
    requires FansOut(reg, args) && args.token == ""
    ensures OutcomeOf(reg, w, args).Report?
    ensures InTargetOrder(OutcomeOf(reg, w, args).structured.instances, reg.AllTargets())
  {
    TargetsDistinct(reg);
    var p := FanOutProblem(reg, w, args);
    var ls := PlainListings(p, |p.targets|);
    PlainIsWellLabelled(p, ls);
    MergedInOrder(ls, |ls|);
    OrderOfTargets(AllInstances(ls, |ls|), ls, p.targets);
  }

  /** What a fan-out says about one target, whose sidecar answered with `answer`. */
  ghost predicate TargetReported(s: Structured, t: Target, w: Answers, answer: Result<Page, string>) {
    var part := OfApp(s.instances, t.appID);
    && s.byApp.Some? && s.tokens.Some?
    && match answer
       case Failure(e) =>
         && part == [] && t.appID !in s.byApp.value && t.appID !in s.tokens.value
         && s.warnings.Some? && t.appID in s.warnings.value && s.warnings.value[t.appID] == ListingFailed(e)
       case Success(page) =>
         var keep, n := Fetched(w, t, page.ids), |page.ids|;
         && InstanceIDs(part) == Select(page.ids, keep, n)
         && |part| + Dropped(keep, n) == n && Places(w, t, page.ids, part)
         && t.appID in s.byApp.value && s.byApp.value[t.appID] == |part|
         && (if page.token == "" then t.appID !in s.tokens.value
             else t.appID in s.tokens.value && s.tokens.value[t.appID] == page.token)
         && (if Dropped(keep, n) == 0 then s.warnings.Some? ==> t.appID !in s.warnings.value
             else s.warnings.Some? && t.appID in s.warnings.value && s.warnings.value[t.appID] == MetadataMissing(Dropped(keep, n)))
  }

  lemma TargetIsReported(p: FanOut.Problem, i: nat)
    requires i < |p.targets| && DistinctLabels(p.targets)
    ensures var t := p.targets[i];
            TargetReported(StructuredOf(true, p.targets, PlainListings(p, |p.targets|)), t, p.w, p.w.list(t, p.size, p.token))
  {
    var t, ls := p.targets[i], PlainListings(p, |p.targets|);
    PlainIsWellLabelled(p, ls);
    assert ls[i] == p.Expected(i);
    ListingAccounts(p.w, t, p.size, p.token);
    MergedPart(ls, |ls|, i);
    MergeIsExact(ls, i);
  }

  lemma KeysAreTargets(p: FanOut.Problem)
    requires DistinctLabels(p.targets)
    ensures var m := MergeOf(PlainListings(p, |p.targets|));
            m.byApp.Keys + m.tokens.Keys + m.warnings.Keys <= Labels(p.targets)
  {
    var ls := PlainListings(p, |p.targets|);
    PlainIsWellLabelled(p, ls);
    forall i | 0 <= i < |ls| ensures ls[i].appID in Labels(p.targets) {
      assert p.targets[i] in p.targets;
    }
    CollectKeys(ls, |ls|, CountEntry, Labels(p.targets));
    CollectKeys(ls, |ls|, TokenEntry, Labels(p.targets));
    CollectKeys(ls, |ls|, WarningEntry, Labels(p.targets));
  }

  /** No silent omission over a fan-out: every target is either a counts-by-app key whose ids
      are all listed in order or counted as missing, or a listing-failed warning. */
  lemma NoSilentOmission(reg: Registry, w: Answers, args: ListArgs, t: Target)
    requires FansOut(reg, args) && args.token == "" && t in reg.AllTargets()
    ensures OutcomeOf(reg, w, args).Report?
    ensures TargetReported(OutcomeOf(reg, w, args).structured, t, w, w.list(t, PageSize(args.limit), ""))
  {
    TargetsDistinct(reg);
    var p := FanOutProblem(reg, w, args);
    var i :| 0 <= i < |p.targets| && p.targets[i] == t;
    TargetIsReported(p, i);
  }

  /** The report has no app-ids beyond those of the fan-out's targets. */
  lemma NothingInvented(reg: Registry, w: Answers, args: ListArgs)
    requires FansOut(reg, args) && args.token == ""
    ensures OutcomeOf(reg, w, args).Report?
    ensures var s := OutcomeOf(reg, w, args).structured;
            && s.byApp.Some? && s.byApp.value.Keys <= Labels(reg.AllTargets())
            && s.tokens.Some? && s.tokens.value.Keys <= Labels(reg.AllTargets())
            && (s.warnings.Some? ==> s.warnings.value.Keys <= Labels(reg.AllTargets()) && s.warnings.value != map[])
            && s.appID.None? && s.token.None?
  {
    TargetsDistinct(reg);
    KeysAreTargets(FanOutProblem(reg, w, args));
  }

  // ----- what the text says -----

  /** What can be read off the lines: the ones before the rows, the instances, which app has which
      warning and token, and how many lines say so. */
  datatype Reading = Reading(
    head: seq<Line>, rows: seq<Instance>, warnings: map<string, Warning>, tokens: map<string, string>,
    warned: nat, pointed: nat)

  ghost function ReadLine(r: Reading, line: Line): Reading {
    match line
    case Row(x) => r.(rows := r.rows + [x])
    case Warned(a, warning) => r.(warnings := r.warnings[a := warning], warned := r.warned + 1)
    case MoreOn(a, token) => r.(tokens := r.tokens[a := token], pointed := r.pointed + 1)
    case _ => r.(head := r.head + [line])
  }

  ghost function Read(lines: seq<Line>): Reading {
    if lines == [] then Reading([], [], map[], map[], 0, 0)
    else ReadLine(Read(lines[..|lines| - 1]), lines[|lines| - 1])
  }

  lemma ReadOneMore(lines: seq<Line>, line: Line)
    ensures Read(lines + [line]) == ReadLine(Read(lines), line)
  {
    assert (lines + [line])[..|lines|] == lines;
  }

  ghost predicate IsHead(line: Line) {
    !line.Row? && !line.Warned? && !line.MoreOn?
  }

  ghost predicate AllHead(lines: seq<Line>) {
    forall k | 0 <= k < |lines| :: IsHead(lines[k])
  }

  lemma {:induction false} ReadHead(lines: seq<Line>)
    requires forall k | 0 <= k < |lines| :: IsHead(lines[k])
    ensures Read(lines) == Reading(lines, [], map[], map[], 0, 0)
  {
    if lines == [] {
    } else {
      var n := |lines| - 1;
      ReadHead(lines[..n]);
      assert IsHead(lines[n]);
      assert lines == lines[..n] + [lines[n]];
    }
  }

  lemma RowsSnoc(xs: seq<Instance>)
    requires xs != []
    ensures Rows(xs) == Rows(xs[..|xs| - 1]) + [Row(xs[|xs| - 1])]
  {
  }

  lemma {:induction false} ReadRows(lines: seq<Line>, xs: seq<Instance>)
    ensures Read(lines + Rows(xs)) == Read(lines).(rows := Read(lines).rows + xs)
  {
    if xs == [] {
      assert lines + Rows(xs) == lines;
    } else {
      var n := |xs| - 1;
      ReadRows(lines, xs[..n]);
      ReadOneMore(lines + Rows(xs[..n]), Row(xs[n]));
      RowsSnoc(xs);
      Regroup(lines, Rows(xs[..n]), [Row(xs[n])]);
      assert xs == xs[..n] + [xs[n]];
    }
  }

  /** Warnings and tokens once each. */
  ghost function Once(r: Reading, warnings: map<string, Warning>, tokens: map<string, string>): Reading {
    Reading(r.head, r.rows, warnings, tokens, |warnings|, |tokens|)
  }

  ghost function With<V>(m: map<string, V>, appID: string, entry: Option<V>): map<string, V> {
    if entry.Some? then m[appID := entry.value] else m
  }

  lemma ReadWarning(lines: seq<Line>, r: Reading, warnings: map<string, Warning>, tokens: map<string, string>,
                    appID: string, warning: Option<Warning>)
    requires Read(lines) == Once(r, warnings, tokens) && appID !in warnings
    ensures Read(lines + WarningLine(appID, warning)) == Once(r, With(warnings, appID, warning), tokens)
  {
    if warning.Some? {
      ReadOneMore(lines, Warned(appID, warning.value));
    } else {
      assert lines + WarningLine(appID, warning) == lines;
    }
  }

  lemma ReadPointer(lines: seq<Line>, r: Reading, warnings: map<string, Warning>, tokens: map<string, string>,
                    appID: string, token: Option<string>)
    requires Read(lines) == Once(r, warnings, tokens) && appID !in tokens
    ensures Read(lines + PointerLine(appID, token)) == Once(r, warnings, With(tokens, appID, token))
  {
    if token.Some? {
      ReadOneMore(lines, MoreOn(appID, token.value));
    } else {
      assert lines + PointerLine(appID, token) == lines;
    }
  }

  /** Reading the footer of an app that has not been mentioned. */
  lemma ReadFooter(lines: seq<Line>, r: Reading, appID: string, warning: Option<Warning>, token: Option<string>)
    requires Read(lines) == Once(r, Read(lines).warnings, Read(lines).tokens)
    requires appID !in Read(lines).warnings && appID !in Read(lines).tokens
    ensures Read(lines + FooterOf(appID, warning, token))
         == Once(r, With(Read(lines).warnings, appID, warning), With(Read(lines).tokens, appID, token))
  {
    ReadWarning(lines, r, Read(lines).warnings, Read(lines).tokens, appID, warning);
    var warnings := With(Read(lines).warnings, appID, warning);
    ReadPointer(lines + WarningLine(appID, warning), r, warnings, Read(lines).tokens, appID, token);
    Regroup(lines, WarningLine(appID, warning), PointerLine(appID, token));
  }

  /** The footer of the listing's app shows the listing's own entries. */
  ghost predicate ShowsOwn(l: AppListing, m: Merged) {
    Find(m.warnings, l.appID) == WarningEntry(l) && Find(m.tokens, l.appID) == TokenEntry(l)
  }

  lemma NotYetMentioned(ls: seq<AppListing>, n: nat)
    requires 0 < n <= |ls| && DistinctApps(ls)
    ensures ls[n - 1].appID !in Collect(ls, n - 1, WarningEntry) && ls[n - 1].appID !in Collect(ls, n - 1, TokenEntry)
  {
    CollectExact(ls, n - 1, WarningEntry);
    CollectExact(ls, n - 1, TokenEntry);
  }

  lemma CollectWith<V>(ls: seq<AppListing>, n: nat, entry: AppListing -> Option<V>)
    requires 0 < n <= |ls|
    ensures Collect(ls, n, entry) == With(Collect(ls, n - 1, entry), ls[n - 1].appID, entry(ls[n - 1]))
  {
  }

  lemma ReadNextFooter(lines: seq<Line>, r: Reading, footers: seq<Line>, l: AppListing,
                       warnings: map<string, Warning>, tokens: map<string, string>)
    requires Read(lines + footers) == Once(r, warnings, tokens) && l.appID !in warnings && l.appID !in tokens
    ensures Read(lines + (footers + FooterOf(l.appID, WarningEntry(l), TokenEntry(l)))) ==
            Once(r, With(warnings, l.appID, WarningEntry(l)), With(tokens, l.appID, TokenEntry(l)))
  {
    ReadFooter(lines + footers, r, l.appID, WarningEntry(l), TokenEntry(l));
    Regroup(lines, footers, FooterOf(l.appID, WarningEntry(l), TokenEntry(l)));
  }

  /** After the footers of the first n listings their warnings and tokens have been read. */
  ghost predicate ReadsFooters(lines: seq<Line>, r: Reading, ls: seq<AppListing>, n: nat, m: Merged)
    requires n <= |ls|
  {
    Read(lines + Footers(ls, n, m)) == Once(r, Collect(ls, n, WarningEntry), Collect(ls, n, TokenEntry))
  }

  lemma ReadNoFooters(lines: seq<Line>, r: Reading, ls: seq<AppListing>, m: Merged)
    requires Read(lines) == Once(r, map[], map[])
    ensures ReadsFooters(lines, r, ls, 0, m)
  {
    assert lines + Footers(ls, 0, m) == lines;
  }

  lemma ReadFootersNext(lines: seq<Line>, r: Reading, ls: seq<AppListing>, n: nat, m: Merged)
    requires 0 < n <= |ls| && DistinctApps(ls) && ShowsOwn(ls[n - 1], m)
    requires ReadsFooters(lines, r, ls, n - 1, m)
    ensures ReadsFooters(lines, r, ls, n, m)
  {
    NotYetMentioned(ls, n);
    CollectWith(ls, n, WarningEntry);
    CollectWith(ls, n, TokenEntry);
    ReadNextFooter(lines, r, Footers(ls, n - 1, m), ls[n - 1], Collect(ls, n - 1, WarningEntry), Collect(ls, n - 1, TokenEntry));
  }

  lemma ReadFooters(lines: seq<Line>, r: Reading, ls: seq<AppListing>, m: Merged)
    requires DistinctApps(ls) && forall i | 0 <= i < |ls| :: ShowsOwn(ls[i], m)
    requires Read(lines) == Once(r, map[], map[])
    ensures ReadsFooters(lines, r, ls, |ls|, m)
  {
    ReadNoFooters(lines, r, ls, m);
    for n := 0 to |ls|
      invariant ReadsFooters(lines, r, ls, n, m)
    {
      ReadFootersNext(lines, r, ls, n + 1, m);
    }
  }

  lemma ReadParts(header: seq<Line>, xs: seq<Instance>, ls: seq<AppListing>, m: Merged)
    requires DistinctApps(ls) && forall i | 0 <= i < |ls| :: ShowsOwn(ls[i], m)
    requires AllHead(header)
    ensures Read(header + Rows(xs) + Footers(ls, |ls|, m)) ==
            Once(Reading(header, xs, map[], map[], 0, 0), Collect(ls, |ls|, WarningEntry), Collect(ls, |ls|, TokenEntry))
  {
    ReadHead(header);
    ReadRows(header, xs);
    ReadFooters(header + Rows(xs), Reading(header, xs, map[], map[], 0, 0), ls, m);
  }

  lemma HeaderIsHead(fanOut: bool, targets: seq<Target>, m: Merged)
    requires !fanOut ==> |targets| > 0
    ensures AllHead(HeaderOf(fanOut, targets, m))
  {
  }

  lemma ReadText(fanOut: bool, targets: seq<Target>, ls: seq<AppListing>)
    requires DistinctApps(ls) && (!fanOut ==> |targets| > 0)
    ensures var m := MergeOf(ls);
            Read(LinesOf(fanOut, targets, ls, m)) ==
            Reading(HeaderOf(fanOut, targets, m), m.instances, m.warnings, m.tokens, |m.warnings|, |m.tokens|)
  {
    var m := MergeOf(ls);
    forall i | 0 <= i < |ls| ensures ShowsOwn(ls[i], m) {
      CollectExact(ls, |ls|, WarningEntry);
      CollectExact(ls, |ls|, TokenEntry);
    }
    HeaderIsHead(fanOut, targets, m);
    ReadParts(HeaderOf(fanOut, targets, m), m.instances, ls, m);
  }

  /** What the text has to say for the structured result. */
  ghost function ReadingOf(s: Structured, apps: nat): Reading {
    var warnings := if s.warnings.Some? then s.warnings.value else map[];
    var tokens :=
      if s.tokens.Some? then s.tokens.value
      else if s.token.Some? && s.appID.Some? then map[s.appID.value := s.token.value]
      else map[];
    Reading(
      [if s.appID.Some? then FoundOn(s.count, s.appID.value) else FoundAcross(s.count, apps)]
      + (if s.count > 0 then [CountsLine(ByWorkflow, s.byWorkflow), CountsLine(ByStatus, s.byStatus)] else [])
      + (if s.byApp.Some? then [CountsLine(ByApp, s.byApp.value)] else []),
      s.instances, warnings, tokens, |warnings|, |tokens|)
  }

  lemma SingleToken(ls: seq<AppListing>)
    requires |ls| == 1 && ls[0].err.None?
    ensures MergeOf(ls).tokens == if ls[0].token == "" then map[] else map[ls[0].appID := ls[0].token]
  {
    assert Collect(ls, 0, TokenEntry) == map[];
  }

  lemma StructuredSays(fanOut: bool, targets: seq<Target>, ls: seq<AppListing>)
    requires |ls| == |targets| > 0 && ls[0].appID == targets[0].appID
    requires !fanOut ==> |ls| == 1 && ls[0].err.None?
    ensures var m := MergeOf(ls);
            ReadingOf(StructuredOf(fanOut, targets, ls), |targets|) ==
            Reading(HeaderOf(fanOut, targets, m), m.instances, m.warnings, m.tokens, |m.warnings|, |m.tokens|)
  {
    if !fanOut {
      SingleToken(ls);
    }
  }

  lemma TargetLinesAgree(fanOut: bool, p: FanOut.Problem)
    requires |p.targets| > 0 && DistinctLabels(p.targets) && (!fanOut ==> |p.targets| == 1)
    ensures ListTargetsOf(fanOut, p).Report? ==>
              Read(ListTargetsOf(fanOut, p).lines) == ReadingOf(ListTargetsOf(fanOut, p).structured, |p.targets|)
  {
    var ls := PlainListings(p, |p.targets|);
    PlainIsWellLabelled(p, ls);
    ReadText(fanOut, p.targets, ls);
    if fanOut || ls[0].err.None? {
      StructuredSays(fanOut, p.targets, ls);
    }
  }

  /** Text and structured result agree in every report: reading the lines gives back the header,
      the instances in order, the warnings and the tokens, with as many lines of each kind as
      there are entries. */
  lemma LinesAgree(reg: Registry, w: Answers, args: ListArgs)
    ensures var o := OutcomeOf(reg, w, args);
            o.Report? ==> Read(o.lines) == ReadingOf(o.structured, if FansOut(reg, args) then |reg.AllTargets()| else 1)
  {
    if FansOut(reg, args) {
      TargetsDistinct(reg);
      TargetLinesAgree(true, FanOutProblem(reg, w, args));
    } else if reg.Route(args.appID).Success? {
      TargetLinesAgree(false, FanOut.Problem([reg.Route(args.appID).value], w, PageSize(args.limit), args.token));
    }
  }

  /** The line is a footer of the app of listing i. */
  ghost predicate FooterFor(ls: seq<AppListing>, line: Line, i: int) {
    0 <= i < |ls| && (line.Warned? || line.MoreOn?) && line.appID == ls[i].appID
  }

  ghost predicate FooterUpTo(ls: seq<AppListing>, line: Line, n: nat) {
    exists i | i < n :: FooterFor(ls, line, i)
  }

  /** The footer of listing i comes before that of listing j: by listing, warning before token. */
  ghost predicate Before(u: Line, i: int, v: Line, j: int) {
    i < j || (i == j && u.Warned? && v.MoreOn?)
  }

  ghost predicate FootersOrdered(lines: seq<Line>, ls: seq<AppListing>, n: nat) {
    && (forall u | 0 <= u < |lines| :: FooterUpTo(ls, lines[u], n))
    && forall u, v, i, j | 0 <= u < v < |lines| && FooterFor(ls, lines[u], i) && FooterFor(ls, lines[v], j) ::
         Before(lines[u], i, lines[v], j)
  }

  lemma AppendFooter(lines: seq<Line>, more: seq<Line>, ls: seq<AppListing>, n: nat)
    requires n < |ls| && DistinctApps(ls) && FootersOrdered(lines, ls, n)
    requires |more| <= 2 && (forall u | 0 <= u < |more| :: FooterFor(ls, more[u], n))
    requires |more| == 2 ==> more[0].Warned? && more[1].MoreOn?
    ensures FootersOrdered(lines + more, ls, n + 1)
  {
    var all := lines + more;
    forall u | 0 <= u < |all| ensures FooterUpTo(ls, all[u], n + 1) {
      if u < |lines| {
        assert FooterUpTo(ls, lines[u], n);
      } else {
        assert all[u] == more[u - |lines|];
      }
    }
    forall u, v, i, j | 0 <= u < v < |all| && FooterFor(ls, all[u], i) && FooterFor(ls, all[v], j)
      ensures Before(all[u], i, all[v], j)
    {
      if v >= |lines| {
        assert all[v] == more[v - |lines|];
        if u < |lines| {
          assert FooterUpTo(ls, lines[u], n);
        } else {
          assert all[u] == more[u - |lines|];
        }
      }
    }
  }

  lemma OneFooter(ls: seq<AppListing>, n: nat, warning: Option<Warning>, token: Option<string>)
    requires n < |ls|
    ensures var more := FooterOf(ls[n].appID, warning, token);
            && |more| <= 2 && (forall u | 0 <= u < |more| :: FooterFor(ls, more[u], n))
            && (|more| == 2 ==> more[0].Warned? && more[1].MoreOn?)
  {
  }

  lemma FootersInOrder(ls: seq<AppListing>, m: Merged)
    requires DistinctApps(ls)
    ensures FootersOrdered(Footers(ls, |ls|, m), ls, |ls|)
  {
    for n := 0 to |ls|
      invariant FootersOrdered(Footers(ls, n, m), ls, n)
    {
      var warning, token := Find(m.warnings, ls[n].appID), Find(m.tokens, ls[n].appID);
      OneFooter(ls, n, warning, token);
      AppendFooter(Footers(ls, n, m), FooterOf(ls[n].appID, warning, token), ls, n);
    }
  }

  ghost predicate Parts(lines: seq<Line>, head: seq<Line>, xs: seq<Instance>, footers: seq<Line>) {
    lines == head + Rows(xs) + footers && AllHead(head)
  }

  /** The text is the head, then the rows, then the footers in the order of the targets, each
      target's warning before its token. */
  lemma LinesInOrder(fanOut: bool, p: FanOut.Problem)
    requires |p.targets| > 0 && DistinctLabels(p.targets)
    ensures ListTargetsOf(fanOut, p).Report? ==>
              var ls := PlainListings(p, |p.targets|);
              exists head, xs, footers ::
                Parts(ListTargetsOf(fanOut, p).lines, head, xs, footers) && FootersOrdered(footers, ls, |ls|)
  {
    var ls := PlainListings(p, |p.targets|);
    PlainIsWellLabelled(p, ls);
    var m := MergeOf(ls);
    HeaderIsHead(fanOut, p.targets, m);
    FootersInOrder(ls, m);
    assert Parts(LinesOf(fanOut, p.targets, ls, m), HeaderOf(fanOut, p.targets, m), m.instances, Footers(ls, |ls|, m));
  }

  /** Tokens are usable: passing a reported token with its app-id reaches the very client that
      produced it, provided no pool entry has the empty app-id. */
  lemma TokensRouteBack(reg: Registry, w: Answers, args: ListArgs, appID: string)
    requires reg.defaultAppID != "" && "" !in reg.byAppID
    requires FansOut(reg, args) && args.token == ""
    requires OutcomeOf(reg, w, args).Report? && OutcomeOf(reg, w, args).structured.tokens.Some?
    requires appID in OutcomeOf(reg, w, args).structured.tokens.value
    ensures reg.Route(appID).Success?
    ensures var t := reg.Route(appID).value;
            && t in reg.AllTargets() && t.appID == appID
            && w.list(t, PageSize(args.limit), "").Success?
            && w.list(t, PageSize(args.limit), "").value.token == OutcomeOf(reg, w, args).structured.tokens.value[appID]
  {
    NothingInvented(reg, w, args);
    var t :| t in reg.AllTargets() && t.appID == appID;
    TargetsRouteBack(reg);
    NoSilentOmission(reg, w, args, t);
  }
}
