/** pkg/auth/sentry.go: any number of concurrent getSigningKey calls over the one cached key set.
    Reads and writes of the pair are atomic under the lock; fetches happen outside it, so calls
    interleave between any two of the steps below. */
module KeyCache {
  import opened Text
  import opened SigningKeys

  /** Where a call is. `again` tells the refetch for a missing key from the refresh of a stale cache. */
  datatype Pc =
    | Start
    | Read(keys: Option<KeySet>, last: int)
    | Fetching(again: bool)
    | Publishing(again: bool, fetched: KeySet)
    | Rereading(again: bool)
    | Looking(again: bool, local: Option<KeySet>)
    | Found(key: Jwk)
    | NotFound

  datatype Publication = Publication(keys: KeySet, at: int)

  /** A call, with what its history needs: how often it fetched, which publication its local set
      is, when and at how many publications it checked staleness, whether the refresh that followed
      failed, and in which publication it has missed its key. */
  datatype Call = Call(
    kid: string, pc: Pc, fetches: nat, version: nat, checkedAt: int, seen: nat, lost: bool, missed: Option<nat>)

  /** jwks and lastRefresh are the shared fields. published and responses are logs. */
  datatype State = State(
    jwks: Option<KeySet>, lastRefresh: int, clock: int, interval: int,
    published: seq<Publication>, responses: seq<KeySet>, calls: seq<Call>)

  datatype Action = Tick(d: nat) | Step(i: nat, response: Fetch)

  /** After the constructor's refresh at time `at`, with one call per given key id. */
  function Boot(keys: KeySet, at: int, interval: int, kids: seq<string>): State {
    State(Some(keys), at, at, interval, [Publication(keys, at)], [keys],
          seq(|kids|, i requires 0 <= i < |kids| => Call(kids[i], Start, 0, 0, at, 0, false, None)))
  }

  function StepCall(s: State, call: Call, response: Fetch): Call {
    match call.pc
    case Start => call.(pc := Read(s.jwks, s.lastRefresh), version := if s.published == [] then 0 else |s.published| - 1)
    case Read(keys, last) =>
      call.(pc := if s.clock - last > s.interval then Fetching(false) else Looking(false, keys),
            checkedAt := s.clock, seen := |s.published|)
    case Fetching(again) =>
      (match response
       case Fetched(keys) => call.(pc := Publishing(again, keys), fetches := call.fetches + 1)
       case FetchFailed =>
         if again then call.(pc := NotFound, fetches := call.fetches + 1)
         else call.(pc := Rereading(false), fetches := call.fetches + 1, lost := true))
    case Publishing(again, _) => call.(pc := Rereading(again))
    case Rereading(again) =>
      call.(pc := Looking(again, s.jwks), version := if s.published == [] then 0 else |s.published| - 1)
    case Looking(again, local) =>
      if local.None? then call.(pc := NotFound)
      else
        var m := Matching(local.value, call.kid);
        if m != [] then call.(pc := Found(m[0]))
        else if again then call.(pc := NotFound)
        else call.(pc := Fetching(true), missed := Some(call.version))
    case _ => call
  }

  /** An action of a call that does not exist changes nothing, and so does one of a finished call. */
  function Apply(s: State, a: Action): State {
    match a
    case Tick(d) => s.(clock := s.clock + d)
    case Step(i, response) =>
      if i >= |s.calls| then s
      else
        var call := s.calls[i];
        var next := s.(calls := s.calls[i := StepCall(s, call, response)]);
        if call.pc.Publishing? then
          next.(jwks := Some(call.pc.fetched), lastRefresh := s.clock,
                published := s.published + [Publication(call.pc.fetched, s.clock)])
        else if call.pc.Fetching? && response.Fetched? then next.(responses := s.responses + [response.keys])
        else next
  }

  ghost function Run(s: State, actions: seq<Action>): State {
    if actions == [] then s else Apply(Run(s, actions[..|actions| - 1]), actions[|actions| - 1])
  }

  // ----- the invariant -----

  ghost predicate CacheInv(s: State) {
    && s.published != []
    && s.jwks == Some(s.published[|s.published| - 1].keys)
    && s.lastRefresh == s.published[|s.published| - 1].at
    && (forall u, v | 0 <= u <= v < |s.published| :: s.published[u].at <= s.published[v].at)
    && s.lastRefresh <= s.clock
    && (forall v | 0 <= v < |s.published| :: s.published[v].keys in s.responses)
  }

  /** The call's staleness check lies in the past, and later publications carry later times. */
  ghost predicate Checked(s: State, call: Call) {
    && call.checkedAt <= s.clock && call.seen <= |s.published|
    && forall v | call.seen <= v < |s.published| :: call.checkedAt <= s.published[v].at
  }

  /** Freshness of the call's local set: within the interval at the check, or published after
      the check, or the refresh this call attempted failed. */
  ghost predicate Fresh(s: State, call: Call) {
    && call.version < |s.published|
    && (call.lost || call.version >= call.seen || call.checkedAt - s.published[call.version].at <= s.interval)
  }

  /** The pair the call read was older than the interval at its check. */
  ghost predicate ReadStale(s: State, call: Call) {
    call.version < |s.published| && call.checkedAt - s.published[call.version].at > s.interval
  }

  /** The call has looked for its key in an earlier publication than n, which does not hold it. */
  ghost predicate MissedBefore(s: State, call: Call, n: int) {
    && call.missed.Some? && call.missed.value < n && call.missed.value < |s.published|
    && !Holds(s.published[call.missed.value].keys, call.kid)
  }

  ghost predicate CallInv(s: State, call: Call) {
    match call.pc
    case Start => call.fetches == 0 && !call.lost && call.missed.None?
    case Read(keys, last) =>
      && call.fetches == 0 && !call.lost && call.missed.None? && call.version < |s.published|
      && s.published[call.version] == Publication(if keys.Some? then keys.value else [], last) && keys.Some?
    case Fetching(again) =>
      && Checked(s, call) && call.fetches <= (if again then 1 else 0)
      && if again then MissedBefore(s, call, call.version + 1) && call.missed == Some(call.version)
         else ReadStale(s, call) && call.missed.None?
    case Publishing(again, keys) =>
      && Checked(s, call) && call.fetches <= (if again then 2 else 1) && keys in s.responses
      && if again then MissedBefore(s, call, |s.published|) else ReadStale(s, call) && call.missed.None?
    case Rereading(again) =>
      && Checked(s, call) && call.fetches <= (if again then 2 else 1)
      && (call.lost || call.seen < |s.published|) && (again ==> call.seen < |s.published|)
      && if again then MissedBefore(s, call, |s.published| - 1) else call.missed.None?
    case Looking(again, local) =>
      && Checked(s, call) && call.fetches <= (if again then 2 else 1)
      && Fresh(s, call) && local == Some(s.published[call.version].keys)
      && if again then MissedBefore(s, call, call.version) else call.missed.None?
    case Found(key) =>
      && Checked(s, call) && call.fetches <= 2 && Fresh(s, call)
      && FirstFit(s.published[call.version].keys, call.kid, key)
      && (call.missed.Some? ==> MissedBefore(s, call, call.version))
    case NotFound =>
      && call.fetches <= 2 && call.version < |s.published|
      && !Holds(s.published[call.version].keys, call.kid)
      && MissedBefore(s, call, call.version + 1)
  }

  ghost predicate Inv(s: State) {
    CacheInv(s) && forall i | 0 <= i < |s.calls| :: CallInv(s, s.calls[i])
  }

  /** How the shared state may move: publications are only appended, time and the refresh time
      only grow, and the pair changes only together with a publication. */
  ghost predicate Grows(s: State, t: State) {
    && |s.published| <= |t.published| && t.published[..|s.published|] == s.published
    && s.clock <= t.clock && s.lastRefresh <= t.lastRefresh && s.interval == t.interval
    && |s.calls| == |t.calls|
    && |s.responses| <= |t.responses| && t.responses[..|s.responses|] == s.responses
    && (t.published == s.published ==> t.jwks == s.jwks && t.lastRefresh == s.lastRefresh)
  }

  /** Only a publication can move the times a bystander relies on, and only to later ones. */
  ghost predicate LaterPublications(s: State, t: State) {
    forall v | |s.published| <= v < |t.published| :: s.clock <= t.published[v].at
  }

  lemma CallInvStable(s: State, t: State, call: Call)
    requires CallInv(s, call) && Grows(s, t) && LaterPublications(s, t)
    ensures CallInv(t, call)
  {
    assert forall v | 0 <= v < |s.published| :: t.published[v] == t.published[..|s.published|][v] == s.published[v];
    if call.pc.Publishing? {
      var j :| 0 <= j < |s.responses| && s.responses[j] == call.pc.fetched;
      assert t.responses[j] == t.responses[..|s.responses|][j];
    }
  }

  lemma ApplyShared(s: State, a: Action)
    requires Inv(s)
    ensures CacheInv(Apply(s, a)) && Grows(s, Apply(s, a)) && LaterPublications(s, Apply(s, a))
  {
    var t := Apply(s, a);
    if a.Step? && a.i < |s.calls| {
      assert CallInv(s, s.calls[a.i]);
    }
    forall v | 0 <= v < |t.published| ensures t.published[v].keys in t.responses {
      if v < |s.published| {
        assert t.published[v] == s.published[v];
      }
    }
  }

  lemma LookInv(s: State, i: nat, response: Fetch)
    requires Inv(s) && i < |s.calls| && s.calls[i].pc.Looking?
    ensures CallInv(Apply(s, Step(i, response)), StepCall(s, s.calls[i], response))
  {
    var call := s.calls[i];
    assert CallInv(s, call);
    MatchingFirst(call.pc.local.value, call.kid);
  }

  lemma FetchInv(s: State, i: nat, response: Fetch)
    requires Inv(s) && i < |s.calls| && s.calls[i].pc.Fetching?
    ensures CallInv(Apply(s, Step(i, response)), StepCall(s, s.calls[i], response))
  {
    assert CallInv(s, s.calls[i]);
  }

  lemma PublishInv(s: State, i: nat, response: Fetch)
    requires Inv(s) && i < |s.calls| && s.calls[i].pc.Publishing?
    ensures CallInv(Apply(s, Step(i, response)), StepCall(s, s.calls[i], response))
  {
    assert CallInv(s, s.calls[i]);
  }

  lemma RereadInv(s: State, i: nat, response: Fetch)
    requires Inv(s) && i < |s.calls| && s.calls[i].pc.Rereading?
    ensures CallInv(Apply(s, Step(i, response)), StepCall(s, s.calls[i], response))
  {
    assert CallInv(s, s.calls[i]);
  }

  lemma StepCallInv(s: State, i: nat, response: Fetch)
    requires Inv(s) && i < |s.calls|
    ensures CallInv(Apply(s, Step(i, response)), StepCall(s, s.calls[i], response))
  {
    match s.calls[i].pc
    case Looking(_, _) => LookInv(s, i, response);
    case Fetching(_) => FetchInv(s, i, response);
    case Publishing(_, _) => PublishInv(s, i, response);
    case Rereading(_) => RereadInv(s, i, response);
    case _ => assert CallInv(s, s.calls[i]);
  }

  lemma ApplyInv(s: State, a: Action)
    requires Inv(s)
    ensures Inv(Apply(s, a))
  {
    var t := Apply(s, a);
    ApplyShared(s, a);
    forall j | 0 <= j < |t.calls| ensures CallInv(t, t.calls[j]) {
      if a.Step? && j == a.i {
        StepCallInv(s, j, a.response);
      } else {
        CallInvStable(s, t, s.calls[j]);
      }
    }
  }

  lemma BootInv(keys: KeySet, at: int, interval: int, kids: seq<string>)
    ensures Inv(Boot(keys, at, interval, kids))
  {
  }

  lemma GrowsTransitive(s: State, t: State, u: State)
    requires Grows(s, t) && Grows(t, u)
    ensures Grows(s, u)
  {
    assert u.published[..|s.published|] == u.published[..|t.published|][..|s.published|];
    assert u.responses[..|s.responses|] == u.responses[..|t.responses|][..|s.responses|];
  }

  lemma {:induction false} RunInv(s: State, actions: seq<Action>)
    requires Inv(s)
    ensures Inv(Run(s, actions)) && Grows(s, Run(s, actions))
  {
    if actions == [] {
    } else {
      var before := Run(s, actions[..|actions| - 1]);
      RunInv(s, actions[..|actions| - 1]);
      ApplyInv(before, actions[|actions| - 1]);
      ApplyShared(before, actions[|actions| - 1]);
      GrowsTransitive(s, before, Run(s, actions));
    }
  }

  // ----- what holds over every interleaving -----

  /** Cache invariant: the set is never nil, the pair is the latest publication of one fetched
      response, and publications are never altered, only followed by later ones. */
  lemma CacheOverRuns(keys: KeySet, at: int, interval: int, kids: seq<string>, actions: seq<Action>, more: seq<Action>)
    ensures var s := Run(Boot(keys, at, interval, kids), actions);
            && s.jwks.Some? && s.jwks.value in s.responses
            && s.published != [] && s.published[|s.published| - 1] == Publication(s.jwks.value, s.lastRefresh)
            && Grows(s, Run(s, more))
  {
    BootInv(keys, at, interval, kids);
    RunInv(Boot(keys, at, interval, kids), actions);
    RunInv(Run(Boot(keys, at, interval, kids), actions), more);
  }

  ghost function KeysOf(published: seq<Publication>): multiset<KeySet> {
    if published == [] then multiset{}
    else KeysOf(published[..|published| - 1]) + multiset{published[|published| - 1].keys}
  }

  /** The response a call has fetched and not yet published. */
  ghost function InHand(call: Call): multiset<KeySet> {
    if call.pc.Publishing? then multiset{call.pc.fetched} else multiset{}
  }

  ghost function Held(calls: seq<Call>, n: nat): multiset<KeySet>
    requires n <= |calls|
  {
    if n == 0 then multiset{} else Held(calls, n - 1) + InHand(calls[n - 1])
  }

  lemma {:induction false} HeldElsewhere(calls: seq<Call>, i: nat, call: Call, n: nat)
    requires n <= i < |calls|
    ensures Held(calls[i := call], n) == Held(calls, n)
  {
    if n == 0 {
    } else {
      HeldElsewhere(calls, i, call, n - 1);
    }
  }

  lemma Exchange(a: multiset<KeySet>, b: multiset<KeySet>, c: multiset<KeySet>, d: multiset<KeySet>, e: multiset<KeySet>)
    requires a + b == c + d
    ensures a + e + b == c + e + d
  {
    assert a + e + b == a + b + e;
  }

  lemma {:induction false} HeldUpdate(calls: seq<Call>, i: nat, call: Call, n: nat)
    requires i < n <= |calls|
    ensures Held(calls[i := call], n) + InHand(calls[i]) == Held(calls, n) + InHand(call)
  {
    if i == n - 1 {
      HeldElsewhere(calls, i, call, i);
    } else {
      HeldUpdate(calls, i, call, n - 1);
      Exchange(Held(calls[i := call], n - 1), InHand(calls[i]), Held(calls, n - 1), InHand(call), InHand(calls[n - 1]));
    }
  }

  /** Response for response, what was fetched is what was published plus what calls still hold. */
  ghost predicate Conserved(s: State) {
    multiset(s.responses) == KeysOf(s.published) + Held(s.calls, |s.calls|)
  }

  /** One call's step in terms of the three collections alone. */
  ghost predicate Exchanges(s: State, t: State, was: Call, now: Call) {
    multiset(t.responses) + KeysOf(s.published) + InHand(was) == multiset(s.responses) + KeysOf(t.published) + InHand(now)
  }

  lemma PublishedOneMore(published: seq<Publication>, p: Publication)
    ensures KeysOf(published + [p]) == KeysOf(published) + multiset{p.keys}
  {
    assert (published + [p])[..|published|] == published;
  }

  lemma PublishExchanges(s: State, t: State, was: Call, now: Call)
    requires was.pc.Publishing? && !now.pc.Publishing? && t.responses == s.responses
    requires exists at :: t.published == s.published + [Publication(was.pc.fetched, at)]
    ensures Exchanges(s, t, was, now)
  {
    var at :| t.published == s.published + [Publication(was.pc.fetched, at)];
    PublishedOneMore(s.published, Publication(was.pc.fetched, at));
  }

  lemma FetchExchanges(s: State, t: State, was: Call, now: Call)
    requires !was.pc.Publishing? && now.pc.Publishing? && t.published == s.published
    requires t.responses == s.responses + [now.pc.fetched]
    ensures Exchanges(s, t, was, now)
  {
  }

  lemma OtherwiseExchanges(s: State, t: State, was: Call, now: Call)
    requires !was.pc.Publishing? && !now.pc.Publishing? && t.published == s.published && t.responses == s.responses
    ensures Exchanges(s, t, was, now)
  {
  }

  lemma StepExchanges(s: State, i: nat, response: Fetch)
    requires i < |s.calls|
    ensures Exchanges(s, Apply(s, Step(i, response)), s.calls[i], StepCall(s, s.calls[i], response))
  {
    var was, now, t := s.calls[i], StepCall(s, s.calls[i], response), Apply(s, Step(i, response));
    if was.pc.Publishing? {
      assert t.published == s.published + [Publication(was.pc.fetched, s.clock)];
      PublishExchanges(s, t, was, now);
    } else if was.pc.Fetching? && response.Fetched? {
      FetchExchanges(s, t, was, now);
    } else {
      OtherwiseExchanges(s, t, was, now);
    }
  }

  lemma Balance(r: multiset<KeySet>, p: multiset<KeySet>, h: multiset<KeySet>, x: multiset<KeySet>,
                r': multiset<KeySet>, p': multiset<KeySet>, h': multiset<KeySet>, x': multiset<KeySet>)
    requires r == p + h && r' + p + x == r + p' + x' && h' + x == h + x'
    ensures r' == p' + h'
  {
    forall k ensures r'[k] == (p' + h')[k] {
      assert r[k] == (p + h)[k] && (r' + p + x)[k] == (r + p' + x')[k] && (h' + x)[k] == (h + x')[k];
    }
  }

  lemma ApplyConserves(s: State, a: Action)
    requires Conserved(s)
    ensures Conserved(Apply(s, a))
  {
    if a.Step? && a.i < |s.calls| {
      var was, now, t := s.calls[a.i], StepCall(s, s.calls[a.i], a.response), Apply(s, a);
      StepExchanges(s, a.i, a.response);
      HeldUpdate(s.calls, a.i, now, |s.calls|);
      Balance(multiset(s.responses), KeysOf(s.published), Held(s.calls, |s.calls|), InHand(was),
              multiset(t.responses), KeysOf(t.published), Held(t.calls, |t.calls|), InHand(now));
    }
  }

  lemma {:induction false} NoneHeld(calls: seq<Call>, n: nat)
    requires n <= |calls| && forall i | 0 <= i < |calls| :: calls[i].pc.Start?
    ensures Held(calls, n) == multiset{}
  {
    if n == 0 {
    } else {
      NoneHeld(calls, n - 1);
    }
  }

  /** Nothing is published that was not fetched, and no response is published twice or lost: in
      every interleaving the responses are, with multiplicity, the published sets and those
      that calls have fetched and are about to publish. */
  lemma {:induction false} ResponsesConserved(keys: KeySet, at: int, interval: int, kids: seq<string>, actions: seq<Action>)
    ensures Conserved(Run(Boot(keys, at, interval, kids), actions))
  {
    var boot := Boot(keys, at, interval, kids);
    if actions == [] {
      NoneHeld(boot.calls, |boot.calls|);
      assert boot.published[..0] == [];
    } else {
      ResponsesConserved(keys, at, interval, kids, actions[..|actions| - 1]);
      ApplyConserves(Run(boot, actions[..|actions| - 1]), actions[|actions| - 1]);
    }
  }

  /** Action k of the run is the failure of the refresh with which call i met a stale cache. */
  ghost predicate RefreshFailed(s: State, actions: seq<Action>, i: nat, k: nat) {
    k < |actions| && actions[k] == Step(i, FetchFailed)
    && var before := Run(s, actions[..k]); i < |before.calls| && before.calls[i].pc == Fetching(false)
  }

  lemma OnlyFailureLoses(s: State, a: Action, i: nat)
    requires i < |s.calls| && !s.calls[i].lost
    ensures |Apply(s, a).calls| == |s.calls|
    ensures Apply(s, a).calls[i].lost ==> a == Step(i, FetchFailed) && s.calls[i].pc == Fetching(false)
  {
  }

  lemma {:induction false} LostIsFailure(s: State, actions: seq<Action>, i: nat)
    requires i < |s.calls| && !s.calls[i].lost && Inv(s)
    ensures |Run(s, actions).calls| == |s.calls|
    ensures Run(s, actions).calls[i].lost ==> exists k: nat :: RefreshFailed(s, actions, i, k)
  {
    RunInv(s, actions);
    if actions == [] {
    } else {
      var n := |actions| - 1;
      RunInv(s, actions[..n]);
      LostIsFailure(s, actions[..n], i);
      if Run(s, actions[..n]).calls[i].lost {
        var k: nat :| RefreshFailed(s, actions[..n], i, k);
        assert actions[..n][..k] == actions[..k];
        assert RefreshFailed(s, actions, i, k);
      } else {
        OnlyFailureLoses(Run(s, actions[..n]), actions[n], i);
        assert Run(s, actions).calls[i].lost ==> RefreshFailed(s, actions, i, n);
      }
    }
  }

  /** Action k of the run is the staleness check of call i: its clock and what was published then
      are those the call remembers. */
  ghost predicate CheckedIn(s: State, actions: seq<Action>, i: nat, k: nat)
    requires i < |Run(s, actions).calls|
  {
    && k < |actions| && actions[k].Step? && actions[k].i == i
    && var before := Run(s, actions[..k]);
       && i < |before.calls| && before.calls[i].pc.Read?
       && before.clock == Run(s, actions).calls[i].checkedAt && |before.published| == Run(s, actions).calls[i].seen
  }

  ghost predicate Unchecked(pc: Pc) {
    pc.Start? || pc.Read?
  }

  lemma OnlyCheckChecks(s: State, a: Action, i: nat)
    requires i < |s.calls|
    ensures i < |Apply(s, a).calls|
    ensures var was, now := s.calls[i], Apply(s, a).calls[i];
            if !Unchecked(was.pc) then !Unchecked(now.pc) && now.checkedAt == was.checkedAt && now.seen == was.seen
            else if was.pc.Read? && a.Step? && a.i == i then now.checkedAt == s.clock && now.seen == |s.published|
            else Unchecked(now.pc)
  {
  }

  lemma {:induction false} CheckIsMade(s: State, actions: seq<Action>, i: nat)
    requires i < |s.calls| && s.calls[i].pc.Start?
    ensures i < |Run(s, actions).calls|
    ensures Unchecked(Run(s, actions).calls[i].pc) || exists k: nat :: CheckedIn(s, actions, i, k)
  {
    if actions == [] {
    } else {
      var n := |actions| - 1;
      CheckIsMade(s, actions[..n], i);
      OnlyCheckChecks(Run(s, actions[..n]), actions[n], i);
      if !Unchecked(Run(s, actions[..n]).calls[i].pc) {
        var k: nat :| CheckedIn(s, actions[..n], i, k);
        assert actions[..n][..k] == actions[..k];
        assert CheckedIn(s, actions, i, k);
      } else if !Unchecked(Run(s, actions).calls[i].pc) {
        assert CheckedIn(s, actions, i, n);
      }
    }
  }

  /** The key that call i found after these actions is the first fitting key of a published set,
      fresh when the call checked, or published later, or looked at after a failed refresh. */
  ghost predicate GoodFind(boot: State, actions: seq<Action>, i: nat)
    requires i < |Run(boot, actions).calls| && Run(boot, actions).calls[i].pc.Found?
  {
    var s := Run(boot, actions);
    var call := s.calls[i];
    && call.fetches <= 2
    && call.version < |s.published|
    && (exists k: nat :: CheckedIn(boot, actions, i, k))
    && var p := s.published[call.version];
       && p.keys in s.responses
       && FirstFit(p.keys, call.kid, call.pc.key)
       && (|| call.checkedAt - p.at <= boot.interval
           || call.checkedAt <= p.at
           || exists k: nat :: RefreshFailed(boot, actions, i, k))
  }

  /** Freshness and provenance: a key returned in any interleaving is the first fitting key of a
      published, fetched set, which was within the interval when the call checked, or was
      published after that check, unless the refresh the call then attempted failed. */
  lemma FoundKeysAreFresh(keys: KeySet, at: int, interval: int, kids: seq<string>, actions: seq<Action>, i: nat)
    requires i < |kids|
    ensures var s := Run(Boot(keys, at, interval, kids), actions);
            && |s.calls| == |kids|
            && (s.calls[i].pc.Found? ==> GoodFind(Boot(keys, at, interval, kids), actions, i))
  {
    var boot := Boot(keys, at, interval, kids);
    BootInv(keys, at, interval, kids);
    RunInv(boot, actions);
    LostIsFailure(boot, actions, i);
    CheckIsMade(boot, actions, i);
    assert CallInv(Run(boot, actions), Run(boot, actions).calls[i]);
  }

  /** Action k of the run answers the refetch that call i makes for a missing key. */
  ghost predicate Refetches(s: State, actions: seq<Action>, i: nat, k: nat) {
    k < |actions| && actions[k].Step? && actions[k].i == i
    && var before := Run(s, actions[..k]); i < |before.calls| && before.calls[i].pc == Fetching(true)
  }

  /** The refetch at action k failed and nothing was read again, or it succeeded and what was
      published last when the call read again had been published after the refetch. */
  ghost predicate AfterRefetch(s: State, actions: seq<Action>, i: nat, k: nat)
    requires Refetches(s, actions, i, k)
    requires i < |Run(s, actions).calls|
  {
    var t, seen := Run(s, actions), |Run(s, actions[..k]).published|;
    var call := t.calls[i];
    match call.pc
    case Publishing(_, _) => actions[k].response.Fetched? && seen <= |t.published|
    case Rereading(_) => actions[k].response.Fetched? && seen < |t.published|
    case Looking(_, _) => actions[k].response.Fetched? && seen <= call.version
    case NotFound => if actions[k].response.Fetched? then seen <= call.version else call.missed == Some(call.version)
    case _ => true
  }

  /** The call has answered its refetch, and not found the key. */
  ghost predicate PastRefetch(pc: Pc) {
    pc.NotFound? || (pc.Publishing? && pc.again) || (pc.Rereading? && pc.again) || (pc.Looking? && pc.again)
  }

  /** One more action keeps what is known of a refetch at action k, or is that refetch. */
  lemma RefetchKept(s: State, actions: seq<Action>, a: Action, i: nat, k: nat)
    requires Inv(Run(s, actions)) && i < |Run(s, actions).calls|
    requires Refetches(s, actions, i, k) && AfterRefetch(s, actions, i, k) && PastRefetch(Run(s, actions).calls[i].pc)
    ensures Refetches(s, actions + [a], i, k) && i < |Run(s, actions + [a]).calls|
    ensures PastRefetch(Run(s, actions + [a]).calls[i].pc) ==> AfterRefetch(s, actions + [a], i, k)
  {
    assert (actions + [a])[..|actions|] == actions;
    assert (actions + [a])[..k] == actions[..k];
    assert CallInv(Run(s, actions), Run(s, actions).calls[i]);
  }

  lemma RefetchMade(s: State, actions: seq<Action>, a: Action, i: nat)
    requires Inv(Run(s, actions)) && i < |Run(s, actions).calls| && !PastRefetch(Run(s, actions).calls[i].pc)
    ensures i < |Run(s, actions + [a]).calls|
    ensures PastRefetch(Run(s, actions + [a]).calls[i].pc) ==>
              Refetches(s, actions + [a], i, |actions|) && AfterRefetch(s, actions + [a], i, |actions|)
  {
    assert (actions + [a])[..|actions|] == actions;
    assert CallInv(Run(s, actions), Run(s, actions).calls[i]);
  }

  lemma {:induction false} RefetchIsMade(s: State, actions: seq<Action>, i: nat)
    requires Inv(s) && i < |s.calls| && s.calls[i].pc.Start?
    ensures i < |Run(s, actions).calls|
    ensures PastRefetch(Run(s, actions).calls[i].pc) ==>
              exists k: nat :: Refetches(s, actions, i, k) && AfterRefetch(s, actions, i, k)
  {
    if actions == [] {
    } else {
      var before, a := actions[..|actions| - 1], actions[|actions| - 1];
      assert actions == before + [a];
      RunInv(s, before);
      RefetchIsMade(s, before, i);
      if PastRefetch(Run(s, before).calls[i].pc) {
        var k: nat :| Refetches(s, before, i, k) && AfterRefetch(s, before, i, k);
        RefetchKept(s, before, a, i, k);
      } else {
        RefetchMade(s, before, a, i);
      }
    }
  }

  /** Call i rightly reports that its key is not there: neither the set it searched first nor the
      one it searched last holds it, and in between it refetched, which failed, or succeeded and
      was followed by a publication whose set it searched last. */
  ghost predicate RightlyNotFound(boot: State, actions: seq<Action>, i: nat)
    requires i < |Run(boot, actions).calls|
  {
    var s := Run(boot, actions);
    var call := s.calls[i];
    && call.version < |s.published| && !Holds(s.published[call.version].keys, call.kid)
    && call.missed.Some? && call.missed.value <= call.version && !Holds(s.published[call.missed.value].keys, call.kid)
    && exists k: nat ::
         && Refetches(boot, actions, i, k)
         && if actions[k].response.Fetched? then |Run(boot, actions[..k]).published| <= call.version
            else call.missed.value == call.version
  }

  /** No false refusals: in every interleaving a lookup ends without a key only rightly. */
  lemma NotFoundIsRight(keys: KeySet, at: int, interval: int, kids: seq<string>, actions: seq<Action>, i: nat)
    requires i < |kids|
    ensures var boot := Boot(keys, at, interval, kids);
            && |Run(boot, actions).calls| == |kids|
            && (Run(boot, actions).calls[i].pc.NotFound? ==> RightlyNotFound(boot, actions, i))
  {
    var boot := Boot(keys, at, interval, kids);
    BootInv(keys, at, interval, kids);
    RunInv(boot, actions);
    RefetchIsMade(boot, actions, i);
    assert CallInv(Run(boot, actions), Run(boot, actions).calls[i]);
  }

  /** No idle fetches: in every interleaving a lookup refreshes only a pair that was older than the
      interval when it checked, and refetches only for a key that the searched set does not hold. */
  lemma FetchesAreNeeded(keys: KeySet, at: int, interval: int, kids: seq<string>, actions: seq<Action>, i: nat)
    requires i < |kids|
    ensures var s := Run(Boot(keys, at, interval, kids), actions);
            && |s.calls| == |kids|
            && var call := s.calls[i];
               && (call.pc.Fetching? ==> call.version < |s.published|)
               && (call.pc == Fetching(false) ==> call.checkedAt - s.published[call.version].at > interval)
               && (call.pc == Fetching(true) ==> !Holds(s.published[call.version].keys, call.kid))
  {
    BootInv(keys, at, interval, kids);
    RunInv(Boot(keys, at, interval, kids), actions);
    assert CallInv(Run(Boot(keys, at, interval, kids), actions), Run(Boot(keys, at, interval, kids), actions).calls[i]);
  }

  // ----- one call with nobody in between -----

  ghost predicate Alone(actions: seq<Action>, i: nat) {
    forall a | a in actions :: a.Step? ==> a.i == i
  }

  /** The environment's clock readings come in order, none before the given time. */
  ghost predicate InOrderFrom(clock: int, env: Env) {
    clock <= env.now <= env.firstAt <= env.secondAt
  }

  ghost function Shared(s: State): Cache {
    Cache(s.jwks, s.lastRefresh)
  }

  /** The answer an action gives to a fetch of call i, if that is where the call is. */
  ghost function Answered(s: State, i: nat, a: Action): seq<Fetch> {
    if a.Step? && a.i == i < |s.calls| && s.calls[i].pc.Fetching? then [a.response] else []
  }

  /** The answers that call i's fetches get in the run, in order. */
  ghost function Fetches(s: State, actions: seq<Action>, i: nat): seq<Fetch> {
    if actions == [] then [] else
      var before := actions[..|actions| - 1];
      Fetches(s, before, i) + Answered(Run(s, before), i, actions[|actions| - 1])
  }

  ghost function Fetches1(cache: Cache, interval: int, env: Env): seq<Fetch> {
    if Stale(cache, interval, env.now) then [env.first] else []
  }

  ghost function Cache1(cache: Cache, interval: int, env: Env): Cache {
    if Stale(cache, interval, env.now) then Refreshed(cache, env.first, env.firstAt) else cache
  }

  ghost predicate Missed(cache: Cache, kid: string) {
    cache.jwks.Some? && Matching(cache.jwks.value, kid) == []
  }

  ghost function KeyAt(pc: Pc): Option<Jwk> {
    if pc.Found? then Some(pc.key) else None
  }

  /** The finished call i of s has the key, the cached pair and the number of fetches that the
      sequential lookup has in this environment, whose clock reading at the check and whose
      answers are those the call got. */
  ghost predicate IsLookup(s0: State, s: State, i: nat, env: Env, answers: seq<Fetch>) {
    && i < |s0.calls| && i < |s.calls|
    && var call := s.calls[i];
       && LookupOf(Shared(s0), s0.interval, s0.calls[i].kid, env) == Lookup(KeyAt(call.pc), Shared(s), call.fetches)
       && env.now == call.checkedAt
       && call.fetches == |answers|
       && answers <= Fetches1(Shared(s0), s0.interval, env) + [env.second]
  }

  /** Call i started in s0 and is at s: the sequential lookup in env has come as far as that. */
  ghost predicate Tracks(s0: State, s: State, i: nat, env: Env, answers: seq<Fetch>) {
    && i < |s0.calls| == |s.calls| && s.interval == s0.interval
    && var call, c0 := s.calls[i], Shared(s0);
       var c1, first := Cache1(c0, s0.interval, env), Fetches1(c0, s0.interval, env);
       && call.kid == s0.calls[i].kid && call.fetches == |answers|
       && (!call.pc.Start? && !call.pc.Read? ==> call.checkedAt == env.now)
       && match call.pc
          case Start => Shared(s) == c0 && answers == []
          case Read(keys, last) => Shared(s) == c0 == Cache(keys, last) && answers == []
          case Fetching(again) =>
            if again then Missed(c1, call.kid) && Shared(s) == c1 && answers == first
            else Stale(c0, s0.interval, env.now) && Shared(s) == c0 && answers == []
          case Publishing(again, keys) =>
            if again then Missed(c1, call.kid) && Shared(s) == c1 && env.second == Fetched(keys) && answers == first + [env.second]
            else Stale(c0, s0.interval, env.now) && Shared(s) == c0 && env.first == Fetched(keys) && answers == [env.first]
          case Rereading(again) =>
            if again then Missed(c1, call.kid) && env.second.Fetched? && Shared(s) == Refreshed(c1, env.second, env.secondAt)
                          && answers == first + [env.second]
            else Shared(s) == c1 && answers == first
          case Looking(again, local) =>
            && local == s.jwks
            && if again then Missed(c1, call.kid) && env.second.Fetched? && Shared(s) == Refreshed(c1, env.second, env.secondAt)
                             && answers == first + [env.second]
               else Shared(s) == c1 && answers == first
          case _ => IsLookup(s0, s, i, env, answers)
  }

  /** The clock and the answer agree with what env has for the step that call i takes next. */
  ghost predicate Meets(s: State, i: nat, env: Env, response: Fetch)
    requires i < |s.calls|
  {
    match s.calls[i].pc
    case Read(_, _) => s.clock == env.now
    case Fetching(again) => response == if again then env.second else env.first
    case Publishing(again, _) => s.clock == if again then env.secondAt else env.firstAt
    case _ => true
  }

  lemma StepTracks(s0: State, s: State, i: nat, env: Env, answers: seq<Fetch>, response: Fetch)
    requires Tracks(s0, s, i, env, answers) && Meets(s, i, env, response)
    ensures Tracks(s0, Apply(s, Step(i, response)), i, env, answers + Answered(s, i, Step(i, response)))
  {
  }

  /** env with the clock of s and the response filled in for the next step of call i. */
  ghost function Fill(s: State, i: nat, env: Env, response: Fetch): Env
    requires i < |s.calls|
  {
    match s.calls[i].pc
    case Read(_, _) => env.(now := s.clock, firstAt := s.clock, secondAt := s.clock)
    case Fetching(again) => if again then env.(second := response) else env.(first := response)
    case Publishing(again, _) => if again then env.(secondAt := s.clock) else env.(firstAt := s.clock, secondAt := s.clock)
    case _ => env
  }

  lemma FillTracks(s0: State, s: State, i: nat, env: Env, answers: seq<Fetch>, response: Fetch)
    requires Tracks(s0, s, i, env, answers) && InOrderFrom(s0.clock, env) && env.secondAt <= s.clock
    ensures var filled := Fill(s, i, env, response);
            && Tracks(s0, s, i, filled, answers) && Meets(s, i, filled, response)
            && InOrderFrom(s0.clock, filled) && filled.secondAt <= s.clock
  {
  }

  lemma {:induction false} SoloTracks(s0: State, actions: seq<Action>, i: nat) returns (env: Env)
    requires i < |s0.calls| && s0.calls[i].pc.Start? && s0.calls[i].fetches == 0 && Alone(actions, i)
    ensures Tracks(s0, Run(s0, actions), i, env, Fetches(s0, actions, i))
    ensures InOrderFrom(s0.clock, env) && env.secondAt <= Run(s0, actions).clock
  {
    if actions == [] {
      env := Env(s0.clock, FetchFailed, s0.clock, FetchFailed, s0.clock);
    } else {
      var n := |actions| - 1;
      var s, a := Run(s0, actions[..n]), actions[n];
      env := SoloTracks(s0, actions[..n], i);
      if a.Step? {
        assert a in actions;
        FillTracks(s0, s, i, env, Fetches(s0, actions[..n], i), a.response);
        env := Fill(s, i, env, a.response);
        StepTracks(s0, s, i, env, Fetches(s0, actions[..n], i), a.response);
      }
    }
  }

  /** Whenever an undisturbed call of the protocol finishes, its key, the cached pair it leaves
      and the number of its fetches are those of the sequential lookup, in an environment with
      the answers the call got and clock readings made during the run. */
  lemma SoloCallIsLookup(s0: State, actions: seq<Action>, i: nat)
    requires i < |s0.calls| && s0.calls[i].pc.Start? && s0.calls[i].fetches == 0 && Alone(actions, i)
    ensures var s := Run(s0, actions);
            && i < |s.calls|
            && (s.calls[i].pc.Found? || s.calls[i].pc.NotFound? ==>
                  exists env :: InOrderFrom(s0.clock, env) && env.secondAt <= s.clock
                                && IsLookup(s0, s, i, env, Fetches(s0, actions, i)))
  {
    var env := SoloTracks(s0, actions, i);
  }

  // ----- every environment can be met -----

  /** How many steps of its own a call has left at most. */
  ghost function StepsLeft(pc: Pc): nat {
    match pc
    case Start => 10
    case Read(_, _) => 9
    case Fetching(again) => if again then 4 else 8
    case Publishing(again, _) => if again then 3 else 7
    case Rereading(again) => if again then 2 else 6
    case Looking(again, _) => if again then 1 else 5
    case _ => 0
  }

  /** The first clock reading of env that a call at pc has not passed for certain. */
  ghost function Due(pc: Pc, env: Env): int {
    if pc.Start? || pc.Read? then env.now
    else if pc == Fetching(false) || (pc.Publishing? && !pc.again) then env.firstAt
    else env.secondAt
  }

  /** The clock at which a call at pc, in a state at time `clock`, takes its next step in env. */
  ghost function NextAt(pc: Pc, env: Env, clock: int): int {
    if pc.Read? || pc.Publishing? then Due(pc, env) else clock
  }

  ghost function NextAnswer(pc: Pc, env: Env): Fetch {
    if pc == Fetching(true) then env.second else env.first
  }

  /** s is where steps of call i and ticks can lead from s0, with these answers to the call's fetches. */
  ghost predicate Reaches(s0: State, i: nat, s: State, answers: seq<Fetch>) {
    exists actions :: Alone(actions, i) && Run(s0, actions) == s && Fetches(s0, actions, i) == answers
  }

  lemma ReachesOn(s0: State, i: nat, s: State, answers: seq<Fetch>, a: Action)
    requires Reaches(s0, i, s, answers) && (a.Step? ==> a.i == i)
    ensures Reaches(s0, i, Apply(s, a), answers + Answered(s, i, a))
  {
    var actions :| Alone(actions, i) && Run(s0, actions) == s && Fetches(s0, actions, i) == answers;
    var longer := actions + [a];
    assert longer[..|longer| - 1] == actions;
    assert Alone(longer, i) && Run(s0, longer) == Apply(s, a);
    assert Fetches(s0, longer, i) == answers + Answered(s, i, a);
  }

  /** An undisturbed call i can finish as the lookup in env. */
  ghost predicate CanFinish(s0: State, i: nat, env: Env) {
    exists s, answers ::
      Reaches(s0, i, s, answers) && i < |s.calls| && StepsLeft(s.calls[i].pc) == 0 && IsLookup(s0, s, i, env, answers)
  }

  /** Waiting until the next step is due, and taking it. */
  lemma NextStep(s0: State, s: State, i: nat, env: Env, answers: seq<Fetch>)
    requires Tracks(s0, s, i, env, answers) && InOrderFrom(s0.clock, env)
    requires s.clock <= Due(s.calls[i].pc, env) && StepsLeft(s.calls[i].pc) > 0
    ensures var pc := s.calls[i].pc;
            var step := Step(i, NextAnswer(pc, env));
            NextAt(pc, env, s.clock) >= s.clock
            && var ready := Apply(s, Tick(NextAt(pc, env, s.clock) - s.clock));
               var t := Apply(ready, step);
               && Tracks(s0, t, i, env, answers + Answered(ready, i, step))
               && t.clock <= Due(t.calls[i].pc, env) && StepsLeft(t.calls[i].pc) < StepsLeft(pc)
  {
    var pc := s.calls[i].pc;
    StepTracks(s0, Apply(s, Tick(NextAt(pc, env, s.clock) - s.clock)), i, env, answers, NextAnswer(pc, env));
  }

  lemma {:induction false} FinishFrom(s0: State, s: State, i: nat, env: Env, answers: seq<Fetch>)
    requires Reaches(s0, i, s, answers) && InOrderFrom(s0.clock, env)
    requires Tracks(s0, s, i, env, answers) && s.clock <= Due(s.calls[i].pc, env)
    ensures CanFinish(s0, i, env)
    decreases StepsLeft(s.calls[i].pc)
  {
    var pc := s.calls[i].pc;
    if StepsLeft(pc) == 0 {
    } else {
      NextStep(s0, s, i, env, answers);
      var tick, step := Tick(NextAt(pc, env, s.clock) - s.clock), Step(i, NextAnswer(pc, env));
      var ready := Apply(s, tick);
      ReachesOn(s0, i, s, answers, tick);
      assert answers + Answered(s, i, tick) == answers;
      ReachesOn(s0, i, ready, answers, step);
      FinishFrom(s0, Apply(ready, step), i, env, answers + Answered(ready, i, step));
    }
  }

  /** Conversely every environment is one that an undisturbed call can meet, and the call then
      computes the lookup in it. */
  lemma EveryLookupIsSoloCall(s0: State, i: nat, env: Env)
    requires i < |s0.calls| && s0.calls[i].pc.Start? && s0.calls[i].fetches == 0 && InOrderFrom(s0.clock, env)
    ensures CanFinish(s0, i, env)
  {
    assert Alone([], i) && Run(s0, []) == s0 && Fetches(s0, [], i) == [];
    FinishFrom(s0, s0, i, env, []);
  }
}
