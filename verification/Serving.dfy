/** The authentication part of cmd/dapr-mcp-server/main.go: from the environment to a guarded server,
    and the requests it serves. */
module Serving {
  import opened Text
  import opened SigningKeys
  import opened Sentry
  import opened Gate
  import opened AuthConfig

  // ----- authenticators -----

  /** What the constructors meet: the libraries' errors, and the first key fetch with its time. */
  datatype Builders = Builders(library: Method -> Option<string>, first: Fetch, at: int)

  ghost predicate Builds(build: Builders, m: Method) {
    if m == DaprSentry then build.first.Fetched? else build.library(m).None?
  }

  function SettingsOf(c: SentryConfig): Settings {
    Settings(c.trustDomain, c.audience, c.refreshInterval)
  }

  /** A new Dapr Sentry authenticator, holding the key set of its first fetch. */
  ghost predicate Made(a: DaprSentryAuthenticator?, cfg: Config, build: Builders)
    reads a
  {
    && a != null && build.first.Fetched?
    && a.settings == SettingsOf(cfg.sentry) && a.Cached() == Cache(Some(build.first.keys), build.at)
  }

  /** The constructor of one method; an error comes with the library's text, where it has one. */
  method Build(m: Method, cfg: Config, build: Builders) returns (error: Option<Option<string>>, sentry: DaprSentryAuthenticator?)
    ensures error.None? <==> Builds(build, m)
    ensures error.Some? ==> error.value == if m == DaprSentry then None else build.library(m)
    ensures if error.None? && m == DaprSentry then Made(sentry, cfg, build) && fresh(sentry) else sentry == null
  {
    if m == DaprSentry {
      sentry := NewAuthenticator(SettingsOf(cfg.sentry), build.first, build.at);
      error := if sentry == null then Some(None) else None;
    } else {
      sentry := null;
      error := if build.library(m).Some? then Some(build.library(m)) else None;
    }
  }

  /** m is the first selected method whose constructor fails. */
  ghost predicate FirstFailure(cfg: Config, build: Builders, m: Method) {
    exists i | 0 <= i < |Selected(cfg)| ::
      Selected(cfg)[i] == m && !Builds(build, m) && forall j | 0 <= j < i :: Builds(build, Selected(cfg)[j])
  }

  /** The hybrid case: those switched on, in order. */
  method BuildHybrid(cfg: Config, build: Builders)
    returns (r: Result<seq<Method>, (Method, Option<string>)>, sentry: DaprSentryAuthenticator?)
    requires cfg.mode.Hybrid?
    ensures r.Success? <==> forall m | m in Selected(cfg) :: Builds(build, m)
    ensures r.Success? ==> r.value == Selected(cfg)
    ensures r.Failure? ==> FirstFailure(cfg, build, r.error.0)
    ensures r.Failure? ==> r.error.1 == if r.error.0 == DaprSentry then None else build.library(r.error.0)
    ensures r.Success? ==> if DaprSentry in Selected(cfg) then Made(sentry, cfg, build) && fresh(sentry) else sentry == null
  {
    HybridSelection(cfg);
    var built: seq<Method> := [];
    sentry := null;
    if cfg.oidc.enabled {
      assert Selected(cfg)[0] == OIDC;
      var error, _ := Build(OIDC, cfg, build);
      if error.Some? {
        return Failure((OIDC, error.value)), null;
      }
      built := built + [OIDC];
    }
    if cfg.spiffe.enabled {
      assert Selected(cfg)[|built|] == SPIFFE;
      var error, _ := Build(SPIFFE, cfg, build);
      if error.Some? {
        return Failure((SPIFFE, error.value)), null;
      }
      built := built + [SPIFFE];
    }
    if cfg.sentry.enabled {
      assert Selected(cfg)[|built|] == DaprSentry;
      var error, made := Build(DaprSentry, cfg, build);
      if error.Some? {
        return Failure((DaprSentry, error.value)), null;
      }
      built, sentry := built + [DaprSentry], made;
    }
    return Success(built), sentry;
  }

  /** buildAuthenticators: the constructors run in order and the first failure ends the server. */
  method BuildAuthenticators(cfg: Config, build: Builders)
    returns (r: Result<seq<Method>, (Method, Option<string>)>, sentry: DaprSentryAuthenticator?)
    ensures r.Success? <==> forall m | m in Selected(cfg) :: Builds(build, m)
    ensures r.Success? ==> r.value == Selected(cfg)
    ensures r.Failure? ==> FirstFailure(cfg, build, r.error.0)
    ensures r.Failure? ==> r.error.1 == if r.error.0 == DaprSentry then None else build.library(r.error.0)
    ensures r.Success? ==> if DaprSentry in Selected(cfg) then Made(sentry, cfg, build) && fresh(sentry) else sentry == null
  {
    var built: seq<Method> := [];
    sentry := null;
    match cfg.mode {
      case Single(m) =>
        assert Selected(cfg)[0] == m;
        var error, made := Build(m, cfg, build);
        if error.Some? {
          return Failure((m, error.value)), null;
        }
        built, sentry := built + [m], made;
      case Hybrid =>
        r, sentry := BuildHybrid(cfg, build);
        return;
      case _ =>
    }
    return Success(built), sentry;
  }

  // ----- starting -----

  ghost predicate Active(cfg: Config) {
    cfg.enabled && !cfg.mode.Disabled?
  }

  /** Open is a server without a middleware. */
  datatype Started = ConfigRejected(config: ConfigError) | BuildFailed(m: Method) | Open | Guarded(middleware: Middleware)

  ghost predicate Guards(guard: Middleware, cfg: Config) {
    && guard.policy.required && guard.policy.skipPaths == cfg.skipPaths && guard.policy.tokenHeader == cfg.sentry.tokenHeader
    && guard.methods == Selected(cfg) && guard.Valid()
    && (guard.sentry != null ==> guard.sentry.settings == SettingsOf(cfg.sentry))
  }

  /** The server takes requests; a guarded one that uses Dapr Sentry has a key set. */
  ghost predicate IsUp(s: Started, cfg: Config)
    reads if s.Guarded? then {s.middleware.sentry} else {}
  {
    && Validate(cfg).None?
    && if s.Guarded? then
         && Active(cfg) && Guards(s.middleware, cfg)
         && (s.middleware.sentry != null ==> s.middleware.sentry.Valid())
       else s.Open? && !Active(cfg)
  }

  /** main: read the configuration, validate it and build the authenticators. A server starts iff
      that succeeds, and guards its requests iff authentication is on. */
  method Start(env: Environment, parseDuration: string -> Option<int>, build: Builders) returns (s: Started, ghost cfg: Config)
    ensures FromEnvironment(env, parseDuration, cfg)
    ensures s.ConfigRejected? <==> Validate(cfg).Some?
    ensures s.ConfigRejected? ==> Validate(cfg) == Some(s.config)
    ensures s.BuildFailed? <==> Validate(cfg).None? && Active(cfg) && exists m | m in Selected(cfg) :: !Builds(build, m)
    ensures s.BuildFailed? ==> FirstFailure(cfg, build, s.m)
    ensures s.Open? <==> Validate(cfg).None? && !Active(cfg)
    ensures Active(cfg) <==> Var(env, "AUTH_ENABLED") == "true" && Lower(Var(env, "AUTH_MODE")) !in {"", "disabled"}
    ensures s.Guarded? ==> fresh(s.middleware)
    ensures s.Guarded? || s.Open? ==> IsUp(s, cfg)
    ensures s.Guarded? && DaprSentry in Selected(cfg) ==> Made(s.middleware.sentry, cfg, build) && fresh(s.middleware.sentry)
  {
    var config := DefaultConfig(env, parseDuration);
    cfg := config;
    if Validate(config).Some? {
      return ConfigRejected(Validate(config).value), config;
    }
    if !config.enabled || config.mode.Disabled? {
      return Open, config;
    }
    var built, sentry := BuildAuthenticators(config, build);
    if built.Failure? {
      return BuildFailed(built.error.0), config;
    }
    var middleware := new Middleware(Policy(true, config.skipPaths, config.sentry.tokenHeader), built.value, sentry);
    return Guarded(middleware), config;
  }

  // ----- serving -----

  /** The OIDC and SPIFFE libraries' wrappers name their own method in an identity, and always give one. */
  ghost predicate Truthful(w: World) {
    forall m, token | m != DaprSentry && w.library(m, token).Accepted? ::
      w.library(m, token).identity.Some? && w.library(m, token).identity.value.authMethod == m
  }

  ghost function AnswerFor(cfg: Config, cache: Cache, w: World, token: string, m: Method): Answer {
    AnswerOf(m, SettingsOf(cfg.sentry), cache, w, token)
  }

  /** An identity always comes along, and names the method that gave it. For Dapr Sentry this
      is proved, for the other two it is the hypothesis. */
  lemma AnswersAreTruthful(cfg: Config, cache: Cache, w: World, token: string, m: Method)
    requires Truthful(w) && AnswerFor(cfg, cache, w, token, m).Accepted?
    ensures var a := AnswerFor(cfg, cache, w, token, m); a.identity.Some? && a.identity.value.authMethod == m
  {
  }

  lemma {:induction false} CacheUntouched(ms: seq<Method>, n: nat, settings: Settings, cache: Cache, w: World, token: string)
    requires n <= |ms| && forall i | 0 <= i < n :: ms[i] != DaprSentry
    ensures CacheBefore(ms, n, settings, cache, w, token) == cache
  {
    if n == 0 {
    } else {
      CacheUntouched(ms, n - 1, settings, cache, w, token);
    }
  }

  /** Every method is asked with the key set as it was before the request. */
  ghost predicate SaysEach(answers: seq<Answer>, cfg: Config, cache: Cache, w: World, token: string) {
    && |answers| == |Selected(cfg)|
    && forall i | 0 <= i < |answers| :: answers[i] == AnswerFor(cfg, cache, w, token, Selected(cfg)[i])
  }

  lemma GuardSaysEach(guard: Middleware, cfg: Config, cache: Cache, w: World, token: string)
    requires Guards(guard, cfg) && Distinct(Selected(cfg))
    ensures SaysEach(guard.Says(cache, w, token), cfg, cache, w, token)
  {
    var ms := guard.methods;
    forall i | 0 <= i < |ms| ensures guard.Says(cache, w, token)[i] == AnswerFor(cfg, cache, w, token, ms[i]) {
      AnswerAt(ms, |ms|, guard.Config(), cache, w, token, i);
      if ms[i] == DaprSentry {
        CacheUntouched(ms, i, guard.Config(), cache, w, token);
      }
    }
  }

  /** The path of the request is configured to need no token. */
  ghost predicate Skips(cfg: Config, r: Request) {
    exists i | 0 <= i < |cfg.skipPaths| :: SkippedBy(cfg.skipPaths[i], r.path)
  }

  /** Dapr Sentry, as configured, takes the token for these claims. */
  ghost predicate SentryGrants(cfg: Config, cache: Cache, w: World, token: string, claims: Claims) {
    && cache.jwks.Some?
    && Grants(cache, cfg.sentry.refreshInterval, cfg.sentry.trustDomain, cfg.sentry.audience, w.decode(token), w.env, w.now, claims)
  }

  /** An identity that reaches the next handler names a selected, usable method which gave it,
      and Dapr Sentry's carries the claims it took the token for. */
  ghost predicate GoodIdentity(cfg: Config, cache: Cache, w: World, token: string, id: Identity) {
    var m := id.authMethod;
    && m in Selected(cfg) && Usable(cfg, m)
    && if m == DaprSentry then exists claims :: SentryGrants(cfg, cache, w, token, claims) && Carries(id, claims)
       else w.library(m, token) == Accepted(Some(id))
  }

  ghost predicate SomeMethodAccepts(cfg: Config, cache: Cache, w: World, token: string) {
    || (DaprSentry in Selected(cfg) && exists claims :: SentryGrants(cfg, cache, w, token, claims))
    || exists m | m in Selected(cfg) :: m != DaprSentry && w.library(m, token).Accepted?
  }

  /** What a guarded server does with a request when its key cache is the given one. */
  ghost predicate Served(cfg: Config, cache: Cache, w: World, r: Request, o: Outcome) {
    var token := TokenOf(cfg.sentry.tokenHeader, r);
    && !o.Panicked?
    && (o == Next(None) <==> Skips(cfg, r))
    && (o.NoToken? <==> !Skips(cfg, r) && token == "")
    && (o.BadToken? <==> !Skips(cfg, r) && token != "" && !SomeMethodAccepts(cfg, cache, w, token))
    && (o.Next? && !Skips(cfg, r) ==> o.identity.Some? && GoodIdentity(cfg, cache, w, token, o.identity.value))
  }

  lemma NoStar(p: string, path: string)
    requires p != "" && p[|p| - 1] != '*'
    ensures SkippedBy(p, path) <==> path == p
  {
  }

  lemma DefaultSkips(cfg: Config, r: Request)
    requires cfg.skipPaths == ["/livez", "/readyz", "/startupz"]
    ensures Skips(cfg, r) <==> r.path == "/livez" || r.path == "/readyz" || r.path == "/startupz"
  {
    NoStar("/livez", r.path);
    NoStar("/readyz", r.path);
    NoStar("/startupz", r.path);
    var ps := cfg.skipPaths;
    assert ps[0] == "/livez" && ps[1] == "/readyz" && ps[2] == "/startupz" && |ps| == 3;
  }

  /** What the environment variables mean for requests: which header carries the token, which paths
      are open when none are listed, and what Dapr Sentry goes by. */
  lemma EnvironmentInForce(env: Environment, parseDuration: string -> Option<int>, cfg: Config,
                           r: Request, cache: Cache, w: World, token: string, claims: Claims)
    requires FromEnvironment(env, parseDuration, cfg)
    ensures TokenOf(cfg.sentry.tokenHeader, r) == TokenOf(Var(env, "DAPR_SENTRY_TOKEN_HEADER"), r)
    ensures Var(env, "AUTH_SKIP_PATHS") == "" ==>
              (Skips(cfg, r) <==> r.path == "/livez" || r.path == "/readyz" || r.path == "/startupz")
    ensures SentryGrants(cfg, cache, w, token, claims) <==>
              && cache.jwks.Some?
              && Grants(cache, cfg.sentry.refreshInterval, Var(env, "DAPR_SENTRY_TRUST_DOMAIN"), Var(env, "DAPR_SENTRY_AUDIENCE"),
                        w.decode(token), w.env, w.now, claims)
    ensures var interval := Var(env, "DAPR_SENTRY_JWKS_REFRESH_INTERVAL");
            parseDuration(interval).None? ==> cfg.sentry.refreshInterval == 300_000_000_000
  {
    if Var(env, "AUTH_SKIP_PATHS") == "" {
      DefaultSkips(cfg, r);
    }
  }

  lemma SentryAnswers(cfg: Config, cache: Cache, w: World, token: string)
    requires cache.jwks.Some?
    ensures var a := AnswerFor(cfg, cache, w, token, DaprSentry);
            && (a.Accepted? <==> exists claims :: SentryGrants(cfg, cache, w, token, claims))
            && (a.Accepted? ==> a.identity.Some? && exists claims :: SentryGrants(cfg, cache, w, token, claims) && Carries(a.identity.value, claims))
  {
    var settings := SettingsOf(cfg.sentry);
    GrantedIdentity(settings, cache, w.decode(token), w.env, w.now);
    var verified := Verified(w.decode(token), cache, settings, w.env);
    if verified.Some? && Acceptable(settings, verified.value, w.now) {
      IdentityCarries(verified.value);
      GrantsExact(settings, cache, w.decode(token), w.env, w.now, verified.value);
      assert SentryGrants(cfg, cache, w, token, verified.value);
    }
  }

  lemma AcceptanceIsGood(cfg: Config, cache: Cache, w: World, token: string, m: Method)
    requires Validate(cfg).None? && Active(cfg) && Truthful(w) && m in Selected(cfg)
    requires DaprSentry in Selected(cfg) ==> cache.jwks.Some?
    requires AnswerFor(cfg, cache, w, token, m).Accepted?
    ensures var a := AnswerFor(cfg, cache, w, token, m);
            a.identity.Some? && GoodIdentity(cfg, cache, w, token, a.identity.value) && SomeMethodAccepts(cfg, cache, w, token)
  {
    ValidatedIsUsable(cfg);
    AnswersAreTruthful(cfg, cache, w, token, m);
    if m == DaprSentry {
      SentryAnswers(cfg, cache, w, token);
    }
  }

  lemma SomeAnswerAccepts(cfg: Config, cache: Cache, w: World, token: string, answers: seq<Answer>)
    requires SaysEach(answers, cfg, cache, w, token) && SomeMethodAccepts(cfg, cache, w, token)
    requires DaprSentry in Selected(cfg) ==> cache.jwks.Some?
    ensures !AllReject(answers)
  {
    var ms := Selected(cfg);
    var m: Method;
    if DaprSentry in ms && exists claims :: SentryGrants(cfg, cache, w, token, claims) {
      SentryAnswers(cfg, cache, w, token);
      m := DaprSentry;
    } else {
      m :| m in ms && m != DaprSentry && w.library(m, token).Accepted?;
    }
    var i :| 0 <= i < |ms| && ms[i] == m;
    assert answers[i].Accepted?;
  }

  lemma DecidedIsServed(cfg: Config, cache: Cache, w: World, policy: Policy, answers: seq<Answer>, r: Request, o: Outcome, called: nat)
    requires Validate(cfg).None? && Active(cfg) && Truthful(w)
    requires DaprSentry in Selected(cfg) ==> cache.jwks.Some?
    requires policy == Policy(true, cfg.skipPaths, cfg.sentry.tokenHeader)
    requires SaysEach(answers, cfg, cache, w, TokenOf(cfg.sentry.tokenHeader, r))
    requires Decided(policy, answers, r, o, called)
    ensures Served(cfg, cache, w, r, o)
  {
    var token, ms := TokenOf(cfg.sentry.tokenHeader, r), Selected(cfg);
    forall i | 0 <= i < |ms| && answers[i].Accepted?
      ensures answers[i].identity.Some? && GoodIdentity(cfg, cache, w, token, answers[i].identity.value)
      ensures SomeMethodAccepts(cfg, cache, w, token)
    {
      assert ms[i] in ms;
      AcceptanceIsGood(cfg, cache, w, token, ms[i]);
    }
    if SomeMethodAccepts(cfg, cache, w, token) {
      SomeAnswerAccepts(cfg, cache, w, token, answers);
    }
  }

  /** In mode dapr-sentry a request on a protected path is let through iff its token is not empty and
      Dapr Sentry, as configured, takes it. */
  lemma SentryModeServes(cfg: Config, cache: Cache, w: World, r: Request, o: Outcome)
    requires cfg.mode == Single(DaprSentry) && Served(cfg, cache, w, r, o)
    ensures var token := TokenOf(cfg.sentry.tokenHeader, r);
            !Skips(cfg, r) ==> (o.Next? <==> token != "" && exists claims :: SentryGrants(cfg, cache, w, token, claims))
  {
    assert Selected(cfg)[0] == DaprSentry && |Selected(cfg)| == 1;
  }

  /** From environment to outcome: one request to a server that Start has brought up, with the
      keys it has cached by then. */
  method Serve(s: Started, ghost cfg: Config, r: Request, w: World) returns (o: Outcome)
    requires IsUp(s, cfg) && Truthful(w)
    modifies if s.Guarded? then {s.middleware.sentry} else {}
    ensures IsUp(s, cfg)
    ensures s.Open? ==> o == Next(None)
    ensures s.Guarded? ==> Served(cfg, old(s.middleware.Cached()), w, r, o)
  {
    if s.Open? {
      return Next(None);
    }
    ghost var cache := s.middleware.Cached();
    var outcome, called := s.middleware.Handler(r, w);
    o := outcome;
    ValidatedIsUsable(cfg);
    GuardSaysEach(s.middleware, cfg, cache, w, TokenOf(cfg.sentry.tokenHeader, r));
    DecidedIsServed(cfg, cache, w, s.middleware.policy, s.middleware.Says(cache, w, TokenOf(cfg.sentry.tokenHeader, r)), r, outcome, called);
  }
}
