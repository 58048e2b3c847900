/** pkg/auth/config.go and the authentication part of cmd/dapr-mcp-server/main.go: from the
    environment to the authenticators that guard the server. */
module AuthConfig {
  import opened Text
  import opened Sentry
  import opened Gate

  datatype Mode = Disabled | Single(m: Method) | Hybrid | Unknown(text: string)

  datatype OIDCConfig = OIDCConfig(
    enabled: bool, issuerURL: string, clientID: string, algorithms: seq<string>, skipIssuerCheck: bool)

  datatype SPIFFEConfig = SPIFFEConfig(
    enabled: bool, trustDomain: string, serverID: string, endpointSocket: string, allowedClients: seq<string>)

  datatype SentryConfig = SentryConfig(
    enabled: bool, jwksURL: string, trustDomain: string, audience: string, tokenHeader: string, refreshInterval: int)

  datatype Config = Config(
    enabled: bool, mode: Mode, skipPaths: seq<string>, oidc: OIDCConfig, spiffe: SPIFFEConfig, sentry: SentryConfig)

  const FIVE_MINUTES: int := 300_000_000_000

  /** The process environment: an unset variable reads as empty. */
  type Environment = map<string, string>

  function Var(env: Environment, name: string): string {
    if name in env then env[name] else ""
  }

  function Flag(env: Environment, name: string): bool {
    Var(env, name) == "true"
  }

  function ModeOf(text: string): Mode {
    var m := Lower(text);
    if m == "" || m == "disabled" then Disabled
    else if m == "oidc" then Single(OIDC)
    else if m == "spiffe" then Single(SPIFFE)
    else if m == "dapr-sentry" then Single(DaprSentry)
    else if m == "hybrid" then Hybrid
    else Unknown(m)
  }

  ghost function ListFrom(value: string, fallback: seq<string>): seq<string> {
    if value == "" then fallback else SplitTrimmed(value, ',')
  }

  method ListOr(value: string, fallback: seq<string>) returns (r: seq<string>)
    ensures r == ListFrom(value, fallback)
  {
    r := fallback;
    if value != "" {
      r := SplitTrim(value, ',');
    }
  }

  // ----- reading the environment; a single mode switches its own section on by itself, and in
  // ----- every other mode the sections follow their own flags

  ghost predicate IsOIDC(env: Environment, mode: Mode, c: OIDCConfig) {
    && (c.enabled <==> mode == Single(OIDC) || Flag(env, "OIDC_ENABLED"))
    && c.issuerURL == Var(env, "OIDC_ISSUER_URL") && c.clientID == Var(env, "OIDC_CLIENT_ID")
    && c.algorithms == ListFrom(Var(env, "OIDC_ALLOWED_ALGORITHMS"), ["RS256", "ES256"])
    && c.skipIssuerCheck == Flag(env, "OIDC_SKIP_ISSUER_CHECK")
  }

  ghost predicate IsSPIFFE(env: Environment, mode: Mode, c: SPIFFEConfig) {
    && (c.enabled <==> mode == Single(SPIFFE) || Flag(env, "SPIFFE_ENABLED"))
    && c.trustDomain == Var(env, "SPIFFE_TRUST_DOMAIN") && c.serverID == Var(env, "SPIFFE_SERVER_ID")
    && c.endpointSocket == Var(env, "SPIFFE_ENDPOINT_SOCKET")
    && c.allowedClients == ListFrom(Var(env, "SPIFFE_ALLOWED_CLIENTS"), [])
  }

  ghost predicate IsSentry(env: Environment, parseDuration: string -> Option<int>, mode: Mode, c: SentryConfig) {
    var header, interval := Var(env, "DAPR_SENTRY_TOKEN_HEADER"), Var(env, "DAPR_SENTRY_JWKS_REFRESH_INTERVAL");
    && (c.enabled <==> mode == Single(DaprSentry) || Flag(env, "DAPR_SENTRY_ENABLED"))
    && c.jwksURL == Var(env, "DAPR_SENTRY_JWKS_URL") && c.trustDomain == Var(env, "DAPR_SENTRY_TRUST_DOMAIN")
    && c.audience == Var(env, "DAPR_SENTRY_AUDIENCE")
    && c.tokenHeader == (if header == "" then AUTHORIZATION else header)
    && c.refreshInterval ==
       (if interval != "" && parseDuration(interval).Some? then parseDuration(interval).value else 5 * 60 * 1_000_000_000)
  }

  /** The mode that a lower-cased AUTH_MODE stands for. */
  ghost predicate IsMode(text: string, mode: Mode) {
    match mode
    case Disabled => text == "" || text == "disabled"
    case Single(OIDC) => text == "oidc"
    case Single(SPIFFE) => text == "spiffe"
    case Single(DaprSentry) => text == "dapr-sentry"
    case Hybrid => text == "hybrid"
    case Unknown(t) => t == text && text !in {"", "disabled", "oidc", "spiffe", "dapr-sentry", "hybrid"}
  }

  ghost predicate FromEnvironment(env: Environment, parseDuration: string -> Option<int>, cfg: Config) {
    && cfg.enabled == Flag(env, "AUTH_ENABLED")
    && IsMode(Lower(Var(env, "AUTH_MODE")), cfg.mode)
    && cfg.skipPaths == ListFrom(Var(env, "AUTH_SKIP_PATHS"), ["/livez", "/readyz", "/startupz"])
    && IsOIDC(env, cfg.mode, cfg.oidc)
    && IsSPIFFE(env, cfg.mode, cfg.spiffe)
    && IsSentry(env, parseDuration, cfg.mode, cfg.sentry)
  }

  method DefaultOIDC(env: Environment) returns (c: OIDCConfig)
    ensures IsOIDC(env, Disabled, c)
  {
    var algorithms := ListOr(Var(env, "OIDC_ALLOWED_ALGORITHMS"), ["RS256", "ES256"]);
    return OIDCConfig(Flag(env, "OIDC_ENABLED"), Var(env, "OIDC_ISSUER_URL"), Var(env, "OIDC_CLIENT_ID"),
                      algorithms, Flag(env, "OIDC_SKIP_ISSUER_CHECK"));
  }

  method DefaultSPIFFE(env: Environment) returns (c: SPIFFEConfig)
    ensures IsSPIFFE(env, Disabled, c)
  {
    var allowed := ListOr(Var(env, "SPIFFE_ALLOWED_CLIENTS"), []);
    return SPIFFEConfig(Flag(env, "SPIFFE_ENABLED"), Var(env, "SPIFFE_TRUST_DOMAIN"), Var(env, "SPIFFE_SERVER_ID"),
                        Var(env, "SPIFFE_ENDPOINT_SOCKET"), allowed);
  }

  /** Durations are in nanoseconds; parseDuration is Go's time.ParseDuration. */
  method DefaultSentry(env: Environment, parseDuration: string -> Option<int>) returns (c: SentryConfig)
    ensures IsSentry(env, parseDuration, Disabled, c)
  {
    var interval := FIVE_MINUTES;
    var text := Var(env, "DAPR_SENTRY_JWKS_REFRESH_INTERVAL");
    if text != "" {
      var parsed := parseDuration(text);
      if parsed.Some? {
        interval := parsed.value;
      }
    }
    var header := Var(env, "DAPR_SENTRY_TOKEN_HEADER");
    if header == "" {
      header := AUTHORIZATION;
    }
    return SentryConfig(Flag(env, "DAPR_SENTRY_ENABLED"), Var(env, "DAPR_SENTRY_JWKS_URL"),
                        Var(env, "DAPR_SENTRY_TRUST_DOMAIN"), Var(env, "DAPR_SENTRY_AUDIENCE"), header, interval);
  }

  method DefaultConfig(env: Environment, parseDuration: string -> Option<int>) returns (cfg: Config)
    ensures FromEnvironment(env, parseDuration, cfg)
  {
    var mode := ModeOf(Var(env, "AUTH_MODE"));
    var skipPaths := ListOr(Var(env, "AUTH_SKIP_PATHS"), ["/livez", "/readyz", "/startupz"]);
    var oidc := DefaultOIDC(env);
    var spiffe := DefaultSPIFFE(env);
    var sentry := DefaultSentry(env, parseDuration);
    match mode {
      case Single(OIDC) => oidc := oidc.(enabled := true);
      case Single(SPIFFE) => spiffe := spiffe.(enabled := true);
      case Single(DaprSentry) => sentry := sentry.(enabled := true);
      case _ =>
    }
    return Config(Flag(env, "AUTH_ENABLED"), mode, skipPaths, oidc, spiffe, sentry);
  }

  predicate SectionOn(cfg: Config, m: Method) {
    match m
    case OIDC => cfg.oidc.enabled
    case SPIFFE => cfg.spiffe.enabled
    case DaprSentry => cfg.sentry.enabled
  }

  // ----- validation -----

  datatype ConfigError = Unsupported | Missing(name: string)

  type Check = Option<ConfigError>

  function ValidateOIDC(c: OIDCConfig): Check {
    if !c.enabled then None
    else if c.issuerURL == "" then Some(Missing("OIDC_ISSUER_URL"))
    else if c.clientID == "" then Some(Missing("OIDC_CLIENT_ID"))
    else None
  }

  function ValidateSPIFFE(c: SPIFFEConfig): Check {
    if !c.enabled then None
    else if c.trustDomain == "" then Some(Missing("SPIFFE_TRUST_DOMAIN"))
    else if c.serverID == "" then Some(Missing("SPIFFE_SERVER_ID"))
    else None
  }

  function ValidateSentry(c: SentryConfig): Check {
    if !c.enabled then None
    else if c.jwksURL == "" then Some(Missing("DAPR_SENTRY_JWKS_URL"))
    else if c.trustDomain == "" then Some(Missing("DAPR_SENTRY_TRUST_DOMAIN"))
    else None
  }

  function ValidateSection(cfg: Config, m: Method): Check {
    match m
    case OIDC => ValidateOIDC(cfg.oidc)
    case SPIFFE => ValidateSPIFFE(cfg.spiffe)
    case DaprSentry => ValidateSentry(cfg.sentry)
  }

  /** Config.Validate: None is success. */
  function Validate(cfg: Config): Check {
    if !cfg.enabled then None
    else
      match cfg.mode
      case Single(m) => if !SectionOn(cfg, m) then Some(Unsupported) else ValidateSection(cfg, m)
      case Hybrid =>
        if !cfg.oidc.enabled && !cfg.spiffe.enabled && !cfg.sentry.enabled then Some(Unsupported)
        else if cfg.oidc.enabled && ValidateOIDC(cfg.oidc).Some? then ValidateOIDC(cfg.oidc)
        else if cfg.spiffe.enabled && ValidateSPIFFE(cfg.spiffe).Some? then ValidateSPIFFE(cfg.spiffe)
        else if cfg.sentry.enabled && ValidateSentry(cfg.sentry).Some? then ValidateSentry(cfg.sentry)
        else None
      case Disabled => None
      case Unknown(_) => Some(Unsupported)
  }

  /** The methods the mode stands for: the named one, or in hybrid those switched on, in the
      order OIDC, SPIFFE, Dapr Sentry. */
  ghost function Selected(cfg: Config): seq<Method> {
    match cfg.mode
    case Single(m) => [m]
    case Hybrid =>
      (if cfg.oidc.enabled then [OIDC] else []) + (if cfg.spiffe.enabled then [SPIFFE] else [])
      + (if cfg.sentry.enabled then [DaprSentry] else [])
    case _ => []
  }

  /** The settings a method cannot do without, by variable, in the order they are checked. */
  ghost function Required(cfg: Config, m: Method): seq<(string, string)> {
    match m
    case OIDC => [("OIDC_ISSUER_URL", cfg.oidc.issuerURL), ("OIDC_CLIENT_ID", cfg.oidc.clientID)]
    case SPIFFE => [("SPIFFE_TRUST_DOMAIN", cfg.spiffe.trustDomain), ("SPIFFE_SERVER_ID", cfg.spiffe.serverID)]
    case DaprSentry => [("DAPR_SENTRY_JWKS_URL", cfg.sentry.jwksURL), ("DAPR_SENTRY_TRUST_DOMAIN", cfg.sentry.trustDomain)]
  }

  ghost predicate Complete(cfg: Config, m: Method) {
    forall j | 0 <= j < |Required(cfg, m)| :: Required(cfg, m)[j].1 != ""
  }

  /** Setting j of selected method i is empty, and nothing before it is. */
  ghost predicate FirstEmpty(cfg: Config, i: nat, j: nat, name: string) {
    && i < |Selected(cfg)|
    && j < |Required(cfg, Selected(cfg)[i])|
    && Required(cfg, Selected(cfg)[i])[j] == (name, "")
    && (forall k | 0 <= k < j :: Required(cfg, Selected(cfg)[i])[k].1 != "")
    && forall k | 0 <= k < i :: Complete(cfg, Selected(cfg)[k])
  }

  lemma SectionNamesFirst(cfg: Config, m: Method)
    requires SectionOn(cfg, m)
    ensures ValidateSection(cfg, m).None? <==> Complete(cfg, m)
    ensures ValidateSection(cfg, m).Some? ==>
              && ValidateSection(cfg, m).value.Missing?
              && exists j | 0 <= j < |Required(cfg, m)| ::
                   && Required(cfg, m)[j] == (ValidateSection(cfg, m).value.name, "")
                   && forall k | 0 <= k < j :: Required(cfg, m)[k].1 != ""
  {
    var r := Required(cfg, m);
    assert |r| == 2;
    assert r[0].1 == "" || r[1].1 == "" || Complete(cfg, m);
  }

  lemma NamedAt(cfg: Config, i: nat, name: string)
    requires i < |Selected(cfg)| && SectionOn(cfg, Selected(cfg)[i])
    requires ValidateSection(cfg, Selected(cfg)[i]) == Some(Missing(name))
    requires forall k | 0 <= k < i :: Complete(cfg, Selected(cfg)[k])
    ensures exists i: nat, j: nat :: FirstEmpty(cfg, i, j, name)
  {
    var m := Selected(cfg)[i];
    SectionNamesFirst(cfg, m);
    var j: nat :| j < |Required(cfg, m)| && Required(cfg, m)[j] == (name, "")
                  && forall k | 0 <= k < j :: Required(cfg, m)[k].1 != "";
    assert FirstEmpty(cfg, i, j, name);
  }

  /** A missing-setting error names the first empty setting of the first incomplete method. */
  lemma ValidateNamesFirst(cfg: Config, name: string)
    requires Validate(cfg) == Some(Missing(name))
    ensures exists i: nat, j: nat :: FirstEmpty(cfg, i, j, name)
  {
    var ms := Selected(cfg);
    var i: nat := 0;
    if cfg.mode.Hybrid? && cfg.oidc.enabled && ValidateOIDC(cfg.oidc).None? {
      assert ms[0] == OIDC;
      SectionNamesFirst(cfg, OIDC);
      i := 1;
    }
    if cfg.mode.Hybrid? && !(cfg.oidc.enabled && i == 0) && cfg.spiffe.enabled && ValidateSPIFFE(cfg.spiffe).None? {
      assert ms[i] == SPIFFE;
      SectionNamesFirst(cfg, SPIFFE);
      i := i + 1;
    }
    NamedAt(cfg, i, name);
  }

  lemma HybridSelection(cfg: Config)
    requires cfg.mode.Hybrid?
    ensures forall m :: m in Selected(cfg) <==> SectionOn(cfg, m)
    ensures Distinct(Selected(cfg))
  {
    forall m ensures m in Selected(cfg) <==> SectionOn(cfg, m) {
      match m
      case OIDC =>
      case SPIFFE =>
      case DaprSentry =>
    }
  }

  /** Validation succeeds iff nothing is required, or at least one method is selected and every
      selected method is switched on and complete. */
  lemma ValidateExact(cfg: Config)
    ensures Validate(cfg).None? <==>
              || !cfg.enabled || cfg.mode.Disabled?
              || (Selected(cfg) != [] && forall m | m in Selected(cfg) :: SectionOn(cfg, m) && Complete(cfg, m))
  {
    if cfg.oidc.enabled { SectionNamesFirst(cfg, OIDC); }
    if cfg.spiffe.enabled { SectionNamesFirst(cfg, SPIFFE); }
    if cfg.sentry.enabled { SectionNamesFirst(cfg, DaprSentry); }
    match cfg.mode
    case Hybrid =>
      HybridSelection(cfg);
      assert cfg.oidc.enabled ==> OIDC in Selected(cfg);
      assert cfg.spiffe.enabled ==> SPIFFE in Selected(cfg);
      assert cfg.sentry.enabled ==> DaprSentry in Selected(cfg);
      assert Selected(cfg) != [] ==> Selected(cfg)[0] in Selected(cfg);
    case Single(m) =>
      assert m in Selected(cfg);
    case _ =>
  }

  /** Naming a single method in AUTH_MODE is enough to switch it on: with a configuration read
      from the environment, only an unknown mode or an empty hybrid is unsupported. */
  lemma UnsupportedIff(env: Environment, parseDuration: string -> Option<int>, cfg: Config)
    requires FromEnvironment(env, parseDuration, cfg)
    ensures Validate(cfg) == Some(Unsupported) <==>
              cfg.enabled && (cfg.mode.Unknown? ||
                (cfg.mode.Hybrid? && !Flag(env, "OIDC_ENABLED") && !Flag(env, "SPIFFE_ENABLED") && !Flag(env, "DAPR_SENTRY_ENABLED")))
  {
    match cfg.mode
    case Single(OIDC) => assert SectionOn(cfg, OIDC);
    case Single(SPIFFE) => assert SectionOn(cfg, SPIFFE);
    case Single(DaprSentry) => assert SectionOn(cfg, DaprSentry);
    case _ =>
  }

  /** The setting that a missing-setting error names is indeed unset in the environment. */
  lemma MissingIsUnset(env: Environment, parseDuration: string -> Option<int>, cfg: Config, name: string)
    requires FromEnvironment(env, parseDuration, cfg) && Validate(cfg) == Some(Missing(name))
    ensures Var(env, name) == ""
  {
    ValidateNamesFirst(cfg, name);
  }

  /** The method's section is on and has the settings the method cannot do without. */
  ghost predicate Usable(cfg: Config, m: Method) {
    match m
    case OIDC => cfg.oidc.enabled && cfg.oidc.issuerURL != "" && cfg.oidc.clientID != ""
    case SPIFFE => cfg.spiffe.enabled && cfg.spiffe.trustDomain != "" && cfg.spiffe.serverID != ""
    case DaprSentry => cfg.sentry.enabled && cfg.sentry.jwksURL != "" && cfg.sentry.trustDomain != ""
  }

  ghost predicate ComesBefore(a: Method, b: Method) {
    (a == OIDC && b != OIDC) || (a == SPIFFE && b == DaprSentry)
  }

  /** A validated, active configuration selects at least one method: the one the mode names, or in
      hybrid mode those that are on, OIDC before SPIFFE before Dapr Sentry; each can be used. */
  lemma ValidatedIsUsable(cfg: Config)
    requires Validate(cfg).None? && cfg.enabled && !cfg.mode.Disabled?
    ensures Selected(cfg) != [] && Distinct(Selected(cfg))
    ensures forall i, j | 0 <= i < j < |Selected(cfg)| :: ComesBefore(Selected(cfg)[i], Selected(cfg)[j])
    ensures forall m :: m in Selected(cfg) <==> cfg.mode == Single(m) || (cfg.mode.Hybrid? && Usable(cfg, m))
    ensures forall m | m in Selected(cfg) :: SectionOn(cfg, m) && Complete(cfg, m) && Usable(cfg, m)
  {
    ValidateExact(cfg);
    if cfg.mode.Hybrid? {
      HybridSelection(cfg);
    }
    forall m | m in Selected(cfg) ensures Usable(cfg, m) {
      assert SectionOn(cfg, m) && Complete(cfg, m);
      assert Required(cfg, m)[0].1 != "" && Required(cfg, m)[1].1 != "";
    }
    forall m ensures Usable(cfg, m) ==> SectionOn(cfg, m) {
      match m
      case OIDC =>
      case SPIFFE =>
      case DaprSentry =>
    }
  }
}
