/** pkg/auth/sentry.go: the Dapr Sentry authenticator and which tokens it accepts. */
module Sentry {
  import opened Text
  import opened SigningKeys

  datatype Claims = Claims(
    subject: string, audience: seq<string>, expiry: Option<int>, notBefore: Option<int>, issuedAt: Option<int>,
    id: string, use: string)

  /** A token that parses: its headers' key ids, and what verifying it with a key gives. */
  datatype Token = Token(headers: seq<string>, verify: Jwk -> Option<Claims>)

  datatype Method = OIDC | SPIFFE | DaprSentry

  datatype ClaimValue = TextClaim(text: string) | TimeClaim(at: int)

  datatype Identity = Identity(subject: string, audience: seq<string>, authMethod: Method, claims: map<string, ClaimValue>)

  datatype AuthError = InvalidToken | TokenExpired | InvalidAudience

  const SCHEME := "spiffe://"

  // ----- subjects and audiences -----

  /** The text before the first '/': strings.SplitN(s, "/", 2)[0] */
  function FirstSegment(s: string): string {
    if s == "" || s[0] == '/' then "" else [s[0]] + FirstSegment(s[1..])
  }

  /** isValidSPIFFEID */
  function IsValidSPIFFEID(subject: string, trustDomain: string): bool {
    SCHEME <= subject && FirstSegment(subject[|SCHEME|..]) == trustDomain
  }

  /** The trust domain itself or a path under it, for a trust domain that is one segment. */
  ghost predicate InTrustDomain(subject: string, trustDomain: string) {
    '/' !in trustDomain && (subject == SCHEME + trustDomain || SCHEME + trustDomain + "/" <= subject)
  }

  lemma {:induction false} FirstSegmentIs(s: string, segment: string)
    ensures FirstSegment(s) == segment <==> '/' !in segment && (s == segment || segment + "/" <= s)
  {
    if s == "" || s[0] == '/' {
      if segment == "" {
        assert s != "" ==> s[0] == (segment + "/")[0];
      } else {
        assert segment[0] in segment;
        assert segment + "/" <= s ==> s[0] == (segment + "/")[0] == segment[0];
      }
    } else if segment == "" {
      assert segment + "/" == "/";
    } else {
      FirstSegmentIs(s[1..], segment[1..]);
      var longer := segment + "/";
      assert segment == [segment[0]] + segment[1..];
      assert s == [s[0]] + s[1..];
      assert longer[1..] == segment[1..] + "/" && longer[0] == segment[0];
      assert longer <= s <==> longer[0] == s[0] && longer[1..] <= s[1..];
    }
  }

  lemma PrefixUnder(a: string, s: string, p: string)
    ensures a + p <= a + s <==> p <= s
  {
    assert forall i | 0 <= i < |p| :: (a + p)[|a| + i] == p[i];
    assert forall i | 0 <= i < |s| :: (a + s)[|a| + i] == s[i];
  }

  /** SPIFFE-ID specification, section 2: exactly the ids of the one trust domain are accepted,
      and a trust domain containing '/' accepts nothing. */
  lemma SPIFFEIDExact(subject: string, trustDomain: string)
    ensures IsValidSPIFFEID(subject, trustDomain) <==> InTrustDomain(subject, trustDomain)
  {
    if SCHEME <= subject {
      var rest := subject[|SCHEME|..];
      assert subject == SCHEME + rest;
      FirstSegmentIs(rest, trustDomain);
      PrefixUnder(SCHEME, rest, trustDomain + "/");
      assert SCHEME + trustDomain + "/" == SCHEME + (trustDomain + "/");
      assert subject == SCHEME + trustDomain <==> rest == trustDomain;
    } else {
      assert SCHEME <= SCHEME + trustDomain <= SCHEME + trustDomain + "/";
    }
  }

  /** containsAudience */
  method ContainsAudience(audiences: seq<string>, expected: string) returns (found: bool)
    ensures found <==> expected in audiences
  {
    for i := 0 to |audiences|
      invariant expected !in audiences[..i]
    {
      if audiences[i] == expected {
        return true;
      }
    }
    return false;
  }

  // ----- acceptance -----

  datatype Settings = Settings(trustDomain: string, audience: string, interval: int)

  /** The time claims are met, both bounds included (RFC 7519, sections 4.1.4 and 4.1.5). */
  ghost predicate InTime(claims: Claims, now: int) {
    && (claims.expiry.Some? ==> now <= claims.expiry.value)
    && (claims.notBefore.Some? ==> claims.notBefore.value <= now)
  }

  ghost predicate ForAudience(claims: Claims, audience: string) {
    audience != "" ==> audience in claims.audience
  }

  /** The claims that a verified token must meet. */
  ghost predicate Acceptable(settings: Settings, claims: Claims, now: int) {
    InTime(claims, now) && ForAudience(claims, settings.audience) && InTrustDomain(claims.subject, settings.trustDomain)
  }

  /** The claims of a token whose signing key is found and whose signature holds. */
  ghost function Verified(token: Option<Token>, cache: Cache, settings: Settings, env: Env): Option<Claims> {
    if token.None? || token.value.headers == [] then None else
      var key := LookupOf(cache, settings.interval, token.value.headers[0], env).key;
      if key.None? then None else token.value.verify(key.value)
  }

  /** Which of the token's own claims the identity carries on, and as what. */
  ghost function KeptClaims(claims: Claims): map<string, ClaimValue> {
    (if claims.id != "" then map["jti" := TextClaim(claims.id)] else map[])
    + (if claims.use != "" then map["use" := TextClaim(claims.use)] else map[])
    + (if claims.issuedAt.Some? then map["iat" := TimeClaim(claims.issuedAt.value)] else map[])
    + (if claims.expiry.Some? then map["exp" := TimeClaim(claims.expiry.value)] else map[])
  }

  /** The identity that goes with accepted claims. */
  ghost function IdentityOf(claims: Claims): Identity {
    Identity(claims.subject, claims.audience, DaprSentry, KeptClaims(claims))
  }

  /** The key an undisturbed lookup finds: the first fit of the set it searches first, or, where
      that has none, of the set it then fetches. */
  ghost predicate FoundKey(cache: Cache, interval: int, kid: string, env: Env, key: Jwk)
    requires cache.jwks.Some?
  {
    var searched := Searched(cache, interval, env);
    || FirstFit(searched, kid, key)
    || (!Holds(searched, kid) && env.second.Fetched? && FirstFit(env.second.keys, kid, key))
  }

  /** The token has a header, the key found for its first header's key id verifies it and yields
      these claims, and they are in time (both bounds included; RFC 7519, sections 4.1.4 and
      4.1.5), for the audience if one is asked for, and about the trust domain itself or a path
      under it (SPIFFE-ID specification, section 2). */
  ghost predicate Grants(cache: Cache, interval: int, trustDomain: string, audience: string,
                         token: Option<Token>, env: Env, now: int, claims: Claims)
    requires cache.jwks.Some?
  {
    && token.Some? && |token.value.headers| > 0
    && (exists key :: FoundKey(cache, interval, token.value.headers[0], env, key) && token.value.verify(key) == Some(claims))
    && (claims.expiry.Some? ==> now <= claims.expiry.value)
    && (claims.notBefore.Some? ==> claims.notBefore.value <= now)
    && (audience == "" || audience in claims.audience)
    && '/' !in trustDomain
    && (claims.subject == "spiffe://" + trustDomain || "spiffe://" + trustDomain + "/" <= claims.subject)
  }

  lemma LookupFinds(cache: Cache, interval: int, kid: string, env: Env, key: Jwk)
    requires cache.jwks.Some?
    ensures LookupOf(cache, interval, kid, env).key == Some(key) <==> FoundKey(cache, interval, kid, env, key)
  {
    LookupExact(cache, interval, kid, env);
    var searched, found := Searched(cache, interval, env), LookupOf(cache, interval, kid, env).key;
    if FirstFit(searched, kid, key) {
      FirstFitUnique(searched, kid, key, found.value);
    } else if FoundKey(cache, interval, kid, env, key) {
      FirstFitUnique(env.second.keys, kid, key, found.value);
    }
  }

  /** What verification and the claim checks come to, in terms of the keys and the claims. */
  lemma GrantsExact(settings: Settings, cache: Cache, token: Option<Token>, env: Env, now: int, claims: Claims)
    requires cache.jwks.Some?
    ensures Grants(cache, settings.interval, settings.trustDomain, settings.audience, token, env, now, claims) <==>
            Verified(token, cache, settings, env) == Some(claims) && Acceptable(settings, claims, now)
  {
    if token.Some? && |token.value.headers| > 0 {
      var kid := token.value.headers[0];
      forall key ensures LookupOf(cache, settings.interval, kid, env).key == Some(key) <==> FoundKey(cache, settings.interval, kid, env, key) {
        LookupFinds(cache, settings.interval, kid, env, key);
      }
    }
  }

  /** The identity has the token's subject and audience, and of its other claims the id, the use, the
      issue time and the expiry, each only if the token has it. */
  ghost predicate Carries(id: Identity, claims: Claims) {
    && id.subject == claims.subject && id.audience == claims.audience && id.authMethod == DaprSentry
    && id.claims.Keys <= {"jti", "use", "iat", "exp"}
    && (if claims.id == "" then "jti" !in id.claims else "jti" in id.claims && id.claims["jti"] == TextClaim(claims.id))
    && (if claims.use == "" then "use" !in id.claims else "use" in id.claims && id.claims["use"] == TextClaim(claims.use))
    && (match claims.issuedAt
        case None => "iat" !in id.claims
        case Some(at) => "iat" in id.claims && id.claims["iat"] == TimeClaim(at))
    && (match claims.expiry
        case None => "exp" !in id.claims
        case Some(at) => "exp" in id.claims && id.claims["exp"] == TimeClaim(at))
  }

  lemma IdentityCarries(claims: Claims)
    ensures Carries(IdentityOf(claims), claims)
  {
    assert "jti" != "use" && "jti" != "iat" && "jti" != "exp" && "use" != "iat" && "use" != "exp" && "iat" != "exp";
  }

  lemma GrantedIdentity(settings: Settings, cache: Cache, token: Option<Token>, env: Env, now: int)
    ensures var verified := Verified(token, cache, settings, env);
            cache.jwks.Some? ==>
              forall claims :: Grants(cache, settings.interval, settings.trustDomain, settings.audience, token, env, now, claims) <==>
                               verified == Some(claims) && Acceptable(settings, claims, now) && Carries(IdentityOf(claims), claims)
  {
    if cache.jwks.Some? {
      forall claims
        ensures Grants(cache, settings.interval, settings.trustDomain, settings.audience, token, env, now, claims) <==>
                Verified(token, cache, settings, env) == Some(claims) && Acceptable(settings, claims, now) && Carries(IdentityOf(claims), claims)
      {
        GrantsExact(settings, cache, token, env, now, claims);
        IdentityCarries(claims);
      }
    }
  }

  class DaprSentryAuthenticator {
    const settings: Settings
    var jwks: Option<KeySet>
    var lastRefresh: int

    ghost function Cached(): Cache
      reads this
    {
      Cache(jwks, lastRefresh)
    }

    /** After construction the set is never nil. */
    ghost predicate Valid()
      reads this
    {
      jwks.Some?
    }

    /** The state a failed constructor discards: no set and no refresh yet. */
    constructor (settings: Settings)
      ensures this.settings == settings && Cached() == Cache(None, 0)
    {
      this.settings := settings;
      jwks := None;
      lastRefresh := 0;
    }

    /** refreshJWKS: a failure changes neither field, a success replaces both. */
    method RefreshJWKS(fetch: Fetch, at: int) returns (ok: bool)
      modifies this
      ensures ok == fetch.Fetched?
      ensures Cached() == Refreshed(old(Cached()), fetch, at)
      ensures if fetch.Fetched? then jwks == Some(fetch.keys) && lastRefresh == at else unchanged(this)
      ensures ok || old(Valid()) ==> Valid()
    {
      match fetch {
        case FetchFailed =>
          return false;
        case Fetched(keys) =>
          jwks, lastRefresh := Some(keys), at;
          return true;
      }
    }

    method GetSigningKey(kid: string, env: Env) returns (key: Option<Jwk>, ghost fetches: nat)
      modifies this
      ensures Lookup(key, Cached(), fetches) == LookupOf(old(Cached()), settings.interval, kid, env)
      ensures old(Valid()) ==> Valid()
    {
      fetches := 0;
      var local := jwks;
      if env.now - lastRefresh > settings.interval {
        var _ := RefreshJWKS(env.first, env.firstAt);
        fetches := 1;
        local := jwks;
      }
      if local.None? {
        return None, fetches;
      }
      var matching := Matching(local.value, kid);
      if matching == [] {
        var ok := RefreshJWKS(env.second, env.secondAt);
        fetches := fetches + 1;
        if !ok {
          return None, fetches;
        }
        local := jwks;
        matching := Matching(local.value, kid);
        if matching == [] {
          return None, fetches;
        }
      }
      return Some(matching[0]), fetches;
    }

    method KeepClaims(claims: Claims) returns (kept: map<string, ClaimValue>)
      ensures kept == KeptClaims(claims)
    {
      kept := map[];
      if claims.id != "" {
        kept := kept["jti" := TextClaim(claims.id)];
      }
      if claims.use != "" {
        kept := kept["use" := TextClaim(claims.use)];
      }
      if claims.issuedAt.Some? {
        kept := kept["iat" := TimeClaim(claims.issuedAt.value)];
      }
      if claims.expiry.Some? {
        kept := kept["exp" := TimeClaim(claims.expiry.value)];
      }
    }

    method CheckClaims(claims: Claims, now: int) returns (r: Result<Identity, AuthError>)
      ensures r.Success? <==> Acceptable(settings, claims, now)
      ensures r.Success? ==> r.value == IdentityOf(claims)
      ensures r == Failure(TokenExpired) <==> claims.expiry.Some? && claims.expiry.value < now
      ensures r == Failure(InvalidAudience) <==> InTime(claims, now) && !ForAudience(claims, settings.audience)
    {
      if claims.expiry.Some? && now > claims.expiry.value {
        return Failure(TokenExpired);
      }
      if claims.notBefore.Some? && now < claims.notBefore.value {
        return Failure(InvalidToken);
      }
      if settings.audience != "" {
        var listed := ContainsAudience(claims.audience, settings.audience);
        if !listed {
          return Failure(InvalidAudience);
        }
      }
      SPIFFEIDExact(claims.subject, settings.trustDomain);
      if claims.subject == "" {
        return Failure(InvalidToken);
      }
      if !IsValidSPIFFEID(claims.subject, settings.trustDomain) {
        return Failure(InvalidToken);
      }
      var kept := KeepClaims(claims);
      return Success(Identity(claims.subject, claims.audience, DaprSentry, kept));
    }

    /** An identity results iff the token parses with a header, its key is found and verifies it,
        and its claims are acceptable; the identity then carries the verified claims. */
    method Authenticate(token: Option<Token>, env: Env, now: int) returns (r: Result<Identity, AuthError>)
      modifies this
      ensures var claims := Verified(token, old(Cached()), settings, env);
              && (r.Success? <==> claims.Some? && Acceptable(settings, claims.value, now))
              && (r.Success? ==> r.value == IdentityOf(claims.value))
              && (r == Failure(TokenExpired) <==> claims.Some? && claims.value.expiry.Some? && claims.value.expiry.value < now)
              && (r == Failure(InvalidAudience) <==> claims.Some? && InTime(claims.value, now) && !ForAudience(claims.value, settings.audience))
      ensures old(Valid()) ==>
                && Valid()
                && (forall claims :: Grants(old(Cached()), settings.interval, settings.trustDomain, settings.audience, token, env, now, claims) ==>
                      r.Success? && Carries(r.value, claims))
                && (r.Success? ==> exists claims ::
                      Grants(old(Cached()), settings.interval, settings.trustDomain, settings.audience, token, env, now, claims))
      ensures Cached() == if token.None? || token.value.headers == [] then old(Cached())
                          else LookupOf(old(Cached()), settings.interval, token.value.headers[0], env).cache
    {
      GrantedIdentity(settings, Cached(), token, env, now);
      if token.None? || |token.value.headers| == 0 {
        return Failure(InvalidToken);
      }
      var key, _ := GetSigningKey(token.value.headers[0], env);
      if key.None? {
        return Failure(InvalidToken);
      }
      var verified := token.value.verify(key.value);
      if verified.None? {
        return Failure(InvalidToken);
      }
      r := CheckClaims(verified.value, now);
    }
  }

  /** NewDaprSentryAuthenticator: an authenticator exists only once a first fetch has succeeded. */
  method NewAuthenticator(settings: Settings, fetch: Fetch, at: int) returns (a: DaprSentryAuthenticator?)
    ensures a != null <==> fetch.Fetched?
    ensures a != null ==> fresh(a) && a.settings == settings && a.Valid() && a.Cached() == Cache(Some(fetch.keys), at)
  {
    var made := new DaprSentryAuthenticator(settings);
    var ok := made.RefreshJWKS(fetch, at);
    a := if ok then made else null;
  }
}
