/** pkg/auth/sentry.go: the cached key set of the Dapr Sentry authenticator, as one call sees it
    when nothing interrupts it. */
module SigningKeys {
  import opened Text

  datatype Jwk = Jwk(kid: string, key: nat)

  type KeySet = seq<Jwk>

  /** An HTTP fetch of the key set: every way it can fail, or the decoded answer. */
  datatype Fetch = FetchFailed | Fetched(keys: KeySet)

  predicate Fits(k: Jwk, kid: string) {
    kid == "" || k.kid == kid
  }

  /** All keys with the id, or all keys when no id is given, in set order. */
  function Matching(keys: KeySet, kid: string): seq<Jwk> {
    if keys == [] then []
    else (if Fits(keys[0], kid) then [keys[0]] else []) + Matching(keys[1..], kid)
  }

  /** The set has a key with the id, or any key at all when no id is given. */
  ghost predicate Holds(keys: KeySet, kid: string) {
    if kid == "" then keys != [] else exists i | 0 <= i < |keys| :: keys[i].kid == kid
  }

  /** k is the first key of the set with the id, or the first of all when no id is given. */
  ghost predicate FirstFit(keys: KeySet, kid: string, k: Jwk) {
    if kid == "" then keys != [] && k == keys[0]
    else k.kid == kid && exists i | 0 <= i < |keys| :: keys[i] == k && forall j | 0 <= j < i :: keys[j].kid != kid
  }

  lemma {:induction false} MatchingFirst(keys: KeySet, kid: string)
    ensures Matching(keys, kid) != [] <==> Holds(keys, kid)
    ensures Matching(keys, kid) != [] ==> FirstFit(keys, kid, Matching(keys, kid)[0])
  {
    if keys == [] {
    } else if Fits(keys[0], kid) {
    } else {
      MatchingFirst(keys[1..], kid);
      if i :| 0 <= i < |keys| && keys[i].kid == kid {
        assert keys[1..][i - 1] == keys[i];
      }
      if Matching(keys[1..], kid) != [] {
        var k := Matching(keys[1..], kid)[0];
        var i :| 0 <= i < |keys[1..]| && keys[1..][i] == k && forall j | 0 <= j < i :: keys[1..][j].kid != kid;
        assert keys[i + 1] == k;
        forall j | 0 <= j < i + 1 ensures keys[j].kid != kid {
          if j > 0 {
            assert keys[j] == keys[1..][j - 1];
          }
        }
      }
    }
  }

  lemma FirstFitUnique(keys: KeySet, kid: string, a: Jwk, b: Jwk)
    requires FirstFit(keys, kid, a) && FirstFit(keys, kid, b)
    ensures a == b
  {
    if kid != "" {
      var i :| 0 <= i < |keys| && keys[i] == a && forall j | 0 <= j < i :: keys[j].kid != kid;
      var k :| 0 <= k < |keys| && keys[k] == b && forall j | 0 <= j < k :: keys[j].kid != kid;
      assert i == k;
    }
  }

  /** The mutex-guarded pair; None is the nil set before the first refresh. */
  datatype Cache = Cache(jwks: Option<KeySet>, lastRefresh: int)

  /** What the environment does during one lookup: the clock at the staleness check, and each
      possible fetch with the clock reading at its publication. */
  datatype Env = Env(now: int, first: Fetch, firstAt: int, second: Fetch, secondAt: int)

  datatype Lookup = Lookup(key: Option<Jwk>, cache: Cache, fetches: nat)

  function Refreshed(cache: Cache, fetch: Fetch, at: int): Cache {
    match fetch
    case FetchFailed => cache
    case Fetched(keys) => Cache(Some(keys), at)
  }

  predicate Stale(cache: Cache, interval: int, now: int) {
    now - cache.lastRefresh > interval
  }

  /** getSigningKey as a function: refresh a stale cache, look, and refetch once for a missing key. */
  function LookupOf(cache: Cache, interval: int, kid: string, env: Env): Lookup {
    var stale := Stale(cache, interval, env.now);
    var c1 := if stale then Refreshed(cache, env.first, env.firstAt) else cache;
    var n1 := if stale then 1 else 0;
    if c1.jwks.None? then Lookup(None, c1, n1)
    else
      var m := Matching(c1.jwks.value, kid);
      if m != [] then Lookup(Some(m[0]), c1, n1)
      else if env.second.FetchFailed? then Lookup(None, c1, n1 + 1)
      else
        var m2 := Matching(env.second.keys, kid);
        Lookup(if m2 == [] then None else Some(m2[0]), Refreshed(c1, env.second, env.secondAt), n1 + 1)
  }

  /** The set an uninterrupted lookup searches first: the cached one, unless that is older than the
      interval and can be refreshed. */
  ghost function Searched(cache: Cache, interval: int, env: Env): KeySet
    requires cache.jwks.Some?
  {
    if env.now - cache.lastRefresh <= interval || env.first.FetchFailed? then cache.jwks.value else env.first.keys
  }

  /** The cached pair an uninterrupted lookup leaves: each successful fetch replaces it whole. */
  ghost predicate Leaves(cache: Cache, interval: int, kid: string, env: Env, after: Cache)
    requires cache.jwks.Some?
  {
    if !Holds(Searched(cache, interval, env), kid) && env.second.Fetched? then
      after.jwks == Some(env.second.keys) && after.lastRefresh == env.secondAt
    else if env.now - cache.lastRefresh > interval && env.first.Fetched? then
      after.jwks == Some(env.first.keys) && after.lastRefresh == env.firstAt
    else after == cache
  }

  /** Provenance and rotation of an uninterrupted lookup on an initialised cache. */
  lemma LookupExact(cache: Cache, interval: int, kid: string, env: Env)
    requires cache.jwks.Some?
    ensures var r, searched := LookupOf(cache, interval, kid, env), Searched(cache, interval, env);
            && (r.key.Some? <==> Holds(searched, kid) || (env.second.Fetched? && Holds(env.second.keys, kid)))
            && (Holds(searched, kid) ==> r.key.Some? && FirstFit(searched, kid, r.key.value))
            && (!Holds(searched, kid) && r.key.Some? ==> FirstFit(env.second.keys, kid, r.key.value))
            && r.fetches == (if env.now - cache.lastRefresh <= interval then 0 else 1) + (if Holds(searched, kid) then 0 else 1)
            && r.cache.jwks.Some? && Leaves(cache, interval, kid, env, r.cache)
  {
    MatchingFirst(cache.jwks.value, kid);
    if env.first.Fetched? {
      MatchingFirst(env.first.keys, kid);
    }
    if env.second.Fetched? {
      MatchingFirst(env.second.keys, kid);
    }
  }
}
