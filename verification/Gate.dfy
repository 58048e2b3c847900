/** pkg/auth/middleware.go: which requests reach the next handler, and with which identity. */
module Gate {
  import opened Text
  import opened Sentry
  import opened SigningKeys

  // ----- header names -----

  /** Lower case as far as it can yield an ASCII letter: the two non-ASCII code points that
      Go's unicode.ToLower maps into ASCII are written out, the rest stay non-ASCII. */
  function LowerChar(c: char): char {
    if 'A' <= c <= 'Z' then c + ('a' - 'A')
    else if c == '\U{130}' then 'i'
    else if c == '\U{212A}' then 'k'
    else c
  }

  function Lower(s: string): (r: string)
    ensures |r| == |s| && forall i | 0 <= i < |s| :: r[i] == LowerChar(s[i])
  {
    if s == "" then "" else [LowerChar(s[0])] + Lower(s[1..])
  }

  function UpperASCII(c: char): char {
    if 'a' <= c <= 'z' then c - ('a' - 'A') else c
  }

  function LowerASCII(c: char): char {
    if 'A' <= c <= 'Z' then c + ('a' - 'A') else c
  }

  /** The characters of an HTTP token (RFC 9110, section 5.6.2). */
  predicate IsTokenChar(c: char) {
    || 'a' <= c <= 'z' || 'A' <= c <= 'Z' || '0' <= c <= '9'
    || c == '!' || '#' <= c <= '\'' || c == '*' || c == '+' || c == '-' || c == '.'
    || '^' <= c <= '`' || c == '|' || c == '~'
  }

  function Cased(name: string, upper: bool): string {
    if name == "" then ""
    else [if upper then UpperASCII(name[0]) else LowerASCII(name[0])] + Cased(name[1..], name[0] == '-')
  }

  /** http.CanonicalHeaderKey: a capital at the start and after every '-', unless the name is no token. */
  function Canonical(name: string): string {
    if forall c | c in name :: IsTokenChar(c) then Cased(name, true) else name
  }

  /** Written in two parts so that the verifier does not expand Canonical letter by letter. */
  const AUTHORIZATION := "Author" + "ization"

  /** Header fields under their canonical names, as the HTTP server stores them. */
  datatype Request = Request(path: string, headers: map<string, string>) {
    function Get(name: string): string {
      if Canonical(name) in headers then headers[Canonical(name)] else ""
    }
  }

  // ----- token extraction -----

  predicate HasBearer(auth: string) {
    |auth| >= 7 && Lower(auth[..7]) == "bearer "
  }

  function AuthorizationToken(auth: string): string {
    if HasBearer(auth) then
      if |auth| > 7 && auth[7] == ' ' then auth[8..] else auth[7..]
    else auth
  }

  /** extractTokenWithSource: the custom header first, unless it is spelled "Authorization". */
  function TokenOf(tokenHeader: string, r: Request): string {
    if tokenHeader != "" && tokenHeader != AUTHORIZATION && r.Get(tokenHeader) != "" then r.Get(tokenHeader)
    else AuthorizationToken(r.Get(AUTHORIZATION))
  }

  /** The scheme word is removed from `Authorization: Bearer t` exactly when the configured header
      is not that same header under another spelling, such as "authorization". */
  lemma BearerRemovedIff(tokenHeader: string, r: Request, scheme: string, t: string)
    requires HasBearer(scheme) && |scheme| == 7
    requires t != "" && t[0] != ' '
    requires r.Get(AUTHORIZATION) == scheme + t
    requires Canonical(tokenHeader) != Canonical(AUTHORIZATION) ==> r.Get(tokenHeader) == ""
    ensures TokenOf(tokenHeader, r) == t <==>
              tokenHeader == "" || tokenHeader == AUTHORIZATION || Canonical(tokenHeader) != Canonical(AUTHORIZATION)
  {
    var auth := scheme + t;
    assert auth[..7] == scheme && auth[7..] == t;
    assert |auth| == 7 + |t|;
  }

  /** Header names are compared without regard to the case of ASCII letters. */
  ghost predicate SameHeader(a: string, b: string) {
    |a| == |b| && forall i | 0 <= i < |a| :: IsTokenChar(a[i]) && IsTokenChar(b[i]) && LowerASCII(a[i]) == LowerASCII(b[i])
  }

  lemma {:induction false} CasedIgnoresCase(a: string, b: string, upper: bool)
    requires SameHeader(a, b)
    ensures Cased(a, upper) == Cased(b, upper)
  {
    if a == "" {
    } else {
      CasedIgnoresCase(a[1..], b[1..], a[0] == '-');
    }
  }

  lemma CanonicalIgnoresCase(a: string, b: string)
    requires SameHeader(a, b)
    ensures Canonical(a) == Canonical(b)
  {
    CasedIgnoresCase(a, b, true);
  }

  lemma {:induction false} CasedIsSame(a: string, b: string, upper: bool)
    requires forall i | 0 <= i < |a| :: IsTokenChar(a[i])
    requires forall i | 0 <= i < |b| :: IsTokenChar(b[i])
    requires Cased(a, upper) == Cased(b, upper)
    ensures SameHeader(a, b)
  {
    if a == "" || b == "" {
    } else {
      assert Cased(a, upper)[0] == Cased(b, upper)[0];
      assert Cased(a, upper)[1..] == Cased(a[1..], a[0] == '-') && Cased(b, upper)[1..] == Cased(b[1..], b[0] == '-');
      CasedIsSame(a[1..], b[1..], a[0] == '-');
      assert forall i | 0 < i < |a| :: a[i] == a[1..][i - 1] && b[i] == b[1..][i - 1];
    }
  }

  /** Two header names are looked up as one iff they differ in the case of letters only. */
  lemma CanonicalExact(a: string, b: string)
    requires (forall i | 0 <= i < |a| :: IsTokenChar(a[i])) && (forall i | 0 <= i < |b| :: IsTokenChar(b[i]))
    ensures Canonical(a) == Canonical(b) <==> SameHeader(a, b)
  {
    if SameHeader(a, b) {
      CasedIgnoresCase(a, b, true);
    } else if Cased(a, true) == Cased(b, true) {
      CasedIsSame(a, b, true);
    }
  }

  /** The text is the given lower-case word, in any case. */
  ghost predicate InAnyCase(text: string, word: string) {
    |text| == |word| && forall i | 0 <= i < |word| :: text[i] == word[i] || text[i] == UpperASCII(word[i])
  }

  lemma LowerMatches(text: string, word: string)
    requires forall i | 0 <= i < |word| :: word[i] == ' ' || ('a' <= word[i] <= 'z' && word[i] != 'i' && word[i] != 'k')
    ensures Lower(text) == word <==> InAnyCase(text, word)
  {
    if |text| == |word| {
      forall i | 0 <= i < |word| ensures Lower(text)[i] == word[i] <==> text[i] == word[i] || text[i] == UpperASCII(word[i]) {
      }
    }
  }

  /** The word `Bearer` in any case, and one space. */
  ghost predicate IsBearer(scheme: string) {
    InAnyCase(scheme, "bearer ")
  }

  /** Whose value the token is: a configured header other than "Authorization" that is there and not
      empty gives it as it stands; otherwise Authorization does, without the word `Bearer` and at
      most one more space if it begins with that word, else as it stands. */
  lemma TokenSource(tokenHeader: string, r: Request)
    ensures var custom := tokenHeader != "" && tokenHeader != AUTHORIZATION
                          && Canonical(tokenHeader) in r.headers && r.headers[Canonical(tokenHeader)] != "";
            var auth := if Canonical(AUTHORIZATION) in r.headers then r.headers[Canonical(AUTHORIZATION)] else "";
            && (custom ==> TokenOf(tokenHeader, r) == r.headers[Canonical(tokenHeader)])
            && (!custom && !(|auth| >= 7 && IsBearer(auth[..7])) ==> TokenOf(tokenHeader, r) == auth)
            && (!custom && |auth| >= 7 && IsBearer(auth[..7]) ==>
                  TokenOf(tokenHeader, r) == if |auth| > 7 && auth[7] == ' ' then auth[8..] else auth[7..])
  {
    var auth := r.Get(AUTHORIZATION);
    if |auth| >= 7 {
      LowerMatches(auth[..7], "bearer ");
    }
  }

  /** Any other spelling of the header's name, "authorization" for one, defeats the removal. */
  lemma OtherSpellingsKeepBearer(name: string, t: string)
    requires SameHeader(name, AUTHORIZATION) && name != AUTHORIZATION
    requires t != "" && t[0] != ' '
    ensures var r := Request("/", map[Canonical(AUTHORIZATION) := "Bearer " + t]);
            TokenOf(name, r) == "Bearer " + t && TokenOf(AUTHORIZATION, r) == t
  {
    CanonicalIgnoresCase(name, AUTHORIZATION);
    var auth := "Bearer " + t;
    assert auth[..7] == "Bearer " && auth[7..] == t;
    assert Lower(auth[..7]) == "bearer ";
  }

  /** A concrete request: with the header configured as "authorization" the word stays. */
  lemma LowerCaseKeepsBearer(t: string)
    requires t != "" && t[0] != ' '
    ensures var r := Request("/", map[Canonical(AUTHORIZATION) := "Bearer " + t]);
            TokenOf("authorization", r) == "Bearer " + t && TokenOf(AUTHORIZATION, r) == t
  {
    var name := "authorization";
    assert name[0] != AUTHORIZATION[0];
    OtherSpellingsKeepBearer(name, t);
  }

  // ----- skipped paths -----

  /** shouldSkip */
  function ShouldSkip(skipPaths: seq<string>, path: string): bool {
    skipPaths != [] &&
    (var p := skipPaths[0];
     || path == p
     || (p != "" && p[|p| - 1] == '*' && p[..|p| - 1] <= path)
     || ShouldSkip(skipPaths[1..], path))
  }

  ghost predicate SkippedBy(p: string, path: string) {
    path == p || exists prefix: string :: p == prefix + "*" && prefix <= path
  }

  lemma {:induction false} SkipExact(skipPaths: seq<string>, path: string)
    ensures ShouldSkip(skipPaths, path) <==> exists i | 0 <= i < |skipPaths| :: SkippedBy(skipPaths[i], path)
  {
    if skipPaths == [] {
    } else {
      var p := skipPaths[0];
      SkipExact(skipPaths[1..], path);
      if p != "" && p[|p| - 1] == '*' {
        assert p == p[..|p| - 1] + "*";
      }
      assert SkippedBy(p, path) <==> path == p || (p != "" && p[|p| - 1] == '*' && p[..|p| - 1] <= path) by {
        if SkippedBy(p, path) && path != p {
          var prefix: string :| p == prefix + "*" && prefix <= path;
          assert p[..|p| - 1] == prefix;
        }
      }
      if exists i | 0 <= i < |skipPaths| :: SkippedBy(skipPaths[i], path) {
        var i :| 0 <= i < |skipPaths| && SkippedBy(skipPaths[i], path);
        if i > 0 {
          assert skipPaths[1..][i - 1] == skipPaths[i];
        }
      }
      if exists i | 0 <= i < |skipPaths[1..]| :: SkippedBy(skipPaths[1..][i], path) {
        var i :| 0 <= i < |skipPaths[1..]| && SkippedBy(skipPaths[1..][i], path);
        assert skipPaths[i + 1] == skipPaths[1..][i];
      }
    }
  }

  // ----- the gate -----

  /** What an authenticator says about a token; an acceptance may carry no identity. */
  datatype Answer = Rejected | Accepted(identity: Option<Identity>)

  datatype Outcome = Next(identity: Option<Identity>) | NoToken | BadToken | Panicked

  datatype Policy = Policy(required: bool, skipPaths: seq<string>, tokenHeader: string)

  /** What surrounds one request: how its token decodes, the key fetches and the clock that the
      Dapr Sentry authenticator meets, and what the OIDC and SPIFFE libraries answer. */
  datatype World = World(decode: string -> Option<Token>, env: Env, now: int, library: (Method, string) -> Answer)

  ghost function AnswerOf(m: Method, settings: Settings, cache: Cache, w: World, token: string): Answer {
    if m == DaprSentry then
      var claims := Verified(w.decode(token), cache, settings, w.env);
      if claims.Some? && Acceptable(settings, claims.value, w.now) then Accepted(Some(IdentityOf(claims.value))) else Rejected
    else w.library(m, token)
  }

  /** Asking the Dapr Sentry authenticator may refresh its key set. */
  ghost function CacheAfter(m: Method, settings: Settings, cache: Cache, w: World, token: string): Cache {
    var t := w.decode(token);
    if m != DaprSentry || t.None? || t.value.headers == [] then cache
    else LookupOf(cache, settings.interval, t.value.headers[0], w.env).cache
  }

  /** The cache once the first n authenticators have been asked. */
  ghost function CacheBefore(ms: seq<Method>, n: nat, settings: Settings, cache: Cache, w: World, token: string): Cache
    requires n <= |ms|
  {
    if n == 0 then cache else CacheAfter(ms[n - 1], settings, CacheBefore(ms, n - 1, settings, cache, w, token), w, token)
  }

  /** What each of the first n authenticators would say, asked after all those before it. */
  ghost function Answers(ms: seq<Method>, n: nat, settings: Settings, cache: Cache, w: World, token: string): (r: seq<Answer>)
    requires n <= |ms|
    ensures |r| == n
  {
    if n == 0 then [] else
      Answers(ms, n - 1, settings, cache, w, token)
      + [AnswerOf(ms[n - 1], settings, CacheBefore(ms, n - 1, settings, cache, w, token), w, token)]
  }

  lemma {:induction false} AnswerAt(ms: seq<Method>, n: nat, settings: Settings, cache: Cache, w: World, token: string, i: nat)
    requires i < n <= |ms|
    ensures Answers(ms, n, settings, cache, w, token)[i]
         == AnswerOf(ms[i], settings, CacheBefore(ms, i, settings, cache, w, token), w, token)
  {
    if i == n - 1 {
    } else {
      AnswerAt(ms, n - 1, settings, cache, w, token, i);
    }
  }

  /** Authenticator i accepts and all earlier ones reject. */
  ghost predicate FirstAccept(answers: seq<Answer>, i: nat) {
    i < |answers| && answers[i].Accepted? && forall j | 0 <= j < i :: answers[j].Rejected?
  }

  ghost predicate AllReject(answers: seq<Answer>) {
    forall i | 0 <= i < |answers| :: answers[i].Rejected?
  }

  ghost predicate Protected(policy: Policy, r: Request) {
    policy.required && !exists i | 0 <= i < |policy.skipPaths| :: SkippedBy(policy.skipPaths[i], r.path)
  }

  /** When a request gets which outcome, and how many authenticators are asked, given what each says. */
  ghost predicate Decided(policy: Policy, answers: seq<Answer>, r: Request, o: Outcome, called: nat) {
    var token := TokenOf(policy.tokenHeader, r);
    && (o.Next? <==>
          || !Protected(policy, r)
          || (token != "" && exists i: nat :: FirstAccept(answers, i) && answers[i].identity.Some?))
    && (!Protected(policy, r) ==> o == Next(None) && called == 0)
    && (Protected(policy, r) && o.Next? ==>
          called > 0 && FirstAccept(answers, called - 1) && o == Next(answers[called - 1].identity) && o.identity.Some?)
    && (o.NoToken? <==> Protected(policy, r) && token == "")
    && (o.NoToken? ==> called == 0)
    && (o.BadToken? <==> Protected(policy, r) && token != "" && AllReject(answers))
    && (o.BadToken? ==> called == |answers|)
    && (o.Panicked? ==> called > 0 && FirstAccept(answers, called - 1) && answers[called - 1].identity.None?)
  }

  /** The middleware and its authenticators, of which Dapr Sentry's has a state of its own. */
  class Middleware {
    const policy: Policy
    const methods: seq<Method>
    const sentry: DaprSentryAuthenticator?

    ghost predicate Valid() {
      DaprSentry in methods ==> sentry != null
    }

    ghost function Cached(): Cache
      reads sentry
    {
      if sentry != null then sentry.Cached() else Cache(None, 0)
    }

    ghost function Config(): Settings {
      if sentry != null then sentry.settings else Settings("", "", 0)
    }

    constructor (policy: Policy, methods: seq<Method>, sentry: DaprSentryAuthenticator?)
      ensures this.policy == policy && this.methods == methods && this.sentry == sentry
    {
      this.policy := policy;
      this.methods := methods;
      this.sentry := sentry;
    }

    ghost function Says(cache: Cache, w: World, token: string): (r: seq<Answer>)
      ensures |r| == |methods|
    {
      Answers(methods, |methods|, Config(), cache, w, token)
    }

    ghost function After(n: nat, cache: Cache, w: World, token: string): Cache
      requires n <= |methods|
    {
      CacheBefore(methods, n, Config(), cache, w, token)
    }

    /** Asking authenticator i, those before it having been asked from this cache on. */
    method Ask(i: nat, token: string, w: World, ghost cache: Cache) returns (a: Answer)
      requires Valid() && i < |methods| && Cached() == After(i, cache, w, token)
      modifies sentry
      ensures a == Says(cache, w, token)[i]
      ensures Cached() == After(i + 1, cache, w, token)
      ensures sentry != null && old(sentry.Valid()) ==> sentry.Valid()
    {
      AnswerAt(methods, |methods|, Config(), cache, w, token, i);
      if methods[i] == DaprSentry {
        var r := sentry.Authenticate(w.decode(token), w.env, w.now);
        a := if r.Success? then Accepted(Some(r.value)) else Rejected;
      } else {
        a := w.library(methods[i], token);
      }
    }

    /** The first authenticator to accept the token; none after it is asked. */
    method FirstToAccept(token: string, w: World) returns (a: Answer, called: nat)
      requires Valid()
      modifies sentry
      ensures var answers := Says(old(Cached()), w, token);
              if a.Accepted? then called > 0 && FirstAccept(answers, called - 1) && a == answers[called - 1]
              else called == |methods| && AllReject(answers)
      ensures called <= |methods| && Cached() == After(called, old(Cached()), w, token)
      ensures sentry != null && old(sentry.Valid()) ==> sentry.Valid()
    {
      ghost var answers := Says(Cached(), w, token);
      called := 0;
      a := Rejected;
      while called < |methods|
        invariant called <= |methods| && a.Rejected?
        invariant Cached() == After(called, old(Cached()), w, token)
        invariant sentry != null && old(sentry.Valid()) ==> sentry.Valid()
        invariant forall j | 0 <= j < called :: answers[j].Rejected?
      {
        a := Ask(called, token, w, old(Cached()));
        called := called + 1;
        if a.Accepted? {
          return;
        }
      }
    }

    /** Handler. The next handler runs iff the path is skipped, or nothing is required, or the
        token is not empty and the first authenticator to accept it names an identity; that
        identity is the one attached, and no authenticator after it is asked. */
    method Handler(r: Request, w: World) returns (o: Outcome, called: nat)
      requires Valid()
      modifies sentry
      ensures Decided(policy, Says(old(Cached()), w, TokenOf(policy.tokenHeader, r)), r, o, called)
      ensures called <= |methods| && Cached() == After(called, old(Cached()), w, TokenOf(policy.tokenHeader, r))
      ensures sentry != null && old(sentry.Valid()) ==> sentry.Valid()
    {
      SkipExact(policy.skipPaths, r.path);
      if ShouldSkip(policy.skipPaths, r.path) || !policy.required {
        return Next(None), 0;
      }
      var token := TokenOf(policy.tokenHeader, r);
      if token == "" {
        return NoToken, 0;
      }
      var a, asked := FirstToAccept(token, w);
      called := asked;
      if a.Rejected? {
        o := BadToken;
      } else {
        // The log line that follows reads the identity's subject.
        o := if a.identity.Some? then Next(a.identity) else Panicked;
      }
    }
  }
}
