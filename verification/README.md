# Verified model of dapr-mcp-server's multi-app workflows and authentication gate

This Dafny project models two parts of dapr-mcp-server and proves what they promise.

**Multi-app workflow management.** The value of `DAPR_MCP_SERVER_WORKFLOW_APPS` is parsed into an
app map (`AppsConfig`), every app is connected at startup or the server does not start (`Startup`),
and the resulting registry decides which client serves which app-id (`AppRegistry`).
`list_workflows` lists its targets concurrently, one goroutine and one slice slot per target
(`Listing`, `FanOut`), merges the listings into instances, counts, tokens and warnings (`Counting`,
`Merge`) and renders them (`ListTool`). A caller follows the tokens until they run out
(`Pagination`). The nine other workflow tools each act on one app (`ToolCalls`).

**The authentication gate.** The Dapr Sentry authenticator caches a key set that concurrent requests
read and refresh (`SigningKeys` for one undisturbed call, `KeyCache` for all interleavings), and
accepts a token by its key, times, audience and subject (`Sentry`). The HTTP middleware lets a
request through when its path is skipped, when nothing is required or when an authenticator accepts
its token (`Gate`). Configuration is read from the environment and validated (`AuthConfig`); the
server builds its authenticators from it and serves requests through them (`Serving`). `Text`
holds the string, sorting and map-iteration operations of Go's library that all of this uses.

How it is modelled:

- Loops, in-place updates and early exits of the source are methods with loop invariants. Each is
  proved against a specification, and what the source promises is proved about that: the parser's is
  "the first offending entry decides", sorted key lists are the elements of a set in order, counts
  the multiplicities of a multiset, listings the selection of the fetched ids, and the text of a
  report is one that reads back as the structured result.
- Go's map iteration order, the goroutine scheduler and the interleaving of concurrent key lookups
  are arbitrary choices, and the theorems hold for all of them.
- Sidecars, the network, signature checks, JWT decoding, duration and time parsing and the clock are
  parameters that may answer anything. A sidecar's answers are indexed by target and position, so two
  lookups of one id may differ.
- A client is a handle. Distinct app-ids may share a handle, and nothing is claimed about distinct
  labels meaning distinct sidecars.

Three facts about the code that its own description does not tell:

- By the comment at pkg/auth/middleware.go:173 a custom token header is read first only when it is
  not Authorization, whose `Bearer ` word is removed. The comparison is by spelling while header
  lookup is not, so the word stays when `DAPR_SENTRY_TOKEN_HEADER` is `authorization`
  (`Gate.LowerCaseKeepsBearer`) or any other spelling; `Gate.BearerRemovedIff` is the exact condition.
- Fan-out targets can all be named again, which tokens depend on, exactly when no pool entry has the
  empty app-id (`AppRegistry.TargetsRouteBack`). The registry does not check it; the parser provides
  it (`AppsConfig.ParsedAppsAreGood`, `Startup.StartedRegistryRoutes`).
- Counts by app are assigned, not added, so they are right only because no app-id is listed twice:
  `Merge.RepeatedAppMiscounts` gives the exact condition for any listings.

## Model

| member | source | states |
|---|---|---|
| AppsConfig.ParseAppsConfig | pkg/workflow/config.go:17-36 | The result is decided by the first malformed or repeated entry, wherever it stands; without one it is the map of all pairs, with as many keys as there are non-blank entries |
| AppsConfig.ParseFailsIff | pkg/workflow/config.go:24-32 | Parsing fails iff some text between commas is malformed or names an app an earlier one names; the first such text gives the error, its trimmed text or its app-id |
| AppsConfig.ClassifyExact | pkg/workflow/config.go:20-29 | An entry is skipped iff it is all white space, a pair iff there is something on both sides of its first `=`, and otherwise malformed |
| AppsConfig.ParseNames | pkg/workflow/config.go:19-33 | On success the map holds exactly the app-ids and addresses that the entries name |
| AppsConfig.ParseUnique | pkg/workflow/config.go:17-36 | A value has exactly one parse result |
| AppsConfig.ParsedAppsAreGood | pkg/workflow/config.go:24-33 | Every parsed app-id and address is non-empty and trimmed, ids without `,` and `=`, addresses without `,`; the empty id is never a key |
| AppsConfig.RenderClassifies | pkg/workflow/config.go:19-29 | A pair padded anywhere reads back as its id and address, the address keeping further `=` signs; padding alone reads as nothing |
| AppsConfig.ParsePrint | pkg/workflow/config.go:12-36 | Round trip: any layout of a well-formed map, in any order, with any padding and blank entries, parses to the map |
| AppsConfig.ParsePrintParse | pkg/workflow/config.go:12-36 | Parsing, printing and parsing again gives the first result |
| Text.TrimPadded | pkg/workflow/config.go:20-26 | Trimming removes exactly the padding around a trimmed core |
| Text.SplitJoin | pkg/workflow/config.go:19 | Splitting undoes joining of separator-free pieces |
| Text.SortEnumeration | pkg/workflow/registry.go:55 | Sorting the keys of a map gives one sequence whatever order they were collected in |
| Text.SortedUnique | pkg/workflow/registry.go:55 | Two sorted duplicate-free sequences with the same elements are equal |
| Text.LexExact | pkg/workflow/registry.go:55 | The sorting order: a prefix first, otherwise the first different character decides |
| AppRegistry.NewRegistry | pkg/workflow/registry.go:30-39 | Client, pool and a given own app-id are kept; the own app-id of a registry is never empty, `default` standing in |
| AppRegistry.Registry.AppIDs | pkg/workflow/registry.go:48-57 | The own app-id and the pool's, in order and once each, for every map iteration order |
| AppRegistry.Registry.Targets | pkg/workflow/registry.go:63-77 | The own client first unless the pool has its app-id, then the pool in app-id order, for every map iteration order |
| AppRegistry.Registry.ClientFor | pkg/workflow/registry.go:87-101 | Pool before own client; empty id only in single-app mode; errors carry the sorted valid ids |
| AppRegistry.Refusals | pkg/workflow/registry.go:87-101 | An empty app-id is served iff there is no pool, and then by the own client; it and an unknown id are otherwise refused with the sorted valid ids |
| AppRegistry.TargetShape | pkg/workflow/registry.go:63-77 | Position by position, which app and client each target is |
| AppRegistry.TargetsDistinct | pkg/workflow/registry.go:59-77 | No app-id occurs twice among the fan-out targets |
| AppRegistry.TargetsCoverAppIDs | pkg/workflow/registry.go:46-77 | The targets' app-ids are exactly the accepted ids, which are sorted and duplicate-free |
| AppRegistry.AcceptedIffListed | pkg/workflow/registry.go:79-101 | A non-empty id is accepted iff it is listed, and then resolves to a fan-out target of that name |
| AppRegistry.TargetsRouteBack | pkg/workflow/registry.go:63-101 | Every target resolves to itself by name iff the pool has no empty app-id |
| AppRegistry.TargetsNameable | pkg/workflow/registry.go:63-101 | Without an empty app-id in the pool every target has a name that leads back to it |
| Startup.ConnectWithRetry | cmd/dapr-mcp-server/main.go:47-69 | Success iff one of five attempts succeeds, with the first success; otherwise, after the fifth, its error; no attempt after a success |
| Startup.InitializeWorkflowApps | cmd/dapr-mcp-server/main.go:84-100 | All or nothing over the parsed apps in any iteration order; an error names an app that never connected |
| Startup.StartsIff | cmd/dapr-mcp-server/main.go:80-100 | A pool results iff the value parses and every app connects within five attempts; its keys are the parsed ids, none empty |
| Startup.PoolUnique | cmd/dapr-mcp-server/main.go:89-99 | The pool does not depend on the iteration order |
| Startup.OwnAppID | cmd/dapr-mcp-server/main.go:159-170 | The own label is what the sidecar's metadata reports, or `default` without it |
| Startup.AdvertisedAppIDs | cmd/dapr-mcp-server/main.go:181-190 | The ids written into the instructions are those the registry accepts |
| Startup.StartedRegistryRoutes | cmd/dapr-mcp-server/main.go:159-213 | Every target of a registry built at startup resolves to itself by name |
| Listing.ListApp | pkg/workflow/tools.go:457-492 | Every id of the page is listed, with the name, status and creation time of its own metadata and below as many ids as were fetched before it, or counted as skipped; a failed listing holds nothing but its error |
| Listing.ListingAccounts | pkg/workflow/tools.go:457-492 | The same of the listing that the fan-out's workers and slots are compared with: ids in order, each with its metadata; listed plus skipped is the page |
| FanOut.WorkerStepInv | pkg/workflow/tools.go:457-492 | Each step of a worker keeps its partial listing equal to that of the plain loop so far |
| FanOut.ApplyInv | pkg/workflow/tools.go:533-542 | Every step of every actor keeps the invariant: counter equal to the running workers, written slots final |
| FanOut.NeverStuck | pkg/workflow/tools.go:533-542 | Until the merge starts some actor can move |
| FanOut.ApplyProgress | pkg/workflow/tools.go:533-542 | Every step uses up one of a fixed number of steps |
| FanOut.EveryScheduleAgrees | pkg/workflow/tools.go:533-542 | For every interleaving: the counter never runs out early, the merge starts only after all slots are written and all workers done, nobody can move afterwards, and the slots are those of a sequential loop |
| FanOut.EveryScheduleCanFinish | pkg/workflow/tools.go:533-542 | No interleaving deadlocks or goes on forever |
| FanOut.ListAll | pkg/workflow/tools.go:533-542 | Run by any scheduler, writing the shared slots in place, the fan-out terminates with the sequential listings |
| Counting.TallySnoc | pkg/workflow/tools.go:567-569 | Incrementing the count of one more element keeps the tally of the sequence |
| Counting.TallySum | pkg/workflow/tools.go:567-569 | The counts of a tally add up to the number of elements |
| Merge.MergeListings | pkg/workflow/tools.go:548-572 | The merged instances, tallies, counts by app, tokens and warnings, for any listings |
| Merge.CollectExact | pkg/workflow/tools.go:554-566 | With distinct app-ids a key is present iff its own listing has an entry, with that value |
| Merge.MergeIsExact | pkg/workflow/tools.go:554-566 | Each target is a counts-by-app key or a listing-failed warning, never both; skipped ids are warned about with their number; tokens only for successful apps |
| Merge.CountsByAppSum | pkg/workflow/tools.go:566 | With distinct app-ids the counts by app add up to the number of instances |
| Merge.RepeatedAppMiscounts | pkg/workflow/tools.go:566 | For any listings, with or without repeated app-ids: the counts by app add up to the number of instances iff every successful listing overwritten by a later one of its app is empty |
| Merge.MergedPart | pkg/workflow/tools.go:554-571 | The merged instances of an app are its own listing, whole and in order |
| Merge.MergedInOrder | pkg/workflow/tools.go:554-571 | Across apps the instances follow the order of the listings |
| ListTool.PageSize | pkg/workflow/tools.go:510-516 | The limit itself between 1 and 500, 500 above that, 100 when not positive |
| ListTool.WriteCounts | pkg/workflow/tools.go:494-504 | Every count of the map once, in the order of the keys, for every map iteration order |
| ListTool.LinesInOrder | pkg/workflow/tools.go:574-597 | The text is header lines, then one row per instance, then the footers in the order of the targets, each target's warning before its token |
| ListTool.ListWorkflows | pkg/workflow/tools.go:506-619 | The whole result is a function of the arguments and the sidecars' answers alone, whatever the scheduling and map order |
| ListTool.ErrorsExact | pkg/workflow/tools.go:519-546 | The call fails exactly for a token without app-id where there are several apps, a refused app-id, or a failed listing of the only app; a failed listing in a fan-out is no error |
| ListTool.CountsConserved | pkg/workflow/tools.go:548-572 | In every report the three count maps each add up to the number of instances, and each count is the number of instances with that workflow, status or app |
| ListTool.ReportInTargetOrder | pkg/workflow/tools.go:554-571 | In a fan-out's report the instances of the targets follow each other in the order of the targets |
| ListTool.NoSilentOmission | pkg/workflow/tools.go:457-572 | In a fan-out every target's ids are listed in order, each with the fields of its own metadata, or counted in its warning, or its listing failure is a warning; counts and token match |
| ListTool.NothingInvented | pkg/workflow/tools.go:554-572 | Counts, tokens and warnings name fan-out targets only |
| ListTool.LinesAgree | pkg/workflow/tools.go:574-616 | Reading the text of any report gives back its structured result: header counts, instances in order, warnings and tokens, with exactly one line per entry |
| ListTool.TokensRouteBack | pkg/workflow/tools.go:518-531 | Every reported app-id and token leads back to the client that produced the token |
| Pagination.SingleCallReports | pkg/workflow/tools.go:457-616 | A single-app report says everything about its page: ids shown with their own metadata, number missing, next token |
| Pagination.OthersAreSilent | pkg/workflow/tools.go:524-571 | A call for one app shows no instance of another and counts none of them missing |
| Pagination.RunVisits | pkg/workflow/tools.go:457-492 | From any pending tokens on, in any order of the apps and at any point of the run: the calls made so far visited, of every app, exactly the ids between its first position and its present one |
| Pagination.RunEnds | pkg/workflow/tools.go:457-492 | Every such run ends: each call uses up one of a number of calls fixed by the pending tokens |
| Pagination.EveryIDVisitedOnce | pkg/workflow/tools.go:506-619 | A call without app-id and the per-app calls after it, in any order of the apps and for any limits, end, and over all these calls together every id of every target is visited exactly once, shown or counted missing |
| ToolCalls.ToolServer.Handle | pkg/workflow/tools.go:114-436 | A call is refused, calling nobody, iff its event id, app-id (empty where there are several apps, for one) or start time is bad, in that order; otherwise the resolved sidecar, and no other, gets one request conveying the arguments, moves to the state it answers with, and its text or error is the reply with the app named |
| ToolCalls.ArgumentsArrive | pkg/workflow/tools.go:114-436 | The request a sidecar gets can be read back as the tool call it came from: the right operation, every argument in its place, empty optional ones left out, the start time as parsed |
| ToolCalls.StepHere | pkg/workflow/tools.go:332-350 | The effect and reply of a call depend on its own sidecar alone |
| ToolCalls.StepElsewhere | pkg/workflow/tools.go:332-350 | A call leaves every other sidecar alone |
| ToolCalls.NonInterference | pkg/workflow/tools.go:114-436 | Over any sequence of calls each sidecar's state, log and replies are those of replaying only its own calls |
| ToolCalls.RejectedCallsNobody | pkg/workflow/tools.go:121-139 | A rejected app-id changes no sidecar; a call is logged somewhere iff its arguments pass |
| ToolCalls.ReplacedDefaultIsIdle | pkg/workflow/registry.go:59-67 | When the pool has the own app-id, the replaced own client is never called |
| SigningKeys.MatchingFirst | pkg/auth/sentry.go:315-328 | The first match is the first key of the set with the id, or the first key when no id is given |
| SigningKeys.LookupExact | pkg/auth/sentry.go:273-369 | When an undisturbed lookup succeeds, with which key of which set, the pair it leaves, and its fetches: one iff the pair is older than the interval, one more iff the set then searched lacks the key |
| KeyCache.ApplyInv | pkg/auth/sentry.go:273-302 | Every step of every concurrent lookup keeps the cache and call invariants |
| KeyCache.CacheOverRuns | pkg/auth/sentry.go:372-451 | In every interleaving the set is never nil, the pair is one publication of one fetched response, publications are only appended and the refresh time never decreases |
| KeyCache.ResponsesConserved | pkg/auth/sentry.go:387-444 | In every interleaving the fetched responses are, with multiplicity, the published sets and those a call still holds: none is published twice or lost, and nothing else is published |
| KeyCache.LostIsFailure | pkg/auth/sentry.go:287-293 | A lookup counts as having lost its refresh only if that very fetch failed in the run |
| KeyCache.FoundKeysAreFresh | pkg/auth/sentry.go:273-369 | In every interleaving a returned key is the first fitting key of a fetched set that was within the interval at the call's check, or was published later, unless that call's refresh failed |
| KeyCache.NotFoundIsRight | pkg/auth/sentry.go:273-369 | No false refusals, in every interleaving: a lookup that ends without a key missed it in the set it searched first, refetched, and that failed or the set it searched last, published after the refetch, lacks the key too |
| KeyCache.FetchesAreNeeded | pkg/auth/sentry.go:287-346 | No idle fetches, in every interleaving: a refresh only for a pair older than the interval at the check, a refetch only for a key the searched set lacks |
| KeyCache.SoloCallIsLookup | pkg/auth/sentry.go:273-369 | Whenever an uninterrupted call finishes, its key, the cached pair and the number of fetches are those of the sequential lookup given the answers its fetches got and clock readings of the run |
| KeyCache.EveryLookupIsSoloCall | pkg/auth/sentry.go:273-369 | Conversely every environment of the sequential lookup is met by some uninterrupted call, with that result |
| Sentry.DaprSentryAuthenticator.RefreshJWKS | pkg/auth/sentry.go:372-451 | A failed refresh changes neither field, a successful one replaces both |
| Sentry.DaprSentryAuthenticator.GetSigningKey | pkg/auth/sentry.go:273-369 | Key, cached pair and number of fetches are those of the lookup function |
| Sentry.NewAuthenticator | pkg/auth/sentry.go:42-91 | An authenticator exists iff the first fetch succeeded, and its set is then never nil |
| Sentry.SPIFFEIDExact | pkg/auth/sentry.go:464-478 | Accepted iff the subject is the trust domain's id or a path under it, for a trust domain without `/` (SPIFFE-ID specification, section 2) |
| Sentry.ContainsAudience | pkg/auth/sentry.go:454-461 | True iff the expected audience is in the list |
| Sentry.DaprSentryAuthenticator.CheckClaims | pkg/auth/sentry.go:161-259 | Which claims are accepted, the identity they give, and when the error is expiry or audience (RFC 7519, sections 4.1.2 to 4.1.5) |
| Sentry.DaprSentryAuthenticator.Authenticate | pkg/auth/sentry.go:99-260 | An identity results iff the token parses with a header, its key is found and verifies it, and its claims are acceptable; it carries the token's subject, audience and those of the id, use, issue time and expiry that the token has |
| Sentry.GrantsExact | pkg/auth/sentry.go:99-224 | Acceptance in terms of keys, signature, time bounds, audience and subject alone (RFC 7519, sections 4.1.2 to 4.1.5; SPIFFE-ID specification, section 2) |
| Gate.SkipExact | pkg/auth/middleware.go:155-169 | A path is skipped iff it equals an entry or extends an entry's text before a final `*` |
| Gate.TokenSource | pkg/auth/middleware.go:172-194 | Whose value the token is: the custom header's as it stands, or Authorization's, without the word `Bearer` in any case if it begins with that and as it stands otherwise |
| Gate.CanonicalExact | pkg/auth/middleware.go:175-181 | Header names are looked up as one iff they differ in the case of letters only |
| Gate.BearerRemovedIff | pkg/auth/middleware.go:172-194 | The scheme word is removed from Authorization iff the configured header is not that header under another spelling |
| Gate.OtherSpellingsKeepBearer | pkg/auth/middleware.go:174-179 | Requests for which it is not removed, for every other spelling |
| Gate.LowerCaseKeepsBearer | pkg/auth/middleware.go:174-179 | The same for the header configured as `authorization` |
| Gate.Middleware.Handler | pkg/auth/middleware.go:31-152 | When the next handler runs, with the identity of the first acceptance and nobody asked after it; otherwise which refusal; the key cache is as the authenticators asked have left it |
| AuthConfig.DefaultConfig | pkg/auth/config.go:74-180 | What each setting is read from, and which text in any case gives which mode; a single mode switches its own section on |
| AuthConfig.ValidateExact | pkg/auth/config.go:183-272 | Validation succeeds iff nothing is required, or some method is selected and every selected one is on and complete |
| AuthConfig.ValidateNamesFirst | pkg/auth/config.go:204-272 | A missing-setting error names the first empty setting of the first incomplete selected method |
| AuthConfig.MissingIsUnset | pkg/auth/config.go:204-272 | The variable that a missing-setting error names is unset in the environment |
| AuthConfig.UnsupportedIff | pkg/auth/config.go:96-109 | For a configuration from the environment, only an unknown mode or an empty hybrid is unsupported |
| Serving.BuildAuthenticators | cmd/dapr-mcp-server/main.go:352-433 | The authenticators are the selected methods in order iff all constructors succeed, Dapr Sentry's with its settings and the first key set; otherwise the first failure |
| AuthConfig.ValidatedIsUsable | pkg/auth/config.go:183-230 | A validated, active configuration selects the method of its mode, or in hybrid those that are on, in order; at least one, none twice, each with its section on and its settings present |
| Serving.Start | cmd/dapr-mcp-server/main.go:268-292 | Which of four ways starting ends: configuration rejected, a constructor failed (only with authentication on), open, or guarded by the configured middleware. Authentication is on iff AUTH_ENABLED is `true` and AUTH_MODE neither empty nor disabled |
| Serving.EnvironmentInForce | pkg/auth/config.go:74-180 | What the variables mean for requests: the token's header, the three open paths when none are listed, Dapr Sentry's trust domain, audience and interval |
| Serving.DecidedIsServed | pkg/auth/middleware.go:31-152 | From what the middleware decides to what a validated configuration means for a request: without identity exactly on the configured open paths, refused exactly without a token or without a method that takes it |
| Serving.Serve | pkg/auth/middleware.go:31-152 | The same of every request to a started server, whatever keys it has cached by then; an identity names a selected method with its settings present, and Dapr Sentry's carries the claims of a token that the configured trust domain, audience and interval allow |
| Serving.SentryModeServes | pkg/auth/middleware.go:31-152 | In mode dapr-sentry a request on a protected path is let through iff its token is not empty and Dapr Sentry grants it |

## Left out

- gRPC, HTTP, protobuf, JSON, JWT decoding and signature cryptography: parameters with success and failure outcomes.
- The OIDC and SPIFFE authenticators: their libraries decide acceptance; `Serving.Serve` takes from their code only that an accepted identity names their own method and is never nil. For Dapr Sentry both are proved.
- State, pub/sub, bindings, secrets, crypto, lock, invocation, actors, conversation and metadata tools, health endpoints and telemetry: single-call wrappers.
- Result wording, log lines and spans; times inside results are kept as given text. `describeEvent` and the extra fields of status and history results are not modelled: a client call returns one text or one error.
- The two-second pause between connection attempts, and context cancellation and timeouts, which appear as failed attempts or fetches.
- Starting a goroutine is one step together with raising the wait group's counter; no other actor can tell the two apart.
- Go's per-iteration loop variables (the module requires a Go version that has them) are taken for granted: worker i has target i.
- KeyCache: an older response published after a newer one replaces it; the code gives no order of fetches and none is claimed.
- KeyCache: a token without a key id is checked against the first key of the set only, as in the code.
- Pagination.EveryIDVisitedOnce: assumes that no listing call fails and that the sidecar pages through one fixed sequence, since otherwise there is no set of ids to visit; metadata calls may fail at will.
- Sentry.DaprSentryAuthenticator.Authenticate: an undisturbed call; calls that interleave are the subject of KeyCache, which follows the key lookup and not the claim checks after it.
- Gate.Middleware.Handler: one request at a time; concurrent requests meet in the key cache, which is the subject of KeyCache.
- Clock readings, expiry and not-before are integers of one unit; durations are nanoseconds without overflow.
- Text: lower-casing of non-ASCII letters is modelled only where it yields ASCII letters, the only case the comparisons can see.
