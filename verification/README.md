# Verified model of the MCP gateway's stateful core

A Dafny 4.11 model of the parts of the gateway that keep a fact true across many calls, many goroutines or many
reloads, with proofs of those facts. `dafny verify dfyconfig.toml` checks all of it.

How it is built: what the source changes in place is a class (`DBStore`, `Server`, `TokenBucket`, `CircuitBreaker`,
`Runtime`, `MemoryStorage`, `OAuthServer`, `LoadBalancer`), what it computes in loops is a method with those loops,
and each method is tied to a function on values. The main theorems are about those functions, over every input, every
run or every interleaving. Where several goroutines act on one object, each separately locked piece of code is one
step of a transition system; lemmas named `Undisturbed…` connect the step systems back to the methods.

## What is proved

**Configuration store, reload and index** (`ConfigMerge`, `ConfigValidator`, `VersionStore`, `StoreHistory`,
`StorePruning`, `StoreEffects`, `RuntimeIndex`, `TransportLifetime`, `TransportLaunch`, `IndexScan`, `PullReload`).
The gateway keeps its own copy of the configurations by merging only the log rows newer than its last reload. Over
every interleaving of reloads and store operations that are safe and commit in time, each successful reload leaves
that copy equal to the live table at the moment of its query (`IncrementalReloadRefinesFullReload`), and every router
of every live configuration is served the tools its own configuration allows, and nothing else is
(`LiveRoutersAreServed`, `OnlyLiveRoutersAreServed`). The copy stays right **if and only if** every commit is in time:
no reload that began at or after a row's stamp took effect before the row was committed
(`CopyRightExactlyWhenInTime`); a late commit is never seen (`LateCommitIsNeverSeen`). The tables themselves stay in
step (pointer, newest row, live row) **if and only if** every operation meets a condition that can be checked before
the call (`StoreInvExactlyForSafeRuns`). Four kinds of call break the tables, each shown on a concrete run:

* `DBStore.Update` looks up the latest version by name without the tenant (internal/mcp/storage/db.go:248). Two
  tenants sharing a name can make an update look like a repetition: the live row changes and nothing is logged
  (`SharedNameLosesUpdate`). A gateway that had caught up keeps the old content over every later run of safe
  operations and reloads that logs no row of that configuration (`UnloggedUpdateIsNeverSeen`).
* Reverting a deleted configuration revives it but leaves its pointer soft-deleted, so its live version can be deleted
  (`RevivedConfigIsUnguarded`, `RevertOfRetiredConfig`).
* Deleting the newest version of a deleted configuration removes its Delete row (`DeadConfigIsUnguarded`,
  `DeletedVersionOfRetiredConfig`).
* Updating a configuration that is not live logs content that does not go live, and the gateway serves it
  (`UpdateOfDeadConfig`, `UpdateOfRetiredConfig`, `PhantomUpdateIsServed`).

`HandlersAreSafe` shows that looking a configuration up first, as the HTTP handlers do, and keeping names unique
across tenants, is enough; then every successful reload is exact over every interleaving of whole requests and reloads
(`HandledReloadsAreExact`). Transports: over any run of reloads none is shared, and none that a shutdown pass stopped
is held again (`StoppedTransportsNeverReturn`, `RunIsBuilds`); the transport a prefix has was created for a server of
the same kind, command, URL and arguments (`TransportsAreLaunchedAsConfigured`); the code leaks a transport exactly
when its prefix stays routed and its launch data changed (`ReplacedTransportIsLeaked`; `MovedServerLeaksTransport` on
concrete data). An update that logs a row leaves exactly the newest `limit` rows of its configuration, up to one batch
of a thousand (`UpdatePrunesToLimit`), and the same update again changes nothing (`RepeatedUpdateIsIdle`).

**Governance** (`TokenBuckets`, `CircuitBreakers`, `GovernancePolicy`, `GovernanceRuntime`, `GovernanceKeys`,
`GovernanceProbes`, `GovernanceVerdicts`, `KeyNames`). The token bucket is exactly the sliding-window rule
(`BucketIsSlidingWindow`). The breaker opens at exactly the first report whose counts since it last closed trip it. A
half-open breaker is never stuck, over every interleaving of calls (`HalfOpenAlwaysResolves`). A closed breaker lets
every call through, a half-open one as many as the policy allows since it became so, an open one none before its time
(`AskVerdict`). Keys are independent: calls of different keys never share a breaker (`KeysShareNoBreaker`), and over a
stretch of constant policy every verdict on a key's call is that of a lone breaker or bucket fed with that key's
events alone (`StretchVerdictIsLone`, `VerdictsOfAKeyAreItsOwn`, `RateVerdictIsLone`, `ChargedCallFitsItsWindows`).
The keys themselves are parts joined by bars, which tells calls apart when no part holds a bar
(`BreakerKeysTellOriginsApart`) and not otherwise (`BarsMixTenants`). A half-open breaker is decided by the first
report of any call it admitted, also of one admitted before it opened (`LateReportCloses` is a run in which that
happens); it is certain to be a probe's if and only if no such call is still out
(`DeciderIsProbeExactlyWhenNoneIsLate`).

**OAuth authorization code** (`OAuthStore`, `OAuthGrant`, `OAuthHistory`, `OAuthEntitlement`; sections 4.1.2 and 4.1.3
of RFC 6749, sections 4.2 and 4.6 of RFC 7636). Over every interleaving at most one request for a code is granted
(`CodeGrantedAtMostOnce`), and only one that named a registered client with its secret and met every condition of the
code (`GrantedRequestWasEntitled`); an undisturbed request is granted if and only if it does
(`UndisturbedRequestIsGranted`). A validation accepts exactly the tokens saved, unrevoked and unexpired, whatever
happens between its read and its decision (`ValidationRefinesHistory`). "One code, one stored token" is false of the
code: two requests that overlap can both save a token before either deletes the code; one is answered, the other
refused, and both tokens validate (`TwoTokensForOneCode`, reachable by `TwoRequestsMayHoldOneCode`). It holds if and
only if no request reads the code, with checks that will pass, while another one is between its read and its delete
(`OneTokenExactlyWhenSerial`), which a caller gets by serving the token requests for one code one at a time.

**Algorithms** (`LoadBalancers`, `StreamParser`, `Capabilities`, `CapabilityErrors`, `Decimals`). Weighted round robin
is exactly proportional from any counter. The stream reassembler reports just the reasoning and the content of the
events, field by field (`DoneReportIsWhatEventsSay`), does not depend on how the text was chunked, and ends exactly on
a complete `data: [DONE]` line; a stream with carriage returns before its newlines therefore never completes
(`CarriageReturnsHideTheEnd`). The concurrent capability fetch never blocks on its error channel, always answers, and
answers with exactly what was fetched or with an error that was met (`AnsweredErrorWasReported`). The port printer
never leaves its 20-byte buffer and prints the one numeral of its number.

## Assumptions

Times are parameters: integers or reals. Store transactions run one after the other, and a row is stamped inside its
transaction, before the commit, so rows are stamped in the order of the commits. Reloads run one after the other.
Random codes and access tokens never repeat. SHA-256, URL parsing and JSON parsing are function parameters; a content
hash is taken to be injective. Each store transaction and each locked method body is atomic. Floating-point numbers
are `real`.

## Model

| member | source | states |
|---|---|---|
| `ConfigMerge.MergeConfigs` | internal/common/config/validator.go:213-242 | the loop equals the merge the algebra below is about |
| `ConfigMerge.MapIsMembership` | internal/common/config/validator.go:213-242 | with unique tenant and name, reading the list as a map loses and invents nothing |
| `ConfigMerge.MergeUpdatesMap` | internal/common/config/validator.go:213-242 | a merge changes the entry of its own key only: set by an upsert, removed by a deletion; unique keys stay unique |
| `ConfigMerge.ReplayOutcome` | internal/common/config/validator.go:213-242 | after a whole log, an entry is what the newest row of its key says, and untouched keys keep theirs |
| `ConfigMerge.RemergingSuffixChangesNothing` | internal/common/config/validator.go:213-242 | merging a suffix of an already merged log again changes nothing |
| `ConfigMerge.MergesOfDifferentKeysCommute` | internal/common/config/validator.go:213-242 | rows of different keys may be merged in either order |
| `ConfigMerge.PruningKeepsReplay` | internal/mcp/storage/db.go:287-303 | dropping all but the newest row of each key from a log leaves the replay's map unchanged |
| `ConfigValidator.ValidateDiscovery` | internal/common/config/validator.go:114-150 | no error exactly for acceptable discovery settings |
| `ConfigValidator.ValidateSingle` | internal/common/config/validator.go:32-112 | no error exactly when the name has at most 50 bytes, server and tool names are distinct, discovery settings are acceptable, routers name known servers and allowed tools exist |
| `ConfigValidator.CheckRepeats` | internal/common/config/validator.go:45-71 | no error exactly when no name repeats; the names seen are the names given |
| `ConfigValidator.LocatePrefixes` | internal/common/config/validator.go:178-190 | each normalised prefix has one recorded location for each of its occurrences |
| `ConfigValidator.CountsDecide` | internal/common/config/validator.go:192-200 | no prefix with two locations exactly when no two routers have the same normalised prefix |
| `ConfigValidator.ValidateMCPConfigs` | internal/common/config/validator.go:175-208 | no error exactly when every configuration is valid and all normalised prefixes are distinct |
| `ConfigValidator.PrefixesClashExactly` | internal/common/config/validator.go:182-186 | two prefixes count as one exactly when they are the same up to one slash at the end, and the empty one, `/` and `//` are all the root |
| `ConfigValidator.NamesHaveFiftyBytes` | internal/common/config/validator.go:32-43 | a name of characters of n UTF-8 bytes each is acceptable, in an otherwise empty configuration, exactly when n times its length is at most 50 |
| `VersionStore.DBStore.Create` | internal/mcp/storage/db.go:72-194 | the whole effect on the three tables: first creation, revival of a deleted configuration, refusal of a live one |
| `VersionStore.DBStore.Update` | internal/mcp/storage/db.go:234-307 | the method is the update step that `UpdateEffect` and `UpdatePrunesToLimit` speak of |
| `VersionStore.DBStore.PruneOldVersions` | internal/mcp/storage/db.go:287-303 | the collection and the deletions one by one are the pruning that `PruneToLimit`, `PruneOneBatch` and `PruneWithinLimit` speak of |
| `VersionStore.DBStore.Delete` | internal/mcp/storage/db.go:310-368 | the whole effect: a Delete row, then configuration and pointer soft-deleted |
| `VersionStore.DBStore.SetActiveVersion` | internal/mcp/storage/db.go:439-512 | the whole effect: the version's content goes live again under a new number |
| `VersionStore.DBStore.DeleteVersion` | internal/mcp/storage/db.go:421-436 | refuses the version a live pointer names; otherwise soft-deletes just that row |
| `VersionStore.DBStore.List` | internal/mcp/storage/db.go:211-231 | lists every live configuration exactly once |
| `VersionStore.DBStore.ListUpdated` | internal/mcp/storage/db.go:515-543 | delivers the rows created after the given time that are not soft-deleted, oldest first |
| `VersionStore.FindVersion` | internal/mcp/storage/db.go:439-455 | finds a row with the number, soft-deleted ones included, exactly when there is one |
| `StoreHistory.MaxVersionIsTop` | internal/mcp/storage/db.go:319-325 | the number computed with MAX is the highest number ever issued, pruned rows notwithstanding |
| `StoreHistory.NextNumbersAreFresh` | internal/mcp/storage/db.go:246-253 | the next number, found by name or by key, exceeds every number the key ever had |
| `StoreHistory.StepKeepsLog` | internal/mcp/storage/db.go:72-512 | an operation keeps the log telling every configuration's live content if and only if it is safe |
| `StoreHistory.StepKeepsStore` | internal/mcp/storage/db.go:72-512 | an operation keeps log, live table and pointers in step if and only if it is safe |
| `StoreHistory.StepRows` | internal/mcp/storage/db.go:72-512 | the log is append-only: at most one new row, and only deletion marks change in the others |
| `StoreHistory.OtherKeysUntouched` | internal/mcp/storage/db.go:72-512 | an operation leaves other keys' live rows and pointers alone |
| `StoreHistory.StoreInvExactlyForSafeRuns` | internal/mcp/storage/db.go:72-512 | over every run from an empty database: in step after each operation if and only if each was safe when it ran |
| `StoreHistory.PointerNamesNewestRow` | internal/mcp/storage/db.go:72-512 | the active version of a live configuration is its highest number; that row is kept and carries the live content; a deleted one's highest row is a Delete row |
| `StoreHistory.HandlersAreSafe` | internal/apiserver/handler/mcp.go:278-911 | looking the configuration up first, with names unique across tenants, makes every operation safe |
| `StoreHistory.SharedNameLosesUpdate` | internal/mcp/storage/db.go:246-265 | concrete run: with a name shared by two tenants an update changes the live row and logs nothing |
| `StoreHistory.RevivedConfigIsUnguarded` | internal/mcp/storage/db.go:421-512 | reverting a deleted configuration leaves the row it made live deletable |
| `StoreHistory.RevertOfRetiredConfig` | internal/mcp/storage/db.go:421-512 | concrete run: created, deleted, reverted, and the live version deleted |
| `StoreHistory.UpdateOfDeadConfig` | internal/mcp/storage/db.go:241-284 | every logged update of a configuration that is not live leaves it not live and the log wrong |
| `StoreHistory.DeadConfigIsUnguarded` | internal/mcp/storage/db.go:421-436 | the newest version of any deleted configuration can be deleted, and the log is then wrong |
| `StoreHistory.UpdateOfRetiredConfig` | internal/mcp/storage/db.go:241-284 | concrete run: an update of a deleted configuration logs content that does not go live |
| `StoreHistory.DeletedVersionOfRetiredConfig` | internal/mcp/storage/db.go:421-436 | concrete run: the newest version of a deleted configuration is deleted, and with it the Delete row |
| `StorePruning.OffsetRanks` | internal/mcp/storage/db.go:287-303 | the offset of a row in version order is its rank among the newest kept rows of its key |
| `StorePruning.PruneWithinLimit` | internal/mcp/storage/db.go:287-303 | with no more kept rows than the limit, or no limit, pruning changes nothing |
| `StorePruning.PruneToLimit` | internal/mcp/storage/db.go:287-303 | with at most a thousand rows more than the limit, exactly as many rows as the limit stay, each newer than every row soft-deleted |
| `StorePruning.PruneOneBatch` | internal/mcp/storage/db.go:287-303 | with more, one batch is soft-deleted: the rows behind the newest ones up to the limit |
| `StorePruning.UpdatePrunesToLimit` | internal/mcp/storage/db.go:241-303 | an update that logs a row: no mark changes within the limit; beyond it exactly the newest rows up to the limit stay; rows of other keys keep their marks |
| `StoreEffects.CreateEffect` | internal/mcp/storage/db.go:72-194 | a creation succeeds exactly when the configuration is not live and no stray pointer exists; live table, pointer and logged row afterwards, or the error |
| `StoreEffects.UpdateEffect` | internal/mcp/storage/db.go:234-284 | with a name of one tenant, an update sets the live content, and logs a row under the next number exactly when the newest row carries other content |
| `StoreEffects.RepeatedUpdateIsIdle` | internal/mcp/storage/db.go:246-265 | the same update of a live configuration again changes nothing |
| `StoreEffects.DeleteEffect` | internal/mcp/storage/db.go:310-368 | a deletion succeeds exactly for a live configuration and removes it from the live table; its logged row, or the error |
| `StoreEffects.SetActiveEffect` | internal/mcp/storage/db.go:439-512 | a revert succeeds exactly when the key has a row of that number, and puts that row's content in the live table |
| `StoreEffects.SetActiveIsLogged` | internal/mcp/storage/db.go:456-512 | the revert is logged under a number above all others, and the active version is that one |
| `StoreEffects.DeleteVersionEffect` | internal/mcp/storage/db.go:421-436 | a live configuration refuses exactly the deletion of its highest number; otherwise just that row is marked |
| `RuntimeIndex.CollectTools` | internal/core/state/state.go:79-84 | the tool map is the last tool of each name |
| `RuntimeIndex.CollectPrefixes` | internal/core/state/state.go:87-100 | a server is mapped to exactly its distinct prefixes, and only routed servers are mapped |
| `IndexScan.PrefixesAreDistinct` | internal/core/state/state.go:98-100 | no prefix is listed twice for a server |
| `RuntimeIndex.CollectAllowed` | internal/core/state/state.go:112-126 | the allowed tools that exist, and the count of those that do not |
| `RuntimeIndex.BuildStateFromConfig` | internal/core/state/state.go:73-252 | the nested loops and the shutdown pass are the build that `IndexEqualsScan`, `TransportsAreLaunchedAsConfigured` and `BuildsExactlyWhenServable` speak of |
| `RuntimeIndex.GetRouterCount` | internal/core/state/getter.go:37-45 | counts the indexed prefixes that have a router |
| `TransportLifetime.ReloadKeepsLifetimes` | internal/core/state/state.go:150-249 | one reload: stops only what was held and is no longer; holds nothing stopped; a failed build stops nothing |
| `TransportLifetime.StoppedTransportsNeverReturn` | internal/core/state/state.go:150-249 | over any run of reloads no two prefixes share a transport and no stopped transport is held again |
| `TransportLaunch.TransportsAreLaunchedAsConfigured` | internal/core/state/state.go:166-203 | over any run of reloads, validated or not, the transport of a prefix was created for a server of the kind, command, URL and arguments of the prefix's own |
| `TransportLaunch.TransportKeptExactlyForSameLaunch` | internal/core/state/state.go:166-203 | a validated reload keeps a routed prefix's transport if and only if these four are unchanged |
| `IndexScan.ValidRoutingIsDistinct` | internal/common/config/validator.go:175-208 | validated configurations route every prefix once |
| `IndexScan.IndexEqualsScan` | internal/core/state/state.go:73-227 | after a successful build of valid configurations each router's prefix has its own configuration's tenant, server, tools, protocol and transport, and nothing else is indexed |
| `IndexScan.ToolsResolveAsAllowed` | internal/core/state/getter.go:65-71 | a prefix resolves a tool name exactly when its own configuration's server allows it |
| `IndexScan.ProtocolIsKind` | internal/core/state/state.go:216-225 | a prefix is served over stdio, SSE or streamable HTTP exactly when it is routed to an MCP server of that kind, and over HTTP exactly when to none |
| `IndexScan.MissingToolsAreCounted` | internal/core/state/state.go:101-126 | for any configurations, the missing tools are the names listed by routed servers that no tool of their configuration has, each as often as listed |
| `IndexScan.CountersMatch` | internal/core/state/getter.go:37-53 | no tool is missing, and the router count is the number of configured routers |
| `IndexScan.RoutedTransport` | internal/core/state/state.go:166-249 | an old transport of a routed prefix is never stopped, and is held on exactly when the prefix's server is an MCP one of the same kind, command, URL and arguments |
| `IndexScan.ReplacedTransportIsLeaked` | internal/core/state/state.go:166-249 | an old transport is neither held nor stopped if and only if its prefix is still routed with other launch data |
| `IndexScan.MovedServerLeaksTransport` | internal/core/state/state.go:166-249 | concrete data: after a server's URL changed, its old transport is neither held nor stopped |
| `IndexScan.BuildsExactlyWhenServable` | internal/core/state/state.go:166-203 | a build succeeds if and only if every routed prefix of every MCP server can keep its transport, or get one from the discovery client or of a known kind |
| `IndexScan.ValidatedRunsAreWellKept` | internal/core/state/state.go:150-227 | every state of a run of validated reloads meets the scan theorem's precondition |
| `PullReload.Server.UpdateConfigs` | internal/core/server.go:360-428 | query, merge loop, validation and build against the store as it is at the query; the time is read before; a query that fails changes nothing |
| `PullReload.Server.ReloadConfigs` | internal/core/server.go:430-445 | installs the new state on success and changes nothing visible on failure |
| `PullReload.NewestIsDelivered` | internal/mcp/storage/db.go:515-543 | if a key's newest row is recent, the newest delivered row of the key is that one, despite pruning and redelivery |
| `PullReload.CollectedIsLive` | internal/core/server.go:360-412 | what a reload is about to build equals the live table, listed or merged |
| `PullReload.PullAgrees` | internal/core/server.go:360-428 | a successful reload leaves the copy equal to the live table |
| `PullReload.PullOutcomeExactly` | internal/core/server.go:360-428 | nothing to do exactly when no kept row is newer than the last reload; otherwise it takes effect exactly when what it collected is valid and every MCP prefix can be served |
| `PullReload.StepKeepsWorld` | internal/core/server.go:360-445 | a safe commit in time or a reload, failed ones included, lets the copy differ only at keys with a row still to be asked for |
| `PullReload.IncrementalReloadRefinesFullReload` | internal/core/server.go:360-428 | over every interleaving of commits in time and reloads, each successful reload yields exactly the live table at its query |
| `PullReload.CommitKeepsCopyExactlyInTime` | internal/mcp/storage/db.go:515-543 | a safe commit leaves the copy right, for now or for the next reload, if and only if it is in time or not visible |
| `PullReload.PullAgreesExactly` | internal/core/server.go:376-397 | a successful incremental reload yields the live table if and only if the copy was right before it |
| `PullReload.CopyRightExactlyWhenInTime` | internal/core/server.go:360-428 | over every run of safe commits and reloads: the copy is right at every moment if and only if every commit was in time |
| `PullReload.LateCommitIsNeverSeen` | internal/core/server.go:365-397 | a commit that is too late stays unseen over every later run that logs no row of its key |
| `PullReload.UnloggedUpdateIsNeverSeen` | internal/core/server.go:360-428 | over every later run of safe operations and reloads that logs no row of the configuration, the copy keeps the old content and the live table the new |
| `PullReload.PhantomUpdateIsServed` | internal/mcp/storage/db.go:241-284 | an update of a deleted configuration is served by the gateway though it is not live |
| `PullReload.UpdateSeenExactlyWhenSafe` | internal/core/server.go:360-428 | the next successful reload agrees with the live table if and only if the update was safe |
| `PullReload.LiveRoutersAreServed` | internal/core/server.go:360-445 | end to end: every router of every live configuration is served for its tenant, by its server, with the tools it allows, over its protocol, and with a transport exactly when it is an MCP one |
| `PullReload.OnlyLiveRoutersAreServed` | internal/core/server.go:360-445 | end to end: every indexed prefix is that of a router of a live configuration |
| `PullReload.RunIsBuilds` | internal/core/server.go:413-443 | a run of pull reloads is a run of builds: in every state no two prefixes share a transport and none stopped earlier is held |
| `PullReload.HandledReloadsAreExact` | internal/core/server.go:360-428 | with the handlers' look-ups and unique names the tables stay in step and every successful reload yields the live table |
| `TokenBuckets.TokenBucket.constructor` | internal/core/governance/ratelimit.go:59-69 | a new bucket is full |
| `TokenBuckets.TokenBucket.Allow` | internal/core/governance/ratelimit.go:71-85 | the method is the bucket step the theorems below are about |
| `TokenBuckets.LeastLevelInvariant` | internal/core/governance/ratelimit.go:71-85 | the tokens are the least remaining allowance of all windows opened so far |
| `TokenBuckets.BucketIsSlidingWindow` | internal/core/governance/ratelimit.go:45-85 | request k is admitted if and only if it fits the window since creation and since every request up to itself |
| `TokenBuckets.WindowBound` | internal/core/governance/ratelimit.go:45-85 | no window admits more than burst + qps times its length |
| `CircuitBreakers.CircuitBreaker.TryBefore` | internal/core/governance/circuitbreaker.go:59-78 | the method is the admission step that the three verdict lemmas below speak of |
| `CircuitBreakers.CircuitBreaker.ReportAfter` | internal/core/governance/circuitbreaker.go:80-107 | the method is the report step the theorems are about |
| `CircuitBreakers.CircuitBreaker.OpenNow` | internal/core/governance/circuitbreaker.go:109-115 | opened until now plus the open duration, counters zero |
| `CircuitBreakers.CircuitBreaker.CloseNow` | internal/core/governance/circuitbreaker.go:117-123 | closed, counters zero |
| `CircuitBreakers.ClosedCountersAreCounts` | internal/core/governance/circuitbreaker.go:80-107 | while closed, requests and failures count the reports since it last became closed |
| `CircuitBreakers.ClosedSinceExists` | internal/core/governance/circuitbreaker.go:59-123 | a closed breaker has such a moment in its history |
| `CircuitBreakers.OpensExactlyWhenCountsTrip` | internal/core/governance/circuitbreaker.go:96-106 | a closed breaker opens at exactly the report that brings the reports since it closed to the minimum and the failed share of them to the error rate |
| `CircuitBreakers.NoAdmissionWhileOpen` | internal/core/governance/circuitbreaker.go:63-70 | once opened at t, nothing is admitted before t plus the open duration |
| `CircuitBreakers.ProbeAfterOpenDuration` | internal/core/governance/circuitbreaker.go:63-76 | the first request after that is admitted as a probe |
| `CircuitBreakers.ClosedAdmitsAll` | internal/core/governance/circuitbreaker.go:59-78 | after any history a closed breaker admits a call at any time and stays as it was |
| `CircuitBreakers.OpenAdmitsFromEnd` | internal/core/governance/circuitbreaker.go:63-76 | an open breaker admits a call exactly from the end of its open duration on, and is half-open then |
| `CircuitBreakers.HalfOpenAdmitsUpToMax` | internal/core/governance/circuitbreaker.go:71-76 | a half-open breaker admits a call if and only if it admitted fewer than the maximum since it became half-open |
| `CircuitBreakers.HalfOpenDecides` | internal/core/governance/circuitbreaker.go:80-94 | the first report to a half-open breaker closes it afresh on success and opens it for the open duration otherwise |
| `GovernancePolicy.DefaultsSettle` | internal/core/governance/runtime.go:110-135 | defaults are usable, applying them again changes nothing, and they change nothing if and only if the policy is already usable and names a rate dimension |
| `GovernancePolicy.MergedPolicyIsSettled` | internal/core/governance/runtime.go:47-70 | over any other global policy a merged policy keeps its limits, breaker, fallback and request timeout, and stays equal if and only if the two agree on what it leaves unset |
| `GovernancePolicy.SectionsAreInherited` | internal/core/governance/runtime.go:47-70 | a section the server leaves unset is the global one's, a section it sets is its own |
| `GovernancePolicy.DefaultValues` | internal/core/governance/runtime.go:110-135 | the default of each field, and that what is set stays |
| `GovernanceRuntime.Runtime.GetBucket` | internal/core/governance/ratelimit.go:9-27 | a key keeps its bucket while its policy is unchanged and gets a full one otherwise |
| `GovernanceRuntime.Runtime.TryRate` | internal/core/governance/ratelimit.go:9-27 | charges the key's bucket and no other |
| `GovernanceRuntime.Runtime.GetBreaker` | internal/core/governance/circuitbreaker.go:19-33 | a key keeps its breaker while its policy is unchanged; the replaced object itself is left alone |
| `GovernanceRuntime.Runtime.Invoke` | internal/core/governance/runtime.go:72-108 | the whole chain of one call on limiters, breakers and outcome |
| `GovernanceRuntime.EveryRunKeeps` | internal/core/governance/runtime.go:72-108 | every state of every interleaving keeps the half-open bounds and counts its probes as pending |
| `GovernanceRuntime.HalfOpenAlwaysResolves` | internal/core/governance/circuitbreaker.go:59-123 | a half-open breaker admitted between one and its maximum of probes, at least that many reports are pending, and the next one ends half-open |
| `GovernanceRuntime.BreakerIsLone` | internal/core/governance/runtime.go:86-103 | each breaker is in the state of a lone one told just its own calls' requests and reports, replaced ones included |
| `GovernanceRuntime.VerdictIsLone` | internal/core/governance/runtime.go:86-91 | a call's verdict is that of the lone breaker |
| `GovernanceRuntime.KeyKeepsItsBreaker` | internal/core/governance/circuitbreaker.go:19-33 | while its policy is constant all calls of a key get one breaker, whatever other keys do |
| `GovernanceKeys.EveryRunIsOwned` | internal/core/governance/circuitbreaker.go:19-33 | in every state of every interleaving each breaker belongs to one key: the key it is registered for and the key of every call that holds it |
| `GovernanceKeys.KeysShareNoBreaker` | internal/core/governance/circuitbreaker.go:19-33 | calls of different keys never hold one breaker, and different keys are never registered with one |
| `GovernanceKeys.KeyBreakerIsLone` | internal/core/governance/runtime.go:86-103 | a key's breaker is a lone one told just the events of that key's calls since its policy last changed |
| `GovernanceKeys.KeyVerdictIsLone` | internal/core/governance/runtime.go:86-91 | the verdict on a call of the key is that lone breaker's |
| `GovernanceKeys.StretchVerdictIsLone` | internal/core/governance/runtime.go:86-103 | over any stretch of constant policy that starts with none of the key's calls in flight under an earlier one, every verdict is that of a lone breaker told what its breaker had heard and all the key's events in the stretch |
| `GovernanceKeys.VerdictsOfAKeyAreItsOwn` | internal/core/governance/runtime.go:86-103 | if a key's policy never changes, its verdicts are those of a lone breaker fed with all events of that key's calls and no others |
| `GovernanceKeys.ChargedCallFitsItsWindows` | internal/core/governance/ratelimit.go:9-27 | over every interleaving a charged call passes if and only if it fits the window since its key's first charge and since every charge up to its own |
| `KeyNames.RateKey` | internal/core/governance/ratelimit.go:29-50 | the loop joins the parts the dimension names, or tenant, server and tool if it names none |
| `KeyNames.SplitOfJoin` | internal/core/governance/circuitbreaker.go:24-24 | parts without a bar can be read back from the joined key |
| `KeyNames.BreakerKeysTellOriginsApart` | internal/core/governance/circuitbreaker.go:24-24 | without bars, breaker keys are equal exactly for the same tenant, prefix, server and tool |
| `KeyNames.RateKeysTellPartsApart` | internal/core/governance/ratelimit.go:29-50 | without bars, rate keys are equal exactly for calls that agree on tenant, prefix, server, tool and client as far as the dimension names them, and on tenant, server and tool if it names none |
| `KeyNames.DefaultDimension` | internal/core/governance/ratelimit.go:29-50 | under the default dimension calls share a bucket exactly when they are of one tenant and one tool |
| `KeyNames.OriginsShareNoBreaker` | internal/core/governance/circuitbreaker.go:19-33 | over every interleaving calls of different origins without bars never hold one breaker |
| `KeyNames.BarsMixTenants` | internal/core/governance/circuitbreaker.go:24-24 | with a bar in a tenant's name, two tenants share a breaker key |
| `GovernanceProbes.EveryRunKeepsProbes` | internal/core/governance/circuitbreaker.go:59-91 | in every state a half-open breaker's count is the number of calls let through since it became so, all still to report |
| `GovernanceProbes.DeciderIsProbeExactlyWhenNoneIsLate` | internal/core/governance/circuitbreaker.go:80-91 | every pending call of a half-open breaker is a probe if and only if no more are pending than it counts |
| `GovernanceProbes.LateReportCloses` | internal/core/governance/circuitbreaker.go:80-91 | a reachable run in which a call admitted before the breaker opened closes it while the probe is still out |
| `GovernanceVerdicts.FoundBreakerHasPolicy` | internal/core/governance/circuitbreaker.go:19-57 | over every interleaving the breaker a call has found was made with the four limits of the call's own policy |
| `GovernanceVerdicts.AskVerdict` | internal/core/governance/circuitbreaker.go:59-78 | over every interleaving a call that asks goes on if its breaker is closed, if fewer probes than its policy allows were let through since half-open, or if the open duration is over; else it ends with the circuit open |
| `GovernanceVerdicts.BreakerFollowsPolicy` | internal/core/governance/circuitbreaker.go:19-43 | a key keeps its breaker exactly while its four limits are unchanged and gets a closed one otherwise |
| `GovernanceVerdicts.UnchargedCalls` | internal/core/governance/ratelimit.go:9-16 | an unauthorized call is denied and a call without limit passes, neither charged; all others are charged |
| `GovernanceVerdicts.FirstChargePasses` | internal/core/governance/ratelimit.go:9-27 | a charge to a key without bucket, or with one of another rate or burst, starts a full one and passes |
| `GovernanceRuntime.LimiterIsLone` | internal/core/governance/ratelimit.go:9-27 | over a stretch of constant policy a key's bucket is a lone bucket charged with that key's calls |
| `GovernanceRuntime.RateVerdictIsLone` | internal/core/governance/ratelimit.go:9-27 | the verdict on a charged call is the lone bucket's |
| `GovernanceRuntime.UndisturbedCall` | internal/core/governance/runtime.go:72-108 | the steps of a call taken in sequence are the method's call |
| `OAuthStore.MemoryStorage.GetAuthorizationCode` | internal/auth/storage/memory.go:94-117 | an unexpired code is returned; an expired one is deleted after a second check |
| `OAuthStore.MemoryStorage.SaveAuthorizationCode` | internal/auth/storage/memory.go:84-91 | the new contents of the store |
| `OAuthStore.MemoryStorage.DeleteAuthorizationCode` | internal/auth/storage/memory.go:119-129 | succeeds exactly when the code is there, and removes it |
| `OAuthStore.MemoryStorage.GetToken` | internal/auth/storage/memory.go:142-165 | an unexpired token is returned; an expired one is deleted after a second check |
| `OAuthStore.MemoryStorage.SaveToken` | internal/auth/storage/memory.go:132-140 | the new contents of the store |
| `OAuthStore.MemoryStorage.DeleteToken` | internal/auth/storage/memory.go:167-177 | succeeds exactly when the token is there, and removes it |
| `OAuthStore.MemoryStorage.CreateClient` | internal/auth/storage/memory.go:41-55 | refuses an id already taken |
| `OAuthGrant.IsValidRedirectUri` | internal/auth/oauth.go:401-421 | accepts exactly a URI with a registered scheme and host and a registered path as prefix |
| `OAuthGrant.OAuthServer.Authorize` | internal/auth/oauth.go:87-147 | stores the one code it answers with, or nothing |
| `OAuthGrant.OAuthServer.Grant` | internal/auth/oauth.go:263-332 | the method is the undisturbed exchange that `ExchangeGrantedExactlyWhenEntitled` and `RefusalTellsWhy` speak of |
| `OAuthGrant.OAuthServer.ValidateToken` | internal/auth/oauth.go:435-450 | the whole effect of an undisturbed validation |
| `OAuthGrant.OAuthServer.Revoke` | internal/auth/oauth.go:246-260 | the whole effect of an undisturbed revocation |
| `OAuthGrant.EveryRunKeeps` | internal/auth/oauth.go:246-332 | in every state of every interleaving, codes and tokens stored are those the history calls for |
| `OAuthHistory.CodeGrantedAtMostOnce` | internal/auth/oauth.go:263-332 | over every interleaving two granted requests never have one code |
| `OAuthHistory.GrantedRequestWasEntitled` | internal/auth/oauth.go:150-332 | a granted request named a registered client and its secret, had a code read unexpired and issued to that client and redirect URI, and its verifier was the challenge or its SHA-256 was, as the method says |
| `OAuthGrant.ChallengeIsComputable` | internal/auth/oauth.go:423-433 | the challenge method of a stored code is always one the token endpoint can compute |
| `OAuthGrant.CodeReadRefinesHistory` | internal/auth/storage/memory.go:94-129 | reading a code succeeds exactly when it was issued, not exchanged and not expired, whatever expiry deletions interleave |
| `OAuthGrant.TokenReadRefinesHistory` | internal/auth/storage/memory.go:132-177 | reading a token succeeds exactly when a grant saved it, none revoked it and it has not expired |
| `OAuthHistory.ValidationRefinesHistory` | internal/auth/oauth.go:435-450 | whatever other requests do between its read and its decision, a validation accepts exactly when the token was saved, unrevoked and unexpired at the read, and unexpired at the decision |
| `OAuthHistory.OneTokenWhenSerial` | internal/auth/oauth.go:263-332 | if no request takes a code while another is between its read and its delete of it, at most one token is ever saved for the code |
| `OAuthHistory.TwoHoldersCanSaveTwice` | internal/auth/oauth.go:269-325 | from any reachable state with two requests holding a code, both can save a token |
| `OAuthHistory.OneTokenExactlyWhenSerial` | internal/auth/oauth.go:263-332 | a run is serial for a code if and only if at none of its moments any two requests can go on to leave two tokens for it |
| `OAuthGrant.OvertakenRequestLeavesToken` | internal/auth/oauth.go:300-325 | a request that finds the code gone was overtaken or late: refused, but its token stays stored |
| `OAuthGrant.TwoTokensForOneCode` | internal/auth/oauth.go:300-325 | two requests that both read a code both leave a valid token |
| `OAuthGrant.TwoRequestsMayHoldOneCode` | internal/auth/oauth.go:263-300 | such a state is reachable |
| `OAuthGrant.UndisturbedGrant` | internal/auth/oauth.go:263-332 | the steps of a token request taken in sequence are the method's grant |
| `OAuthEntitlement.CodeIssuedExactlyWhenAllowed` | internal/auth/oauth.go:87-147 | a code is issued exactly to a registered client that asks for one, with a redirect URI of a registered scheme, host and path prefix and a known challenge method; what it holds, and ten minutes of life |
| `OAuthEntitlement.IssuedCodeHasOrigin` | internal/auth/oauth.go:87-147 | over every run each code on record is just what an authorization request of the run asked for, with a redirect URI within a registered one of its client |
| `OAuthEntitlement.ExchangeGrantedExactlyWhenEntitled` | internal/auth/oauth.go:150-332 | an undisturbed exchange is granted if and only if client, secret, code, expiry, redirect URI and verifier are right; code and token afterwards |
| `OAuthEntitlement.RefusalTellsWhy` | internal/auth/oauth.go:150-300 | which error each kind of refused request is answered |
| `OAuthEntitlement.UndisturbedRequestIsGranted` | internal/auth/oauth.go:150-332 | over every history a request whose steps follow one another is granted if and only if its code was issued, not exchanged, has not expired, and the request is entitled to it |
| `OAuthEntitlement.UndisturbedRevoke` | internal/auth/oauth.go:246-260 | the steps of a revocation taken in sequence are the method's revocation |
| `OAuthEntitlement.UndisturbedValidate` | internal/auth/oauth.go:435-450 | the steps of a validation taken in sequence are the method's validation |
| `OAuthEntitlement.RevocationRemovesExactlyItsToken` | internal/auth/oauth.go:246-260 | over every history a revocation succeeds exactly for a saved, unrevoked and unexpired token; the token is not stored afterwards, and all others stay |
| `OAuthEntitlement.ValidationAcceptsExactlyLiveTokens` | internal/auth/oauth.go:435-450 | over every history a validation accepts exactly the saved, unrevoked and unexpired tokens; a refused token is not stored afterwards, and no live one is dropped |
| `LoadBalancers.Weight` | internal/core/discovery/load_balancer.go:55-58 | the weight truncated toward zero, and at least one |
| `LoadBalancers.PickIsUnique` | internal/core/discovery/load_balancer.go:66-77 | each slot of the cycle belongs to exactly one instance |
| `LoadBalancers.LoadBalancer.Select` | internal/core/discovery/load_balancer.go:29-50 | what each policy returns and what it does to the counter |
| `LoadBalancers.LoadBalancer.SelectWeighted` | internal/core/discovery/load_balancer.go:52-79 | both loops: the instance whose share holds the slot; the final fallback is never reached |
| `LoadBalancers.CycleIsProportional` | internal/core/discovery/load_balancer.go:52-79 | any W consecutive picks, W the total weight, choose an instance exactly its weight times |
| `LoadBalancers.PicksAreProportional` | internal/core/discovery/load_balancer.go:52-79 | any m picks choose it between floor(m/W) and ceil(m/W) times its weight |
| `LoadBalancers.RoundRobinIsWeighted` | internal/core/discovery/load_balancer.go:45-49 | plain round robin is the case of equal weights |
| `StreamParser.HandleStreamResponse` | web/src/services/llm-chat.ts:469-569 | what is reported depends only on the text the chunks make up, and is the report that `DoneReportIsWhatEventsSay` and `OpenReportIsWhatEventsSay` speak of |
| `StreamParser.HandleLines` | web/src/services/llm-chat.ts:499-508 | the complete lines of one buffer are handled in order, and none behind a done line |
| `StreamParser.TakeFragments` | web/src/services/llm-chat.ts:526-552 | the branching updates of the accumulator add up fragment by fragment |
| `StreamParser.SplitJoin` | web/src/services/llm-chat.ts:495-497 | keeping what follows the last newline makes splitting by chunks the same as splitting the whole text |
| `StreamParser.LinesMakeUpText` | web/src/services/llm-chat.ts:495-497 | the lines with their newlines and the residue make up the text in order, and no line holds a newline |
| `StreamParser.TextMakesUpLines` | web/src/services/llm-chat.ts:495-497 | any such list of lines and residue is what splitting the text gives: there is only one |
| `StreamParser.LinesStandInText` | web/src/services/llm-chat.ts:495-497 | a line is handled if and only if it stands in the text between line starts and a newline |
| `StreamParser.CompletesExactlyOnDoneLine` | web/src/services/llm-chat.ts:500-508 | completion is reported if and only if a complete done line stands in the text, once, last, with all content reported |
| `StreamParser.FailsExactlyBeforeTheEnd` | web/src/services/llm-chat.ts:488-566 | a failure is reported exactly when reading breaks off and no done line has come in; never both a failure and the end |
| `StreamParser.ReportMeansLines` | web/src/services/llm-chat.ts:469-586 | the report ends with the calls and the message that the lines before the first done line add up to, or never ends |
| `StreamParser.DoneReportIsWhatEventsSay` | web/src/services/llm-chat.ts:510-587 | with a done line the report is the reasoning and the content of the events before it, field by field in order, then the calls, if any, and all the content as the message |
| `StreamParser.OpenReportIsWhatEventsSay` | web/src/services/llm-chat.ts:488-566 | without one it is the reasoning and the content of all events, and then the failure, if reading broke off |
| `StreamParser.TellingsJoin` | web/src/services/llm-chat.ts:516-525 | the pieces of content reported join to the content of the events, the pieces of reasoning to their reasoning |
| `StreamParser.CallsDoNotMix` | web/src/services/llm-chat.ts:527-551 | each index gets its own fragments' arguments in order, last name and id, first type, however interleaved |
| `StreamParser.DefaultIdTellsIndex` | web/src/services/llm-chat.ts:533-533 | a call without an id is named after its index, which can be read back |
| `StreamParser.DeliveredCallsAreWhole` | web/src/services/llm-chat.ts:571-586 | what is delivered for an index is what its own fragments add up to, with the name restored |
| `StreamParser.CarriageReturnsHideTheEnd` | web/src/services/llm-chat.ts:499-508 | a stream whose newlines all follow a carriage return never completes |
| `StreamParser.RestoredIsFirstMatch` | web/src/services/llm-chat.ts:180-193 | a restored name is that of the first tool sent under it, or the guess when there is none |
| `StreamParser.NamesComeBackExactlyWhenDistinct` | web/src/services/llm-chat.ts:169-193 | every tool's own name comes back if and only if the sent names are distinct |
| `StreamParser.RestoredNameIsSentAgain` | web/src/services/llm-chat.ts:169-193 | a restored name would be sent again as the provider gave it |
| `Capabilities.SendsNeverBlock` | internal/apiserver/handler/mcp.go:1070-1199 | over every interleaving no send finds the channel full or closed |
| `Capabilities.StepKeepsExclusive` | internal/apiserver/handler/mcp.go:1137-1168 | inside the critical section the list read is still the list |
| `Capabilities.ListIsWhatWasAdded` | internal/apiserver/handler/mcp.go:1137-1168 | in every state a shared list is, as a multiset, all that was appended: no append is lost |
| `Capabilities.CollectedIsFetched` | internal/apiserver/handler/mcp.go:1113-1193 | at the close the lists are, as multisets, exactly all lists successfully fetched in the run |
| `Capabilities.AnswerIsExact` | internal/apiserver/handler/mcp.go:1191-1216 | an error exactly when there are servers and nothing was fetched, else exactly what was fetched; every transport started was stopped |
| `Capabilities.TransportsAreLeftAsFound` | internal/apiserver/handler/mcp.go:1088-1110 | when the answer is there, the transports that run are exactly those that were found running |
| `CapabilityErrors.SentIsReported` | internal/apiserver/handler/mcp.go:1070-1199 | at the close the channel has taken, as a multiset, exactly the errors the calls of the run reported and the notices of the servers that were asked |
| `CapabilityErrors.AnsweredErrorWasReported` | internal/apiserver/handler/mcp.go:1195-1212 | an error answered is one of them |
| `Capabilities.NeverStuck` | internal/apiserver/handler/mcp.go:1058-1216 | as long as there is no answer some goroutine can go on |
| `Capabilities.RunsAreShort` | internal/apiserver/handler/mcp.go:1058-1216 | no run is longer than fifteen steps a server and two |
| `Decimals.UintToString` | internal/registry/types.go:31-43 | the result is a numeral of the value; no index leaves the buffer |
| `Decimals.NumeralIsUnique` | internal/registry/types.go:31-43 | a string is the printed form if and only if it is a numeral without leading zeros that parses to the number |
| `Decimals.ValuePrintsBack` | internal/registry/types.go:31-43 | parsing a numeral and printing again gives it back |
| `Decimals.BufferIsTight` | internal/registry/types.go:35-36 | twenty bytes suffice for every 64-bit number, and some need them all |
| `Decimals.AddressIsUnambiguous` | internal/registry/types.go:24-29 | a non-empty address determines IP and port, even when the IP contains colons |

## Left out

- The refresh-token grant: it looks its token up by the access-token key (internal/auth/oauth.go:339).
- The push path (`UpdateConfig` and the notifiers): delivery may be late or carry an older configuration, so no agreement holds there.
- SQL, gorm and Redis: tables are values and each transaction is atomic; transactions that overlap are not modelled.
- `Get`, `GetVersion`, `ListVersions`: plain reads.
- The order in which `List` returns rows and in which rows of equal creation time are delivered: rows have distinct times.
- Validation messages: what is proved is when there is an error, not its wording.
- Creation and update times of configuration rows, and the prompts and tool schemas of the index: field copies.
- Starting MCP servers in the background (`startMCPServer`), what transports do inside, and errors when stopping them.
- Nacos, discovery, OpenAPI conversion, DNS checks, routing, logging, tracing, metrics.
- Authorization rules and how a client's identity is read from headers: the verdict and the identity are inputs.
- The request timeout and the content of fallback results: an invoker returns with success or failure, at some time.
- Rounding of floating-point numbers, and wrap-around of the load balancer's counter and of breaker counters.
- A nil load balancer, and `NewLoadBalancer` mapping unknown policy names to round robin.
- Generation of client secrets, password hashing, deletion and update of clients, and `DeleteTokensByClientID`.
- Metadata and dynamic registration endpoints of the OAuth server.
- Exceptions thrown by callbacks, and UTF-8 decoding: chunks are decoded text.
- Tool-call indices that are not natural numbers, and values of the wrong type in an event.
- The order of `Object.values` in the delivered tool calls: they are delivered as a table by index.
- `Setting.parse` in the stream model gives what the handler takes from one event before an exception, if any, is caught.
- Resources and resource templates of a server: the source sends a fixed notice instead of fetching them.
- PullReload.HandledReloadsAreExact: takes each request, look-up and operation, as one step, as HandlersAreSafe does.
- StoreHistory.HandlersAreSafe: states what the handlers' look-up gives for whole requests, not for handlers racing between look-up and operation; a delete that falls in between makes an update unsafe as `UpdateOfRetiredConfig` shows. `DeleteVersion` is not called by any handler and is not let through here.
- RuntimeIndex.BuildStateFromConfig: does not index prompts and tool schemas and does not start servers in the background, because the build copies or starts them without looking at them again; fields that are only passed on are one `settings` field.
- GovernanceRuntime.Runtime.Invoke: takes the authorization verdict as an input and does not model the text of a fallback result or the request timeout.
- The React UI, model catalogues and the vendored editor.
