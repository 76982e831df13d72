# Verified models of the kernel's stateful runtime

This project models the parts of the kernel whose behaviour depends on order, interleaving or accumulated state,
and proves what they keep:

* **Authority ledger.** An append-only registry of change sets and rows, replayed page by page into a table of
  grants. Appends, page reads, commits, drafts and staleness checks of any number of workers interleave as atomic
  steps (`AuthorityRuns`). Over every interleaving the table is the replay of a prefix of the ledger's authority
  rows, comparing two counts decides staleness exactly, supersession runs strictly backwards, and what a
  principal may do is a function of ledger and clock. `GrantLaws` follows one request to the end: when the grant is
  in force, what it confers, and that what it ends stays ended, for every later reader.
* **Execution lifecycle.** Executions, activations, route bindings, suspensions and the job queue, changed by
  launch, stop, late process exit, budget kill, activation, enqueue and restart. Each handler is the list of SQL
  statements it issues (`Executions`), run as one step for the invariant (`LifecycleRuns`), cut off after any
  statement by a crash (`LifecycleCrash`), interleaved with all others statement by statement, crashes and
  unfinished recoveries included (`LifecycleInterleaved`), or raced by another handler (`LifecycleRaces`).
* **Job queue, rate limiter, budget enforcement, log line writer, footprint widths**, each as the mutating
  method or class it is, proved against a history or a declarative reference.
* **Contract validator and registry catalog.** The validator's loops accept exactly the declaratively well-formed
  contracts; the catalog's nested loops build exactly what a plain scan finds, and lookups over the flattened lists
  resolve its links.
* **Path routing and permalinks.** When the first hit is the longest match, when two selectors agree, when mounts
  round-trip, and that permalinks resolve forever.

Tables are maps and sequences; a statement or transaction is one atomic step. Classes hold the tables as fields,
their methods are proved against functions of the old state, and the theorems are about runs of those functions.
Times are natural numbers counted from Go's zero time, so 0 stands for "no time". Random ids, clocks, health
checks, file existence, path arithmetic and hashing are parameters. Verify with `dafny verify dfyconfig.toml`.

Some expectations do not hold of the code; each is stated with the exact condition under which it does:

* "An activated reference has stable routes" fails when a sibling execution is stopped or an execution without
  routes is activated (`LifecycleRoutes.BecomesDarkIff`; `LifecycleRounds.ServedReferenceGoesDark` is a run).
* Handlers interleaved statement by statement can leave a terminated execution activated and routed, or stable
  routes without their activation. Writes of an activation that come late, all of them or the rest, are harmless
  iff the execution is unchanged and, when the activation was written before, still holds it or declares no route
  (`LifecycleRaces.LateWritesIff`); the same is said of a launch (`LifecycleRaces.LateLaunchIff`).
  `LifecycleRaces.ActivationsRaceHappens` is a run in which two activations cross; a restart repairs it
  (`LifecycleInterleaved.RecoveryFromAnywhere`).
* A job id with spaces around it is stored as given, but looked for without them when the job ends, so such a job
  can never be completed or failed (`JobQueue.SettledIff`, `JobQueue.PaddedNeverSettles`,
  `LifecycleService.TickIsEventIff`).
* A commit of an old read can put back an older projection (`AuthorityTheorems.StaleCommit`, with a run in
  `AuthorityTheorems.StaleCommitHappens`); the next count check notices. A commit that falls between a reader's
  own check and its query is not noticed: the query sees all that the check vouched for iff the last commit in
  between had read as many authority rows as the ledger held (`AuthorityGap.SelectSeesCheckedIff`, with a run in
  `AuthorityGap.StaleAnswerHappens`).
* Creating a grant under an id that was used before stores nothing (`GrantLaws.TakenIdChangesNothing`), so a
  revocation sent that way ends nothing. Under an id with spaces around it the grant is stored, but looked for without
  them, so the answer is the grant of the trimmed id or that there is none
  (`AuthorityService.Service.CreateAuthorityGrant`).
* The legacy migration at the start of a rebuild repeats grant ids when another worker creates and rebuilds between
  its count and its listing, unless its change set is already taken by rows of others
  (`LegacyMigration.MigrationHarmlessIff`, with a run in `LegacyMigration.MigrationRaceHappens`). The count check
  then asks for a rebuild for ever; the grants shown stay the same iff those added have their creation times
  (`LegacyMigration.MigrationKeepsGrantsIff`).
* "An interactive contract has a command" fails for a surface kind written with spaces around it
  (`Validator.CommandlessIff`).
* A kind spelled with extra spaces opens a stub object in the catalog (`CatalogTheorems.StubIff`), and a lookup of
  the kind may answer with the stub (`CatalogLookup.ObjectLookupIff`).
* "The longest prefix wins" fails for routes sorted by the length of prefixes that are not in normal form
  (`Routing.FirstHitIsLongestIff`, `Routing.TieHidesLonger`).
* The two path matchers differ on prefixes that end in two slashes (`Routing.MatchersDifferIff`), and the two
  selections differ besides for the root and for paths without a leading slash (`Routing.SameSelectionIff`).
* A mounted path does not come back when its prefix is stored without the leading slash, as the stored text is what
  is stripped, and may not when prefixing leaves it alone (`Routing.MountRoundTripIff`,
  `Routing.BareMountKeepsItsPrefix`).

## Model

| member | source | states |
|---|---|---|
| Normalize.NormalizeStringList | kernel/internal/interactions/runtime_helpers.go:87-106 | the loop returns a sorted, duplicate-free list of exactly the trimmed, non-blank values |
| Normalize.NormalizeListByMembers | kernel/internal/interactions/runtime_helpers.go:87-106 | neither order nor repetition of the input shows in the normalised list |
| Registry.RegistryTables.AppendRegistryChangeSet | kernel/internal/interactions/runtime_registry.go:12-90 | rejects blank identities, empty row lists and blank row types without change; otherwise opens or reuses the change set and inserts or keeps each row |
| Registry.RegistryTables.InsertOrKeep | kernel/internal/interactions/runtime_registry.go:64-85 | a row already stored at its order is kept and returned, a new one takes the next row id |
| Registry.AppendStoresRequest | kernel/internal/interactions/runtime_registry.go:12-90 | an append is refused for want of identity, rows or row types; otherwise its change set and rows are what was given, field by field, except where id or order is taken |
| Registry.AppendKeepsValid | kernel/internal/interactions/runtime_registry.go:25-90 | after any append every row agrees with its change set, orders run without gap from 0, row ids increase, and nothing stored before has changed |
| Registry.AppendIdempotent | kernel/internal/interactions/runtime_registry.go:40-85 | repeating an append that names its change set, in any later state, stores nothing and returns the first answer |
| Registry.RunAppendOnly | kernel/internal/interactions/runtime_registry.go:12-90 | over every history of appends the ledger stays valid and only grows |
| Registry.RetryAfterAnyHistory | kernel/internal/interactions/runtime_registry.go:12-90 | a retry after any history of appends is answered as the first time |
| Paging.PageContinues | kernel/internal/interactions/runtime_registry.go:151-188 | a page of any size picks up exactly where the cursor stands, and an empty page means nothing is left |
| Paging.UntilStable | kernel/internal/interactions/runtime_registry.go:151-188 | rows appended later do not change what lies behind a cursor |
| Paging.ReadAuthorityRows | kernel/internal/interactions/runtime_authority_materializer.go:181-217 | the paging loop ends and has visited every authority row exactly once, in row-id order, whatever the page size |
| Replay.MaterializePayload | kernel/internal/interactions/runtime_authority_materializer.go:234-323 | a payload is refused iff one of its required fields is blank; otherwise its grant is stored with all of its fields, lists normalised and zero times absent, and its bundle with the name and capabilities it gives or else those stored before |
| Replay.Rebuild | kernel/internal/interactions/runtime_authority_materializer.go:180-224 | clears the grants and applies the rows in order, or fails as a whole on a payload that does not decode; afterwards the table shows, for each id, the fields of the last payload naming it |
| Replay.RebuiltShowsPayloads | kernel/internal/interactions/runtime_authority_materializer.go:234-290 | what a payload carries, field by field, is what a rebuild from its ledger shows |
| Replay.RebuiltTableIsLastWriter | kernel/internal/interactions/runtime_authority_materializer.go:180-224 | the rebuilt table holds for each grant id the last row naming it, and no other id |
| Replay.RebuildTwice | kernel/internal/interactions/runtime_authority_materializer.go:180-323 | rebuilding a second time from the same rows changes neither table |
| Replay.ReplayIsCombinedEdit | kernel/internal/interactions/runtime_authority_materializer.go:296-323 | replay does to each bundle what one combined edit of its payloads does |
| Replay.ReplayResetsCapabilities | kernel/internal/interactions/runtime_authority_materializer.go:296-323 | a bundle edit made outside the ledger does not survive a replay that lists capabilities |
| GrantDraft.DecideGrant | kernel/internal/interactions/runtime_authority.go:129-226 | decides on a request step by step: id, status, superseded grant, inherited and required fields, bundle, capabilities, times |
| GrantDraft.DraftReplays | kernel/internal/interactions/runtime_authority.go:129-226 | every composed grant replays, has capabilities, and supersedes only a grant that was found |
| GrantDraft.DraftAcceptedIff | kernel/internal/interactions/runtime_authority.go:129-194 | a request is accepted iff its status is known, the grant it supersedes exists, all required fields are given or inherited, its bundle exists and some capability comes with it |
| GrantDraft.DraftCarries | kernel/internal/interactions/runtime_authority.go:129-226 | an accepted request is drafted as it was made: its own times, beginning now when accepted without one, its fields or those of the grant it ends, and exactly the capabilities of its bundle or of the grant a revocation or supersession ends |
| GrantDraft.RevocationMirrors | kernel/internal/interactions/runtime_authority.go:140-194 | a revocation naming only the grant it ends carries that grant's grantee, bundle, scope and capabilities |
| AuthorityLedger.AuthorityIdsDistinct | kernel/internal/interactions/runtime_authority.go:226-249 | no two authority rows carry the same grant id, because each grant owns the change set named after it |
| AuthorityLedger.AuthorityRowsAre | kernel/internal/interactions/runtime_authority_materializer.go:181-217 | the rows a rebuild replays are exactly the grant rows of the authority reference, seed and realization, in ledger order |
| AuthorityLedger.OtherAppendKeeps | kernel/internal/interactions/runtime_registry.go:12-90 | appends of other rows leave the authority rows as they are, even into a grant's change set |
| AuthorityLedger.GrantAppendOpens | kernel/internal/interactions/runtime_authority.go:226-249 | a new grant opens a change set named after it in the authority's registry, accepted by its grantor or else the system |
| AuthorityLedger.GrantAppendKeeps | kernel/internal/interactions/runtime_authority.go:226-249 | appending a draft adds exactly its row when its change set is new, nothing otherwise, and keeps supersession pointing back |
| Effective.QueryActive | kernel/internal/interactions/runtime_authority.go:310-337 | the query returns exactly the accepted grants of the principal that have begun and not run out and that no accepted, revoked or superseded grant supersedes, newest first |
| Effective.AddGrant | kernel/internal/interactions/runtime_authority.go:338-365 | the inner loop files one grant under each capability and scope it holds, and changes no other entry |
| Effective.Policies | kernel/internal/interactions/runtime_authority.go:338-387 | one entry per capability and scope that an active grant holds, in order, listing exactly those grants' ids, sorted and without repeats |
| Effective.ActiveUnique | kernel/internal/interactions/runtime_authority.go:310-337 | the active grants listed, their order included, are determined by table, principal and clock |
| Effective.AnswerReads | kernel/internal/interactions/runtime_authority.go:310-387 | the answer can be read off the table: the grants in force, newest first, and one entry for each capability and scope that one of them confers, naming exactly the grants that do |
| AuthorityRuns.ReadPageKeeps | kernel/internal/interactions/runtime_authority_materializer.go:181-217 | a read that ends has collected exactly the authority rows of the ledger at its last page, whatever was appended in between |
| AuthorityRuns.CheckPageKeeps | kernel/internal/interactions/runtime_authority_materializer.go:149-178 | a finished staleness check asks for a rebuild iff the table it counted was not the replay of the ledger as it stands at the end of the check |
| AuthorityRuns.CountDecides | kernel/internal/interactions/runtime_authority_materializer.go:149-178 | equal counts never hide staleness |
| AuthorityRuns.CommitKeeps | kernel/internal/interactions/runtime_authority_materializer.go:197-224 | a commit always applies and leaves the replay of what its session read |
| AuthorityRuns.StepKeeps | kernel/internal/interactions/runtime_authority_materializer.go:36-224 | every step of every worker keeps the ledger valid, the table a prefix replay and all sessions sound |
| AuthorityRuns.RunKeeps | kernel/internal/interactions/runtime_authority_materializer.go:149-224 | the same over every interleaving, and the ledger only grows |
| AuthorityRuns.EveryRun | kernel/internal/interactions/runtime_authority_materializer.go:149-224 | the invariant holds after every run from the empty system |
| AuthorityTheorems.CountCheckIsExact | kernel/internal/interactions/runtime_authority_materializer.go:149-178 | in every reachable state the counts are equal iff the projection is fresh |
| AuthorityTheorems.StaleCommit | kernel/internal/interactions/runtime_authority_materializer.go:180-224 | a commit leaves a fresh projection iff nothing was appended since its last read, and the counts tell which |
| AuthorityTheorems.CreateRacesCommit | kernel/internal/interactions/runtime_authority_materializer.go:180-224 | a new grant created between a rebuild's last read and its commit makes the commit stale, from every reachable state |
| AuthorityTheorems.StaleCommitHappens | kernel/internal/interactions/runtime_authority_materializer.go:180-224 | a run from the empty system that ends with a stale projection |
| AuthorityTheorems.SupersessionAcyclic | kernel/internal/interactions/runtime_authority.go:140-167 | in every reachable ledger a chain of supersessions runs strictly backwards |
| AuthorityTheorems.EndedForever | kernel/internal/interactions/runtime_authority.go:310-326 | once an accepted, revoked or superseded payload supersedes a grant, it is active in no later fresh projection, for any principal at any time |
| AuthorityTheorems.FirstPayloadWins | kernel/internal/interactions/runtime_authority.go:226-249 | the fields of the first accepted payload for a grant id are what every later fresh projection shows |
| AuthorityTheorems.EffectiveIsLedger | kernel/internal/interactions/runtime_authority.go:295-387 | a fresh projection gives a capability iff some payload of the ledger names it for the principal, the scope and the time, and none ends that grant |
| AuthorityTheorems.PoliciesUnique | kernel/internal/interactions/runtime_authority.go:338-387 | the description of the answer determines it |
| AuthorityTheorems.AnswerDependsOnLedgerAndClock | kernel/internal/interactions/runtime_authority.go:295-387 | fresh projections over the same authority rows give the same answer at the same time, active grants and policies, whatever was done to bundles |
| GrantLaws.CreatedGrantShown | kernel/internal/interactions/runtime_authority.go:129-249 | what every later fresh projection shows of a grant created under a new id is what was asked for |
| GrantLaws.CreatedGrantInForceIff | kernel/internal/interactions/runtime_authority.go:129-337 | it is in force for a later reader iff it was asked for as accepted, for that principal, the time lies in the interval asked for, and no row of the ledger ends it |
| GrantLaws.CreatedGrantConfersIff | kernel/internal/interactions/runtime_authority.go:129-365 | it confers exactly the capabilities its bundle listed, or those of the grant it ends, on the scope asked for |
| GrantLaws.CreatedEndIsFinal | kernel/internal/interactions/runtime_authority.go:129-326 | after an acceptance, revocation or supersession of a grant under a new id no fresh answer lists the grant it names |
| GrantLaws.TakenIdChangesNothing | kernel/internal/interactions/runtime_authority.go:226-249 | a draft appended under an id used before changes no authority row |
| LegacyMigration.MigrationAppends | kernel/internal/interactions/runtime_authority_materializer.go:59-126 | the migration stores, after all other rows, one row for each grant it listed whose order in its change set is free, be the change set new or somebody's already |
| LegacyMigration.MigrationHarmlessIff | kernel/internal/interactions/runtime_authority_materializer.go:59-126 | grant ids stay unique iff the table it listed was empty or its change set is taken, by another ledger or by as many rows, whatever happened since it counted |
| LegacyMigration.CountsNeverAgree | kernel/internal/interactions/runtime_authority_materializer.go:149-178 | after a migration that added anything the row count never again equals the size of a replayed table |
| LegacyMigration.MigrationKeepsGrantsIff | kernel/internal/interactions/runtime_authority_materializer.go:59-126 | what a rebuild shows is the same with the migrated rows as without iff nothing was added or every grant added has a creation time or gets none |
| LegacyMigration.MigrationRaceHappens | kernel/internal/interactions/runtime_authority_materializer.go:59-126 | a run from the empty system in which a count of zero is followed by a listing that is not empty, so an id repeats |
| AuthorityGap.LastCommitWins | kernel/internal/interactions/runtime_authority_materializer.go:180-224 | over every run the grants table ends as the replay of what its last commit had read, or as it was |
| AuthorityGap.SelectSeesCheckedIff | kernel/internal/interactions/runtime_authority.go:295-337 | after any steps of others, a query sees every grant its fresh check had vouched for, unchanged, iff the last rebuild committed in between had read at least as many authority rows as the ledger held at the check |
| AuthorityGap.StaleAnswerHappens | kernel/internal/interactions/runtime_authority.go:295-337 | a run from the empty system in which a reader's check finds the table fresh with a grant and its query finds none |
| AuthorityService.Service.NeedsMaterialize | kernel/internal/interactions/runtime_authority_materializer.go:149-178 | asks for a rebuild iff the table is not the replay of the ledger |
| AuthorityService.Service.MaterializeAuthorityState | kernel/internal/interactions/runtime_authority_materializer.go:36-57 | never fails on a valid ledger, counts its rows and leaves a fresh projection |
| AuthorityService.Service.EnsureMaterialized | kernel/internal/interactions/runtime_authority_materializer.go:128-147 | leaves a fresh projection, and the bundles alone if it already was |
| AuthorityService.Service.UpsertAuthorityBundle | kernel/internal/interactions/runtime_authority.go:77-111 | stores the normalised bundle, or refuses a blank id or an empty capability list without change |
| AuthorityService.Service.CreateAuthorityGrant | kernel/internal/interactions/runtime_authority.go:129-250 | decides on a fresh projection, appends, replays and answers with the grant of the trimmed id; under a new id the table then shows what was asked for; a refusal leaves the ledger alone |
| AuthorityService.Service.GetEffectiveAuthorityByPrincipal | kernel/internal/interactions/runtime_authority.go:295-387 | answers, on a fresh projection, with exactly the grants in force, each once and newest first, and with exactly the capabilities they confer |
| JobQueue.SelectDue | kernel/internal/interactions/runtime_webstate.go:351-361 | selects as many due jobs as the limit lets through, none behind a due job left out |
| JobQueue.JobTable.EnqueueJob | kernel/internal/interactions/runtime_webstate.go:281-322 | inserts the job with its defaults, or refuses a blank kind or a taken id |
| JobQueue.EnqueueStoresRequest | kernel/internal/interactions/runtime_webstate.go:281-322 | an accepted job is stored as requested: its run time, priority, attempt limit, queue, kind and payload, with defaults only for what is left open |
| JobQueue.JobTable.ClaimJobs | kernel/internal/interactions/runtime_webstate.go:341-385 | locks and returns a valid choice of the due jobs and no other |
| JobQueue.JobTable.CompleteJob | kernel/internal/interactions/runtime_webstate.go:419-442 | completes the job of the trimmed id, or finds none |
| JobQueue.JobTable.FailJob | kernel/internal/interactions/runtime_webstate.go:444-477 | charges an attempt and retries or ends the job, with the time defaults |
| JobQueue.RunKeeps | kernel/internal/interactions/runtime_webstate.go:281-477 | over every run a job is locked iff running, finished iff completed or failed, out of attempts iff failed, and never lost |
| JobQueue.NoDoubleClaim | kernel/internal/interactions/runtime_webstate.go:351-471 | between two claims returning the same job it was failed or its queue reset |
| JobQueue.WaitsUntouched | kernel/internal/interactions/runtime_webstate.go:341-477 | a job nobody holds stays as it is until a claim takes it |
| JobQueue.RetryNotEarly | kernel/internal/interactions/runtime_webstate.go:444-471 | the next claim of a failed job comes no earlier than its retry time, in its own queue, and never after its last attempt |
| JobQueue.NotClaimedEarly | kernel/internal/interactions/runtime_webstate.go:281-385 | over every run a job that has not failed is claimed no earlier than its requested time and only from its requested queue |
| JobQueue.FinishedForever | kernel/internal/interactions/runtime_webstate.go:341-477 | a job completed or failed for the last time keeps its finish time, attempts and error over every run and is never claimed again |
| JobQueue.ClaimsArePaidFor | kernel/internal/interactions/runtime_webstate.go:351-471 | attempts count failures exactly, and claims use up the remaining attempts except for interruptions and completions |
| JobQueue.RemainingAttemptsBoundClaims | kernel/internal/interactions/runtime_webstate.go:351-471 | without resets the remaining attempts bound the number of claims |
| JobQueue.SettledIff | kernel/internal/interactions/runtime_webstate.go:419-477 | ending a running job by its own id ends it iff the id carries no spaces around it |
| JobQueue.PaddedNeverSettles | kernel/internal/interactions/runtime_webstate.go:281-477 | over every run a job whose id carries spaces stays pending or running and is charged no attempt |
| LifecycleService.Runtime.HandleLaunch | kernel/internal/execution/local_worker.go:125-268 | issues exactly the statements of the launch outcome, in order |
| LifecycleService.Runtime.SyncRoutes | kernel/internal/execution/local_worker.go:253-355 | activates the first healthy execution and replaces its bindings |
| LifecycleService.Runtime.HandleStop | kernel/internal/execution/local_worker.go:270-299 | issues exactly the statements of a stop |
| LifecycleService.Runtime.HandleProcessExit | kernel/internal/execution/local_worker.go:357-408 | issues nothing for an execution already down, else exactly the statements of an exit |
| LifecycleService.Runtime.TerminateExecution | kernel/internal/execution/local_worker.go:495-536 | issues exactly the statements of a budget kill |
| LifecycleService.Runtime.HandleActivate | kernel/internal/http/json/execution.go:180-390 | refuses an execution that is not healthy, else issues exactly the statements of an activation |
| LifecycleService.Runtime.RequestLaunch | kernel/internal/http/json/execution.go:97-130 | stores the execution and enqueues its launch job, or does nothing when the id is taken |
| LifecycleService.Runtime.TickOnce | kernel/internal/execution/local_worker.go:86-112 | claims at most one job, the next in order, runs its handler and completes or fails the job of the trimmed id |
| LifecycleService.TickIsEventIff | kernel/internal/execution/local_worker.go:86-112 | a tick settles the very job it claimed iff it claimed none or the id carries no spaces around it |
| LifecycleService.Runtime.ReconcileStartup | kernel/internal/execution/local_worker.go:76-84 | resets the backend and then the queue |
| Lifecycle.SunkKeeps | kernel/internal/execution/local_worker.go:285-297 | taking an execution down keeps the routing invariant |
| Lifecycle.RoutedKeeps | kernel/internal/execution/local_worker.go:301-355 | bringing an execution up, active or not, keeps the routing invariant |
| Lifecycle.HealthyLaunchComesTo | kernel/internal/execution/local_worker.go:132-268 | the net effect of a healthy launch's statements |
| Lifecycle.FailedLaunchComesTo | kernel/internal/execution/local_worker.go:132-231 | a launch that fails at any stage only takes the execution down |
| Lifecycle.StopComesTo | kernel/internal/execution/local_worker.go:285-297 | the net effect of a stop's statements |
| Lifecycle.ExitComesTo | kernel/internal/execution/local_worker.go:357-408 | the net effect of an exit's statements |
| Lifecycle.KillComesTo | kernel/internal/execution/local_worker.go:495-536 | a budget kill has the net effect of an exit with its own reason, although its statements run in another order |
| LifecycleRuns.TickKeeps | kernel/internal/execution/local_worker.go:86-112 | a tick with any outcome keeps the invariant, among it that an open launch job's execution is not healthy |
| LifecycleRuns.StepKeeps | kernel/internal/execution/local_worker.go:76-536 | every handler keeps the lifecycle invariant |
| LifecycleRuns.RunKeeps | kernel/internal/execution/local_worker.go:76-536 | over every run: preview bindings exactly for healthy executions, stable bindings only for the activated one, activations only of healthy executions of their own reference |
| LifecycleRuns.EveryRun | kernel/internal/execution/local_worker.go:76-536 | the invariant holds after every run from empty tables |
| LifecycleRuns.RoutesLeadToHealthy | kernel/internal/interactions/runtime_execution.go:331-361 | no route leads to an execution that is not healthy or to a wrong address |
| LifecycleRuns.OneStableExecution | kernel/internal/http/json/execution.go:350-390 | at most one execution per reference holds stable routes, and the activation names it |
| LifecycleRoutes.HealthyLaunchServes | kernel/internal/execution/local_worker.go:238-268 | a healthy launch previews the new process under its run path at its address, lifts the suspension, and only when nothing was active takes exactly the stable routes declared: its subdomain, its path prefix |
| LifecycleRoutes.ActivationMovesRoutes | kernel/internal/http/json/execution.go:180-390 | an activation gives the reference exactly the stable routes the execution declares, by subdomain and by path, and leaves every preview and every other reference's routes in place |
| LifecycleRoutes.StopUnroutes | kernel/internal/execution/local_worker.go:285-297 | a stop removes the execution's bindings and the reference's stable ones, and nothing else |
| LifecycleRoutes.ExitTakesDown | kernel/internal/execution/local_worker.go:357-408 | an exit terminates an execution that is not down, takes its routes, and suspends its reference with its own id, subdomain, path prefix and the reason; it changes nothing for one that is down |
| LifecycleRoutes.KillTakesDown | kernel/internal/execution/local_worker.go:495-536 | so does a budget kill, in any status and for its own reason |
| LifecycleRoutes.BecomesDarkIff | kernel/internal/execution/local_worker.go:253-355 | a reference comes to be activated without stable routes iff the event stops a sibling of the active execution, or activates, by hand or as the first healthy launch, one that declares no route |
| LifecycleRounds.LaunchRequestStored | kernel/internal/http/json/execution.go:97-130 | a launch request stores the execution as requested and a waiting job that names it |
| LifecycleRounds.StopRequestStored | kernel/internal/http/json/execution.go:153-178 | a stop request stores a waiting job that names the trimmed execution id |
| LifecycleRounds.LaunchRound | kernel/internal/execution/local_worker.go:86-268 | a launch asked for while no job waits, and found healthy, is claimed and completed; the first of a reference takes its stable routes, a later one leaves them alone |
| LifecycleRounds.SiblingStopDarkens | kernel/internal/execution/local_worker.go:270-299 | from every reachable state in which no job waits, launching and stopping a sibling of a served reference leaves it without stable routes |
| LifecycleRounds.ServedReferenceGoesDark | kernel/internal/execution/local_worker.go:270-299 | a run from empty tables in which that happens |
| LifecycleCrash.CallKeepsWeak | kernel/internal/interactions/runtime_execution.go:9-408 | every single statement keeps what recovery needs |
| LifecycleCrash.RestartAfterAnyInterleaving | kernel/internal/execution/local_worker.go:76-84 | after any interleaving of sound statements a restart restores the whole invariant, loses no job and charges no attempt |
| LifecycleCrash.EventSound | kernel/internal/execution/local_worker.go:86-536 | every handler issues sound statements |
| LifecycleCrash.CrashRecovery | kernel/internal/execution/local_worker.go:76-84 | after a crash at any point of any handler, reconciliation leaves no live local execution, binding, activation or running job, and the invariant whole |
| LifecycleCrash.CrashedJobIsRetried | kernel/internal/interactions/runtime_webstate.go:395-417 | a job whose worker died is pending again with its attempts, time and payload |
| LifecycleInterleaved.HandlersAreEvents | kernel/internal/execution/local_worker.go:76-536 | a handler that is not disturbed issues the very statements of its event |
| LifecycleInterleaved.InterleavingSound | kernel/internal/execution/local_worker.go:76-536 | over every interleaving of handlers' statements and crashes, each statement is sound when it is issued |
| LifecycleInterleaved.RecoveryFromAnywhere | kernel/internal/execution/local_worker.go:76-84 | from any point of any interleaving, crashes and unfinished recoveries included, reconciliation restores the whole invariant, loses no job and charges no attempt |
| LifecycleInterleaved.WorkingJobIsHeld | kernel/internal/execution/local_worker.go:86-112 | over every interleaving a working handler still holds the job it will settle, and no two hold the same one |
| LifecycleRaces.LateWritesIff | kernel/internal/http/json/execution.go:180-390 | all or the remaining writes of an activation, coming after other handlers, keep the routing invariant iff the execution is as its health check saw it and, if the activation was written before, still holds it or declares no stable route |
| LifecycleRaces.LateActivationIff | kernel/internal/http/json/execution.go:180-390 | the three writes of an activation, coming late as one block, keep the lifecycle invariant iff the execution is unchanged |
| LifecycleRaces.ActivationsRace | kernel/internal/http/json/execution.go:180-390 | the activation of a sibling between the writes of another one breaks the routing invariant although both executions are unchanged |
| LifecycleRaces.ActivationsRaceHappens | kernel/internal/http/json/execution.go:180-390 | a run from empty tables in which that happens |
| LifecycleRaces.ActivateRacesExit | kernel/internal/http/json/execution.go:180-220 | a process exit between the health check and the writes of an activation always breaks the invariant, and a restart repairs it |
| LifecycleRaces.LateLaunchIff | kernel/internal/execution/local_worker.go:238-355 | all or the remaining route writes of a healthy launch, coming after other handlers, keep the routing invariant iff the execution still serves at the launch's address and, if stable routes are written and the activation is not, holds it or declares none |
| LifecycleRaces.LaunchLeavesOthers | kernel/internal/execution/local_worker.go:238-252 | recording the launched execution as healthy leaves all routes but its own in order, which is where its route writes start |
| LifecycleRaces.ExitRacesLaunch | kernel/internal/execution/local_worker.go:238-408 | a process that exits right after its health check and before the route writes is left routed although terminated |
| Budget.Evaluate | kernel/internal/execution/local_worker.go:471-493 | a sample breaches iff some positive limit is exceeded, and the first such limit is reported |
| Budget.TrailingCountsLastStretch | kernel/internal/execution/local_worker.go:424-467 | the trailing run is the breaches since the last good sample or counter reset |
| Budget.CounterIsHistory | kernel/internal/execution/local_worker.go:450-465 | over every history the counter is the trailing run less full rounds |
| Budget.TerminatedIff | kernel/internal/execution/local_worker.go:450-465 | an execution is terminated exactly by a breach completing a round of strikes; unreadable samples neither count nor reset |
| Budget.Enforcer.SampleAndEnforce | kernel/internal/execution/local_worker.go:410-469 | does nothing before the next sample is due, else turns every counter and names exactly the terminated executions |
| RateLimit.Limiter.EnforceRateLimit | kernel/internal/interactions/runtime_rate_limits.go:14-127 | counts the hit in its window's bucket and decides, with the defaults and refusals of the arguments |
| RateLimit.RefusalsAreBlocks | kernel/internal/interactions/runtime_rate_limits.go:80-127 | every refusal names a block still running; the wait until the window's end is never used |
| RateLimit.FirstOfEachWindow | kernel/internal/interactions/runtime_rate_limits.go:38-127 | with a constant limit exactly the first requests of each window are allowed, for any blocks and any clock |
| RateLimit.AllowedInWindow | kernel/internal/interactions/runtime_rate_limits.go:38-127 | a window lets through as many requests as were made, up to the limit |
| RateLimit.SlidingBound | kernel/internal/interactions/runtime_rate_limits.go:38-127 | any span of k windows' length lets through at most (k + 1) times the limit |
| RateLimit.RetryWithinBlock | kernel/internal/interactions/runtime_rate_limits.go:115-127 | under a monotone clock a refusal asks for more than nothing and at most the block duration |
| RateLimit.BlockStands | kernel/internal/interactions/runtime_rate_limits.go:38-127 | the block set by the first request beyond the limit ends at its time plus the duration asked for, and no later request moves it before it ends |
| RateLimit.RefusedUntilBlockEnds | kernel/internal/interactions/runtime_rate_limits.go:38-127 | every request to that window is refused until the block ends, and told exactly the time that is left |
| LineWriter.SplitJoins | kernel/internal/execution/local.go:319-330 | splitting at newlines loses nothing |
| LineWriter.SplitUnique | kernel/internal/execution/local.go:319-330 | it is the only way to write a text as newline-free segments |
| LineWriter.ChunksDoNotMatter | kernel/internal/execution/local.go:300-330 | however a text is chunked, buffer and records come out as for one write |
| LineWriter.ChunkedThenFlushed | kernel/internal/execution/local.go:300-342 | chunks followed by a flush emit exactly the records of the text's lines, in order |
| LineWriter.RecordShape | kernel/internal/execution/local.go:319-342 | a record is a line without trailing carriage returns, never blank |
| LineWriter.LineBuffer.Write | kernel/internal/execution/local.go:300-309 | emits the complete lines and keeps the rest; the buffer never holds a newline |
| LineWriter.LineBuffer.FlushCompleteLines | kernel/internal/execution/local.go:319-330 | empties the buffer of complete lines, in order |
| LineWriter.LineBuffer.Flush | kernel/internal/execution/local.go:311-317 | emits what is left |
| Footprint.Widths | kernel/cmd/webd/main.go:1517-1554 | shows exactly the non-empty segments with widths from 0 to 100 that add up to 100, each close to its share |
| Footprint.WithinThree | kernel/cmd/webd/main.go:1517-1554 | for the registry's four segments no width is three or more off its share |
| Validator.ValidateInteractionContract | kernel/internal/realizations/contracts.go:191-280 | accepts exactly the well-formed contracts |
| Validator.ValidateHeader | kernel/internal/realizations/contracts.go:191-242 | accepts iff version, surface kind, identity and summary are right and every link given resolves |
| Validator.ValidateContractRef | kernel/internal/realizations/contracts.go:735-752 | accepts iff the part before the first hash names a stored file |
| Validator.ValidateCapabilities | kernel/internal/realizations/contracts.go:282-305 | names unique, allowed and described |
| Validator.ValidateObjects | kernel/internal/realizations/contracts.go:307-339 | kinds unique, schemas resolving, capabilities declared, layouts described |
| Validator.ValidateRelations | kernel/internal/realizations/contracts.go:341-381 | relations unique and closed over declared kinds and capabilities |
| Validator.ValidateDataLayout | kernel/internal/realizations/contracts.go:443-477 | a layout with content describes its shared metadata |
| Validator.ValidateFieldList | kernel/internal/realizations/contracts.go:479-498 | field names unique, fields described |
| Validator.ValidateDataViews | kernel/internal/realizations/contracts.go:500-534 | accepts exactly the view lists that partition the projection's auth modes |
| Validator.PartitionIs | kernel/internal/realizations/contracts.go:500-534 | covered once and all covered is the same as exactly one view per mode |
| Validator.ValidateProjections | kernel/internal/realizations/contracts.go:393-441 | names and paths unique, paths below the seed, references closed |
| Validator.ValidateCommands | kernel/internal/realizations/contracts.go:544-609 | names and paths unique, schemas resolving, kinds, capabilities, modes and projection declared |
| Validator.ValidateErrorCodes | kernel/internal/realizations/contracts.go:611-643 | codes unique and described, modes among the command's |
| Validator.ValidateUISurfaces | kernel/internal/realizations/contracts.go:645-689 | names and paths unique, at least one declared projection or command each |
| Validator.ValidateNamedList | kernel/internal/realizations/contracts.go:691-711 | accepts non-empty lists of unique allowed values and returns them as a set |
| Validator.ValidateSubset | kernel/internal/realizations/contracts.go:713-733 | accepts non-empty lists of unique declared values |
| Validator.CommandlessIff | kernel/internal/realizations/contracts.go:267-269 | a contract may drop all commands iff its surface kind is allowed after trimming and not literally "interactive" |
| Validator.PaddedInteractive | kernel/internal/realizations/contracts.go:195-269 | the interactive kind with a space before it is such a kind |
| Catalog.BuildIndex | kernel/internal/registry/catalog.go:180-392 | the nested loops make exactly the additions of every contract, in order |
| Catalog.Builder.AddForKinds | kernel/internal/registry/catalog.go:276-293 | one addition to the object of each kind listed |
| Catalog.Builder.AddCommand | kernel/internal/registry/catalog.go:286-351 | a command's full entry goes to its objects and the command list, and its uses to its schemas |
| CatalogTheorems.ObjectsFromPostings | kernel/internal/registry/catalog.go:457-468 | an object exists exactly for the kinds named, and holds exactly what was added, in order |
| CatalogTheorems.SchemaContents | kernel/internal/registry/catalog.go:470-481 | a schema holds exactly the uses that name it, in order |
| CatalogTheorems.CatalogAgreesWithScan | kernel/internal/registry/catalog.go:180-402 | each object holds exactly the realizations, relations, commands and projections a plain scan of its seed finds, once each |
| CatalogTheorems.ValidatedKindsDistinct | kernel/internal/realizations/contracts.go:713-733 | validation rules out a kind listed twice, which the agreement with the scan needs |
| CatalogTheorems.CommandLinksClosed | kernel/internal/registry/catalog.go:286-351 | every command's projection is listed and its input and result schemas are indexed |
| CatalogTheorems.ObjectSchemasClosed | kernel/internal/registry/catalog.go:217-246 | every schema an object's realizations name is indexed |
| CatalogTheorems.StubIff | kernel/internal/registry/catalog.go:457-468 | an object is a stub iff no contract of its seed declares a kind spelled like it |
| CatalogTheorems.NoStubs | kernel/internal/registry/catalog.go:217-360 | with validated contracts whose kinds carry no spaces there are no stubs |
| CatalogTheorems.SpacedKindsValidate | kernel/internal/realizations/contracts.go:713-733 | validation cannot see spaces around the kinds a command names |
| CatalogTheorems.SpacedKindIsStub | kernel/internal/registry/catalog.go:457-468 | a kind spelled otherwise than it is declared opens a stub |
| CatalogEntries.ObjectShowsContracts | kernel/internal/registry/catalog.go:217-360 | an object holds exactly the declarations of its kind and the relations, commands and projections naming it in the contracts of its seed, each with its declared fields |
| CatalogEntries.ListsShowContracts | kernel/internal/registry/catalog.go:286-388 | the flat lists hold exactly the commands and projections of all contracts, each with its declared fields |
| CatalogEntries.SchemaShowsContracts | kernel/internal/registry/catalog.go:227-351 | a schema lists exactly the objects, command inputs and command results that reference it, each with its declared fields |
| CatalogLookup.LoadCatalog | kernel/internal/registry/catalog.go:180-402 | ends with every list of the index flattened in its order, each entry once |
| CatalogLookup.FlattenedInOrder | kernel/internal/registry/catalog.go:483-641 | references, seeds and schema references run downwards in every flattened list, names and kinds upwards among equals |
| CatalogLookup.ScanFor | kernel/internal/registry/catalog.go:404-455 | the loop of every lookup returns the first entry wanted, or nothing when there is none |
| CatalogLookup.CommandFoundIff | kernel/internal/registry/catalog.go:435-444 | looking a command up under its own reference and name returns it, whatever order a sort left, iff the reference carries no spaces around it |
| CatalogLookup.ProjectionLinkResolvesIff | kernel/internal/registry/catalog.go:446-455 | the projection a listed command names is found iff the reference carries no spaces around it |
| CatalogLookup.SchemaLinksResolveIff | kernel/internal/registry/catalog.go:415-423 | both schemas of a listed command are found, naming the command among their uses, iff their references carry no spaces around them |
| CatalogLookup.ObjectSchemaFoundIff | kernel/internal/registry/catalog.go:415-423 | so is the schema of an object's realization |
| CatalogLookup.ObjectAnswers | kernel/internal/registry/catalog.go:404-413 | an object lookup answers with an entry whose key spells what was asked for, and answers whenever there is one |
| CatalogLookup.AnySpellingAnswers | kernel/internal/registry/catalog.go:404-512 | with several spellings of a key any of them may be the one that answers |
| CatalogLookup.ObjectLookupIff | kernel/internal/registry/catalog.go:404-512 | the lookup of a key is certain to answer with its own entry iff every other spelling of it has the same contents |
| CatalogLookup.DeclaredObjectFound | kernel/internal/registry/catalog.go:180-413 | with validated contracts whose kinds carry no spaces, looking up a declared kind answers with what a plain scan of the contracts finds |
| Routing.NormalizeNormal | kernel/cmd/webd/main.go:1672-1684 | normal forms are exactly the fixpoints, and every prefix that is not blank has one |
| Routing.MatchesIsAligned | kernel/cmd/webd/main.go:1686-1699 | a match is the prefix at a segment boundary of the path |
| Routing.MatchesClosed | kernel/cmd/webd/main.go:1672-1699 | any stored prefix matches exactly the paths that, closed by a slash, begin with its normal form |
| Routing.FirstHit | kernel/cmd/webd/main.go:1978-1984 | returns the first matching route of the list, or that there is none |
| Routing.FirstHitIsLongestIff | kernel/cmd/webd/main.go:1781-1984 | in any list of routes, however spelled, the first hit is a longest match for every path iff no route comes before one whose normal form continues its own |
| Routing.SortedNormalUnshadowed | kernel/cmd/webd/main.go:1797-1799 | prefixes in normal form and sorted by length never shadow each other |
| Routing.TieHidesLonger | kernel/cmd/webd/main.go:1797-1984 | two routes sorted by stored length of which the first hit is the shorter match |
| Routing.ReferenceForPath | kernel/cmd/webd/main.go:2063-2097 | the scan selects a prefix found for the path that no other found prefix exceeds |
| Routing.MatchersDifferIff | kernel/cmd/webd/main.go:1686-2097 | the two matchers differ on a prefix iff it is the path, already ending in a slash, with one slash more |
| Routing.SameSelectionIff | kernel/cmd/webd/main.go:1978-2097 | for every path, a first hit that is longest and the scan select the same prefix iff: the root matches no prefix; an absolute path that ends in a slash is not, with one slash more, a prefix; a path without a leading slash is blank or matches nothing with one |
| Routing.PrefixingIdempotent | kernel/cmd/webd/main.go:2421-2436 | prefixing a mounted path twice is prefixing it once |
| Routing.MountRoundTripIff | kernel/cmd/webd/main.go:2353-2436 | for every path and stored prefix, prefixing and stripping return the path iff the prefix is stored with its leading slash, or, when prefixing leaves the path alone, iff the path is not empty and does not start like the mount |
| Routing.MountedPathsComeBack | kernel/cmd/webd/main.go:1793-2436 | a prefixed path is routed to its mount, and arrives there as it was issued iff the prefix is stored with its leading slash |
| Routing.BareMountKeepsItsPrefix | kernel/cmd/webd/main.go:1793-2436 | such a prefix without its slash: the mounted application receives the prefix along with the path |
| Permalinks.RegistryHashIndex.SyncCatalog | kernel/internal/runtime/registry_hash_index.go:33-69 | upserts every resource of the catalog under its hash |
| Permalinks.RegistryHashIndex.ResolvePrefix | kernel/internal/runtime/registry_hash_index.go:101-147 | finds the only record with the prefix, or reports none or several |
| Permalinks.PrefixAnswerUnique | kernel/internal/runtime/registry_hash_index.go:101-147 | the answer to a prefix is determined by the index |
| Permalinks.ResolvesForever | kernel/internal/runtime/registry_hash_index.go:33-99 | every resource with a page that was ever synced resolves by its hash, however spelled, after any later syncs, to its own hash, kind, page and permalink |
| Permalinks.ResolvedIsSynced | kernel/internal/runtime/registry_hash_index.go:33-99 | whatever resolves is a resource of some sync that has a page, under its own hash |
| Permalinks.PrefixStable | kernel/internal/runtime/registry_hash_index.go:101-147 | a prefix that found a record later finds the same one or is ambiguous, and stays ambiguous once it is |
| Permalinks.FullHashIsUnambiguous | kernel/internal/registry/locators.go:52-65 | a full hash used as a prefix finds its own record: hash, kind, page and permalink |

## Left out

- Principal and identity records, and authority listings other than effective authority: easy record keeping.
- Grants appended by anything but CreateAuthorityGrant: in `AuthorityRuns` other appends are taken to bring no rows of the grant type. The legacy migration, which does, is treated apart in `LegacyMigration`; runs that go on after it has repeated an id are not part of the invariant.
- JSON encoding: payloads are values, and a payload that is no grant is one whose grant id is blank.
- Timestamps are kept as given; rounding to the precision of the database is not modelled, nor is metadata merging in executions and rate limit buckets.
- Database failures inside a handler, except that a crash may cut it off after any statement; isolation anomalies below a statement or transaction.
- Executions: start, health and stop times, error texts, events and logs; ids and references are taken to be trimmed, and every execution runs on the local backend, the only one that is created.
- The process table of the executor and which exit belongs to which process: exits and kills may come for any execution at any time.
- Dedupe keys of jobs are stored but not unique, as no conflict target mentions them; ties in a claim may be broken in any way in the theorems and are broken by job id in the method.
- Strings are sequences of characters: byte lengths of non-ASCII text and chunks that split a character are not modelled, and lower-casing is ASCII.
- An object's own summary, layout, capability list and schema list, the list of realizations and the totals of the catalog, and its search filters.
- Relation schemas are not in the schema index, so nothing is claimed of them.
- Sorting is insertion sort; where entries of one rank may come in any order, the theorems hold of every order.
- Error messages are shortened, and blank and repeated names are reported by one message in some validators.
- Rewriting of mounted HTML and cookies, subdomain routing, suspension pages, the route and suspension caches.
- Data races on the breach counters, and the rate limiter's behaviour when the database fails.
- Telemetry, search, threads, messages, outbox, publications, access links, challenges, migrations, user interface: record keeping and plumbing.
- Replay.ReplayResetsCapabilities: speaks of capabilities only; a bundle's display name is kept by replay when the ledger gives none.
- Replay.MaterializePayload: leaves out the upserts of the grantor's and grantee's principal and identity rows, which nothing modelled here reads.
- AuthorityLedger.AuthorityIdsDistinct: rows of the legacy migration's change set are excluded, as its ids repeat others; LegacyMigration.MigrationHarmlessIff says when.
- LifecycleService.Runtime.UpdateRealizationExecution: leaves out start, health and stop times, error text and metadata.
- LifecycleService.Runtime.ActivateRealization: leaves out the refusal of blank seeds, references and execution ids, which its callers never pass.
- LifecycleService.Runtime.UpsertRealizationSuspension: leaves out messages, remediation texts and the rows of cleared suspensions.
- AuthorityService.Service.GetEffectiveAuthorityByPrincipal: takes the staleness check and the query as one step; AuthorityGap.SelectSeesCheckedIff says what other workers' commits in between can do.
- LifecycleRuns.RunKeeps: a tick ends the job it claimed under its id as it stands, which is what the code does iff the id carries no spaces around it (LifecycleService.TickIsEventIff).
- LifecycleInterleaved.InterleavingSound: takes the same of ticks; what a handler reads of executions and routes may be any earlier state, but one state.
- CatalogLookup.LoadCatalog: the list of realizations and the totals are left out.
- Catalog.BuildIndex: an object's own summary, layout, capability list and schema list are left out, and so are the list of realizations and the totals.
