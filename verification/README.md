# A verified model of the retrieval kernel

SuperFeishuSearch is a federated search engine: it runs bounded plans of retrieval operations over
many providers, pages through searches, fuses what several sources find, fetches object contents and
walks relations between objects. This project models that kernel in Dafny and proves what its
documentation and code promise, for every input, every run and every order of events.

| file | models |
|---|---|
| `PlanModel.dfy`, `PlanValidate.dfy`, `Graph.dfy` | retrieval plans, the two validators with their three-colour depth-first search |
| `PlanExec.dfy`, `PlanExecInv.dfy`, `PlanExecSteps.dfy` | the plan executor as a state machine, its invariant, and its preservation by every event |
| `PlanExecRuns.dfy`, `PlanExecProgress.dfy`, `PlanExecBackoff.dfy`, `PlanExecOrder.dfy`, `PlanExecRisk.dfy` | theorems about all runs of that machine |
| `Executor.dfy` | the executor as the source writes it, a class with a main loop, proved to run the state machine |
| `SingleFlight.dfy`, `BatchMatch.dfy`, `FetchModel.dfy`, `FlightKeys.dfy`, `Fetch.dfy`, `FetchWorld.dfy` | fetching with cached projections, batches and shared calls, by one fetch and by any number |
| `Expand.dfy` | breadth-first relation traversal |
| `Fusion.dfy`, `Collect.dfy`, `ArrivalOrder.dfy`, `Quota.dfy`, `Ranking.dfy` | canonical ids, merging, scores, quota selection |
| `Requests.dfy`, `Search.dfy` | search requests, paged search, its continuation, queries, resolving |
| `Session.dfy`, `Ledger.dfy` | the session record and the budget account |
| `Research.dfy` | what a planner may ask for |
| `Objects.dfy`, `Dedup.dfy`, `Text.dfy`, `Wrappers.dfy` | references, artifacts, relations, strings, optional values |

`dafny verify dfyconfig.toml` checks the whole project.

## How it is modelled

**Runs.** The executor's goroutines, timers and `select` are the events of a state machine:
a retry falls due, a ready node is launched, a provider call returns, a completion is received (and
either goes back to wait or settles, followed by the dependency pass), the sweep, cancellation, and
the clock moving on. A `for ... range` over a Go map visits its keys in any order, so the events carry
that order. A provider call may come back with any outcome, error and session id. `Executor.Run`
performs the source's loop on mutable fields; its ghost `events` shows that what it did is a run of
the machine, so that every theorem about runs is a theorem about the loop. The clock moves on by
any amount at every round, while completions are awaited and when the timer fires.

**Shared calls.** The single-flight group is a step machine over all interleavings of acquiring,
publishing, removing, waiting, returning and cancelling. `Fetch` runs with other requests interfering
wherever it does not hold the lock; they may do anything except complete the calls it leads.
`FetchWorld` puts any number of fetches together and shows that each gives the others just that, and
that whoever waits, waits for a fetch that can finish the call without waiting itself.

**The budget account** answers each request by its state. Every operation that calls a provider
(`Search.SearchEngine.SearchOne`, `Query` and `Resolve`, `Fetch.FetchRun.CallProvider`,
`Expand.ExpandOne`) records what it asks of the account and when it calls, and shows that it never
calls more often than it has reserved, whatever account and provider answer. `Search`, `Fetch` and
`Expand` hand on these records for all goroutines they start, and `Ledger.GoroutinesStayWithin` bounds
the calls of every interleaving. `Resolve` reserves nothing when it runs outside a plan; it has no
account then.

**Scores** are real numbers, projections are sets, strings are sequences of characters and the maps
of the source are maps. SHA-256, URL parsing, provider routing, the identity check and the text and
recency bonuses are arguments of the operations that use them.

**Where code and documents disagree**, the code is followed. `docs/RETRIEVAL_PLAN.md:252` says that
dependents of a failed node may run if that node is `optional`; the code looks at the flag and
operation of the dependent instead (`PlanExecRuns.OwnFlagDecides`). A tolerant node (optional, or a
merge, dedup, rank, limit, project or map_fetch) need not run even though it tolerates failures: a
dependency pass may look at it before its dependency is skipped in the same pass, and then the final
sweep takes it (`PlanExecOrder.TolerantNodeCanBeSwept`). It always runs if every pass visits
dependencies first (`PlanExecOrder.OrderedPassesNeedNoSweep`), which nobody controls; what the author
of a plan controls is whether the node is at risk at all. It is not unless a chain of tolerant nodes
leads down from it to an intolerant node with dependencies of its own, and a node that is not at risk
is executed whatever fails and whatever the order (`PlanExecRisk.SkippedOnlyAtRisk`,
`PlanExecRisk.SafeNodesAreExecuted`).

`docs/ARCHITECTURE.md:132` says that adaptive paging goes on only with sources that have a cursor; the
code asks for `has_more` alone, so a source that sends `has_more` without a cursor is asked for its
first page again. `Search.FirstPageCanRepeat` is such a run, `Search.PagesWithoutCursor` says exactly
when it happens, and `Search.GoingOnWithoutCursor` that continuing a search is not affected.

Fused rank scores can depend on the order in which candidates arrive when two discoveries of one object
share a key of the form `provider|source` and name different sources, for instance because a provider
id contains a bar (`ArrivalOrder.ClashingKeysDependOnOrder`). The sources, ranks and weights that
enter the score are the same in every order if and only if the finds that contribute the best rank of a
key agree on them (`ArrivalOrder.OrderIsIrrelevantIffAgree`); so they are whenever keys identify
sources.

Fetches share calls under one formatted string of scope, object, parts, provider and version. The
string does not always tell these apart: with one provider called `2|x` and another called `x`, a
request for the snippet of one document can join the call for the head of another and be given its
artifact, without the snippet and without an error (`FetchWorld.ClashingProvidersMixObjects`). Every
work gets the parts it asks for, in every run, if and only if no two registered providers clash in this
way (`FetchWorld.PartsIffApart`), and calls are shared for one object only if and only if none overlap
(`FetchWorld.ObjectsIffNoOverlap`); ids and versions without a bar are enough for both
(`FetchWorld.PlainProvidersShareWell`). What `Fetch` promises of artifacts from joined calls is under
this condition, of all others without it.

Two scopes can share a canonical id if one goes on after the other with a colon
(`Fusion.ScopesAreApart`), which scopes named by the caller may do.

## Model

| member | source | states |
|---|---|---|
| `PlanModel.MaxAttempts` | internal/planexec/executor.go:489-499 | an explicit retry policy decides; without one, two attempts for nodes that ask a provider and one for the others |
| `PlanModel.NodeMapUnique` | internal/planexec/executor.go:552-561 | with unique ids the id map holds every node and nothing else |
| `PlanValidate.DepthFirst.Visit` | internal/planvalidate/validate.go:129-146 | the three-colour search ends on every closed graph; a reported node lies on a cycle; an accepted node and all it reaches are finished in topological order |
| `PlanValidate.DepthFirst.CheckInPlanOrder` | internal/planvalidate/validate.go:147-154 | no error if and only if the dependency graph is acyclic |
| `PlanValidate.DepthFirst.CheckInMapOrder` | internal/planexec/executor.go:569-592 | the same for roots taken in an arbitrary map order |
| `PlanValidate.CheckNodes` | internal/planvalidate/validate.go:89-109 | accepts exactly unique ids with well-formed nodes; an error is one the plan has |
| `PlanValidate.CheckKnown` | internal/planvalidate/validate.go:111-117 | accepts exactly the plans whose dependencies all exist |
| `PlanValidate.CheckOutput` | internal/planvalidate/validate.go:118-122 | accepts exactly the plans whose outputs all exist |
| `PlanValidate.ValidateSemantics` | internal/planvalidate/validate.go:88-155 | accepts exactly the semantically valid plans; every error names a defect the plan has |
| `PlanValidate.ValidatePlan` | internal/planexec/executor.go:539-593 | accepts exactly the executable plans; every error names a defect the plan has |
| `PlanValidate.ValidatorsAgree` | internal/planvalidate/validate.go:88-155 | the two validators differ only in the version and size bounds on one side and the request, blank-id and output checks on the other; on the graph they agree |
| `PlanExecInv.DependencyStateMeaning` | internal/planexec/executor.go:601-612 | ready if and only if all dependencies are terminal and none is bad unless tolerated; skipped if and only if the first dependency that decides is bad and not tolerated |
| `PlanExecSteps.StepKeeps` | internal/planexec/executor.go:132-253 | every event keeps the invariant of the node table, heaps, counters and channel, and no terminal node changes |
| `PlanExecSteps.InitOk` | internal/planexec/executor.go:101-123 | the invariant holds at the start, whatever order the roots are pushed in |
| `PlanExecSteps.StuckHasFailedAncestor` | internal/planexec/executor.go:165-175 | when nothing can run any more, every blocked node of an acyclic plan lies above a failed one |
| `PlanExecRuns.ReachedInv` | internal/planexec/executor.go:95-253 | the invariant holds in every reachable state |
| `PlanExecRuns.SkippedOnlyBelowFailure` | internal/planexec/executor.go:165-175 | a node is skipped, by a pass or by the sweep, only if some transitive dependency failed |
| `PlanExecRuns.NoFailureRunsEverything` | internal/planexec/executor.go:234-251 | a run that ends uncancelled without a failed node has executed every node |
| `PlanExecRuns.OwnFlagDecides` | internal/planexec/executor.go:601-619 | with all dependencies terminal, a node is skipped if and only if it is not tolerant itself and some dependency is bad |
| `PlanExecRuns.EndedIsTerminal` | internal/planexec/executor.go:132-132 | the loop ends exactly when every node is terminal |
| `PlanExecRuns.StartedOnFinalDependencies` | internal/planexec/executor.go:143-164 | a node starts only when its dependencies are terminal, after a bad one only if it tolerates that, and the results handed to it are those of every later state |
| `PlanExecRuns.TerminalIsFinal` | internal/planexec/executor.go:202-251 | a terminal node never changes again |
| `PlanExecRuns.StartsAreBounded` | internal/planexec/executor.go:156-156 | the recorded attempts are exactly the starts, at most the retry policy's maximum |
| `PlanExecRuns.SessionIsKept` | internal/planexec/executor.go:207-209 | the first session id known is kept for the rest of the run, and the clock never goes back |
| `PlanExecRuns.ChannelHasRoom` | internal/planexec/executor.go:120-120 | a goroutine that finishes always finds room in the completion channel |
| `PlanExecRuns.BooksBalance` | internal/planexec/executor.go:120-252 | before a cancellation both heaps hold exactly the Ready and RetryWait nodes once each, the counters equal the state counts, the concurrency limit holds, and at most one node runs while no session is known |
| `PlanExecProgress.MeasureFalls` | internal/planexec/executor.go:132-252 | a natural-number measure of the node table falls at every event but a tick |
| `PlanExecProgress.RunsAreFinite` | internal/planexec/executor.go:132-252 | no run has more events, apart from ticks, than the measure of its first state |
| `PlanExecProgress.NeverStuck` | internal/planexec/executor.go:176-189 | while a node is not terminal some event other than a tick or a cancellation can happen, at the latest when the next retry falls due |
| `PlanExecBackoff.ComputeRetryDelay` | internal/planexec/executor.go:501-522 | the doubling loop computes min(max, base * 2^(k-1)) after k attempts |
| `PlanExecBackoff.BackoffShape` | internal/planexec/executor.go:501-522 | delays are positive, at most the cap, and each is twice the one before until the cap |
| `PlanExecBackoff.BackoffIsRespected` | internal/planexec/executor.go:213-222 | after a retryable failure a node is not started again before its delay has passed, over all runs |
| `PlanExecOrder.OrderedPassesNeedNoSweep` | internal/planexec/executor.go:234-251 | if every pass visits dependencies first, the sweep never fires and no tolerant node is skipped |
| `PlanExecOrder.TolerantNodeCanBeSwept` | internal/planexec/executor.go:165-175 | a concrete run in which the sweep skips a tolerant node |
| `PlanExecRisk.RiskComesFromBelow` | internal/planexec/executor.go:601-619 | a node is at risk if and only if it is intolerant with dependencies, or tolerant with a dependency at risk |
| `PlanExecRisk.SkippedOnlyAtRisk` | internal/planexec/executor.go:165-251 | in no run and with no order of the passes is a node skipped that is not at risk; a tolerant one only if a direct dependency is at risk |
| `PlanExecRisk.SafeNodesAreExecuted` | internal/planexec/executor.go:132-253 | a run that ends uncancelled has executed every node that is not at risk, whatever failed |
| `PlanExecRisk.RootsAndTolerantNodesAreSafe` | internal/planexec/executor.go:601-619 | a root or tolerant node all of whose transitive dependencies are roots or tolerant is not at risk |
| `PlanExecRisk.ExposedCanBeSkipped` | internal/planexec/executor.go:234-251 | every intolerant node with dependencies is skipped in some run: for each of its dependencies, in one where that alone fails |
| `Executor.CheckDependencies` | internal/planexec/executor.go:601-612 | the loop over the dependencies decides as the state machine does |
| `Executor.CollectDependencies` | internal/planexec/executor.go:594-600 | the results handed over are those of all dependencies |
| `Executor.PopReady` | internal/planexec/executor.go:42-53 | the ready node of highest priority comes first, the earliest pushed on ties |
| `Executor.PopRetry` | internal/planexec/executor.go:60-77 | the retry due first comes first, the earliest pushed on ties |
| `Executor.Executor.constructor` | internal/planexec/executor.go:95-123 | an executable plan starts in a reachable state with no events |
| `Executor.Executor.PromoteDue` | internal/planexec/executor.go:133-142 | afterwards no retry is due, and only promotions have happened |
| `Executor.Executor.LaunchReady` | internal/planexec/executor.go:143-164 | launches until a limit is met, and leaves no node ready with nothing running |
| `Executor.Executor.SweepRemaining` | internal/planexec/executor.go:165-175 | ends every node that is not terminal as skipped, one event of the machine |
| `Executor.Executor.CancelRemaining` | internal/planexec/executor.go:190-201 | ends every node that is not terminal as cancelled, one event of the machine |
| `Executor.Executor.DependencyPass` | internal/planexec/executor.go:234-251 | the pass in the order it took equals the machine's pass in that order |
| `Executor.Executor.ReceiveOne` | internal/planexec/executor.go:202-251 | one completion is one event: back to waiting exactly if it failed retryably with attempts left, otherwise settled |
| `Executor.Executor.RunLoop` | internal/planexec/executor.go:132-253 | the main loop ends with every node terminal, having done a run of the machine, while time passes in any way |
| `Executor.Executor.AwaitCompletion` | internal/planexec/executor.go:202-202 | before a completion is received, goroutines finish in any order and any time passes, so that a retry may fall due while other nodes run |
| `Executor.Executor.BuildResult` | internal/planexec/executor.go:254-274 | the plan result lists every node's result and the requested output, and is partial exactly if some node is not complete |
| `Executor.Executor.Run` | internal/planexec/executor.go:95-281 | a whole run: all nodes terminal, skips only below failures, starts bounded, and what a started node was given is what the plan result says of its dependencies |
| `SingleFlight.StepKeeps` | internal/engine/singleflight.go:22-62 | every step of every client keeps the group's invariant |
| `SingleFlight.OneCallPerKey` | internal/engine/singleflight.go:22-62 | two calls for one key are never uncompleted together |
| `SingleFlight.FollowersGetTheLeadersValue` | internal/engine/singleflight.go:27-60 | whatever happens in between, a follower gets what its leader published first, and can return at once |
| `SingleFlight.RemovalIsOwn` | internal/engine/singleflight.go:43-51 | a completion removes only its own entry |
| `SingleFlight.JoinsTheOpenCall` | internal/engine/singleflight.go:27-41 | who asks while a call for its key is open joins that call |
| `SingleFlight.FlightGroup.Acquire` | internal/engine/singleflight.go:22-42 | the object does the machine's acquire step; a leader's call is new |
| `SingleFlight.FlightGroup.Publish` | internal/engine/singleflight.go:43-46 | only the first completion of a call changes its value |
| `SingleFlight.FlightGroup.Remove` | internal/engine/singleflight.go:47-51 | the object does the machine's removal step |
| `SingleFlight.FlightGroup.Await` | internal/engine/singleflight.go:52-60 | a waiter gets the published value, or nothing only if its own context has ended |
| `BatchMatch.MatchIsInjective` | internal/engine/fetch.go:304-330 | no artifact serves two requests, and the fallback by position never takes one matched by id |
| `BatchMatch.UnmatchedHasNothingLeft` | internal/engine/fetch.go:304-330 | a request stays without an artifact only if all that match it, and the one at its position, serve others |
| `BatchMatch.OrderDoesNotMatter` | internal/engine/fetch.go:304-330 | if ids pair requests and artifacts one to one, each request gets its own artifact in every order of the output |
| `BatchMatch.MatchBatchArtifacts` | internal/engine/fetch.go:304-330 | the two loops with their used array compute that matching |
| `FetchModel.ResolvedIsCanonical` | internal/engine/fetch.go:54-69 | a valid reference always resolves to one with a canonical id |
| `FetchModel.PrepareCovers` | internal/engine/fetch.go:48-108 | what is asked of a provider together with what the session holds is all that was wanted |
| `FetchModel.DedupFetchItems` | internal/engine/fetch.go:332-353 | merges the requests key by key, in order of first appearance |
| `FetchModel.DedupCovers` | internal/engine/fetch.go:332-353 | one request per key, asking for exactly the parts some request with its key asked for |
| `FetchModel.ItemKeysTellApart` | internal/engine/fetch.go:336-340 | requests without canonical ids are merged only if they name the same object, if no kind and no source holds a bar |
| `FetchModel.ItemKeysCanClash` | internal/engine/fetch.go:336-340 | otherwise requests for two objects can be merged into one |
| `FlightKeys.PlainKeys` | internal/engine/fetch.go:100-100 | between providers without bars equal keys ask the same version of the same provider for the same parts, and in one scope of the same object |
| `FlightKeys.KeysNamePartsIffApart` | internal/engine/fetch.go:100-100 | for every set of providers: equal keys always ask for the same parts if and only if no two providers clash |
| `FlightKeys.KeysNameObjectsIffNoOverlap` | internal/engine/fetch.go:100-100 | equal keys of one scope always name the same object if and only if no two providers overlap |
| `FlightKeys.PlainProvidersAreApart` | provider/registry.go:32-50 | providers whose ids and versions hold no bar neither clash nor overlap |
| `Fetch.FetchRun.PrepareItem` | internal/engine/fetch.go:48-108 | each item gets its result at once or becomes one work with a call led or joined under its formatted key |
| `Fetch.FetchRun.Apply` | internal/engine/fetch.go:110-125 | an outcome becomes the item's result, and the cache loses no part |
| `Fetch.FetchRun.Complete` | internal/engine/fetch.go:163-199 | a led call is published and removed, whatever others do in between |
| `Fetch.FetchRun.CallProvider` | internal/engine/fetch.go:156-202 | every outcome follows from the budget, the provider and the artifact matched to the request: served and valid, served but unusable, or not served; the provider is called only on a reservation |
| `Fetch.FetchRun.GroupLeaders` | internal/engine/fetch.go:129-142 | every leading work is in the group of its provider, in order and once |
| `Fetch.FetchRun.RunGroup` | internal/engine/fetch.go:144-155 | a group is cut, in order, into calls no larger than its provider takes |
| `Fetch.FetchRun.RunLeaders` | internal/engine/fetch.go:144-204 | whatever the batching, every led call gets an outcome and is owed by exactly one place in one chunk |
| `Fetch.FetchRun.RunWorks` | internal/engine/fetch.go:127-205 | in every order of the goroutines all items get a result, and the completions are exactly those the chunks owe: one for each led call |
| `Fetch.MakeReply` | internal/engine/fetch.go:206-228 | partial if and only if some item has an error |
| `Fetch.Fetch` | internal/engine/fetch.go:25-229 | one result per distinct item, artifact or error and not both; an artifact has every part asked for, from a joined call if no registered providers clash; each leadership is completed once; the session's artifacts stay under their own ids, lose no part and hold everything handed out |
| `Fetch.EveryRequestIsCovered` | internal/engine/fetch.go:39-39 | every original request finds the parts it asked for in the artifact returned under its key, from a joined call if no registered providers clash |
| `FetchWorld.StepsAreRely` | internal/engine/fetch.go:101-204 | in every interleaving of any number of fetches, each step of one leaves the shared group as all others assume: calls led elsewhere untouched, and every published artifact with the parts some registered provider was asked for under its key |
| `FetchWorld.SomebodyIsToAnswer` | internal/engine/fetch.go:131-141 | a work whose call has no value waits for exactly one work that can finish the call at once, with any outcome; if its own fetch has finished its calls, of another fetch |
| `FetchWorld.EndedFetchesLeaveNobodyWaiting` | internal/engine/fetch.go:205-205 | when every fetch has ended, every call has a value and no call is left in the map |
| `FetchWorld.CompletionsAreBounded` | internal/engine/singleflight.go:43-51 | there are at most two completing steps for each item asked for, in every run |
| `FetchWorld.PartsIffApart` | internal/engine/fetch.go:100-141 | in every run each work gets the parts it asks for, from its own or a joined call, if and only if no two registered providers clash |
| `FetchWorld.ObjectsIffNoOverlap` | internal/engine/fetch.go:100-141 | in every run works of one scope share calls for one object only, if and only if no two registered providers overlap |
| `FetchWorld.PlainProvidersShareWell` | internal/engine/fetch.go:100-141 | ids and versions without bars are enough for both |
| `FetchWorld.ClashingProvidersMixObjects` | internal/engine/fetch.go:100-141 | two requests with one key: the second is given the first one's artifact, without the part it asks for and without an error |
| `Dedup.FirstByKeyIsDedup` | internal/engine/fetch.go:425-451 | the merge helpers keep every key once and invent nothing |
| `Dedup.FirstByKeyTwice` | internal/engine/fetch.go:440-451 | merging in two goes is merging at once |
| `Dedup.KeepFirst` | internal/engine/fetch.go:425-439 | the loop over the seen map computes it |
| `Objects.MergeArtifactLosesNothing` | internal/engine/fetch.go:403-424 | merging two artifacts keeps all parts, chunks and relations of both, and the older one's identity |
| `Objects.NormalizedIsRebound` | internal/engine/expand.go:202-212 | an end of a relation with a native id is keyed by the caller's scope, whatever the provider sent |
| `Objects.RelationKeysTellApart` | internal/engine/fetch.go:440-451 | relations are merged only if they are the same, if types and one of the ends hold no bar |
| `Expand.ClampDepth` | internal/engine/expand.go:38-43 | the depth is between 1 and 2 |
| `Expand.TakeIn` | internal/engine/expand.go:146-164 | an answer's allowed relations are merged in, and every new object reached joins the next frontier once |
| `Expand.ExpandOne` | internal/engine/expand.go:88-125 | each check of an expansion decides its answer in turn; the provider is called only on a reservation |
| `Expand.ExpandLevel` | internal/engine/expand.go:80-170 | a level expands each waiting object once, in any order of the results |
| `Expand.CoveredGrows` | internal/engine/expand.go:157-163 | a level takes the visited objects one hop further, if keys identify the objects a traversal can meet |
| `Expand.Traverse` | internal/engine/expand.go:67-170 | for every depth and every graph: each relation once, no object expanded twice, nothing beyond the depth, all relations of expanded objects; if keys identify the objects met and no failure stops it, exactly the allowed relations leaving objects fewer than that many hops away |
| `Expand.AnsweringByKeyIdentifies` | internal/engine/expand.go:146-156 | keys identify the objects met for every provider that answers by key, or not at all |
| `Expand.EchoingProvidersQualify` | internal/engine/expand.go:151-155 | and for every provider that puts the object asked about, or nothing, where a relation comes from; objects that nobody expands may be among those met |
| `Expand.SessionRelations.Expand` | internal/engine/expand.go:31-190 | rejected exactly for a missing, unknown or foreign reference, refused exactly if the root cannot be expanded, and then nothing changes; everything reported can be found, all relations of expanded objects are reported, and if no object met fails everything that can be found is; partial exactly if an expansion failed |
| `Expand.ExpandKeepsRelations` | internal/engine/expand.go:172-184 | the session keeps every relation it had and gains the found ones, each once |
| `Fusion.CanonicalizeIsCanonical` | internal/fusion/fusion.go:40-78 | every candidate gets a canonical id that its reference can reproduce |
| `Fusion.CanonicalIdIsStable` | internal/fusion/fusion.go:40-78 | canonicalizing again keeps the id |
| `Fusion.CanonicalizeTwice` | internal/fusion/fusion.go:40-78 | canonicalizing twice changes nothing if and only if the native id is trimmed or blank |
| `Fusion.ProviderCannotChooseScope` | internal/fusion/fusion.go:66-70 | the scope and canonical id a provider sends have no effect |
| `Fusion.ScopesAreApart` | kernel/types.go:121-126 | objects of two scopes can have one canonical id if and only if the scopes are the same or one goes on after the other with a colon |
| `Fusion.PlainScopesAreApart` | kernel/types.go:121-126 | so different scopes without a colon never do |
| `Fusion.MergeStaysCanonical` | internal/fusion/fusion.go:127-156 | merging keeps the first candidate's id, and keeps it stable |
| `Fusion.BestDiscoveries` | internal/fusion/fusion.go:170-189 | the loop over a map with sorted keys computes one best discovery per key, in key order |
| `Fusion.BestOfIsBest` | internal/fusion/fusion.go:170-189 | merged discoveries are exactly the least rank for every key of the pool, in key order |
| `Fusion.MergeBest` | internal/fusion/fusion.go:151-151 | merging what was merged before with more is best for all of them |
| `Fusion.BestRanksAreUnique` | internal/fusion/fusion.go:170-189 | a pool of discoveries determines the keys and ranks of its merge |
| `Collect.MergeLoop` | internal/fusion/fusion.go:201-209 | the loop computes the merge of each object's finds |
| `Collect.OneCandidatePerId` | internal/fusion/fusion.go:201-209 | exactly one candidate for every canonical id of the input, stored under it |
| `Collect.CollectedIsMergedGroup` | internal/fusion/fusion.go:201-209 | it is the merge of all finds with that id, in their order |
| `Collect.ArrivalOrderIsIrrelevant` | internal/fusion/fusion.go:127-189 | for every permutation of the input each object gets the same best rank per provider and source, the same projections and the same latest timestamp |
| `ArrivalOrder.OrderIsIrrelevantIffAgree` | internal/fusion/fusion.go:170-189 | every order of the input gives an object the same keys, ranks and sources, as far as any view of sources tells, if and only if its finds with the best rank of a key agree in that view |
| `ArrivalOrder.ScoreIgnoresArrivalOrder` | internal/fusion/fusion.go:211-237 | if they agree on the weights, the rank sum and the multi-source bonus are the same in every order |
| `ArrivalOrder.NamedSourcesAgree` | internal/fusion/fusion.go:173-173 | they agree in every view if keys name sources |
| `ArrivalOrder.NoBarNoClash` | internal/fusion/fusion.go:173-173 | keys name providers and sources if no provider id holds a bar |
| `ArrivalOrder.TwoFinds` | internal/fusion/fusion.go:173-177 | two finds with one key have the same rank sum in both orders if and only if their ranks differ or the weights of their sources are equal |
| `ArrivalOrder.ClashingKeysDependOnOrder` | internal/fusion/fusion.go:173-177 | two candidates of one object whose order decides the rank sum |
| `Quota.FirstPassOfSource` | internal/fusion/fusion.go:262-276 | the first pass takes an initial run of each source, up to its quota or a full result |
| `Quota.SortedKeepsSource` | internal/fusion/fusion.go:283-283 | the final stable sort does not reorder a source's candidates |
| `Quota.SelectionIsRanked` | internal/fusion/fusion.go:256-284 | the selection has min(limit, available) candidates in falling score order, of each source the ones ranked first |
| `Quota.QuotasAreFair` | internal/fusion/fusion.go:262-282 | if a source exceeds its quota, every source has at least the smaller of its quota and what it offers |
| `Quota.SelectLoop` | internal/fusion/fusion.go:262-284 | the two loops and the sort compute that selection |
| `Ranking.ScoreLoop` | internal/fusion/fusion.go:211-246 | every merged candidate is scored once, in any order of the map |
| `Ranking.RankLoop` | internal/fusion/fusion.go:247-255 | whatever the comparison says about equal scores, the result is a permutation in falling score order |
| `Ranking.Fuse` | internal/fusion/fusion.go:191-285 | min(limit, unique) distinct merged candidates with their scores, in falling score order, selected from a ranking of all |
| `Ranking.FusedIsRanked` | internal/fusion/fusion.go:256-284 | with or without quotas: as many distinct objects as asked for, in falling score order, the best of every source |
| `Requests.AcceptedRequests` | kernel/types.go:335-409 | a request with its defaults is valid if and only if it has a query and names known choices or none; limits are never a reason |
| `Requests.DefaultsFill` | kernel/types.go:255-384 | positive limits and named choices are kept; everything a search needs has a value |
| `Requests.ProfilesDiffer` | kernel/types.go:335-384 | what the three profiles stand for when nothing else is said |
| `Requests.DefaultsTwice` | internal/engine/search.go:128-128 | filling in the defaults of a stored request again changes nothing |
| `Search.SearchEngine.SearchOne` | internal/engine/search.go:219-322 | the page is what the provider answered last, with the missing fields of every candidate filled in and without a next page when over budget; or there is none; at most one retry, each call on its own reservation |
| `Search.StampedIsComplete` | internal/engine/search.go:301-317 | every candidate of a page has a rank, a discovery and a source |
| `Search.SearchEngine.SearchWave` | internal/engine/search.go:196-218 | one page of every source, in their order, asked for with the given cursors |
| `Search.FrontiersFrom` | internal/engine/search.go:351-357 | the first wave's frontiers hold exactly its sources' cursors |
| `Search.MergeFrontiers` | internal/engine/search.go:375-385 | a later wave replaces exactly its sources' frontiers |
| `Search.OrderedSources` | internal/engine/engine.go:308-319 | the named sources, each once, in order |
| `Search.ChooseNextSources` | internal/engine/search.go:443-471 | exactly the sources with more pages that the strategy lets go on |
| `Search.SearchEngine.RankCandidates` | internal/engine/search.go:331-343 | one stored candidate for every canonical id, scored at one moment, and a result selected from a ranking at another; the two differ in the scores only |
| `Search.SearchEngine.Search` | internal/engine/search.go:25-113 | rejects exactly the unacceptable requests; a stored request is of the session's scope; stores exactly one candidate per canonical id on any page and returns a selection of them; at most the allowed pages per source; every next page is asked for with the cursor of the page before; stops only at the page limit or when no source may go on, with fixed paging takes every page up to the limit and without paging the first |
| `Search.SearchEngine.Continue` | internal/engine/search.go:115-194 | loses no stored id, adds exactly those on the new pages, ranks both together, goes on from each frontier and never from the beginning, and takes every page it may |
| `Search.SearchEngine.MorePages` | internal/engine/search.go:66-87 | the paging loop, from the frontiers of a first round |
| `Search.SearchEngine.ContinuePages` | internal/engine/search.go:159-176 | each source is asked again as long as it has more and a cursor, up to the page limit |
| `Search.SearchEngine.Query` | internal/engine/query.go:13-93 | what a query stores is under its canonical id, replaces only candidates with the same id, and nothing stored is lost; at most one call, on a reservation |
| `Search.SearchEngine.Resolve` | internal/engine/engine.go:211-255 | at most one call, under a shared account on a reservation; a search stands in for a resolver by its candidates' references, in order |
| `Search.PagesWithoutCursor` | internal/engine/search.go:66-87 | a page is asked for without a cursor if and only if it is its source's first or the page before said there is more and named none |
| `Search.GoingOnWithoutCursor` | internal/engine/search.go:443-471 | whether a search goes on with a source does not depend on its cursor, and whether a continued search does, does |
| `Search.FirstPageCanRepeat` | internal/engine/search.go:66-87 | a run with the default choices that asks for a first page twice |
| `Search.ListedIds` | internal/engine/search.go:158-177 | re-ranking what a snapshot lists keeps exactly the stored ids |
| `Session.ListInOrder` | internal/session/store.go:68-82 | every value of a map once, by falling score and then id, in any order of the map |
| `Session.ListRoundTrip` | internal/session/store.go:42-82 | listing what was restored from a list gives the list back if and only if its ids differ |
| `Session.SnapshotRoundTrip` | internal/session/store.go:42-102 | a snapshot survives being restored and taken again exactly when the ids of its candidates, and of its artifacts, differ |
| `Session.KeyedRecordsRoundTrip` | internal/session/store.go:42-102 | so it does for every record keyed by ids, and restoring gives that record back |
| `Session.EventsAreTheNewest` | internal/session/store.go:104-120 | after any sequence of events the stored ones are the last 2000 of the whole history |
| `Session.Record.Restore` | internal/session/store.go:42-60 | the record restored from a snapshot |
| `Session.Record.Snapshot` | internal/session/store.go:65-102 | a snapshot lists everything the record holds |
| `Session.Record.AddEvent` | internal/session/store.go:104-120 | the event, with missing fields filled in, is appended and old ones are dropped |
| `Ledger.WithDefaults` | kernel/types.go:255-275 | positive fields are kept, the others get their default, and every field is positive |
| `Ledger.Ledger.Reserve` | internal/budget/ledger.go:43-61 | granted exactly if not negative, in time and within every maximum; a refusal changes nothing |
| `Ledger.Ledger.ReserveFetch` | internal/budget/ledger.go:67-72 | nothing is charged for no fetches, otherwise a reservation |
| `Ledger.Ledger.ReserveExpand` | internal/budget/ledger.go:74-79 | nothing is charged for no expansions, otherwise a reservation |
| `Ledger.Ledger.AddBytes` | internal/budget/ledger.go:81-92 | granted exactly if there is nothing to charge or it fits in time |
| `Ledger.UsedIsWhatWasAccepted` | internal/budget/ledger.go:43-92 | over every interleaving the counters are the sums of what was granted and stay within their maxima |
| `Ledger.FreshAccount` | internal/budget/ledger.go:29-39 | from a fresh account, used is exactly what was granted |
| `Ledger.RefusalIsFinal` | internal/budget/ledger.go:43-61 | what was refused once is refused for good |
| `Ledger.CallsAreReserved` | internal/budget/ledger.go:43-61 | at every moment of every interleaving the calls made and the reservations held are at most the calls charged |
| `Ledger.AtMostMaxCalls` | internal/budget/ledger.go:43-61 | operations that pay for their own calls make at most MaxCalls provider calls together |
| `Ledger.GoroutinesStayWithin` | internal/engine/search.go:253-276 | at no moment of any interleaving of the operations' recorded doings have they called providers more often than MaxCalls allows |
| `Research.AncestorSearch.Visit` | internal/research/service.go:408-427 | with a visited set shared by all branches and an early exit, a hit is a reachable search and a miss leaves everything explored |
| `Research.HasRetrievalAncestor` | internal/research/service.go:406-434 | true if and only if a search can be reached through dependencies, on any graph, with cycles and unknown ids |
| `Research.CapabilitySupports` | internal/research/service.go:391-404 | true if and only if some provider of the source is ready for the operation |
| `Research.ConstrainSearch` | internal/research/service.go:204-249 | a search is bound to the caller's sources, query, filters and limits, or refused |
| `Research.ConstrainPlan` | internal/research/service.go:180-301 | the rewritten plan, or the id of a node that is not authorized |
| `Research.AcceptedPlanIsWithin` | internal/research/service.go:180-301 | an accepted plan keeps its ids and dependencies; its budget is positive and at most the caller's; its searches stay inside a non-empty caller source set; its fetches are at most MaxFetches and have a search behind them |
| `Research.VerdictIsUnique` | internal/research/service.go:180-301 | there is one way to accept a plan, and then no node of it is refused |
| `Research.ConstrainingKeepsExecutable` | internal/research/service.go:180-301 | the executor accepts a constrained plan if and only if it accepts the planner's |
| `Research.ConstrainingTwiceIsOnce` | internal/research/service.go:180-301 | an accepted plan is accepted again and not changed |

## Left out

- Event emission and the progress stream: no event influences a node, a result or the store.
- The payloads that `executeNode` computes for merge, dedup, rank, limit and project nodes: a node's outcome is arbitrary, which covers them.
- `container/heap`: the heaps are sets with a pop of the least item; the array layout is not modelled.
- Provider adapters, HTTP, JSON, JSON Schema, SHA-256, URL parsing, registry routing, reranking, evidence extraction: arguments or absent.
- Machine integers: all counters, delays and budgets are mathematical integers, so overflow is not modelled.
- Floating point: scores are real numbers.
- Text and recency bonuses of the fused score and the order among equal scores: the bonuses are an arbitrary function of the candidate, the order is arbitrary.
- Titles, snippets, actors, containers and provenance of merged candidates, and metadata, attachments and provenance of merged artifacts: they follow arrival order and feed no property here.
- Source runs, continuations and statistics in search replies, and the error returned when every source failed: reporting only.
- Time to live of sessions and the stores behind them: a record is one object; the expiry rules, files and SQLite are not part of this model.
- Two concurrent fetches or searches writing one session record: session growth is stated for one operation after another.
- `flightGroup.Do`: a composition of acquire and complete.
- Fetch.FetchRun.CallProvider: does not say that an artifact taken by position has the requested id, because the source does not check it.
- Expand.Traverse: completeness assumes that objects the traversal can meet and that share a key have the same relations, as they have for every provider that echoes or answers by key, and that no failure stops it; a provider that answers one object differently under two references can be missed out on.
- PlanExecRisk.SkippedOnlyAtRisk: for tolerant nodes at risk it does not say which are skipped in some run; whether the sweep can catch one depends on what else the plan leaves to settle after its dependency is skipped. For intolerant nodes the condition is exact.
- ArrivalOrder.ScoreIgnoresArrivalOrder: weights that differ for several keys may still add up to one sum; the exact condition is that of the single entries.
- PlanExecBackoff.BackoffIsRespected: counts the clock of the run, in whole milliseconds.
- Executor.Executor.Run: the budget account of a run and its deadline appear only as cancellation at any moment and as arbitrary provider outcomes.
- Requests.AcceptedRequests: the letters of profile names are ASCII, so lower case is modelled for ASCII letters; source queries, filters and the normalization of the identity are not part of this model.
