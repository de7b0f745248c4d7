# Verified model of the scanning platform

A Dafny model of the parts of the platform where several actors share state, and
of its input transformations, with proofs of what they keep.

**Scans.** PostgreSQL is the queue. `ScanTable` is the table and its conditional
updates, `ScanLocks` transactions with row locks that stage and commit,
`ScanExecutor` the executor as a program whose every await may be interrupted,
with the outcome of an interrupted commit unknown, `ScanExecutorPaths` and
`ScanExecutorEdges` its paths from first await to result, `ScanSystem` the whole
protocol (create, rename, delete, dispatch under the tenant lock and the quota,
cancel, claim, reap, any number of executors, crashes), `ScanRequests` what each
request comes to, `ScanRuns` what holds over every run of the protocol,
`ScanHistory` the quota and the reaper by what has happened to a scan,
`ScanAbandoned` runs that leave a scan behind, `ScanPump` and `ScanDrain` the pump
and its bells, as one call and as runs.

**Events.** `EventStream` is the stream with its consumer group, retry counters
and dead-letter stream, `EventRuns` any number of consumers with every Redis
command able to fail before or after its effect, `DeadLetters` how often a message
is dead-lettered over their runs, `EventSteps` what undisturbed commands come to,
`EventLoop` the loop itself with its termination.

**Enrichment.** `Enrichment` is the cache and one run, `EnrichmentRuns`
overlapping runs over the same rows, `Citations` the filter of identifiers.

**Leases, sessions, revocation, lockout.** `DistLock` and `LeaseRuns`,
`Sessions` and `SessionRuns`, `Revocation` and `RevocationRuns`, `Lockout` and
`LockoutRuns`. Each first file holds the calls, the second every interleaving of
them; `LockoutReached` runs overlapping attempts from the empty store.

**Tabs.** `TabSession` is several tabs with a shared cookie, a backend that rotates
it, Web Locks and delayed broadcasts, `TabModule` one tab's module state, each
method a step of that protocol, `TabRefresh` what one refresh comes to, `TabStale` when
exactly a rotated cookie is sent.

**Transformations.** `Findings` with `FindingPlaces`, which says position by position
what is found, kept and stored, and `ScanGraph` which composes them into the graph of
one scan; `EnvFile`, `EnvParsing`, `EnvRewriting` and `EnvOutput` the parser, its
language, the passes and what they leave; `Cidr`, `CidrGlobal` and `CidrRanges`;
`Streams`.

Some natural claims do not hold of the code. For each the model has a concrete
run or input that shows it, and proves the claim under the condition that rules
such runs out, as an equivalence where the Model table says "exactly":

- A claimed scan can be left running: by an executor that claimed it itself and did
  not learn that the commit was applied (`ScanAbandoned.OwnClaimCanBeAbandoned`; the
  worker always passes a claimed scan), and by a cleanup outside the try block that
  raises (`ScanAbandoned.CleanupCanFail`). `ScanExecutorPaths.AbandonedIff` is the
  exact condition.
- A message can be dead-lettered twice: after a lost reply to the append, a refused
  acknowledgement, a crash before it, or by two consumers at once
  (`DeadLetters.DeadLettersCanRepeat`, `DeadLetters.OnceIff`).
- Stored enrichment content can be replaced by an overlapping run with the same key
  (`EnrichmentRuns.OverlapReplacesContent`).
- The unconditional pop of a late release removes the record of the next holder
  (`LeaseRuns.LateResumeForgetsHolder`).
- The session count looks at the expiry, the eviction does not, so six sessions can
  be active (`Sessions.CapIsExceeded`).
- A login between the read and the deletion of a revocation is forgotten
  (`RevocationRuns.LateLoginIsForgotten`).
- A non-canonical first draft hides a storable later one from the insert
  (`Findings.DedupCanLoseAFinding`).
- A lost refresh response makes the next refresh present a rotated cookie
  (`TabSession.LostResponseEndsSession`); exactly so (`TabStale.SendsRotatedIff`).
- An accepted subnet can hold addresses that are not global, because the host
  language looks at the two ends of a network (`CidrGlobal.LowestBlockIsAccepted`);
  `CidrGlobal.HidesIff` names the blocks.
- Overlapping failures stack a lockout beyond the key's expiry, and can take one back
  (`LockoutReached.ConcurrentRecordsStack`, `LockoutReached.LateWriteLowersLock`).

One disagreement with the documentation: the docstring of `_dispatch_event`
(app/event_bus/bus.py) says a dead-lettered message is reported as not eligible;
the code reports it as eligible, and so does the model.

## Model

| member | source | states |
|---|---|---|
| `ScanTable.MovedIsLegal` | app/modules/scans/state.py:56-79 | a status the conditional update accepts is a step of the transition map, and the row keeps its time stamps consistent with its status |
| `ScanTable.ReapedIsLegal` | app/modules/scans/state.py:128-143 | reaping fails a stale running row and is a legal step |
| `ScanTable.TerminalIsFinal` | app/modules/scans/state.py:56-79 | no history of legal steps leaves a terminal status or changes its outcome |
| `ScanTable.OldestExists` | app/modules/scans/state.py:96-125 | whenever a ready row is unlocked there is a least one by dispatch time and id |
| `ScanTable.OldestIsUnique` | app/modules/scans/state.py:96-125 | there is only one such row |
| `ScanTable.OldestWaitsLongest` | app/modules/scans/state.py:96-125 | it is the ready, unlocked row with the least dispatch time, and among those with that time the least id |
| `ScanTable.ScanStore.TransitionScan` | app/modules/scans/state.py:146-209 | the row moves exactly if the target is allowed from its status; an invalid request changes nothing and names its error |
| `ScanTable.ScanStore.ClaimNext` | app/modules/scans/state.py:96-125 | the claimed row is unlocked and ready, no other such row was dispatched before it, or with it under a smaller id; it becomes running from now on and nothing else changes; None exactly if there is none |
| `ScanTable.ScanStore.ReapStale` | app/modules/scans/state.py:128-143 | exactly the rows running since before the threshold fail, with the reason and the end of a reaping, and their number is returned; younger ones stay |
| `ScanTable.ScanStore.CountReady` | app/modules/scans/state.py:85-93 | the number of ready rows, up to the limit |
| `ScanLocks.CommitMovesLegally` | app/modules/scans/state.py:146-209 | whatever a transaction has staged under row locks, its commit moves every row by a legal step |
| `ScanLocks.CommitKeeps` | app/modules/scans/service.py:221-302 | a commit keeps the table well-formed: rows consistent, claims counted once, findings attached to a scan |
| `ScanExecutor.StepKeepsDb` | app/modules/scans/executor.py:108-165 | every step of the executor, interrupted or not, keeps the database invariant; findings are only ever committed with the completion |
| `ScanExecutor.StepKeepsExec` | app/modules/scans/executor.py:54-165 | every step keeps the executor in order: its transaction holds only its own scan, statements find the tenant context set, its claimed row is running until it settles it |
| `ScanExecutor.OthersKeepExec` | app/modules/scans/executor.py:108-165 | steps of everybody else keep that too |
| `ScanExecutorPaths.UndisturbedRunCompletes` | app/modules/scans/executor.py:108-165 | an undisturbed run completes the row with its report and adds exactly the findings not stored yet |
| `ScanExecutorPaths.CleanupPath` | app/modules/scans/executor.py:97-106 | a cleanup nobody interrupts ends in a terminal row, the goal exactly if the row was still open, and stores no finding |
| `ScanExecutorPaths.InterruptedCleanupSettlesScan` | app/modules/scans/executor.py:54-106 | cancelled at any of its awaits, inside or outside the try block, a cleanup still settles the row the same way, and the cancellation is raised after it |
| `ScanExecutorPaths.GraphErrorFailsScan` | app/modules/scans/executor.py:108-165 | a graph error fails the scan with its reason and stores no finding |
| `ScanExecutorPaths.ErrorFailsScan` | app/modules/scans/executor.py:108-165 | an exception at any await of a claimed run outside the graph, the raising statement applied or not, ends with the row failed for "internal_error" and "failed" returned; no finding is stored and, only if the final commit had been applied, the row stays completed |
| `ScanExecutorPaths.UnclaimedErrorIsRaised` | app/modules/scans/executor.py:154-165 | before the claim an exception is raised and changes nothing |
| `ScanExecutorPaths.CancellationSettlesScan` | app/modules/scans/executor.py:54-106 | a cancellation at any await of a claimed run, whether the interrupted statement was applied or not, ends with the row terminal and the cancellation raised; the findings survive exactly if the final commit had been applied |
| `ScanExecutorPaths.AbandonedIff` | app/modules/scans/executor.py:54-165 | a step ends an executor while the row it has claimed is running exactly if the commit of its own claim was applied but not confirmed, or a cleanup outside the try block raised before its commit was applied |
| `ScanExecutorPaths.SecondFault` | app/modules/scans/executor.py:54-165 | a fault during a cleanup: an except clause passes an error on and raises a cancellation afterwards; the cleanup of a graph error is taken up by the except clauses, an error by failing for "internal_error", a cancellation by cancelling |
| `ScanExecutorEdges.ContextFollowsTransactions` | app/modules/scans/executor.py:49-51 | a commit and a rollback leave no tenant context, only setting it brings it back, no other statement touches it |
| `ScanExecutorEdges.VanishedScan` | app/modules/scans/executor.py:108-114 | a scan that is not there or another tenant's changes nothing: "cancelled" with a claim, "skipped" without |
| `ScanExecutorEdges.LostRun` | app/modules/scans/executor.py:141-151 | a run whose row has ended meanwhile stores neither report nor findings and returns "cancelled" |
| `ScanExecutorEdges.OwnClaim` | app/modules/scans/executor.py:115-119 | an executor without a claim moves the row to running exactly if it is pending and dispatched, and is skipped otherwise |
| `ScanAbandoned.DriveIsRun` | app/modules/scans/executor.py:108-165 | a path of one executor is a run of the whole system |
| `ScanAbandoned.OwnClaimCanBeAbandoned` | app/modules/scans/executor.py:108-130 | a run from a fresh deployment that ends so: cancelled inside its own claim commit, the executor leaves the row running |
| `ScanAbandoned.CleanupCanFail` | app/modules/scans/executor.py:154-165 | a run from a fresh deployment that ends the other way: a cancelled executor whose cleanup raises leaves the row running |
| `ScanExecutorPaths.CompletedMeansCommitted` | app/modules/scans/executor.py:108-165 | "completed" is returned only by the step whose commit wrote the status and the findings |
| `ScanSystem.ActionKeeps` | app/modules/scans/service.py:221-302 | every action of API, workers, reaper, executors and crashes keeps rows, sessions, tenant locks and quotas in order |
| `ScanRuns.FindingsOnlyForCompletedScans` | app/agents/scan_graph.py:132-155 | over every run, executor findings exist only beside completed scans |
| `ScanRuns.QuotaNeverExceeded` | app/modules/scans/service.py:250-302 | over every run no tenant occupies more than its limit on any UTC day, also when a transaction began before midnight |
| `ScanHistory.DailyUseIsLimited` | app/modules/scans/service.py:250-302 | over every run, at most the limit of a tenant's scans dispatched on a UTC day still wait or were ever claimed: stated by claim, without the refund test |
| `ScanHistory.ClaimedScansCount` | app/modules/scans/service.py:291-293 | a scan that was ever claimed counts for its day until it is deleted, also when it has failed; one that ended unclaimed counts for none |
| `ScanRuns.ClaimedAtMostOnce` | app/modules/scans/state.py:96-125 | no scan is claimed twice |
| `ScanRuns.ExecutorsHaveDistinctScans` | app/worker/tasks.py:83-146 | two executors never run the same claimed scan |
| `ScanRuns.StatementsRunInContext` | app/modules/scans/executor.py:49-51 | each statement of each executor runs under its tenant context, cleanup included |
| `ScanRuns.ResultsAreTruthful` | app/modules/scans/executor.py:97-165 | a finished claimed executor that did not raise an error left a terminal row that agrees with what it returned; for those that raised, `ScanExecutorPaths.AbandonedIff` says when the row is left running |
| `ScanRuns.TerminalRowsAreFrozen` | app/modules/scans/state.py:56-60 | a terminal row keeps its outcome until deleted, and a deleted one never returns |
| `ScanRuns.CancelledScansPublishNothing` | app/worker/tasks.py:43-59 | after a cancellation has been committed the scan never gets an executor finding |
| `ScanRequests.CreateCommits` | app/modules/scans/service.py:305-349 | a new scan is pending, with no time stamp and no outcome, and nothing else changes |
| `ScanRequests.CancelCommits` | app/modules/scans/service.py:221-238 | a scan can be cancelled exactly while it is pending or running; its status and end change, nothing else |
| `ScanRequests.RenameCommits` | app/modules/scans/service.py:457-480 | only the name changes |
| `ScanRequests.DeleteCommits` | app/modules/scans/service.py:502-535 | a deleted scan takes its findings with it, and no others |
| `ScanRequests.ReapCommits` | app/modules/scans/state.py:128-143 | only rows running for the given time fail, with the reason and end of a reaping |
| `ScanRuns.OnlyDispatchMakesReady` | app/modules/scans/service.py:250-302 | only the commit of a dispatch adds to the queue |
| `ScanRuns.ClaimCommits` | app/worker/tasks.py:83-101 | a worker that claims moves exactly that row, once, and rings for it |
| `ScanHistory.YoungScansAreSpared` | app/modules/scans/state.py:128-143 | a scan claimed at some moment is not reaped by a reaper that looks for older ones, over every run from its claim |
| `ScanRuns.DispatchAcceptedIffQuotaLeft` | app/modules/scans/service.py:250-302 | an undisturbed dispatch is accepted exactly when the count of the day leaves room, and otherwise changes nothing |
| `ScanHistory.AcceptedIffUseLeft` | app/modules/scans/service.py:250-302 | over every run, an undisturbed dispatch is accepted exactly if the scans of the day that still wait or were ever claimed leave room |
| `ScanPump.PumpRound` | app/worker/tasks.py:164-183 | a round claims, in order of dispatch time and id, the ready rows that wait longest, as many as are ready up to ten, and touches no other row |
| `ScanPump.QueueGrows` | app/modules/scans/state.py:96-125 | claiming the oldest remaining row extends the front of the queue by one |
| `ScanDrain.BellFindsUnlockedRow` | app/modules/scans/state.py:96-125 | a woken worker can claim exactly if some ready row is not locked by another session, and comes back empty-handed exactly if all are |
| `ScanDrain.CommittedClaimShrinks` | app/worker/tasks.py:83-101 | a committed claim takes its scan off the queue and adds none |
| `ScanDrain.ClaimsDrainQueue` | app/worker/tasks.py:164-183 | over every run without a new dispatch the queue never grows, and is shorter by at least the claims committed |
| `ScanDrain.RoundClaimsFront` | app/worker/tasks.py:164-183 | with no ready row locked, the bells of one round are a run of the system that claims the front of the queue in order, as many as are ready up to ten |
| `ScanDrain.RoundsDrainQueue` | app/worker/tasks.py:164-183 | one round per ten ready scans, each committing as many claims as the pump rings bells, empties the queue, whatever else runs beside it |
| `ScanDrain.ClaimOvertakesOnlyHidden` | app/modules/scans/state.py:96-125 | first in, first out over runs: a ready scan with an earlier dispatch time, or the same and a smaller id, than a claimed one was locked by another session, or not yet dispatched, when the claim read the queue |
| `EventRuns.LeavesPendingOnlyWhenDisposed` | app/event_bus/bus.py:177-290 | a message leaves the pending list only if handled or dead-lettered |
| `EventRuns.ActionKeeps` | app/event_bus/consumer.py:67-199 | every command of every consumer, failing before or after its effect, keeps every entry undelivered, pending, handled or dead-lettered |
| `EventRuns.NoMessageIsLost` | app/main.py:76-109 | so over every run from the empty stream, and dead letters carry the payloads as published |
| `DeadLetters.StepOnceIff` | app/event_bus/bus.py:113-121 | a step leaves every message with at most one dead letter exactly unless it appends one of a message that has one |
| `DeadLetters.OnceIff` | app/event_bus/bus.py:254-290 | so over every run from the empty stream |
| `DeadLetters.EntriesAreBounded` | app/main.py:76-109 | over every run from the empty stream a message has at most one dead letter and one more for each lost reply to its append, refused acknowledgement, crash before the acknowledgement, and claim while another consumer has it |
| `DeadLetters.CalmIsOnce` | app/event_bus/consumer.py:112-130 | a single consumer without faults and crashes dead-letters no message twice |
| `DeadLetters.DeadLettersCanRepeat` | app/event_bus/consumer.py:112-130 | each of the four alone is reached from the empty stream and leads to two dead letters of one message |
| `EventLoop.ConsumerLoop.Process` | app/event_bus/bus.py:144-290 | a success, and it alone, marks the message handled; a failure with retries left only counts; otherwise exactly one dead letter with payload, reason and time is added; acknowledged in the first and the last case; other counters untouched |
| `EventLoop.ConsumerLoop.ProcessBatch` | app/main.py:88-102 | a batch stops at the first raised handler and still shrinks the work left |
| `EventLoop.ConsumerLoop.Drain` | app/main.py:76-102 | without faults the loop ends with nothing pending; what was finished before gets nothing, any other message one dead letter or none, and one exactly if it was never handled; none is dispatched more often than its remaining retries and one more |
| `EventSteps.SuccessfulDispatch` | app/event_bus/bus.py:206-219 | the commands of one successful dispatch, undisturbed: handled, counter gone, acknowledged, nothing dead-lettered |
| `EventSteps.RetriedDispatch` | app/event_bus/bus.py:220-252 | of a failed one with fewer than three counted: one more is counted, the message stays pending, the batch ends |
| `EventSteps.ExhaustedDispatch` | app/event_bus/bus.py:253-290 | of a failed one after three: one dead letter with payload, reason and time, then acknowledged |
| `EventSteps.NextBatch` | app/event_bus/consumer.py:67-199 | the first hundred pending messages in stream order come before anything new; without any, the next ten of the stream become pending |
| `Enrichment.LevelsAreUnique` | app/modules/enrichment/prompts.py:21-31 | no level lists a function twice |
| `Enrichment.LevelsNest` | app/modules/enrichment/prompts.py:21-31 | three functions, three more, three more again, and no other level |
| `Enrichment.DueFunctions` | app/modules/enrichment/service.py:43-65 | the scoped functions without an identical success, in level order; an unknown level is an error |
| `Enrichment.UpsertKeepsHits` | app/modules/enrichment/service.py:163-194 | an upsert ends a stored success exactly if it is that function under another key, and replaces its row exactly then or by a new success |
| `Enrichment.SavedRows` | app/modules/enrichment/service.py:143-194 | a run writes every due function once and nothing else |
| `Enrichment.RunRecords` | app/modules/enrichment/service.py:139-194 | each scoped function without a success for the same snapshot, model and prompt version gets a row that says so: the filtered reply, citing only supported identifiers, or the error "budget_exceeded", "provider_error" or "empty_output" beside the old content; every other row stays |
| `Enrichment.ResultTells` | app/modules/enrichment/service.py:139-197 | the result lists a function as skipped exactly if it was cached, as succeeded or failed exactly if its new row says so |
| `Enrichment.ResultSplitsTargets` | app/modules/enrichment/service.py:139-197 | succeeded, failed and skipped split the targets, each in target order |
| `Enrichment.AllSuccessLeavesNothingDue` | app/modules/enrichment/service.py:43-65 | after an undisturbed run the next identical run has to do exactly what failed, so nothing after a full success |
| `Enrichment.EnrichmentCache.EnrichVulnerability` | app/modules/enrichment/service.py:68-197 | which error is raised, in the order of the checks, and that it changes nothing; otherwise what each row records, as in `Enrichment.RunRecords`, and what the result lists |
| `Enrichment.EnrichmentCache.SaveDue` | app/modules/enrichment/service.py:139-194 | the saving loop is the sequence of guarded upserts and reports every due function once |
| `EnrichmentRuns.ActionKeeps` | app/modules/enrichment/service.py:105-197 | overlapping runs keep their row locks exclusive and what they staged equal to the upsert of the committed row |
| `EnrichmentRuns.StepOnHit` | app/modules/enrichment/service.py:178-194 | what one step does to a stored success, both directions |
| `EnrichmentRuns.StoredSuccessStays` | app/modules/enrichment/service.py:178-194 | a row stored ok for a key stays ok for it until a run with another key commits a write of it |
| `EnrichmentRuns.StoredContentStays` | app/modules/enrichment/service.py:98-112 | and keeps its content, unless a run with the same key had read the rows before it was stored |
| `EnrichmentRuns.StoredRowStaysIff` | app/modules/enrichment/service.py:178-194 | over every run a stored success is the same row at the end exactly if no step committed another key's write or a new success of it |
| `EnrichmentRuns.OverlapReplacesContent` | app/modules/enrichment/service.py:176-177 | with such an overlap the content is replaced although no other key writes |
| `EnrichmentRuns.OverlapIsReached` | app/modules/enrichment/service.py:105-112 | that overlap is reached from the empty cache |
| `EnrichmentRuns.EveryResultSplitsItsTargets` | app/modules/enrichment/service.py:143-197 | the partition holds for every run that closes |
| `EnrichmentRuns.DueAfterAllSuccess` | app/modules/enrichment/service.py:43-65 | when an all-success run commits, exactly the skipped functions overwritten meanwhile are due |
| `EnrichmentRuns.NothingDueAfterQuietSuccess` | app/modules/enrichment/service.py:43-65 | none, over every run in which no other key wrote a skipped function |
| `EnrichmentRuns.UndisturbedRun` | app/modules/enrichment/service.py:68-197 | a run nobody overlaps leaves the rows and the result of one call of the service |
| `Citations.MatchIsUnique` | app/modules/enrichment/prompts.py:196 | the greedy scanner matches exactly the language of the pattern, in one way |
| `Citations.PrefixInFull` | app/modules/enrichment/prompts.py:196 | the pattern character by character, in either case, up to a word boundary or the end |
| `Citations.UpperAllFolds` | app/modules/enrichment/prompts.py:199-206 | identifiers are compared letter by letter, in either case |
| `Citations.EveryMatchIsFound` | app/modules/enrichment/prompts.py:196-213 | every place where the pattern matches after a boundary is visited by the substitution |
| `Citations.SplitIsLossless` | app/modules/enrichment/prompts.py:213 | the pieces of the scan spell the text |
| `Citations.SecondScan` | app/modules/enrichment/prompts.py:199-213 | scanning the output finds the old pieces in order, unsupported citations having become plain text: rewriting creates and hides no citation |
| `Citations.OutputCites` | app/modules/enrichment/prompts.py:199-213 | the output cites exactly the supported citations of the input, in order |
| `Citations.OutputIsSound` | app/modules/enrichment/prompts.py:199-213 | wherever the pattern matches in the output the identifier is allowed |
| `Citations.SecondPassIsIdle` | app/modules/enrichment/prompts.py:199-213 | a second pass changes and removes nothing |
| `Citations.ChangesIffDrops` | app/modules/enrichment/prompts.py:199-213 | the text changes exactly if something is removed |
| `Citations.DistinctInOrder` | app/modules/enrichment/prompts.py:204-210 | the removed identifiers come in first-seen order |
| `Citations.CheckCitations` | app/modules/enrichment/prompts.py:199-213 | the text is the filtered one and `removed` the distinct dropped identifiers |
| `DistLock.LockHandle.Renew` | app/core/dist_lock.py:221-246 | a lost or released handle renews nothing; a bad time to live and a broken connection leave the handle alone; a token that holds gets the new expiry, refusal marks the handle lost; no other key changes |
| `DistLock.LockHandle.Release` | app/core/dist_lock.py:248-276 | exactly a token that holds is deleted; the registry entry of the key goes on success, only the own one otherwise |
| `DistLock.LockHandle.MarkLost` | app/core/dist_lock.py:216-219 | only the own registry entry is removed |
| `DistLock.FirstAttempt` | app/core/dist_lock.py:296-319 | the key is taken exactly if no lease on it runs; a refusal is a re-entry exactly if the process has the key on record, otherwise it waits; a lost answer is an outage and leaves nobody on record |
| `DistLock.SecondAttempt` | app/core/dist_lock.py:320-353 | the retry takes the key under the same condition; one that comes too late is a timeout, and may leave the key taken with nobody on record |
| `LeaseRuns.ActionKeeps` | app/core/dist_lock.py:27-34 | every interleaved step keeps tokens on their own keys, told handles without a lease, and bodies with theirs until the deadline |
| `LeaseRuns.StepOnLease` | app/core/dist_lock.py:27-34 | a lease ends exactly by its own release or its expiry |
| `LeaseRuns.LeaseLastsIff` | app/core/dist_lock.py:27-34 | over every run, renewals included, a lease is still held exactly if its release was never evaluated and time never reached the deadline that stood then |
| `LeaseRuns.LeaseLasts` | app/core/dist_lock.py:27-34 | so over a run without its own commands it lasts to its deadline |
| `LeaseRuns.GrantIsWorthItsSeconds` | app/core/dist_lock.py:133-143 | an acquisition or granted renewal is worth exactly the seconds asked for: over every run without a further command of the handle its token is stored, unexpired, exactly until then |
| `LeaseRuns.StaleHandleIsHarmless` | app/core/dist_lock.py:27-34 | no action of a handle that does not hold changes any key |
| `LeaseRuns.NeverHoldsAgain` | app/core/dist_lock.py:221-276 | lost, released and otherwise ended leases never hold again |
| `LeaseRuns.BodyBeginsAndEnds` | app/core/dist_lock.py:343-361 | from the acquisition to the release: the body begins with the registration, under a lease of its own and on record, and is over when the server has run the release |
| `LeaseRuns.BodiesDoNotOverlap` | app/core/dist_lock.py:296-361 | of two bodies under one key at least one has outlived its lease |
| `LeaseRuns.RegistryBreaksOnlySo` | app/core/dist_lock.py:268-269 | the registry stops naming the live holder exactly by a registration or an unconditional pop over another holder of the process |
| `LeaseRuns.AtomicReleaseAgrees` | app/core/dist_lock.py:248-276 | which a release resumed at once never does |
| `LeaseRuns.LateResumeForgetsHolder` | app/core/dist_lock.py:268-269 | a release resumed after the next acquisition removes the record of the live holder |
| `LeaseRuns.InterleavedIsReached` | app/core/dist_lock.py:296-361 | that interleaving is reached |
| `LeaseRuns.DeletingIsReached` | app/core/dist_lock.py:248-267 | a release whose answer is still under way is reached |
| `LeaseRuns.UninterruptedRenew` | app/core/dist_lock.py:221-246 | without interference the interleaved steps of a renewal are one call of the method |
| `LeaseRuns.LostRelease` | app/core/dist_lock.py:248-254 | the release of a handle that knows it is lost asks the server nothing |
| `LeaseRuns.UninterruptedRelease` | app/core/dist_lock.py:248-276 | without interference the interleaved steps are one call of the method |
| `Sessions.ActiveAfterCreation` | app/modules/auth/service.py:298-333 | a creation changes the number of active sessions by one, unless it evicts an active one |
| `Sessions.CreationKeepsCapIff` | app/modules/auth/service.py:305-321 | one creation keeps the cap exactly if it does not evict an expired row at a full cap |
| `Sessions.CapIsExceeded` | app/modules/auth/service.py:313-321 | six active sessions after the eviction of an expired row |
| `Sessions.CrowdGrows` | app/modules/auth/service.py:298-333 | the five logins before it find room |
| `Sessions.RotationNeedsNoEviction` | app/modules/auth/service.py:479-506 | a rotation keeps the number of active sessions and evicts nobody |
| `Sessions.SessionTable.CreateRefreshToken` | app/modules/auth/service.py:298-333 | a row is revoked exactly if five are unrevoked and unexpired, one with the least creation time of the unrevoked; the new row lives seven days, the others stay |
| `Sessions.SessionTable.RotateRefreshToken` | app/modules/auth/service.py:479-506 | accepted exactly if the presented row is unrevoked and unexpired; it is revoked, the new row added, and only an evicted one changes besides |
| `Sessions.SessionTable.Logout` | app/modules/auth/service.py:539-563 | revokes the presented row and nothing else |
| `Sessions.SessionTable.RevokeAll` | app/modules/auth/service.py:336-346 | every row is revoked, none removed |
| `SessionRuns.ActionKeeps` | app/modules/auth/service.py:263-333 | every step of every transaction keeps the cap bound, the row locks and the rotation record |
| `SessionRuns.SessionCap` | app/modules/auth/service.py:305-321 | over every run the unrevoked and unexpired rows are at most five, and one more for each time the eviction chose a row that had expired |
| `SessionRuns.CapWithoutExpiry` | app/modules/auth/service.py:305-321 | at most five in every run in which no row expires unrevoked |
| `SessionRuns.OneWinnerPerToken` | app/modules/auth/service.py:479-506 | no token is recorded as rotated twice |
| `SessionRuns.AcceptedTokenIsSpent` | app/modules/auth/service.py:479-506 | once a rotation has accepted a token, no other accepts it before that one ends, nor ever after it has committed |
| `SessionRuns.UndisturbedCreation` | app/modules/auth/service.py:298-333 | alone from its lock to its commit a transaction does what one call does |
| `Revocation.EntryOutlivesToken` | app/core/security.py:104-122 | whatever lifetime is configured, an entry set no earlier than the issue leaves the token denylisted or expired at every instant |
| `Revocation.AccessTokens.RevokeAll` | app/core/security.py:279-374 | completes exactly without a fault, and then reports the number of tracked identifiers with the set cleared; the entries written are those of the specification |
| `Revocation.CallInFull` | app/core/security.py:279-374 | the set is cleared exactly if nothing failed before its deletion took effect; then every identifier in it has an entry of the full lifetime; no other entry changes |
| `Revocation.AccessTokens.DenyAll` | app/core/security.py:325-354 | the loop stops at the first failing SET |
| `Revocation.SetAllEntries` | app/core/security.py:329-330 | which entries a written prefix holds, and that no other changes |
| `Revocation.FailureForgetsNothing` | app/core/security.py:356-367 | the set is never cleared without an entry for each identifier |
| `Revocation.RetryRevokesAll` | app/core/security.py:279-374 | a completed retry leaves every token it read denylisted or expired for good |
| `RevocationRuns.RevokedTokensStayDead` | app/core/security.py:279-374 | over every interleaving, tokens a revocation has come past stay unusable, all it read once it has finished |
| `RevocationRuns.DeadInFull` | app/core/security.py:104-122 | a token is unusable exactly while an entry has not expired, or after its own expiry, in whole seconds |
| `RevocationRuns.UndisturbedRevocation` | app/core/security.py:279-374 | the commands of one revocation with nobody in between do what one call does |
| `RevocationRuns.DeletionForgets` | app/core/security.py:279-374 | over every run from a read to its deletion, exactly those identifiers are forgotten that the commands in between have left tracked and that have neither been denied nor expired by then |
| `RevocationRuns.NothingForgottenIff` | app/core/security.py:356-358 | so nothing is forgotten exactly if every identifier tracked since the read has been taken out, denied, or has expired |
| `RevocationRuns.OthersForgetNothing` | app/core/security.py:225-266 | no other command but untracking does |
| `RevocationRuns.LateLoginIsForgotten` | app/core/security.py:279-374 | a login between read and deletion is out of reach of later revocations |
| `Findings.IdentityIsTheSurface` | app/modules/vulnerabilities/service.py:374-403 | findings with a surface share an identity exactly if all five parts agree, unless a part holds the separator |
| `FindingPlaces.IdentityInFull` | app/modules/vulnerabilities/service.py:374-403 | the identity written out: script, host, port, protocol and CVE, stripped and in one case, between bars; the title if all are empty |
| `Findings.FreshRows` | app/modules/vulnerabilities/service.py:406-457 | added rows are canonical drafts with identities stored nowhere else |
| `Findings.FreshCovers` | app/modules/vulnerabilities/service.py:406-457 | every canonical draft ends up stored |
| `Findings.UpsertKeepsIdsDistinct` | app/modules/vulnerabilities/service.py:425-442 | no insert makes two rows share an identity |
| `Findings.RerunCreatesNothing` | app/modules/vulnerabilities/service.py:406-460 | a second run of the same drafts adds nothing |
| `Findings.FindingStore.UpsertFindings` | app/modules/vulnerabilities/service.py:406-460 | created and skipped add up to the drafts, created counts the added rows, updated is 0 |
| `FindingPlaces.InsertedInOrder` | app/modules/vulnerabilities/service.py:406-460 | an insert appends, in their order, exactly the drafts with one of the five severities whose identity no stored row and no such draft before them has |
| `Findings.DedupNode` | app/agents/scan_graph.py:109-129 | the first draft of each identity, and how many were dropped |
| `FindingPlaces.KeptInOrder` | app/agents/scan_graph.py:109-129 | the deduplication keeps, in their order, exactly the first draft of each identity |
| `Findings.DedupIsInvisibleIff` | app/agents/scan_graph.py:109-129 | deduplicating before the insert changes nothing stored exactly if no storable draft follows a non-canonical first one of its identity |
| `Findings.DedupIsInvisible` | app/agents/scan_graph.py:109-155 | so for canonical severities |
| `Findings.DedupCanLoseAFinding` | app/modules/vulnerabilities/service.py:438-441 | a non-canonical first draft hides a storable second one |
| `Findings.ExtractedAreStorable` | app/modules/scans/nmap/findings.py:31-73 | extracted drafts have canonical severities, scores from 0 to 10 and bounded texts |
| `Findings.ExtractFindings` | app/modules/scans/nmap/findings.py:31-73 | the nested loops visit hosts in order, each with its own scripts before those of its ports |
| `Findings.ExtractedOrigins` | app/modules/scans/nmap/findings.py:31-73 | the findings of a report are exactly those of its vulnerable scripts, at their hosts and ports |
| `FindingPlaces.ExtractedInOrder` | app/modules/scans/nmap/findings.py:31-73 | the findings of a report are those of its vulnerable scripts, each once, hosts in order, for each its own scripts before those of its ports in order |
| `FindingPlaces.DraftInFull` | app/modules/scans/nmap/findings.py:56-72 | the finding of a script field by field: title, cut output, severity, CVE, score and metadata |
| `FindingPlaces.ScoreIsNearest` | app/modules/scans/nmap/findings.py:52 | the score is the reported one moved into 0 to 10 and rounded to one decimal, halves to even |
| `FindingPlaces.SeverityBands` | app/modules/scans/nmap/findings.py:19-28 | from 9 critical, from 7 high, from 4 medium, above 0 low, otherwise info; medium without a score |
| `Findings.ExtractedShareIdentityIff` | app/modules/scans/nmap/findings.py:56-71 | two of them share an identity exactly if script, address, port, protocol and CVE agree up to blanks and case, unless a part holds the separator |
| `Findings.ParseNode` | app/agents/scan_graph.py:96-106 | the first document that does not parse is the result, otherwise the findings of all reports in order |
| `Findings.ScoresAreFair` | app/modules/scans/nmap/findings.py:19-52 | stored scores stay within rounding of the reported one, and severities never fall as scores rise |
| `Findings.PipelineStoresWhatUpsertWould` | app/agents/scan_graph.py:96-155 | for every report the pipeline stores what the insert alone would |
| `ScanGraph.ScanNode` | app/agents/scan_graph.py:50-93 | stops exactly if the target is rejected or a family fails, with the reason of the first that does; otherwise one document per family, in order |
| `ScanGraph.ParseDocuments` | app/agents/scan_graph.py:96-106 | stops exactly if a document does not parse, with the reason of the first |
| `ScanGraph.RunGraph` | app/agents/scan_graph.py:158-212 | completes exactly if target, runs and parsing are sound, then stores what one insert of all findings would; otherwise the error is that of the first call that failed, and nothing is stored |
| `ScanGraph.LinesBetween` | app/agents/scan_graph.py:93 | the raw output is the documents with a line break between each two |
| `EnvFile.ParseInvertsAssembly` | scripts/demo_bootstrap.py:93-144 | parsing an assembled line gives back prefix, name and the value without leading blanks |
| `EnvFile.ParsedPartsAreValid` | scripts/demo_bootstrap.py:102-107 | what the parser returns can be assembled again |
| `EnvParsing.ParsesIff` | scripts/demo_bootstrap.py:102-107 | a line is read as an assignment exactly if the pattern matches it, and then as that prefix, name and value: `export` and blanks before the name, blanks around the equals sign |
| `EnvParsing.AlphabetsInFull` | scripts/demo_bootstrap.py:102-107 | what a name and a generated secret are made of |
| `EnvParsing.BareInFull` | scripts/demo_bootstrap.py:131-136 | the value of a line is what stands before the first " #", without the blanks around it and without a pair of equal quotes around that |
| `EnvFile.UrlSafeIsBare` | scripts/demo_bootstrap.py:110-136 | a generated secret is read back as it was written |
| `EnvRewriting.FilledIsSettled` | scripts/demo_bootstrap.py:168-185 | a filled line keeps its name and is left alone by every later pass |
| `EnvRewriting.AdditionsComplete` | scripts/demo_bootstrap.py:187-198 | after the appending every required key has an assignment |
| `EnvRewriting.DeriveKeepsDerived` | scripts/demo_bootstrap.py:218-232 | deriving one URL leaves the other as derived |
| `EnvRewriting.RewrittenIsFinished` | scripts/demo_bootstrap.py:165-232 | the output is a file with nothing left to do |
| `EnvRewriting.RewritingIsIdempotent` | scripts/demo_bootstrap.py:165-232 | running on its own output changes no line, whatever the second run would generate |
| `EnvRewriting.LinesKeepTheirValues` | scripts/demo_bootstrap.py:168-185 | apart from derived lines, lines with a value and non-assignments stay, in place |
| `EnvOutput.EveryLineIsKeptOrFilled` | scripts/demo_bootstrap.py:168-184 | a line of the input that is no connection URL: with a value it stays; an empty secret is generated, an empty provider key becomes the placeholder, an empty login the one of the example, any other empty line stays |
| `EnvOutput.NothingElseIsAppended` | scripts/demo_bootstrap.py:186-197 | behind the input stand only a header, secrets and documented logins that it assigns nowhere, with their values, and the connection URLs |
| `EnvOutput.NothingIsLeftEmpty` | scripts/demo_bootstrap.py:165-197 | every secret and documented login is assigned afterwards, and no assignment of a secret is empty |
| `EnvOutput.UrlsAreDerived` | scripts/demo_bootstrap.py:205-230 | the application role connects with its own password, the owner with the database's, to the database the file names, all three as read back from the output |
| `EnvRewriting.FillLines` | scripts/demo_bootstrap.py:168-185 | the in-place loop fills every empty value and sees every name |
| `EnvRewriting.AppendMissing` | scripts/demo_bootstrap.py:187-198 | the appending loops add exactly what is missing |
| `EnvRewriting.ReadValues` | scripts/demo_bootstrap.py:200-204 | the last assignment of a name counts |
| `EnvRewriting.DeriveLine` | scripts/demo_bootstrap.py:218-232 | the first assignment of the key is rewritten, or one appended |
| `EnvRewriting.Bootstrap` | scripts/demo_bootstrap.py:147-234 | the whole program is the rewriting the laws are about; a missing example is an error |
| `TabModule.Session.PerformRefresh` | frontend/src/api/session.ts:84-124 | only a token response changes the bearer, only a refusal ends the session |
| `TabModule.OthersLeaveView` | frontend/src/api/session.ts:22-25 | between two calls of a tab the others and the backend change nothing it can see |
| `TabModule.Session.RefreshSession` | frontend/src/api/session.ts:127-146 | is the calling step of the protocol: the promise under way is shared, otherwise one is begun that waits for the lock or sends |
| `TabModule.Session.LockGranted` | frontend/src/api/session.ts:131-136 | is the granting step: a bearer that arrived meanwhile settles the promise, otherwise the request is sent |
| `TabModule.Session.FinishRefresh` | frontend/src/api/session.ts:84-146 | is the receiving step, or giving up on a transport failure: the promise settles with the value the protocol says, is no longer kept, and the broadcasts are the protocol's |
| `TabModule.Session.OnMessage` | frontend/src/api/session.ts:36-51 | is the delivering step, without a broadcast; the interface is told exactly if the session is gone |
| `TabModule.Session.ClearSession` | frontend/src/api/session.ts:72-76 | is the tab's part of the clearing step and of signing out, with one broadcast and one notice |
| `TabModule.Session.AcceptLogin` | frontend/src/api/session.ts:113-119 | is the login step for a token response, and nothing for another body |
| `TabSession.ActionKeeps` | frontend/src/api/session.ts:84-146 | every step of tabs, backend and broadcasts keeps one sender at a time and unspent cookies |
| `TabSession.OneRefreshAtATime` | frontend/src/api/session.ts:127-137 | with Web Locks at most one refresh is under way across all tabs, in every run |
| `TabSession.NoRotatedCookieIsPresented` | frontend/src/api/session.ts:127-137 | no refresh presents a rotated cookie, unless a tab gave up on a request it had sent |
| `TabSession.CallersShareOnePromise` | frontend/src/api/session.ts:140-146 | all callers of a tab before the refresh settles share one promise |
| `TabSession.SettledOnce` | frontend/src/api/session.ts:140-146 | over every run a settled promise keeps its value and is under way nowhere |
| `TabSession.CallersArePromised` | frontend/src/api/session.ts:140-146 | over every run the promise of each caller is settled, or under way in one tab, never both |
| `TabSession.WithoutLocksRefreshesRace` | frontend/src/api/session.ts:130 | without Web Locks the second tab presents a rotated cookie and the session is cleared |
| `TabSession.RacingIsReached` | frontend/src/api/session.ts:127-146 | that race is reached |
| `TabSession.LostResponseEndsSession` | frontend/src/api/session.ts:86-96 | after a lost response the next refresh ends the session, with Web Locks too |
| `TabSession.StaleIsReached` | frontend/src/api/session.ts:86-92 | that state is reached |
| `TabStale.StepStaleIff` | frontend/src/api/session.ts:84-137 | with Web Locks a step leaves the jar stale exactly if it loses the response that would have replaced the cookie, or the jar was stale and is not replaced |
| `TabStale.SendsRotatedIff` | frontend/src/api/session.ts:127-137 | over every run a tab granted the lock sends a rotated cookie exactly if a response has been lost, the cookie has not been replaced since, and no bearer arrived while it waited |
| `TabStale.OvertakenIff` | frontend/src/api/session.ts:86-92 | with Web Locks or without, a cookie under way is rotated by a step exactly if another request with it is served first, under way or abandoned |
| `TabStale.PresentsRotatedIff` | frontend/src/api/session.ts:127-137 | so over every run from its sending: a request presents a rotated cookie exactly if the jar held one then, or another request with it was served in between |
| `TabRefresh.AcceptedRefresh` | frontend/src/api/session.ts:84-124 | a refresh with a cookie the backend knows: spent, replaced in the jar, and the new bearer is the tab's, the promise's and the broadcast's |
| `TabRefresh.GarbledRefresh` | frontend/src/api/session.ts:99-107 | a success without a token spends the cookie, the tab keeps its bearer |
| `TabRefresh.RefusedRefresh` | frontend/src/api/session.ts:93-97 | a refused cookie ends the session in the tab and by broadcast |
| `TabRefresh.FailedRefresh` | frontend/src/api/session.ts:86-102 | a backend that is down changes nothing but the promise |
| `TabRefresh.GivenUpRefresh` | frontend/src/api/session.ts:86-92 | a tab that gives up keeps its bearer; its request may still be served and rotates the cookie then |
| `TabRefresh.SignInAndOut` | frontend/src/api/session.ts:72-119 | signing in gives the jar the cookie the backend knows, signing out takes it from both |
| `Lockout.GetLockoutSeconds` | app/core/rate_limit.py:53-69 | 3 and 15 minutes, 1, 4 and 24 hours, above 5, 10, 15, 20 and 25 failures, nothing up to 5 |
| `Lockout.RecordedInFull` | app/core/rate_limit.py:161-175 | a recording counts one more failure, renews the expiry, and from the sixth failure on puts the seconds of the table behind the lock in force, or behind now |
| `Lockout.RecordedWhileExpiring` | app/core/rate_limit.py:161-175 | a key that expires during its recording is gone, or comes back with the lock alone and no time to live |
| `Lockout.RecordKeepsSound` | app/core/rate_limit.py:150-180 | a recording that finds no lock in force leaves the lock within the expiry and never takes it back |
| `Lockout.StepKeepsSound` | app/core/rate_limit.py:100-184 | one check-then-record attempt keeps every key sound and no living lock decreases |
| `Lockout.SequentialRunsAreSound` | app/core/rate_limit.py:100-184 | in every sequential run no expiry cuts a lock short |
| `LockoutRuns.StepIsSoundIff` | app/core/rate_limit.py:161-175 | one command of any of the overlapping attempts: all keys stay sound exactly unless it writes a lock beyond its key's expiry, or gives a key an expiry before its lock |
| `LockoutRuns.RunIsSoundIff` | app/core/rate_limit.py:100-184 | so over every run of overlapping attempts |
| `LockoutRuns.RunsWithoutStackingAreSound` | app/core/rate_limit.py:170-173 | no expiry cuts a lock short in a run in which no recording extends a lock in force |
| `LockoutRuns.OneAtATimeIsSound` | app/core/rate_limit.py:100-184 | which holds when no attempt begins while another is under way |
| `LockoutRuns.StepLosesLockIff` | app/core/rate_limit.py:172-175 | a living key loses part of its lock exactly by a write below it |
| `LockoutRuns.RunLosesLockIff` | app/core/rate_limit.py:172-175 | so over every run |
| `LockoutRuns.LowerOnlyAfterOthers` | app/core/rate_limit.py:172-175 | and only if another attempt wrote the key beyond it after this one had looked at the lock |
| `LockoutReached.UndisturbedFailure` | app/core/rate_limit.py:150-184 | the commands of a failed attempt with nobody in between record both keys as the calls do |
| `LockoutReached.UndisturbedAttempt` | app/modules/auth/router.py:95-136 | the commands of one whole attempt with nobody in between do what check and record do |
| `LockoutReached.UndisturbedSuccess` | app/core/rate_limit.py:186-198 | those of a success delete both keys |
| `LockoutReached.ConcurrentRecordsStack` | app/core/rate_limit.py:170-175 | from the empty store: twenty-five overlapping failures recorded at one moment, and no fewer, stack a lock of 26.5 hours on keys that live 25 |
| `LockoutReached.LateWriteLowersLock` | app/core/rate_limit.py:172-175 | from the empty store: the tenth failure's late write takes twelve minutes from the eleventh's lock |
| `Lockout.RateLimiter.Check` | app/core/rate_limit.py:100-148 | locked exactly if either living key is, with the remaining whole seconds and the failures of the first that is; otherwise the larger count |
| `Lockout.RateLimiter.RecordKey` | app/core/rate_limit.py:161-175 | one key is recorded command by command, the other keys stay |
| `Lockout.RateLimiter.Attempt` | app/modules/auth/router.py:95-136 | rejected exactly if one of its two keys is locked, and then nothing changes; a success removes both keys, a failure records both; no other key changes |
| `Cidr.ContainsIffBetween` | app/modules/scans/targets.py:55-63 | a network is the interval between its two ends |
| `Cidr.NestedOrDisjoint` | app/modules/scans/targets.py:118-128 | a network at least as large as a block holds all of it or nothing |
| `Cidr.EndsDecideDemoLists` | app/modules/scans/targets.py:55-63 | for blocks of at most 256 addresses each end decides membership in the private and transition lists for every address |
| `Cidr.AcceptedBlocksHideNothing` | app/modules/scans/targets.py:118-130 | an accepted demo block holds no transition address, and an IPv4 one whose first address is not public is private throughout |
| `CidrRanges.AllowedFour` | app/modules/scans/targets.py:51-82 | which IPv4 addresses demo mode allows, range by range |
| `CidrRanges.AllowedSix` | app/modules/scans/targets.py:59-82 | and which IPv6 ones, prefix by prefix |
| `CidrRanges.ResolvedIff` | app/modules/scans/targets.py:116-128 | a subnet is a target exactly if it has at most 256 addresses and, in demo mode, both ends are allowed, otherwise is global as a network; and which error it gets |
| `CidrRanges.GlobalFour` | app/modules/scans/targets.py:65-67 | which IPv4 addresses are global, and how an address that embeds one is judged |
| `CidrGlobal.HidesIff` | app/modules/scans/targets.py:118-130 | outside demo mode an accepted block holds an address that is not global exactly if it is one of twelve blocks |
| `CidrGlobal.GlobalBlocksPass` | app/modules/scans/targets.py:118-130 | a block of global addresses is accepted outside demo mode exactly if it is not of IPv4-mapped ones |
| `CidrGlobal.LowestBlockIsAccepted` | app/modules/scans/targets.py:118-130 | ::/120 is one of them, with the unspecified and the loopback address |
| `Cidr.EndsDecideWholeBlock` | app/modules/scans/targets.py:55-130 | in demo mode the two ends accept a block of at most 256 addresses exactly if every address inside is allowed |
| `Streams.ReadStdout` | app/modules/scans/nmap/runner.py:44-50 | fails exactly if the pipe holds more than the cap, however it arrives, after at most one byte too many |
| `Streams.ReadStderr` | app/modules/scans/nmap/runner.py:53-57 | the last 4096 bytes of everything |
| `Streams.SplitByFamily` | app/modules/scans/nmap/command.py:87-96 | the version 4 addresses, then the version 6 ones, in order, empty groups left out |
| `Streams.FamiliesPartition` | app/modules/scans/nmap/command.py:87-96 | no address is lost or invented |
| `Streams.FamilyKeepsOrder` | app/modules/scans/nmap/command.py:87-96 | within a family the addresses keep their order |
| `Streams.MixedIffTwoGroups` | app/modules/scans/nmap/command.py:75-77 | more than one group exactly if the families are mixed |

## Left out

- ScanTable.ScanStore.TransitionScan: the configuration and asset columns of a scan, because no transition reads them.
- ScanRuns.QuotaNeverExceeded: each tenant's limit stays fixed during a run; changing a tenant is not part of this model.
- ScanDrain.RoundsDrainQueue: a round whose bells find every ready row locked does not count; `ScanDrain.BellFindsUnlockedRow` says when that is, and the next round starts over.
- ScanSystem.ActionKeeps: the reaper may take any part of the stale unlocked rows, and asset visibility is folded into the scan row.
- EventLoop.ConsumerLoop.Drain: a retry counter that expires while the loop runs, which only allows more retries; `EventRuns` has it as a step.
- EventRuns.NoMessageIsLost: stream trimming is off and handlers are arbitrary; dispatching without a message id or a client is not part of this model.
- Enrichment.EnrichmentCache.EnrichVulnerability: the fan-out, its semaphore and its timeout are an arbitrary map of outputs.
- Citations.CheckCitations: upper-casing beyond ASCII; the digit and word classes are parameters.
- DistLock.FirstAttempt: how the key is built, and the jitter before the retry.
- LeaseRuns.BodiesDoNotOverlap: one clock for the server and its clients; a token is a fresh number.
- SessionRuns.SessionCap: one user, because the advisory lock and every query are per user; the lock timeout is an abort.
- RevocationRuns.RevokedTokensStayDead: one user and one clock; the order of identifiers is the order of numbers.
- Findings.ScoresAreFair: decimal scores are exact, not binary floating point.
- Findings.ExtractedAreStorable: what the patterns find in a script's output is part of the input.
- EnvRewriting.Bootstrap: reading, writing and the file mode; lines hold no line break.
- TabSession.OneRefreshAtATime: sign-out is one step, and broadcasts may also be delivered twice, which the platform never does.
- LockoutRuns.RunIsSoundIff: Redis is never down; times are exact; the combined status that a recording reads at its end is the check again.
- Cidr.EndsDecideWholeBlock: the classifications are those of CPython 3.12.4 and later.
- Streams.ReadStdout: process spawning, signals, timeouts and the cleanup of the scanner process.
- ScanGraph.RunGraph: the argument list of the scanner, and exceptions inside a node, which are events of `ScanExecutor`.
- Prompt building and hashing, and updating a vulnerability by hand: they would only add easy members.
- Publishing of events after a commit, metrics and logging: nothing in the model depends on them.
- HTTP routes, schemas, permissions and the tenant, user, asset and report tables: one-branch checks.
- SQL, Redis, Celery, LangGraph, the language model providers and the XML parser: foreign; their primitives are single steps.
