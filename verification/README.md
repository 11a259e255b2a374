# Capere background work, verified

A Dafny model of the parts of the Capere backend where leases, retries, fences, concurrency
and crashes meet, and of the self-contained algorithms around them, with proofs of what they
guarantee. `dafny verify dfyconfig.toml` checks everything.

## What is modelled

Two kinds of module work together. Modules named after a component hold the source's own
procedures: classes whose methods update rows, caches and ledgers in place, and loops with
their invariants, each proved against a specification function. Calls that leave the process
(database, provider, vector store) draw their fate from `ExternalCalls.Outside`: they work, or
they throw, and a call that throws may or may not have taken effect. The `...Machine` modules
interleave any number of such procedures statement by statement, with crashes in between, and
prove statements about every run of events (`Automation` and `FeatureFlags` hold such a machine
too). Where both describe the same procedure, the code is shown to be a run of the machine:
`RagService`, `GithubService`, `AutomationService`, `SchedulerMachine.ExecuteRefines` and
`PassRefines`, `InsightsMachine.RunRefines`.

- **RAG ingestion** (`RagLease`, `RagTables`, `HtmlText`, `RagService`, `RagMachine`,
  `RagOutcomes`, `RagProgress`, `RagHazards`): claim tokens, heartbeats, the row-locked fence, the
  rebuild tool's reset, store writes that land late, even after their call threw.
- **Scheduler** (`Scheduler`, `SchedulerMachine`): claims, lease expiry, backoff, dead-lettering,
  operator retry; **automation** (`Automation`, `AutomationService`, `ScheduledAutomation`) on top
  of it, and **GitHub changes** (`GithubChange`, `GithubMachine`, `GithubProgress`, `GithubService`),
  where retries must converge.
- **Chunking** (`Text`, `Normalization`, `Chunking`, `ChunkCoverage`).
- **Stream parsing** (`OpenRouterStream`, `StreamMeaning`), a subset of section 9.2.5 of the WHATWG
  HTML Living Standard.
- **Routed calls and budgets** (`ModelRouter`, `BudgetPeriods`, `BudgetMachine`, `RoutedBudget`),
  the **tool loop** and the sessions it serves (`ToolLoop`, `Sessions`), and **tool schemas**
  (`ToolSchema`).
- **Insights** (`Insights`, `InsightsMachine`) and **feature flags** (`FeatureFlags`).

Each database transaction that takes its locks first is one step, except in `RagMachine`, where
taking the job row's lock and committing are two steps and everything else may happen between
them. UUIDs are fresh and hashes injective. `floor(0.6 * target)` is the exact integer quotient
`3 * target / 5`; the product of 0.6 and an integer of that size, as doubles, never rounds across
an integer.

## Where the code and its words part

The model follows the code. These results say exactly how it differs from what comments promise.

- *Chunk coverage.* Text can be lost. `CoverageOfText` says exactly which texts lose visible
  characters, `CoverageOfOptions` which options never lose any: `target - overlap` may exceed
  `floor(0.6 * target)` by two, no more.
- *"A toggle takes effect immediately"* (feature flags). `ToggleLost` gives a run where it does not
  for almost a minute; `EffectiveUnlessStaleLoad` says it does if and only if no load that read the
  earlier value is still on its way to the cache. Between its write and its invalidation an override
  has no effect on cached answers either (`OldAnswerBeforeInvalidation`); `AnswersAreCurrent` says
  exactly when such an answer is current all the same.
- *"Leave the command approved so BullMQ can retry it"* (GitHub). True of failures inside the `try`
  whose handler's write takes effect (`LeftApproved`, in the contract of `ExecuteApproved`); a failure
  of `repository` or `token`, which run before it, leaves the request `executing` for good
  (`TokenFailureStrands`, `Stranded`). `CanSucceedExactly` says which requests can still succeed: an
  empty list of changes is permitted, and never gets its pull request.
- *A store call that threw has not ended.* The other vector store gives up on a request by a timeout of
  its own, so the write may land after the worker recorded the failure. Timed exclusion holds exactly
  while the worker has not written its own end of the job (`TimedExclusion`); beyond that a run from
  every new job damages a published version (`LateWriteAfterFail`), since store writes are outside the
  fence (`StoreWritesAreNotFenced`).
- *RAG jobs are never dead-lettered on expiry.* A job whose worker dies moves on if and only if an
  attempt is left (`DeadJobsMoveOn`); on the last one it stays `running` until the rebuild tool resets
  it (`StrandedForever`), and every new job can come to that (`EveryJobCanStrand`).
- *The scheduler's fence is the worker's identity.* A claim keeps it if and only if the same worker has
  no earlier attempt, and no completion write of one, still going (`ClaimKeepsFenceExactly`);
  overlapping ticks of one process break it (`OverlapBreaksTheFence`), and so does a write that threw
  and lands late (`LateWriteBreaksTheFence`). One due job with a schedule that cannot be computed stops the due half of
  every pass and strands the retries claimed just before it (`Tick`).
- *"One broken generator must not silence the others"* (insights). A health generator that throws
  yields an empty snapshot, and the sweep then dismisses every active health insight
  (`SweepIsExact` with an empty batch).
- *"A tool result with no preceding call is a protocol violation"* (chat). The loop keeps the rule, but
  the use case reloads stored assistant rows without their calls, so a session's next requests break it
  whenever a tool row is among the forty rows loaded, unless a mandatory live check filters the history
  (`RequestsWellFormedExactly`). A provider that refuses such requests blocks the session for the next
  thirty-nine (`SessionBlocked`).
- *Budget periods by two clocks.* The gate reads its process's clock, the ledger's rows carry the
  database's. The bound on a period's spend holds if and only if no process is in a period that has not
  begun for the database (`ClocksDecide`); beyond that a period's spend has no bound
  (`AheadIsUnbounded`).
- *"Stay permissive"* (tool schemas). The fallback schema accepts objects only
  (`FallbackRejectsNonObjects`), and `nullable` is dropped (`NullableIsDropped`).
- *"Record every attempt"* (model router). Every attempt has its row if and only if every record
  write took effect, and the serving model's cost is in the ledger if and only if its own did
  (`EveryAttemptHasItsRowExactly`, `CostIsRecordedExactly`); a served call can lose its cost
  (`CostCanBeLost`), and then the caller gets an error (`Complete`).

## Model

| member | source | states |
|---|---|---|
| RagMachine.Fencing | backend/src/rag/rag.service.ts:214-238 | Once a newer token is claimed or the rebuild tool resets the job, no older token ever again changes the job row, the chunk rows, or a status, over every run in between |
| RagMachine.RunInv | backend/src/rag/rag-ingestion.worker.ts:79-166 | In every run a job is running exactly when it has an owner, the owner is an issued token, and whoever holds the row lock owns the job |
| RagMachine.TakeoverOusts | backend/src/rag/rag-ingestion.worker.ts:99-113 | A claim or a reset supersedes every token issued before it |
| RagMachine.OustedHarmless | backend/src/rag/rag-ingestion.worker.ts:117-145 | No event of a superseded token changes the job row, the chunk rows or a status |
| RagMachine.OustedForever | backend/src/rag/rag-ingestion.worker.ts:101-107 | A superseded token never becomes the owner again |
| RagMachine.LockKeepsOwner | backend/src/rag/rag.service.ts:353-363 | Between `lockLease` and the end of its transaction no claim and no reset can happen and the job row does not change |
| RagMachine.TimedExclusion | backend/src/rag/rag-ingestion.worker.ts:168-208 | In every interleaving without a reset, a store write landing at most five minutes after the assertion before it, even one whose call had already thrown, lands while its token owns the job if and only if that worker has not itself written `fail` or `succeed` |
| RagMachine.RunFresh | backend/src/rag/rag-ingestion.worker.ts:174-190 | In every run without a reset a token that asserted less than a lease ago owns the job, and its lease ends no earlier than that assertion allows; so does the token of a store call that threw and is still in flight, unless its worker gave the job up |
| RagMachine.CrashConvergence | backend/src/rag/rag.service.ts:182-282 | Whatever attempts crashed, were reclaimed, reset or wrote late, as long as every store write landed while its token owned the job, a job that succeeded left exactly the completing attempt's rows, one point per row with that chunk's embedding, and the published status; a delete job left nothing of an existing document |
| RagMachine.TimedConvergence | backend/src/rag/rag-ingestion.worker.ts:168-208 | The same from times alone: when nothing is reset and no store write lands later than its lease or after its own worker's `fail` or `succeed` |
| RagMachine.RunConverges | backend/src/rag/rag.service.ts:212-281 | Every run in which store writes land while their token owns the job, resets included, keeps what the owner's stage promises about the tables: rows built, points cleared, the first n points written |
| RagMachine.OtherDocumentsUntouched | backend/src/rag/rag.service.ts:216-243 | No event of a job ever changes a chunk or a point of another document |
| RagOutcomes.RowsMean | backend/src/rag/rag-ingestion.worker.ts:79-145 | In every run from a new job a failed row has between one and max − 1 attempts and a retry time, a dead-lettered row has used exactly its permitted attempts and has none, and a row is running exactly when it has an owner and a lease |
| RagOutcomes.FailureLeadsTo | backend/src/rag/rag-ingestion.worker.ts:128-146 | In every run the owner's failure on the last permitted attempt leaves a dead-lettered job that no claim ever takes; before that it leaves a failed one that can be claimed exactly from now + 5000·2^(attempts − 1) milliseconds on |
| RagOutcomes.NewJobsAreClaimable | backend/src/rag/rag-ingestion.worker.ts:89-97 | A new job can be claimed exactly if it has a permitted attempt and its start time has come; a succeeded or dead-lettered one never can, in any run |
| RagOutcomes.ClaimProtects | backend/src/rag/rag-ingestion.worker.ts:94-108 | A claim counts one attempt and keeps every other claim away for exactly five minutes; after them another takes the job if and only if an attempt is left |
| RagOutcomes.ResetReopens | backend/src/rag/cli/rebuild-vectors.ts:28-51 | The rebuild tool can reset exactly a reindex job of a document that is not deleted, and leaves it with no attempts used, to be claimed at once, and pending statuses |
| RagOutcomes.AtMostOneMoreWrite | backend/src/rag/rag-ingestion.worker.ts:172-207 | In every run, once an attempt noticed that its lease is lost, its process died, or its token was superseded, at most one more of its transactions and store writes ever takes effect |
| RagOutcomes.NoWriteAfterTheEnd | backend/src/rag/rag-ingestion.worker.ts:187-190 | In every run an attempt whose assertion or lock was refused, or that ended by `succeed`, never writes again |
| RagOutcomes.HeartbeatMeans | backend/src/rag/rag-ingestion.worker.ts:191-198 | A heartbeat of the owner, at any time but during a transaction, extends the lease to five minutes and changes nothing else; one that is refused or throws changes nothing but that the worker's next assertion is refused, even where its token still owns the job |
| RagOutcomes.ThrownMeans | backend/src/rag/rag-ingestion.worker.ts:61-67 | A call of a worker can throw at any time, and its open transaction can fail to commit; the row and the tables stay as they were, and the worker goes on to record its failure |
| RagHazards.StoreWritesAreNotFenced | backend/src/rag/pgvector-vector.store.ts:135-140 | A clearing changes the points exactly when the version has some, and a batch write exactly when some of its points are not yet what it writes |
| RagHazards.LateWriteAfterFail | backend/src/rag/qdrant-vector.store.ts:211-219 | From every new job with a retry left, and for any two plans, a run in which the first attempt's store call throws, the worker fails the job, the retry publishes, and then the first call lands within its five minutes: a late write puts an old vector over a published point, a late clearing removes them all |
| RagHazards.StrandedForever | backend/src/rag/rag-ingestion.worker.ts:89-97 | A job whose worker died on the last permitted attempt stays running for ever, unless the rebuild tool resets it |
| RagHazards.DeadJobsMoveOn | backend/src/rag/rag-ingestion.worker.ts:89-97 | In every reachable state whose owner's worker is dead, some run without a reset changes the job's row if and only if an attempt is left |
| RagHazards.EveryJobCanStrand | backend/src/rag/rag-ingestion.worker.ts:79-115 | From every new job a run without a reset leads to a dead worker on the last permitted attempt |
| RagProgress.UndisturbedAttemptSucceeds | backend/src/rag/rag-ingestion.worker.ts:45-77 | From its claim on, an undisturbed ingest or purge can run to success, for any chunks and any batch size |
| RagProgress.AllBatches | backend/src/rag/pgvector-vector.store.ts:51-81 | The batched writes, each after its own assertion, reach the end of the records |
| RagLease.JobRow.Claim | backend/src/rag/rag-ingestion.worker.ts:79-115 | Claims exactly a queued, failed or running job that has an attempt left, whose retry time has come, and whose lease, if it runs, has expired; counts the attempt and sets a lease of five minutes; otherwise changes nothing |
| RagLease.JobRow.Renew | backend/src/rag/rag-ingestion.worker.ts:174-186 | Extends the lease to five minutes from now exactly when the token owns the running job; otherwise reports the loss and changes nothing |
| RagLease.JobRow.Succeed | backend/src/rag/rag-ingestion.worker.ts:117-126 | Finishes the job exactly when the token owns it |
| RagLease.JobRow.Fail | backend/src/rag/rag-ingestion.worker.ts:128-145 | Exactly when the token owns the job: dead-letters it if the worker's own attempt count has reached the maximum, and otherwise fails it with a retry after 5000·2^(attempts − 1) milliseconds; attempts stay counted; otherwise changes nothing |
| RagService.RagWorker.Tick | backend/src/rag/rag-ingestion.worker.ts:45-77 | An undisturbed tick, whatever calls fail, is a run of the machine; an unclaimable job is left alone; a delete, or an ingest of an existing, indexable document, is done if no call throws, and nothing else is ever done; when it is done, an ingest has published exactly the chunker's output on the source's text with chunk i's embedding at point i, or a delete has removed the document's rows and points, if there was a document, and nothing else |
| RagService.RagWorker.Attempt | backend/src/rag/rag-ingestion.worker.ts:50-67 | A claimed job's work and the record of its end: done only for a delete or an ingest of an existing, indexable document, and done for those if no call throws |
| RagService.RagWorker.Work | backend/src/rag/rag.service.ts:182-351 | The attempt between claim and end: returns only for a delete or an ingest of an existing, indexable document, and does return for those if no call throws |
| RagService.RagWorker.Ingest | backend/src/rag/rag.service.ts:182-282 | Takes the machine from the claim to the finished or the failing stage; when it returns, the document exists and is no PDF, the version's rows are the chunker's output on its stripped and normalized text, and point i holds chunk i's embedding, whatever the tables held |
| RagService.RagWorker.Plan | backend/src/rag/rag.service.ts:182-210 | Computes the chunks of the stripped and normalized text and exactly one embedding per chunk, in order; throws exactly for a missing document, a PDF, no chunks or too many, or when one of its calls throws |
| RagService.RagWorker.Embed | backend/src/rag/rag.service.ts:204-210 | Batch by batch, an assertion before each, computes one embedding per chunk, in order, for every batch size |
| RagService.RagWorker.Rebuild | backend/src/rag/rag.service.ts:212-281 | From the first transaction to the last: when it returns, rows and points are exactly the plan's and the status is published; it returns exactly if no call throws and every embedding has the store's dimensions |
| RagService.RagWorker.ReplacePoints | backend/src/rag/rag.service.ts:240-266 | Clears the version's points and inserts exactly the plan's, each step after its own assertion; succeeds exactly if no call throws and every embedding has the store's dimensions |
| RagService.RagWorker.PurgeContent | backend/src/rag/rag.service.ts:299-345 | Removes the points and then the rows of all the document's versions and nothing else, and marks it deleted, exactly if its four calls work |
| RagService.RagWorker.StoreChunks | backend/src/rag/rag.service.ts:212-238 | Behind the fence the version's rows become exactly the new chunks, or the transaction throws before or after that |
| RagService.RagWorker.MarkIndexed | backend/src/rag/rag.service.ts:268-281 | The last fenced transaction publishes the chunk count and both statuses |
| RagService.RagWorker.Purge | backend/src/rag/rag.service.ts:299-351 | When it returns and the document existed, all rows and points of its versions are gone and nothing else, and it is marked deleted; a document that is gone already is left as it is, and nothing is removed from storage before that |
| RagService.RagWorker.FindDocument | backend/src/rag/rag.service.ts:300-309 | An assertion and the lookup, exactly if both work: on to the points' removal, or finished where the document is gone |
| RagService.RagWorker.Upsert | backend/src/rag/pgvector-vector.store.ts:47-82 | Inserts the records batch by batch, an assertion before each; when it returns, the version's points are exactly its vectors, keyed by position |
| RagService.RagWorker.WriteBatch | backend/src/rag/pgvector-vector.store.ts:51-81 | One batch: its points are set exactly if the assertion works, every vector has the store's dimensions, and the insertion takes effect; succeeds exactly if both calls also return |
| RagService.RagWorker.DeleteVersion | backend/src/rag/pgvector-vector.store.ts:135-140 | Leaves no point of the version, or throws before or after that |
| RagService.RagWorker.DeleteChunks | backend/src/rag/rag.service.ts:320-345 | Behind the fence the rows of all the document's versions go and the statuses change together |
| RagService.RagWorker.AssertLease | backend/src/rag/rag-ingestion.worker.ts:174-190 | Renews the owner's lease, or throws and sends the attempt to its failing stage |
| RagService.RagWorker.RecordSuccess | backend/src/rag/rag-ingestion.worker.ts:117-126 | By the fates of its calls: the job is finished exactly if the update took effect; a lost answer sends the worker to `fail`, which then finds no job it owns and changes nothing; an update without effect is followed by the failure's record |
| RagService.RagWorker.RecordFailure | backend/src/rag/rag-ingestion.worker.ts:128-166 | By the fate of the one transaction: job, version and document record the failure together, dead-lettered exactly on the last permitted attempt and else with its retry time, a deleted document staying deleted and a delete job's version staying as it is; or nothing changes |
| RagService.PutRecords | backend/src/rag/rag.service.ts:249-252 | Inserting the records of chunks n to k-1 sets exactly those points to those chunks' vectors |
| RagTables.PutBatch | backend/src/rag/pgvector-vector.store.ts:51-81 | Upserting the next batch extends the version's written prefix and touches no other version |
| RagTables.ReplaceVersion | backend/src/rag/rag.service.ts:216-237 | Deleting and reinserting a version leaves exactly the new rows and no other version changed |
| SchedulerMachine.RunInv | backend/src/jobs/scheduler.service.ts:133-234 | In every run of events a row is running exactly when it has an owner and a lease; failed rows have attempts left and a retry time; attempts since the last operator retry are numbered 1, 2, ... up to the row's count; a succeeded row's last dispatch succeeded |
| SchedulerMachine.RowsMean | backend/src/jobs/scheduler.service.ts:133-231 | In every run a failed row has fewer than three attempts and a retry time, a dead-lettered one has used exactly three, and a row is running exactly when it has an owner |
| SchedulerMachine.FailureLeadsTo | backend/src/jobs/scheduler.service.ts:216-231 | In every state of every run, recording the owner's failure at attempt n leaves the run dead-lettered and out of every later pass if n is the maximum; below it the run is failed and can be claimed exactly from now + min(3600, 2^n) seconds on |
| SchedulerMachine.ClaimProtects | backend/src/jobs/scheduler.service.ts:138-181 | A claim keeps every pass away for exactly five minutes; from then on the run is claimed again if an attempt is left and dead-lettered if not |
| SchedulerMachine.RetryOffered | backend/src/jobs/job-monitoring.service.ts:14-31 | The operator can retry exactly the failed and the dead-lettered runs |
| SchedulerMachine.ResetReopens | backend/src/jobs/job-monitoring.service.ts:17-25 | After the operator's retry the run can be claimed at once, with all attempts to come |
| SchedulerMachine.DeathKeepsTheRow | backend/src/jobs/scheduler.service.ts:200-231 | A process can die at any point of an attempt, and its row stays as it was |
| SchedulerMachine.GuardMeansOwner | backend/src/jobs/scheduler.service.ts:203-230 | Whoever can still pass the completion write's identity guard, late writes included, is the run's latest attempt and remembers its count |
| SchedulerMachine.Fencing | backend/src/jobs/scheduler.service.ts:200-234 | A worker that lost its claim never alters the row again, with one tick at a time per worker and none begun while a completion write of an earlier one is under way |
| SchedulerMachine.LostForever | backend/src/jobs/scheduler.service.ts:169-184 | A lost claim is never regained by the same attempt |
| SchedulerMachine.DispatchesAreClaims | backend/src/jobs/scheduler.service.ts:66-77 | Every claim is dispatched at most once: dispatches and claims not yet dispatched add up to the claims |
| SchedulerMachine.ClaimsAreBounded | backend/src/jobs/scheduler.service.ts:153-184 | Between two operator retries a run is claimed exactly as often as its attempts grew, never beyond the maximum |
| SchedulerMachine.DispatchBound | backend/src/jobs/scheduler.service.ts:94-110 | A new run is dispatched at most three times before an operator intervenes, by all workers together |
| SchedulerMachine.NotStuck | backend/src/jobs/scheduler.service.ts:138-165 | A waiting or running row whose time has come is taken by any pass, in exactly one of two ways: claimed again or dead-lettered |
| SchedulerMachine.MeasureDecreases | backend/src/jobs/scheduler.service.ts:138-231 | Every row change but the operator's retry decreases 2·(max − attempts) + [running], which counts as 0 once the run is terminal; no such change starts from a terminal row |
| SchedulerMachine.ChangesAreBounded | backend/src/jobs/scheduler.service.ts:138-231 | Without the operator a row changes at most 2·max times |
| SchedulerMachine.RestAfterAllChanges | backend/src/jobs/scheduler.service.ts:138-231 | After that many changes the run has succeeded or is dead-lettered |
| SchedulerMachine.TerminalStep | backend/src/jobs/job-monitoring.service.ts:14-31 | A terminal row changes only by the operator's retry of a dead-lettered run |
| SchedulerMachine.SucceededForever | backend/src/jobs/job-monitoring.service.ts:27-28 | A succeeded row never changes |
| SchedulerMachine.SucceededWasDispatched | backend/src/jobs/scheduler.service.ts:200-214 | A run is recorded as succeeded only after its latest attempt's dispatch returned |
| SchedulerMachine.PassRefines | backend/src/jobs/scheduler.service.ts:133-198 | What a pass does to any row, claimed or passed over, a run of events does, and adds exactly the attempt the claim makes |
| SchedulerMachine.ExecuteRefines | backend/src/jobs/scheduler.service.ts:200-234 | Fate by fate, what `Execute` leaves in a row is what a run of events with the same dispatch result and the same writes leaves, so the theorems about runs cover it |
| SchedulerMachine.ClaimKeepsFenceExactly | backend/src/jobs/scheduler.service.ts:203-230 | In every state of every run a claim is never followed by an earlier attempt changing the row if and only if all earlier attempts of the same worker are over and none of their completion writes is still under way |
| SchedulerMachine.OverlapBreaksTheFence | backend/src/jobs/scheduler.service.ts:203-212 | With two overlapping ticks of one process a stale attempt marks as succeeded a run another attempt owns and is still dispatching |
| SchedulerMachine.LateWriteBreaksTheFence | backend/src/jobs/scheduler.service.ts:200-230 | With one tick at a time, a success write that threw lands after the same process claimed the retry and marks it as succeeded |
| Scheduler.JobTables.ClaimRetries | backend/src/jobs/scheduler.service.ts:133-198 | Dead-letters exactly the exhausted runs and claims the first twenty eligible unlocked ones, oldest first, each with one attempt more, a lease of five minutes and no retry time |
| Scheduler.JobTables.ClaimDue | backend/src/jobs/scheduler.service.ts:79-131 | For the first due jobs, soonest first, up to the limit, starts one run each, at attempt 1 of 3 with a lease of five minutes, and moves each to its next time, an hour, a day, a week or thirty days on; or throws and changes nothing exactly when some picked schedule is unsupported |
| Scheduler.RetriesAreOldest | backend/src/jobs/scheduler.service.ts:153-167 | The runs a pass retries are all eligible ones among the n oldest unlocked, for some n, and n is all of them if fewer than twenty were picked |
| Scheduler.DueAreFirst | backend/src/jobs/scheduler.service.ts:83-92 | The jobs a pass starts are all due ones among the n first unlocked, for some n, and n is all of them if fewer than the limit were picked |
| Scheduler.JobTables.Execute | backend/src/jobs/scheduler.service.ts:200-234 | Touches only the dispatched run, and only while this process has it: succeeded exactly if the dispatch worked and its write took effect; otherwise, if the failure's write took effect, dead-lettered when the remembered count has reached the maximum and failed with a retry after min(3600, 2^n) seconds below it; otherwise unchanged |
| Scheduler.JobTables.ExecuteAll | backend/src/jobs/scheduler.service.ts:72-74 | Dispatches the claimed runs in order and lets each go, or stops at the first whose outcome cannot be recorded |
| Scheduler.JobTables.Tick | backend/src/jobs/scheduler.service.ts:66-77 | A pass that returns has dispatched and let go everything it claimed, retries first; with an unsupported due schedule it dispatches nothing and leaves its retries running |
| Scheduler.JobTables.Retry | backend/src/jobs/job-monitoring.service.ts:14-31 | Resets exactly a failed or dead-lettered run |
| Scheduler.ClaimsAreHeld | backend/src/jobs/scheduler.service.ts:66-70 | All runs a pass claimed are distinct and belong to it, and every other run is only swept |
| Scheduler.PickedJobsAreNotDue | backend/src/jobs/scheduler.service.ts:113-117 | A picked job is not due again within the hour |
| Scheduler.BackoffDoublesToItsCap | backend/src/jobs/scheduler.service.ts:218 | The retry delay doubles from two seconds and reaches its cap of an hour exactly at the twelfth attempt |
| Automation.AtMostOnce | backend/src/automation/automation.service.ts:92-159 | Over every interleaving of any number of calls and crashes at most one POST is sent: none before the claim, exactly one when succeeded, exactly one answered `invalid` when failed |
| Automation.RunInv | backend/src/automation/automation.service.ts:97-105 | In every run one call at most ever passed the claim, and all others ended without sending anything |
| Automation.NeverReplayed | backend/src/automation/automation.service.ts:93-96 | An action whose calls all ended with the outcome unknown stays as it is: it is never sent again |
| Automation.SendsAreCounted | backend/src/automation/automation.service.ts:116-134 | The POST counter is the number of POSTs in the run |
| AutomationService.ActionService.ExecuteApproved | backend/src/automation/automation.service.ts:92-159 | The code's call is a run of the machine, whatever calls fail: by the fates of its claim and its last write it sends exactly one POST or none, leaves the action approved, executing, succeeded or failed, and returns exactly if it was approved, claimed, checked, accepted and recorded |
| AutomationService.ActionService.Approve | backend/src/automation/automation.service.ts:53-71 | Approves exactly a draft |
| ScheduledAutomation.SucceededRunPostedOnce | backend/src/jobs/scheduler.service.ts:272-279 | A scheduled run recorded as succeeded, whatever state earlier runs left the action in, means the action succeeded with exactly one POST, even with stale attempts of the run and other runs racing |
| ScheduledAutomation.RunInv | backend/src/jobs/scheduler.service.ts:272-279 | In every joint run a dispatch that returned without error implies a succeeded action |
| ScheduledAutomation.DispatchesOverlap | backend/src/jobs/scheduler.service.ts:153-184 | Two attempts of one run can be dispatching the same action at once: the scheduler alone is at-least-once |
| GithubMachine.Exclusion | backend/src/integrations/github/github.service.ts:201-222 | At most one execution is ever between its claim and its release |
| GithubMachine.Convergence | backend/src/integrations/github/github.service.ts:226-311 | Once an execution has succeeded the branch is the base overlaid with the changes in order, exactly one pull request is open, and nothing is scheduled or running, whatever failed before |
| GithubMachine.NothingElseTouched | backend/src/integrations/github/github.service.ts:251-278 | In every reachable state only the request's own paths differ from the base and at most one pull request is open |
| GithubMachine.RunInv | backend/src/integrations/github/github.service.ts:201-325 | Every run keeps what the executing call's phase promises about the branch, the pull requests and the row |
| GithubMachine.Stranded | backend/src/integrations/github/github.service.ts:223-225 | A request left executing by a crash or a failure before the `try` is never executed again |
| GithubMachine.TokenFailureStrands | backend/src/integrations/github/github.service.ts:224 | One failed token request is enough for that |
| GithubProgress.RetrySucceeds | backend/src/integrations/github/github.service.ts:226-325 | Whatever earlier attempts wrote, an undisturbed retry of an approved request with changes, all to permitted paths, opens its pull request with the branch as requested |
| GithubProgress.CanSucceedExactly | backend/src/integrations/github/github.service.ts:201-325 | With nobody executing, a request can still get its pull request if and only if it has one recorded, or is not stuck in `executing`, asks for permitted paths only, and has changes at all |
| GithubService.ChangeService.ExecuteApproved | backend/src/integrations/github/github.service.ts:201-325 | The code's execution is a run of the machine, whatever calls fail: it returns exactly if the request was approved, the calls before the `try` worked and every step in it went well, and then the branch equals base plus changes and one pull request is open; when it throws the invariant is kept for the next; a throwing call leaves an approved request approved exactly when its claim had no effect, or the claim and the reads before the `try` worked and the handler's write took effect |
| GithubService.ChangeService.Attempt | backend/src/integrations/github/github.service.ts:228-311 | The body of the `try` takes the machine from the branch check to success or to the error handler, and succeeds exactly if the branch is found or created, every file written, and the pull request found or opened and recorded |
| GithubService.ChangeService.WriteFiles | backend/src/integrations/github/github.service.ts:251-278 | The loop over the changes takes the machine through every change in order; it gets through exactly if every write works and is accepted and no lookup that was misread as a missing file hides an existing one |
| GithubService.ChangeService.OpenPullRequest | backend/src/integrations/github/github.service.ts:279-311 | Finding or opening the pull request, recording it and stopping the schedule are the machine's last steps; it returns exactly if each call it makes works |
| GithubService.ChangeService.FindOrOpen | backend/src/integrations/github/github.service.ts:276-292 | Opens a pull request exactly if none is open; works exactly if the list, and the opening where one is needed, work and there is something to merge |
| GithubService.ChangeService.ApproveAndExecute | backend/src/integrations/github/github.service.ts:156-199 | Approves and schedules exactly a draft |
| GithubChange.OverlayConverges | backend/src/integrations/github/github.service.ts:313-316 | Applying all changes to a branch that differs from the base only on their paths gives the same tree as applying them to the base |
| Chunking.ChunkText | backend/src/rag/chunking.ts:39-81 | Returns the chunks of the specification, and throws exactly when the overlap is too large or the non-blank windows outnumber `maxChunks`; `WindowEnd` and `ChunkSource` say by positions what those chunks are |
| Chunking.ChunkWindows | backend/src/rag/chunking.ts:51-80 | The loop computes the specification although it tests the bound before each window |
| Chunking.StartClosedForm | backend/src/rag/chunking.ts:78 | Window i starts at i·(target − overlap): `Math.max` never picks its second argument |
| Chunking.Turn | backend/src/rag/chunking.ts:51-79 | One turn of the loop collects the next range of the closed form and stops exactly at the last window |
| Chunking.WindowEnd | backend/src/rag/chunking.ts:55-62 | Where the hard end falls short of the text and some space or line feed lies after floor(0.6·target) characters of the window and no later than its hard end, the window ends at the last such one; otherwise it ends at its hard end |
| Chunking.KeptContent | backend/src/rag/chunking.ts:63-66 | Searching for the trimmed content from the window's start finds the window's own copy |
| Chunking.WindowCountExact | backend/src/rag/chunking.ts:51-78 | A window is followed by another exactly when its hard end falls short of the text, and every window starts inside the text |
| Chunking.BoundReached | backend/src/rag/chunking.ts:52-54 | With `maxChunks` chunks collected and a window left the document does have too many |
| Chunking.LastWindowNotBlank | backend/src/rag/chunking.ts:51-77 | A trimmed text never ends in a blank window |
| ChunkCoverage.ChunkShape | backend/src/rag/chunking.ts:63-75 | Chunks are numbered 0 to n-1; each is the normalized text over its own source range, trimmed, 1 to target characters long |
| ChunkCoverage.ChunkSource | backend/src/rag/chunking.ts:51-78 | Every chunk is what trimming leaves of a window that starts at a multiple of target − overlap and ends at its last late break, or its hard end if it has none |
| ChunkCoverage.EndsAscend | backend/src/rag/chunking.ts:65-71 | Source ends never decrease |
| ChunkCoverage.CoverageOfText | backend/src/rag/chunking.ts:55-78 | Every visible character lies in some chunk's range if and only if no window is cut back so far that visible text precedes the next window |
| ChunkCoverage.CoverageOfOptions | backend/src/rag/chunking.ts:49-61 | Every document is covered if and only if target − overlap is at most floor(0.6·target) + 2 |
| ChunkCoverage.ShortWordsCovered | backend/src/rag/chunking.ts:58-61 | Texts whose words are at most overlap + 1 long are covered, whatever the options |
| ChunkCoverage.LossySkips | backend/src/rag/chunking.ts:61 | Beyond that bound a concrete normalized text loses a character |
| Normalization.NormalizeIdempotent | backend/src/rag/chunking.ts:20-31 | The second normalization inside `chunkText` changes nothing |
| Normalization.FixedPoints | backend/src/rag/chunking.ts:20-31 | Normalization leaves a text alone exactly when it has no control characters or carriage returns, no tab or double space, no three line feeds in a row, and no white space at its ends |
| Normalization.NormalizeIsNormal | backend/src/rag/chunking.ts:20-31 | Every normalized text is of that kind |
| Normalization.NormalizeKeepsInk | backend/src/rag/chunking.ts:20-31 | Normalization keeps every visible character, in order |
| Normalization.ControlsGo | backend/src/rag/chunking.ts:21-26 | Of any character the first step keeps exactly tab, line feed, carriage return and everything from space on |
| Normalization.PairBecomesNewline | backend/src/rag/chunking.ts:27 | A carriage return and line feed become one line feed, wherever they stand |
| Normalization.ReturnBecomesNewline | backend/src/rag/chunking.ts:27 | So does a carriage return alone |
| Normalization.BlanksBecomeSpace | backend/src/rag/chunking.ts:28 | A whole run of spaces and tabs becomes one space |
| Normalization.NewlinesLimited | backend/src/rag/chunking.ts:29 | A whole run of n line feeds becomes one of min(n, 2) |
| HtmlText.StripMeans | backend/src/rag/chunking.ts:83-92 | Leftmost match by leftmost match: every element from `<script` to its first `</script>` becomes a space, then every `<style` element, then every tag, then every `&nbsp;`, and then every `&amp;` an ampersand, letter case aside |
| HtmlText.StripLeavesNoTag | backend/src/rag/chunking.ts:83-95 | Stripped HTML holds no tag: replacing the entities after the tags were removed cannot make one |
| HtmlText.SourceIsNormal | backend/src/rag/chunking.ts:83-95 | The chunker's own normalization leaves a source's text as it is, whatever its type |
| OpenRouterStream.Stream | backend/src/llm/openrouter/openrouter.provider.ts:96-191 | For every way of cutting the text into reads, the deltas, tool calls, usage, model and finish reason are those of folding over the complete lines of the whole text; `StreamMeans` says what those are |
| StreamMeaning.StreamMeans | backend/src/llm/openrouter/openrouter.provider.ts:115-190 | A stream throws if and only if some complete line has a `data:` payload other than `[DONE]` that parses to null; otherwise its outcome is that of exactly the parsed payloads of its `data:` lines, in order |
| StreamMeaning.LinesMean | backend/src/llm/openrouter/openrouter.provider.ts:126-148 | The same of any lines: the end marker, other lines and malformed payloads contribute nothing |
| StreamMeaning.DoneIsNothing | backend/src/llm/openrouter/openrouter.provider.ts:131 | A `data: [DONE]` line at the end changes no outcome, for any text before it and any parser |
| StreamMeaning.DeltasAreContents | backend/src/llm/openrouter/openrouter.provider.ts:165-168 | The deltas joined are the contents of all frames, in order, and none is empty |
| StreamMeaning.ModelIsLast | backend/src/llm/openrouter/openrouter.provider.ts:142 | The served model is the last one a frame names, and the requested one if none does |
| StreamMeaning.UsageIsLast | backend/src/llm/openrouter/openrouter.provider.ts:143-146 | The usage is the last one reported, and zero if none is |
| StreamMeaning.FinishIsLast | backend/src/llm/openrouter/openrouter.provider.ts:151-153 | The finish reason is what the last reason given means, and `stop` if none is given |
| StreamMeaning.IdIsLast | backend/src/llm/openrouter/openrouter.provider.ts:155-162 | A tool call's id is that of its own last fragment with one; a fragment without an index belongs to call 0 |
| StreamMeaning.NameIsLast | backend/src/llm/openrouter/openrouter.provider.ts:155-162 | Its name likewise |
| StreamMeaning.ArgumentsAreJoined | backend/src/llm/openrouter/openrouter.provider.ts:155-162 | Its arguments are those of its own fragments joined in order, and no other call's |
| OpenRouterStream.SplitResumes | backend/src/llm/openrouter/openrouter.provider.ts:123-124 | Splitting can be resumed from the unfinished last line |
| OpenRouterStream.ToolCallShape | backend/src/llm/openrouter/openrouter.provider.ts:155-177 | One tool call per index, ascending; its arguments are the in-order concatenation of its fragments, its id and name the last ones given |
| OpenRouterStream.AbortFreezes | backend/src/llm/openrouter/openrouter.provider.ts:133-148 | What is yielded before a frame that makes the parser throw does not depend on what follows it |
| OpenRouterStream.UnterminatedLineIgnored | backend/src/llm/openrouter/openrouter.provider.ts:115-124 | A last line without a line feed is never read, whatever it carries |
| ModelRouter.Router.Complete | backend/src/llm/router/model-router.service.ts:70-124 | The models called are a prefix of the chain: every one before the last was refused retryably, and if not all were called the last was not; position i's answer comes back exactly if all earlier ones were refused retryably, it served, and neither its record nor the re-evaluation threw; the rows added are decided exactly by the outcomes and the fates of the writes, in the order they are made |
| ModelRouter.CostIsRecordedExactly | backend/src/llm/router/model-router.service.ts:84-106 | A call adds the cost the serving model charged if and only if its record write took effect, and nothing else it records costs anything |
| ModelRouter.EveryAttemptHasItsRowExactly | backend/src/llm/router/model-router.service.ts:82-120 | An attempt has its row exactly when its record write took effect, so all have if and only if all writes took effect |
| ModelRouter.CostCanBeLost | backend/src/llm/router/model-router.service.ts:84-120 | A served call whose record writes fail leaves no row and no cost, whatever it charged |
| ModelRouter.FailureAfterService | backend/src/llm/router/model-router.service.ts:84-120 | A served model gets a second row, as failed, exactly when its record or the re-evaluation threw and that row's own write took effect |
| ModelRouter.Router.Stream | backend/src/llm/router/model-router.service.ts:134-189 | The client never sees chunks of two models: what it got is a prefix of the last tried model's stream, exactly as far as the reports' calls work; every earlier one was refused retryably before its first chunk; the ledger gains exactly the failures' rows and the relayed reports' rows whose writes took effect |
| ModelRouter.Router.Relay | backend/src/llm/router/model-router.service.ts:149-178 | Passes on exactly the chunks before the first report whose record or re-evaluation throws; the ledger grows by exactly those reports' rows, and by that report's own if its record took effect |
| ModelRouter.Router.Report | backend/src/llm/router/model-router.service.ts:152-173 | A chunk's usage costs two calls, a record and a re-evaluation; its row is added exactly if the record took effect |
| ModelRouter.Router.Attempt | backend/src/llm/router/model-router.service.ts:148-185 | One model's stream, and if it did not end well the failure's row, exactly if its write took effect |
| ModelRouter.Tried | backend/src/llm/router/model-router.service.ts:79-120 | A call goes on past retryable refusals only, and stops at the first other outcome |
| BudgetMachine.SpendIsBounded | backend/src/llm/budgets/budget.service.ts:51-107 | With at most k calls past the gate at a time, each costing at most c over all the rows it records, no period's spend reaches limit + k·c, in every run, across rollovers, as long as no process's clock is in a period that has not begun for the database |
| BudgetMachine.BoundIsAttained | backend/src/llm/budgets/budget.service.ts:51-107 | For every limit, k and c above zero some run with the clocks in step spends exactly limit + k·c − 1 in one period, so the bound cannot be improved |
| BudgetMachine.ClocksDecide | backend/src/llm/budgets/budget.service.ts:74-107 | For processes whose clocks read a given time the bound holds if and only if the period of that time has begun by the database's clock |
| BudgetMachine.AheadIsUnbounded | backend/src/llm/budgets/budget.service.ts:74-107 | Otherwise the database's period can be made to spend any amount |
| BudgetMachine.RowsAreRecorded | backend/src/llm/router/model-router.service.ts:84-106 | Any rows a call records, at whatever later times and in whatever periods, costing at most c in all, are a run of the machine's events, so the bound covers calls with failures, fallbacks and several usage rows |
| RoutedBudget.RunSeen | backend/src/llm/router/model-router.service.ts:84-106 | Every interleaving of routed calls' rows is, row for row, a run of the budget machine |
| RoutedBudget.RoutedSpendIsBounded | backend/src/llm/router/model-router.service.ts:70-124 | The composed bound: whatever models serve or refuse, whichever record writes take effect, and however the rows of routed calls interleave, no period's recorded cost reaches limit + k·c |
| RoutedBudget.CallRunsThrough | backend/src/llm/router/model-router.service.ts:74-124 | In any state with room among the calls in flight, a call begun while its period's recorded cost is below the limit can leave all rows its routing leaves; at or above the limit it leaves none |
| BudgetMachine.RunInv | backend/src/llm/router/model-router.service.ts:74-106 | In every run the current period's spend plus what the calls in flight may add stays below the bound, as does every past period's |
| BudgetPeriods.PeriodsPartition | backend/src/llm/budgets/budget.service.ts:263-280 | A period starts no later than any of its moments, and all its moments share its start, for days, ISO weeks and calendar months |
| BudgetPeriods.WeeksStartOnMonday | backend/src/llm/budgets/budget.service.ts:270-275 | Weeks start at midnight on Monday and last seven days |
| BudgetPeriods.StartsMean | backend/src/llm/budgets/budget.service.ts:263-280 | A day starts at the last midnight, and a month at the midnight of its first, before the next month's |
| BudgetPeriods.MonthsAreCivil | backend/src/llm/budgets/budget.service.ts:278 | The months are those of the Gregorian calendar, from January 1970 on, leap years by the rule of 4, 100 and 400 |
| ToolLoop.Run | backend/src/intelligence/execution/tool-execution.service.ts:67-208 | Computes the conversation that the specification derives from the model's and the tools' answers |
| ToolLoop.ConverseShape | backend/src/intelligence/execution/tool-execution.service.ts:86-207 | Every turn is the model's reaction to all turns before it; the cap is exhausted exactly when that many tool turns were taken; the forced answer was asked for without tools |
| ToolLoop.ResultsAreAnswers | backend/src/intelligence/execution/tool-execution.service.ts:123-180 | Every result of every turn is what its own call returned, told how many calls came before it |
| ToolLoop.TranscriptGrammar | backend/src/intelligence/execution/tool-execution.service.ts:70-207 | The result is system, inputs, turns with their answers, final answer, after at most cap + 1 model calls; it obeys the rule if and only if the system prompt and the inputs do |
| ToolLoop.ShownGrammatical | backend/src/intelligence/execution/tool-execution.service.ts:123-160 | The loop keeps the provider's rule that tool messages answer the preceding assistant message's calls, all of them, in order: what the model is shown after any number of turns obeys it if and only if the system prompt and the inputs do |
| ToolLoop.PersistsTheRounds | backend/src/intelligence/generate-chat-response.use-case.ts:222-228 | The use case's input count drops exactly the system prompt and the inputs; what is stored is each turn's calls and then its answers |
| ToolLoop.OneRowEach | backend/src/intelligence/generate-chat-response.use-case.ts:332-361 | One assistant row per call and one tool row per result, over the whole conversation |
| ToolLoop.Conversations.PersistTranscript | backend/src/intelligence/generate-chat-response.use-case.ts:326-362 | Appends the transcript rows of the messages after the input count, in order, and nothing else |
| Sessions.Respond | backend/src/intelligence/generate-chat-response.use-case.ts:93-241 | One request of a session: its message is stored, then, if the loop returns, each turn's calls and answers and the final answer; if the loop throws, the message alone stays |
| Sessions.KeptTurns | backend/src/intelligence/generate-chat-response.use-case.ts:132-137 | With a live check the history shown is the user's turns of some end of the messages, six of them or all there are |
| Sessions.ReloadGrammatical | backend/src/intelligence/generate-chat-response.use-case.ts:93-98 | Reloaded rows obey the rule exactly if no tool row is among them |
| Sessions.RequestsWellFormedExactly | backend/src/intelligence/generate-chat-response.use-case.ts:93-163 | Every request the loop makes for a session is well-formed if and only if a mandatory live check was made or no tool row is among the forty latest rows |
| Sessions.ToolTurnBlocks | backend/src/intelligence/memory/memory.service.ts:80-112 | After an answered request and n failed ones the rows loaded next hold no tool row exactly when the answer used no tool and none of the earlier rows still loaded is one, or enough rows came since |
| Sessions.SessionBlocked | backend/src/intelligence/execution/tool-execution.service.ts:123-125 | After an answer that used a tool and n failed requests, the next request without a live check is well-formed if and only if n is at least thirty-nine; before that it throws, with a provider that refuses malformed requests |
| ToolSchema.TranslationPreservesMeaning | backend/src/intelligence/tools/tool-registry.ts:225-289 | Without `nullable` and refinements, a value with no undeclared key satisfies the emitted schema exactly when Zod accepts it |
| ToolSchema.TranslationIsExact | backend/src/intelligence/tools/tool-registry.ts:225-289 | For every schema: Zod accepts a value with no undeclared key, no null that only `nullable` admits, and objects only for unknown constructs, if and only if the value satisfies the emitted schema and the refinements hold |
| ToolSchema.AcceptedIsDescribed | backend/src/intelligence/tools/tool-registry.ts:225-289 | For every schema: of the accepted values with no undeclared key the schema rejects exactly those with a null that only `nullable` admits or something else than an object for an unknown construct |
| ToolSchema.SchemaDescribesLoosened | backend/src/intelligence/tools/tool-registry.ts:225-289 | For every schema: the emitted schema describes exactly the values with no undeclared key that Zod would accept without refinements, nullables and defaults, with fields optional where `undefined` parses and any object for unknown constructs |
| ToolSchema.RequiredMeansRejectedWhenMissing | backend/src/intelligence/tools/tool-registry.ts:234-238 | A field is `required` exactly when leaving it out makes Zod reject the object |
| ToolSchema.LiteralsArePrimitive | backend/src/intelligence/tools/tool-registry.ts:281-282 | A literal accepts itself and nothing else, and only primitive ones accept anything |
| ToolSchema.FallbackRejectsNonObjects | backend/src/intelligence/tools/tool-registry.ts:284-287 | The fallback schema admits objects and nothing else |
| ToolSchema.NullableIsDropped | backend/src/intelligence/tools/tool-registry.ts:276-279 | A nullable string admits null and its schema does not |
| Insights.Engine.Persist | backend/src/insights/insights.engine.ts:130-200 | Upserts by key, keeps the first generator, and publishes exactly when the row is new |
| Insights.Engine.Run | backend/src/insights/insights.engine.ts:62-104 | A run computes the specified table, announces exactly its new rows, and returns their number |
| Insights.DraftedRow | backend/src/insights/insights.engine.ts:97-158 | After a batch a drafted key holds its last draft's content, active, under its first generator |
| Insights.UnreportedRow | backend/src/insights/insights.engine.ts:94-118 | A key a batch does not draft stays as it is, unless the batch is the health snapshot and the row an active one of its own: then it is dismissed |
| Insights.SweepIsExact | backend/src/insights/insights.engine.ts:89-119 | After a sweep the active health insights are exactly the drafted keys, wherever the health batch stood, if no other generator uses those keys |
| Insights.HealthUpserts | backend/src/insights/insights.engine.ts:97-100 | Persisting the health drafts adds exactly their keys to the active ones |
| Insights.OtherBatch | backend/src/insights/insights.engine.ts:130-162 | Another generator's drafts change no health insight |
| InsightsMachine.EventsMatchRows | backend/src/insights/insights.engine.ts:10-21 | For duplicated, reordered, concurrent and crashed runs the events announce exactly the rows, each once |
| InsightsMachine.PersistRefines | backend/src/insights/insights.engine.ts:130-200 | An undisturbed `Persist` is a run of the machine's events |
| InsightsMachine.RunRefines | backend/src/insights/insights.engine.ts:62-104 | So is an undisturbed `Run` over any batches, sweeps included, leaving exactly the table it specifies |
| InsightsMachine.EndsOnce | backend/src/insights/insights.engine.ts:136-199 | A transaction commits or aborts once; after that it never does anything |
| InsightsMachine.RaceHasOneWinner | backend/src/insights/insights.engine.ts:136-199 | Two transactions that both found no row create and announce one |
| FeatureFlags.FlagService.IsEnabled | backend/src/feature-flags/feature-flag.service.ts:37-51 | Answers from an unexpired entry or with the override or default just loaded, which is then cached for a minute; no other flag's entry changes |
| FeatureFlags.FlagService.SetOverride | backend/src/feature-flags/feature-flag.service.ts:54-103 | When it returns, the override is written and the entry gone; when it throws, the entry stays, even if the row was written |
| FeatureFlags.Staleness | backend/src/feature-flags/feature-flag.service.ts:37-51 | In every run an answer was the flag's value at some moment before it, no earlier than sixty seconds plus its load's latency before |
| FeatureFlags.EntriesLiveAMinute | backend/src/feature-flags/feature-flag.service.ts:41-50 | In the machine as in the service, what a load caches answers every lookup before a minute is over and none after; the first one after that loads again |
| FeatureFlags.OthersWriteUnnoticed | backend/src/feature-flags/feature-flag.service.ts:25-31 | Another process can write at any time, and this one's cache does not notice |
| FeatureFlags.AnswersAreCurrent | backend/src/feature-flags/feature-flag.service.ts:101-103 | When no load is in flight as an override writes, none begins before its invalidation, and only this process writes, a loaded answer is the current value, and a cached one is if and only if the overrides between their write and their invalidation left the value as it was |
| FeatureFlags.OldAnswerBeforeInvalidation | backend/src/feature-flags/feature-flag.service.ts:95-103 | A run with no load in flight in which a cached lookup between an override's write and its invalidation answers the old value |
| FeatureFlags.EffectiveUnlessStaleLoad | backend/src/feature-flags/feature-flag.service.ts:101-103 | A finished override has taken effect if and only if no load that read an earlier value is still on its way to the cache |
| FeatureFlags.ToggleLost | backend/src/feature-flags/feature-flag.service.ts:25-26 | A run in which a toggle is written and invalidated and lookups answer the old value for almost a minute |

## Left out

- SQL text, row-level security and migrations: tables are maps, queries with ORDER BY and LIMIT are functions, uniqueness constraints are map keys.
- Cross-job exclusion on one document (an ingest against a purge or reindex): the code does not provide it.
- Eventual completion of RAG jobs under hostile interleavings: the code does not provide it; `UndisturbedAttemptSucceeds` covers an attempt nobody disturbs.
- UNIQUE (version, checksum) on chunk rows: two chunks with equal text make the insert throw, which is one of the rollbacks of the model.
- RagService.RagWorker.Ingest: the embedding provider returns one vector per chunk, and source bytes are already decoded.
- RagService.RagWorker.Purge: `versions` is the set the document has throughout; a version added between the two queries is not modelled.
- RagService.RagWorker.Tick: nobody disturbs it; heartbeats, reclaims, resets and crashes between statements are events of `RagMachine` only.
- Scheduler.JobTables.Tick: job types and payloads travel with a run unchanged and are not modelled; dispatch is a call that works or throws.
- Overlapping ticks of one process, as the managed jobs endpoint allows: excluded by hypothesis in the runs of `SchedulerMachine`; `ClaimKeepsFenceExactly` says what the first such claim breaks.
- Scheduler.JobTables.Execute: a completion write that threw takes effect at once or never; one that lands late is an event of `SchedulerMachine`.
- Object prototype names used as schedules (`NextRunAt` compares the four names only).
- AutomationService.ActionService.ExecuteApproved: lookups, token refresh and payload validation between claim and POST are one outcome.
- GitHub: path and content validation of a change is a flag on the change, and every accepted write is a commit; other writers on the branch and closed pull requests are excluded by hypothesis, and branch names are assumed unique.
- Chunk checksums and the `section` field, which no code sets.
- OpenRouterStream.Stream: the JSON parser is a parameter, reads are already decoded text (the decoder is never flushed at the end), and the cost computed from the final usage is left out.
- ModelRouter.Router.Complete: which error the caller sees, prompts, latencies and the consumer abandoning a stream are left out.
- Budget alerts and their one event per period and kind: a set insertion beside an outbox append.
- BudgetMachine.SpendIsBounded: one budget at a time, and times from 1970 on; an organization with several budgets has the bound for each.
- ToolLoop.Run: the wording of the forced-answer message is abbreviated, and a tool always answers, as the registry turns every failure into a result.
- Sessions.Respond: appends always work, one request at a time per session, and stateless or ephemeral requests, which store nothing, are left out; the prompt's context, the live check's content and the answer's review are parameters.
- ToolSchema.TranslationIsExact: descriptions, a property named `__proto__`, and numbers outside the reals are left out.
- Insights.Engine.Run: one organization; severity, expiry and payload are one content value.
- FeatureFlags.AnswersAreCurrent: the discipline is sufficient, not necessary, for loaded answers; the exact condition for one override is `EffectiveUnlessStaleLoad`.
- Guards, controllers, dashboards, OAuth, encryption, provider adapters and the frontend: plumbing or single-branch facts.
