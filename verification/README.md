# A verified model of the repository indexer

Repolume indexes Git repositories and answers questions over the index. This project models the
parts of its backend whose correctness rests on more than one function, and proves what they
promise. `dafny verify dfyconfig.toml` checks everything.

| files | what they model |
|---|---|
| `IndexingRows`, `IndexingTransitions`, `IndexingJobStore` | the job, repository, build and graph tables; every store transaction and job creator, as a function on the tables and as a method that updates them in place |
| `IndexingInvariants` | the invariant of the tables and the order in which they evolve, kept by every transaction whoever runs it |
| `IndexingSystem`, `IndexingRuns`, `IndexingHistory`, `IndexingTheorems`, `IndexingProgress` | workers as program counters whose steps interleave (zombies, lost commits, crashes and recovery included), what holds of every run, and that an undisturbed run succeeds |
| `IndexingEndings` | how runs end otherwise, call by call, and that every run ends |
| `IndexingQueue`, `IndexingStarvation` | which jobs `reconcile` returns, at once and over many rounds; a run in which a due job is never returned |
| `IndexingBlocking` | when a repository can still get another version |
| `IndexingZombies` | runs written out action by action, in which the steps that ignore the lock, or a failed build, do harm |
| `CallGraph`, `CallGraphTheorems`, `CallSites` | call resolution and graph construction, its meaning, its independence of order, and its round trip through the database; call-site extraction over a span tree |
| `Packing`, `DocumentSections`, `DocumentationChunker` | line slices and greedy packing, Markdown and paragraph scans, the documentation chunker |
| `SourceLines`, `PythonChunker`, `PythonFile`, `Analyzer` | the rows of the parser against the lines of `splitlines`, the Python chunker for a symbol and for a file, and the canonical chunk order |
| `Embedding`, `VectorStore`, `IncrementalIndex` | the embedding client, the scoped vector store, and incremental refresh as a refinement of a full one |
| `EvidenceSelection`, `AgentRun`, `Numerals` | evidence selection, citations, the bounded agent loop and its evidence ids |
| `RefreshTokens` | refresh-token families |
| `Utf8` | UTF-8 and the byte-limited truncation |
| `Common`, `Sorting` | options and results; Python's stable `sorted` and when a sort key settles the order; the order of strings |

## Assumptions

- Each store method is one atomic transaction, as the row locks of most of them intend. A step may
  commit and still look like a failure to the worker (`lost`), and a run may end at any point.
- Hashes (symbol ids, call-site fingerprints, edge ids, content fingerprints, point ids) are injective
  functions given from outside; a graph fingerprint is the list that the code hashes.
- Python and the database order strings alike. A query with ORDER BY may return any sequence that
  agrees with its sort key, so two reads may differ wherever the key ties.
- Times are integers in milliseconds. Tree-sitter, regular expressions, the embedding model, vector
  norms, GitHub and the language model are parameters.
- A scroll over the vector store returns every selected point once, and nothing writes to the store
  meanwhile. A write of points, or their deletion, may be carried out and still be reported as failed.
- Random ids, families and token hashes are new.
- Membership checks read tables that are not part of this model; their result is a parameter.
- A worker id has one live run, as the polling loop ensures (backend/app/indexing/worker.py:95-101).
- Files of a checkout have distinct paths and symbols distinct identities; that call sites are distinct is
  proved from the span tree (`CallSites.ExtractedSitesAreDistinct`, `CallGraphTheorems.SitesAreDistinctAcrossFiles`).

## Findings

- Section headings are exact as long as each heading keeps as many open headings as its level counts,
  and not otherwise; after a skipped level sibling headings nest
  (backend/app/indexing/chunking.py:406-413; `DocumentSections.HierarchyIsOutline`,
  `LevelsAreExactIff`, `SkippedLevelNestsSiblings`).
- The Python chunker cuts the lines of `splitlines` by the rows of the parser, which count newlines
  only. The two agree up to a row exactly if no form feed, vertical tab, file, group or record
  separator, NEL, LS or PS stands before its end; otherwise an excluded definition can stand in a chunk
  and the statement after it in none (backend/app/indexing/chunking.py:65, 492-494 and
  backend/app/indexing/python_parser.py:427-434; `SourceLines.LinesAreRowsIff`,
  `PythonChunker.OtherBreakLeaksDefinition`).
- `due_jobs` returns the hundred oldest due jobs, so a due job is sure to be returned exactly if fewer
  than a hundred due jobs are as old. From the empty system, a hundred and one attached repositories
  suffice for a job that is due in every round and returned in none, whatever batches are read, as the
  marks of the older jobs lapse (backend/app/services/indexing_jobs.py:1023-1055;
  `IndexingQueue.ReturnedIff`, `IndexingStarvation.LateIsNeverReturned`).
- `record_failed_build_cleanup`, `complete_superseded_cleanup` and the target version that
  `authorized_context` writes are not guarded by the lock
  (backend/app/services/indexing_jobs.py:799-860, 189-190). A worker whose claim was recovered can fail
  the ready build of the worker that holds the job (`IndexingZombies.ZombieFailsReadyBuild`);
  `IndexingTheorems.ZombieWritesIff` says exactly when it writes anything. It never touches a served
  version: the invariant is proved with all three steps in the system.
- A build keeps its slot, and `prepare_build` refuses the slot to every other job. So a repository is
  never indexed again once the job that owns its next slot has failed, was cancelled, or is of an older
  generation: any refresh while a build is under way is enough. Otherwise there is always a continuation
  that activates the next version, unless that job is running its last attempt
  (backend/app/services/indexing_jobs.py:409-417; `IndexingTheorems.BlockedForGood`,
  `IndexingBlocking.AdvancesIffNotBlocked`, `IndexingZombies.FailedBuildBlocks`,
  `RefreshDuringBuildBlocks`).
- Attaching a public repository whose default branch moved, while a job of the old branch is under way,
  reports that job, which can never be activated any more, and adds none for the new branch
  (backend/app/services/public_repositories.py:201-239; `IndexingTheorems.JoinedJobsCannotActivate`).
- The last check of `_embed_batch` can never fail (backend/app/embeddings/client.py:181-182;
  `Embedding.EmbedBatch`), nor can the count check that `_embed_and_store` makes on its result
  (backend/app/indexing/worker.py:454-459; `IncrementalIndex.EmbedAndStore`).
- The unique constraint on the owner of a build never fires in `prepare_build`
  (backend/app/services/indexing_jobs.py:403-441; `IndexingInvariants.OneBuildPerJob`).

## Model

| member | source | states |
|---|---|---|
| IndexingJobStore.Store.Claim | backend/app/services/indexing_jobs.py:80-132 | succeeds exactly for a queued or retrying job whose time has come, of a repository without a running job; then this worker runs it with one more attempt, and it is the only running job of the repository; otherwise nothing changes |
| IndexingJobStore.Store.AuthorizedContext | backend/app/services/indexing_jobs.py:134-211 | succeeds exactly for a running job of a visible repository with membership; at most the target version changes, and that only if there was none; the context repeats job and repository |
| IndexingJobStore.Store.IsCurrent | backend/app/services/indexing_jobs.py:242-259 | true exactly if this worker holds the running job, and the job is of the present generation of its repository and of its default branch, or of no branch |
| IndexingJobStore.Store.Heartbeat | backend/app/services/indexing_jobs.py:229-240 | only the heartbeat of the job changes, and exactly if this worker runs it; who holds it does not change |
| IndexingJobStore.Store.Stage | backend/app/services/indexing_jobs.py:328-369 | exactly the holder changes anything: its heartbeat, and the remote commit of its repository |
| IndexingJobStore.Store.Cancel | backend/app/services/indexing_jobs.py:261-298 | afterwards this worker does not hold the job; exactly the holder changes it, and to cancelled |
| IndexingJobStore.Store.Fail | backend/app/services/indexing_jobs.py:902-964 | retried exactly if that is allowed and the claim was not the last attempt; afterwards this worker does not hold the job; exactly the holder changes it; it is claimable again exactly if it is retried and the delay has passed |
| IndexingJobStore.Store.RecoverAbandoned | backend/app/services/indexing_jobs.py:966-1021 | exactly the running jobs whose heartbeat is too old or missing are released, to be claimed at once while attempts are left, and else failed; no other row changes |
| IndexingJobStore.Store.DueJobs | backend/app/services/indexing_jobs.py:1023-1043 | the oldest due jobs, each once, at most one hundred, and none left out below that number; due is pending, at its time, and not put on the queue within the abandonment time |
| IndexingJobStore.Store.MarkEnqueued | backend/app/services/indexing_jobs.py:1045-1055 | the job is not due again until the abandonment time has passed; only a pending job is marked |
| IndexingJobStore.Store.PrepareBuild | backend/app/services/indexing_jobs.py:371-527 | every refusal with its cause: a mismatch, a lost lock, version or slot, a broken key; success: the next version's slot, which was free or its own, holds a fresh unvalidated build of the job with exactly the rows given; nothing else but the remote commit changes |
| IndexingJobStore.Store.ValidateGraph | backend/app/services/indexing_jobs.py:529-609 | succeeds exactly if the holder's target slot is building its job and the rows read give the counts and fingerprint of the build; then only the validated flag changes |
| IndexingJobStore.Store.RecordVectorCounts | backend/app/services/indexing_jobs.py:611-653 | succeeds exactly for the building slot of the holder, and then only its counts change |
| IndexingJobStore.Store.MarkBuildReady | backend/app/services/indexing_jobs.py:655-688 | succeeds exactly for the building slot of the holder with equal counts and a validated graph, and then only its state changes |
| IndexingJobStore.Store.Activate | backend/app/services/indexing_jobs.py:690-792 | succeeds exactly for the holder of a job of the present generation and of the default branch, or of no branch, whose next version has a ready, counted and validated build of this job and commit, unless the active build is missing; then the job completes, that build is served and the one before is superseded, and the repository row repeats the build and records the branch of the job; no other row changes; failure: nothing changes |
| IndexingJobStore.ActivationPublishes | backend/app/services/indexing_jobs.py:690-792 | so for the transaction on the tables: every column that an activation writes, and every row that it leaves alone |
| IndexingJobStore.Store.RecordFailedBuildCleanup | backend/app/services/indexing_jobs.py:799-830 | only the slot may change; a build in it that is not active is failed, its rows go with a complete cleanup, and the cleanup is recorded; else nothing changes |
| IndexingJobStore.Store.CompleteSupersededCleanup | backend/app/services/indexing_jobs.py:832-860 | refused exactly for the indexed version or a missing repository; else the rows of the slot go, a superseded or failed build in it is recorded as cleaned, and no build changes its state |
| IndexingJobStore.Store.CanCleanupInactive | backend/app/services/indexing_jobs.py:794-797 | exactly a version that is not indexed, of a repository that exists |
| IndexingJobStore.Store.Reindex | backend/app/services/repositories.py:148-185 | a new generation, and one new, queued, full job for it, its default branch and its remote commit; nothing else changes |
| IndexingJobStore.Store.SelectRepository | backend/app/services/repositories.py:55-131 | a visible repository without an initial job gets one, of its generation and default branch; nothing else changes |
| IndexingJobStore.Store.ApplyPush | backend/app/services/webhooks.py:297-407 | exactly a push to the default branch of a visible repository, for a new commit that no unfinished job is for, makes a new generation and one queued job for the commit; the job is incremental exactly if the push is not forced and on top of the indexed commit; any other push changes nothing |
| IndexingJobStore.Store.ApplyRepositoryMetadata | backend/app/services/webhooks.py:409-475 | exactly a new default branch of a visible repository makes a new generation and one queued full job for the branch; anything else changes nothing |
| IndexingJobStore.Store.Attach | backend/app/services/public_repositories.py:118-269 | the repository is visible with the given branch and commit; a queued job for them is added exactly if the commit is not the active one and no job of the repository is unfinished; a new generation exactly with a job by hand |
| IndexingInvariants.ClaimKeeps | backend/app/services/indexing_jobs.py:80-132 | a claim keeps the invariant of all tables |
| IndexingInvariants.FailKeeps | backend/app/services/indexing_jobs.py:902-964 | failing keeps it, given the fence |
| IndexingInvariants.RecoverKeeps | backend/app/services/indexing_jobs.py:966-1021 | recovery of any set of jobs keeps it |
| IndexingInvariants.RowThenJobKeeps | backend/app/services/webhooks.py:358-401 | a change of a repository row followed by a new job keeps it |
| IndexingInvariants.AttachKeeps | backend/app/services/public_repositories.py:118-269 | coalescing attachment keeps it |
| IndexingInvariants.PrepareKeeps | backend/app/services/indexing_jobs.py:403-505 | a rebuild touches only the next version, and only for its owner |
| IndexingInvariants.OneReadSettlesGraph | backend/app/services/indexing_jobs.py:553-607 | one matching ordered read of rows with unique sites settles every later read |
| IndexingInvariants.ValidateKeeps | backend/app/services/indexing_jobs.py:529-609 | after validation, every ordered read of the rows reproduces the build |
| IndexingInvariants.MarkReadyKeeps | backend/app/services/indexing_jobs.py:655-688 | a ready build is publishable |
| IndexingInvariants.FailedCleanupKeeps | backend/app/services/indexing_jobs.py:799-830 | the unguarded cleanup keeps the invariant and the served version |
| IndexingInvariants.SupersededCleanupKeeps | backend/app/services/indexing_jobs.py:832-860 | deleting rows below the served version keeps it |
| IndexingInvariants.ActivateKeeps | backend/app/services/indexing_jobs.py:690-792 | activation keeps it: versions rise by one, and the active build is complete and validated |
| IndexingInvariants.OneBuildPerJob | backend/app/services/indexing_jobs.py:403-441 | a job with a target owns no build in another slot |
| IndexingInvariants.EvolvesTransitive | backend/app/services/indexing_jobs.py:714-764 | owners, targets, generations, ranks and served slots evolve along any number of transactions |
| IndexingRuns.RunsStayOkOnClaim | backend/app/indexing/worker.py:95-131 | a claim by an idle worker keeps the fence of every other run |
| IndexingRuns.StepKeeps | backend/app/indexing/worker.py:138-292 | every step of a run keeps the invariant of the tables |
| IndexingRuns.StepKeepsLocks | backend/app/indexing/worker.py:138-292 | no step of a run takes a lock or counts an attempt |
| IndexingRuns.NextRunOk | backend/app/indexing/worker.py:138-292 | what a run carries from step to step stays true, the fence included |
| IndexingHistory.HistoryOkOnClaim | backend/app/services/indexing_jobs.py:80-132 | the attempt column counts the claims |
| IndexingHistory.RetryDelayBounded | backend/app/services/indexing_jobs.py:1057-1060 | one backoff is at most one and a half times the retry ceiling |
| IndexingHistory.HistoryOkOnBackoff | backend/app/services/indexing_jobs.py:902-964 | total backoff is bounded by the completed attempts |
| IndexingHistory.BackoffAddsUp | backend/app/services/indexing_jobs.py:902-964 | the total backoff of a history is the sum of its delays |
| IndexingHistory.HistoryOkOnActivation | backend/app/services/indexing_jobs.py:690-792 | the k-th activation activates version k, by the owner of its slot, in order of generation, and records the branch of its job |
| IndexingTheorems.NextKeeps | backend/app/indexing/worker.py:82-198 | every action of the system keeps tables, runs and history |
| IndexingTheorems.PerformKeeps | backend/app/indexing/worker.py:82-198 | so does any sequence of actions, and the tables evolve along it |
| IndexingTheorems.ActiveIndex | backend/app/services/indexing_jobs.py:655-792 | in every reachable state an indexed repository has exactly one active build: its version, complete, validated and repeated by its row |
| IndexingTheorems.ServedGraphIsValidatedGraph | backend/app/services/indexing_jobs.py:529-609 | in every reachable state the rows under an active version give the counts and fingerprint of its build, and refer to stored symbols |
| IndexingTheorems.ServedVersionIsNeverTouched | backend/app/services/indexing_jobs.py:463-505 | between two states that serve a version, nothing changed its build or its rows |
| IndexingTheorems.OneHolder | backend/app/db/models/indexing_job.py:65-70 | at most one live run holds a job of a repository |
| IndexingTheorems.ZombieWritesNothing | backend/app/services/indexing_jobs.py:229-240 | a run whose claim was superseded changes nothing through any lock-guarded write |
| IndexingTheorems.ZombieWritesIff | backend/app/services/indexing_jobs.py:799-860 | a run whose claim was superseded changes the tables exactly if it writes a missing target version, fails a build that is not served, or deletes what is left of a superseded version |
| IndexingZombies.ZombieFailsReadyBuild | backend/app/services/indexing_jobs.py:799-830 | a reachable state in which the cleanup of a superseded run fails the ready build of the holder, which cannot activate it any more |
| IndexingZombies.ZombieWritesTarget | backend/app/services/indexing_jobs.py:189-190 | a reachable state in which the context read of a superseded run writes the target version |
| IndexingTheorems.CurrentRunIsNewest | backend/app/services/indexing_jobs.py:242-259 | a run that is current holds the latest claim of the only running job, and no job of the repository is of a later generation; one that is not cannot activate |
| IndexingTheorems.OvertakenStaysOvertaken | backend/app/services/indexing_jobs.py:242-259 | a job of an older generation is never current again |
| IndexingTheorems.CleanupSparesServed | backend/app/services/indexing_jobs.py:794-797 | in every reachable state, exactly the served version of a repository may not be cleaned up |
| IndexingTheorems.BoundedWork | backend/app/services/indexing_jobs.py:902-1021 | claims equal attempts, which never pass the maximum; total backoff is at most one and a half times the retry ceiling for each attempt but the last |
| IndexingTheorems.RankDrops | backend/app/services/indexing_jobs.py:80-114 | no action raises the rank of a job; claims and returns to retrying lower it; terminal states stay |
| IndexingTheorems.BackoffDoubles | backend/app/services/indexing_jobs.py:1057-1060 | the delay doubles with every attempt up to the ceiling; jitter adds at most half of it |
| IndexingTheorems.RetriedJobWaits | backend/app/services/indexing_jobs.py:902-933 | a failed job can be claimed again exactly when its delay has passed and its repository is idle |
| IndexingQueue.NoJobIsForgotten | backend/app/services/indexing_jobs.py:966-1043 | a job left alone until its time is recovered if it was running, and else returned unless a hundred due jobs are as old |
| IndexingQueue.ReturnedIff | backend/app/services/indexing_jobs.py:1023-1043 | every result of `due_jobs` has a due job exactly if fewer than a hundred other due jobs are as old |
| IndexingQueue.StarvedBehindOlder | backend/app/services/indexing_jobs.py:1023-1043 | behind a hundred older due jobs no result has it |
| IndexingStarvation.LateIsNeverReturned | backend/app/services/indexing_jobs.py:1023-1055 | from the empty system, a job that is due in every round and in none of the batches, whatever admissible batches the rounds read |
| IndexingStarvation.RoundsGoOn | backend/app/services/indexing_jobs.py:1023-1055 | and such rounds go on for any number of times |
| IndexingQueue.ReturnedInRounds | backend/app/indexing/worker.py:114-120 | behind k due jobs that are as old, a due job is returned by round k / 100 + 1, if no such job comes to be due meanwhile |
| IndexingQueue.UndisturbedRoundsReturnIt | backend/app/indexing/worker.py:114-120 | so it is in rounds that nothing but time separates |
| IndexingQueue.MarkAllIsPerformed | backend/app/indexing/worker.py:118-120 | the marks of a round are actions of the system |
| IndexingTheorems.VersionsInOrder | backend/app/services/indexing_jobs.py:714-764 | a run activates versions 1, 2, 3, ... each once, by the owner of the slot, no job twice, generations never decreasing, each job under its own branch; the indexed branch is that of the last activation |
| IndexingTheorems.SlotsAndTargetsAreWrittenOnce | backend/app/services/indexing_jobs.py:189-190 | over any run a slot keeps its owner and a job its target |
| IndexingTheorems.BlockedForGood | backend/app/services/indexing_jobs.py:409-417 | once the job that owns the next slot has failed, was cancelled or is of an older generation, no continuation ever raises the version of the repository |
| IndexingBlocking.AdvancesIffNotBlocked | backend/app/services/indexing_jobs.py:409-417 | in every reachable state some continuation raises the version of a repository exactly if its next slot is not blocked, unless the owner of the slot is running its last attempt |
| IndexingZombies.FailedBuildBlocks | backend/app/services/indexing_jobs.py:409-417 | nine actions after which a repository is never indexed, whatever is done |
| IndexingZombies.RefreshDuringBuildBlocks | backend/app/services/indexing_jobs.py:409-417 | six actions, a refresh during a build the last, after which a repository is never indexed either |
| IndexingTheorems.RefreshSupersedes | backend/app/services/webhooks.py:375-407 | a reindex, an accepted push or a new default branch leaves its job as the only current one of the repository |
| IndexingTheorems.StaleJobsNeverActivate | backend/app/services/indexing_jobs.py:715-723 | after a generation bump, nothing of an older generation is ever activated |
| IndexingTheorems.NextActivatesFresh | backend/app/services/indexing_jobs.py:715-723 | whatever an action activates is a job of the generation and of the default branch that its repository has at that moment |
| IndexingTheorems.OtherBranchNeverActivates | backend/app/services/indexing_jobs.py:720-722 | while another branch is the default, no action activates a job of its own branch |
| IndexingTheorems.JoinedJobsCannotActivate | backend/app/services/public_repositories.py:201-239 | an attachment of a moved branch that joins unfinished jobs adds none, and leaves no job that can be activated |
| IndexingTheorems.ReplayChangesNothing | backend/app/services/webhooks.py:145-161 | a delivery that was handled changes nothing whenever it comes again |
| IndexingTheorems.AnalyzedRowsAreInsertable | backend/app/indexing/analyzer.py:121-210 | the rows of an analysis meet every unique and foreign key |
| IndexingTheorems.PreparedGraphValidates | backend/app/services/indexing_jobs.py:553-607 | a built graph, stored and read back in any admissible order, passes validation |
| IndexingProgress.UndisturbedRunActivates | backend/app/indexing/worker.py:138-292 | a current job of an idle, visible repository whose slot is free or its own: claimed and left alone, its run activates the next version in ten steps, for any analyzed checkout and any order in which its edges are read back |
| IndexingProgress.PrepareSucceeds | backend/app/services/indexing_jobs.py:371-527 | the holder of a free or own slot can always rebuild it |
| IndexingProgress.ActivationSucceeds | backend/app/services/indexing_jobs.py:690-792 | a ready, publishable build of a current job can always be activated |
| IndexingEndings.RevokedRunIsCancelled | backend/app/indexing/worker.py:143-151 | a run without access makes one store call, which cancels its job |
| IndexingEndings.SupersededRunIsCancelled | backend/app/indexing/worker.py:152-159 | so does a run whose job was superseded before it began |
| IndexingEndings.NeedlessRunIsCancelled | backend/app/indexing/worker.py:214-227 | and an incremental run for the active commit on the indexed branch |
| IndexingEndings.UnpreparedRunFails | backend/app/indexing/worker.py:161-171 | any other run whose build cannot be prepared fails its job, with a retry exactly for a mismatch or a broken key |
| IndexingEndings.CleanupEnds | backend/app/indexing/worker.py:599-635 | a build that is not served is failed and its rows deleted before its job is released; a failure is retryable also if the cleanup was not complete |
| IndexingEndings.RefusedCleanupEnds | backend/app/indexing/worker.py:599-601 | a build that is served is left alone, and the failure is retryable |
| IndexingEndings.OvertakenBuildIsCleanedUp | backend/app/indexing/worker.py:523-531 | a run that was superseded while it built is cleaned up and its job cancelled |
| IndexingEndings.RevokedBuildIsCleanedUp | backend/app/indexing/worker.py:532-536 | so is one that lost its access meanwhile |
| IndexingEndings.ChangedContextFails | backend/app/indexing/worker.py:537-542 | one whose context changed fails without a retry |
| IndexingEndings.RefusedCallFails | backend/app/indexing/worker.py:161-178 | a refused count, validation, readiness or activation fails the job without a retry, unless the cleanup was not complete |
| IndexingEndings.AbortedBuildIsCleanedUp | backend/app/indexing/worker.py:161-188 | any exception after the build was prepared: cleanup first, then failure, retryable as the exception says or if the cleanup was not complete |
| IndexingEndings.AbortedRunFails | backend/app/indexing/worker.py:161-188 | any exception before that: failure as the exception says |
| IndexingEndings.AbortedHandlerEnds | backend/app/indexing/worker.py:179-198 | an exception in a handler ends the run and changes nothing |
| IndexingEndings.ActivationEnds | backend/app/indexing/worker.py:552-558 | after an activation the version before is cleaned up, and the run is over |
| IndexingEndings.SupersededVersionIsCleanedUp | backend/app/indexing/worker.py:637-640 | that cleanup happens exactly if the vectors could be deleted |
| IndexingEndings.ServedScopeIsRefused | backend/app/indexing/worker.py:469-475 | a run whose version is served already writes no vectors and fails with a retry |
| IndexingEndings.EveryRunEnds | backend/app/indexing/worker.py:138-198 | whatever the store and the services answer, and whoever acts in between, every run ends within fifteen of its own steps |
| IndexingEndings.BeatingKeepsTheJob | backend/app/indexing/worker.py:656-664 | a worker that beats within the abandonment time keeps its job through recovery |
| IndexingEndings.CrashedJobIsReleased | backend/app/services/indexing_jobs.py:966-1021 | the job of a worker that crashed is released once its heartbeat is old, to be claimed again while attempts are left |
| IndexingEndings.EnqueuedJobRests | backend/app/services/webhooks.py:190-198 | a job that was put on the queue is not due within the abandonment time |
| IndexingEndings.LostReplyCommits | backend/app/indexing/worker.py:161-188 | a step whose reply is lost writes what the same step writes otherwise, and the worker goes on as after any other exception |
| IndexingEndings.RelevantPushIsQueued | backend/app/services/webhooks.py:145-161 | the first delivery of a relevant push queues a job for its commit, of a new generation |
| CallGraph.CollectLocalCandidates | backend/app/indexing/call_graph.py:256-268 | the loop gives the enclosing scopes from the inside out |
| CallGraph.CollectDirectImportCandidates | backend/app/indexing/call_graph.py:270-280 | the nested loops give the direct import candidates in order |
| CallGraph.CollectQualifiedImportCandidates | backend/app/indexing/call_graph.py:282-302 | the nested loops give the qualified import candidates in order |
| CallGraph.RelativeImport | backend/app/indexing/call_graph.py:304-315 | relative imports as in PEP 328: one dot is the package of the file, each further dot one package up, nothing above the topmost, then the name |
| CallGraph.LocalScopes | backend/app/indexing/call_graph.py:256-268 | a plain name is looked up in the scope of the caller, then in each enclosing one, and last in the module |
| CallGraph.DirectStandsFor | backend/app/indexing/call_graph.py:270-280 | the first alias of a file that binds a name decides the first candidate: the path of names that the alias stands for |
| CallGraph.QualifiedStandsFor | backend/app/indexing/call_graph.py:282-302 | for an attribute call the first binding of its head does, plain, aliased or from a module, and the rest of the call follows |
| CallGraph.Group | backend/app/indexing/call_graph.py:318-327 | the loop groups by key and keeps the order in a group |
| CallGraph.ResolveSites | backend/app/indexing/call_graph.py:91-146 | one edge for each site that is not skipped, and counters that count what they say |
| CallGraph.SiteHasEdge | backend/app/indexing/call_graph.py:91-146 | every call of a known caller in a known file has a row with its ids, place, expression and resolution |
| CallGraph.ImportedCallResolves | backend/app/indexing/call_graph.py:207-222 | a call through an import resolves to the sole symbol on the path of the import |
| CallGraph.Build | backend/app/indexing/call_graph.py:67-189 | the whole graph, or the error above the site limit; the edges are in order and the counts and warnings count them; every call of a name that an import bound first in its file, and that no scope of the caller defines, refers to the symbol that the import names, as an exact direct import |
| CallGraph.FingerprintIff | backend/app/indexing/call_graph.py:166-180 | two edge lists have one fingerprint exactly if they agree in ids, caller, callee, site, kind and confidence, edge by edge |
| CallGraphTheorems.ResolveIsSearch | backend/app/indexing/call_graph.py:191-254 | every resolution is the first hit of one ordered search, then a sole method of that name |
| CallGraphTheorems.CalleeIff | backend/app/indexing/call_graph.py:191-355 | an edge has a callee exactly when it is the sole match of the first matching candidate, or the sole method of that name |
| CallGraphTheorems.LocalCallResolves | backend/app/indexing/call_graph.py:207-218 | a call of a plain name is that of the innermost scope that defines it |
| CallGraphTheorems.SelfCallResolves | backend/app/indexing/call_graph.py:232-235 | a call on `self` or `cls` is that of the member beside the caller |
| CallGraphTheorems.OtherCallIsUnresolved | backend/app/indexing/call_graph.py:202-204 | a call with a part that is no identifier has no callee, whatever the symbols and imports |
| CallGraphTheorems.QualifiedCallResolves | backend/app/indexing/call_graph.py:236-239 | a call whose head an import binds is that of the name under what was imported |
| CallGraphTheorems.ModuleCallResolves | backend/app/indexing/call_graph.py:240-242 | else a name under the module of the file itself |
| CallGraphTheorems.MethodCallResolves | backend/app/indexing/call_graph.py:243-254 | else a guess: the only method of the name, ambiguous if there are several, unresolved if there is none |
| CallGraphTheorems.EverySiteIsCounted | backend/app/indexing/call_graph.py:86-103 | exact, probable, ambiguous, unresolved and skipped add up to the sites |
| CallGraphTheorems.KindMatchesCallee | backend/app/indexing/call_graph.py:131-145 | no callee exactly when ambiguous or unresolved, and then the expression is recorded |
| CallGraphTheorems.GraphIgnoresOrder | backend/app/indexing/call_graph.py:67-189 | permuting call sites and symbols changes no edge, count or fingerprint |
| CallGraphTheorems.GraphIgnoresFileAndSymbolOrder | backend/app/indexing/call_graph.py:67-189 | neither does permuting files |
| CallGraphTheorems.SitesAreDistinctAcrossFiles | backend/app/indexing/call_graph.py:109-123 | distinct sites in each file are distinct in all |
| CallGraphTheorems.ReadIsUnique | backend/app/services/indexing_jobs.py:553-607 | rows with unique sites have only one ordered read |
| CallGraphTheorems.DistinctSitesDistinctRows | backend/app/indexing/call_graph.py:109-146 | distinct sites give rows that meet the unique constraint |
| CallGraphTheorems.StoreAndValidate | backend/app/indexing/call_graph.py:147-189 | stored as a set and read back, the edges reproduce the sequence, the counts and the fingerprint |
| CallGraphTheorems.EdgesReferToSymbols | backend/app/indexing/call_graph.py:131-145 | callers and callees are given symbols |
| CallGraphTheorems.EdgeRowsAreUnique | backend/app/indexing/call_graph.py:109-130 | no edge id and no site fingerprint repeats |
| CallSites.CollectCallSites | backend/app/indexing/python_parser.py:145-181 | the explicit stack visits the tree in preorder, and stops exactly above the limit |
| CallSites.ExtractCallSites | backend/app/indexing/python_parser.py:130-195 | the sites of the tree in order of lines, caller and expression, or nothing and a warning above the limit |
| CallSites.CallerIsInnermost | backend/app/indexing/python_parser.py:151-162 | the caller of a line is a callable around it; none around it is lower, or as low and starts later |
| CallSites.SiteIff | backend/app/indexing/python_parser.py:148-181 | a call gives a site exactly if it names a function, stands in a callable, and the name is not too long: with that text, callable, lines and column |
| CallSites.CallsHaveDistinctPlaces | backend/app/indexing/python_parser.py:148-179 | two call nodes of a span tree never share the start and the end of their function; nodes without text are allowed elsewhere |
| CallSites.ExtractedSitesAreDistinct | backend/app/indexing/python_parser.py:130-195 | so no two extracted sites have the same expression and position |
| Packing.BytesMonotone | backend/app/indexing/chunking.py:492-494 | a slice inside a slice is no larger |
| Packing.SliceGrows | backend/app/indexing/chunking.py:492-494 | a slice is its lines, joined by newlines |
| Packing.StaysAhead | backend/app/indexing/chunking.py:448-490 | greedy cuts stay ahead of those of any other packing |
| Packing.GreedyIsMinimal | backend/app/indexing/chunking.py:448-490 | no packing into consecutive groups that fit has fewer groups |
| Packing.SplitLines | backend/app/indexing/chunking.py:474-490 | fails exactly when a line exceeds the limit; otherwise the fewest groups of lines |
| Packing.PackRanges | backend/app/indexing/chunking.py:448-472 | fails exactly when a line of a range exceeds the limit; otherwise every line of the ranges is in exactly one fitting piece, and the pieces are fewest when every range fits |
| Packing.PackingCovers | backend/app/indexing/chunking.py:448-490 | a packing of separated ranges covers them in order, without overlap |
| DocumentSections.CollectStarts | backend/app/indexing/chunking.py:392-413 | the scan finds every heading outside fences, with its heading stack |
| DocumentSections.MarkdownSections | backend/app/indexing/chunking.py:388-419 | consecutive sections that start at line one and at exactly those headings |
| DocumentSections.SectionsPartition | backend/app/indexing/chunking.py:414-419 | every line is in one section, and there both scans agree on the open fence |
| DocumentSections.FencesAgree | backend/app/indexing/chunking.py:421-446 | the fence state of the paragraph scan is that of the section scan, line by line |
| DocumentSections.BlocksExist | backend/app/indexing/chunking.py:396-403 | every sequence of line kinds has code blocks: from an opening fence to the next of the same marker, disjoint, with no fence outside them |
| DocumentSections.OpenFenceIff | backend/app/indexing/chunking.py:396-403 | the scan has an open fence exactly inside such a block, after its opening and before its closing fence |
| DocumentSections.HeadingIff | backend/app/indexing/chunking.py:396-405 | headings count exactly outside code blocks |
| DocumentSections.KeptIff | backend/app/indexing/chunking.py:431-437 | paragraphs drop exactly the blank lines outside code blocks |
| DocumentSections.SectionsBeginAtHeadings | backend/app/indexing/chunking.py:388-419 | sections begin at line one and at the headings outside code blocks, and nowhere else |
| DocumentSections.CodeBlockInOneSection | backend/app/indexing/chunking.py:388-419 | no section ends inside a code block |
| DocumentSections.CodeBlockInOneParagraph | backend/app/indexing/chunking.py:421-446 | nor does a paragraph |
| DocumentSections.HierarchyIsOutline | backend/app/indexing/chunking.py:406-413 | the truncated stack holds the titles of the enclosing headings, up to a line, exactly if every heading keeps as many open headings as its level counts |
| DocumentSections.LevelsAreExactIff | backend/app/indexing/chunking.py:406-413 | levels are positions in the stack, up to a line, exactly if the first heading is of the top level and each other at most one level below the heading before it |
| DocumentSections.SkippedLevelNestsSiblings | backend/app/indexing/chunking.py:406-413 | after a skipped level two siblings nest |
| DocumentSections.ParagraphRanges | backend/app/indexing/chunking.py:421-446 | the maximal runs of lines that are not blank or are inside a fence |
| DocumentationChunker.PackSection | backend/app/indexing/chunking.py:343-351 | a section is refused exactly when it or one of its paragraph lines is too large |
| DocumentationChunker.WithinLimitsIff | backend/app/indexing/chunking.py:343-351 | a section is taken exactly if its text, and each of its lines that is not blank or is in a code block, is within its limit |
| DocumentationChunker.ReadableInChunk | backend/app/indexing/chunking.py:352-378 | a piece that holds a readable line is never skipped as empty |
| DocumentationChunker.AddSection | backend/app/indexing/chunking.py:342-378 | one more section keeps all chunks in order, disjoint and verbatim |
| DocumentationChunker.OrderedIsSorted | backend/app/indexing/chunking.py:381-382 | the final sort changes nothing |
| DocumentationChunker.ChunkSections | backend/app/indexing/chunking.py:342-378 | each readable line of an accepted section is in a chunk; one warning for each refused section |
| DocumentationChunker.ChunkDocument | backend/app/indexing/chunking.py:320-386 | sections begin at the headings outside code blocks; below the chunk limit, verbatim ordered disjoint chunks within the byte limit that lose no line with text of a section within the limits, blank lines outside code blocks aside |
| PythonChunker.ContiguousRuns | backend/app/indexing/chunking.py:287-301 | the segments cut into runs exactly where a line lies between two of them |
| PythonChunker.SpanHolds | backend/app/indexing/chunking.py:287-301 | a group inside a run holds the lines of its segments and no other |
| PythonChunker.KeptIff | backend/app/indexing/chunking.py:171-189 | what is kept of a body: the segments that are no function, class or decorated definition, each once and in order |
| PythonChunker.SegmentChunks | backend/app/indexing/chunking.py:191-232 | the fewest fitting groups of a run; fails exactly if a segment is too large or a greedy group has no text |
| PythonChunker.ChunkBody | backend/app/indexing/chunking.py:171-189 | the chunks of a body hold exactly the lines of the kept segments, as slices of the lines of `splitlines` |
| PythonChunker.SymbolChunks | backend/app/indexing/chunking.py:115-189 | a class is its header and its split body, anything else one chunk or its split body; every chunk has text within the limit; refused only for a header, a text or a statement that is empty or too large |
| SourceLines.LinesAreRowsIff | backend/app/indexing/chunking.py:65 | lines and rows agree up to a row exactly if no break but a newline stands before its end |
| SourceLines.LineEnds | backend/app/indexing/chunking.py:65 | the nine characters that end a line; only a newline ends a row |
| SourceLines.SliceIsExact | backend/app/indexing/chunking.py:492-494 | then the slices are those of the rows |
| PythonChunker.SplitBodyIsSource | backend/app/indexing/python_parser.py:427-434 | then the chunks of a split body are the text of its statements |
| PythonChunker.OtherBreakLeaksDefinition | backend/app/indexing/chunking.py:65 | with one other break before them, the chunk of a statement is the excluded definition before it, and no chunk holds the statement |
| PythonChunker.FormFeedLeaksDefinition | backend/app/indexing/chunking.py:65 | so in a class with a form feed on a row of its own |
| PythonFile.ModuleChunks | backend/app/indexing/chunking.py:87-101 | the module code up to the first run that cannot be cut |
| PythonFile.ChunkFile | backend/app/indexing/chunking.py:56-113 | the chunks of all definitions and of the module code in canonical order, each with the digest of its text, with one warning for each refusal, or none of them above the chunk limit |
| PythonFile.OneWarningEach | backend/app/indexing/chunking.py:68-82 | there are as many warnings as refused definitions, and each reads `symbol_too_large` |
| PythonFile.RefusedForAReason | backend/app/indexing/chunking.py:68-82 | a definition above the symbol limit is refused; any other only if its header, its text or one of its statements is empty or does not fit a chunk |
| PythonFile.ChunksOf | backend/app/indexing/chunking.py:115-189 | a chunk carries the file, the commit, the lines and text of its piece, the digest of that text, and the caption |
| PythonFile.BodyLineIsChunked | backend/app/indexing/chunking.py:115-189 | every statement line of a class, or of a definition that was split, is in a chunk with the name of that definition |
| PythonFile.ModuleLinesAreExact | backend/app/indexing/chunking.py:87-101 | the module chunks hold exactly the statement lines before the run that could not be cut |
| Analyzer.Analyze | backend/app/indexing/analyzer.py:212-258 | refused exactly for too many chunks, and else exactly for too many bytes of text, in whatever order; otherwise the canonical chunks of all files |
| Analyzer.CanonicalBytes | backend/app/indexing/analyzer.py:164-165 | the order of chunks does not change their bytes |
| Analyzer.BytesOfTexts | backend/app/indexing/analyzer.py:164-165 | the bytes that are limited are those of all texts together |
| Analyzer.CanonicalIsOrdered | backend/app/indexing/analyzer.py:153-164 | the canonical chunks are the given ones, in order of file, lines, type, name and content, with dense ordinals |
| Analyzer.CanonicalIgnoresOrder | backend/app/indexing/analyzer.py:153-163 | the order of files and chunks does not show in the result |
| Analyzer.AnalyzedDocsAreDistinct | backend/app/indexing/analyzer.py:163-164 | dense ordinals give the prepared documents distinct ids |
| Embedding.EmbedBatch | backend/app/embeddings/client.py:139-183 | a response is accepted exactly when it comes from the configured model and has one valid vector for each document, and no other |
| Embedding.SameTextIff | backend/app/embeddings/preprocessing.py:43-81 | two chunks are prepared to the same text exactly if they agree in content and metadata; ordinal, commit and hash do not count |
| Embedding.EmbedDocuments | backend/app/embeddings/client.py:115-126 | succeeds exactly if no document is asked for twice and every batch is answered; then each document has the embedding of its text |
| VectorStore.Store.DeleteScope | backend/app/vector/qdrant.py:655-664 | exactly the points of the scope go, unless the server refuses; the result may be lost |
| VectorStore.Store.Upsert | backend/app/vector/qdrant.py:405-442 | refused exactly for a record that is invalid or out of scope, with nothing written; otherwise whole batches are written up to the first that fails |
| VectorStore.Store.ValidateScope | backend/app/vector/qdrant.py:600-653 | accepted exactly when the scope has the expected number of points and all have the commit and the model |
| IncrementalIndex.RefreshedScopeValidates | backend/app/vector/qdrant.py:600-653 | what a refresh leaves in a scope passes this validation |
| VectorStore.ReusableVectors | backend/app/vector/qdrant.py:456-543 | every vector returned is that of a wanted record, every wanted record has its vector returned, and the search fails exactly if one of these vectors is invalid |
| IncrementalIndex.ReusedIsEmbedded | backend/app/vector/qdrant.py:466-539 | a reused vector is the embedding that would be computed |
| IncrementalIndex.RefreshedPuts | backend/app/indexing/worker.py:477-486 | reused or embedded, the records are those of a full index |
| IncrementalIndex.EmbedAndStore | backend/app/indexing/worker.py:408-496 | succeeds exactly if no vector to reuse is invalid, every batch of the documents to embed is answered, the version may be written, and the store takes the deletion and every batch; then the scope holds the full index and nothing else changed; failure leaves the store alone, or whole batches of that index in the emptied scope |
| IncrementalIndex.ReuseIsComplete | backend/app/indexing/worker.py:442-452 | as many reused vectors as reusable documents means that exactly these have one |
| IncrementalIndex.AllFoundIff | backend/app/indexing/worker.py:442-443 | the counts are equal exactly when every reusable document has a record with its key and no two share a key |
| IncrementalIndex.Reuse | backend/app/indexing/worker.py:424-453 | the documents left to embed are the touched ones exactly if the mode is incremental, an index is active, and every untouched document has a point there, of the present model and policy, in the same place with the same type, name, content and text, and shares all this with no other; otherwise all |
| IncrementalIndex.FullIndexHolds | backend/app/vector/qdrant.py:143-160 | every chunk has one point, under the id of its scope, file, content, type and ordinal, with the embedding of its text |
| IncrementalIndex.FullIndexSize | backend/app/vector/qdrant.py:143-160 | and there are as many points as chunks |
| IncrementalIndex.RefreshKeepsTruth | backend/app/indexing/worker.py:477-487 | every stored vector stays the embedding of the text of its fingerprint |
| IncrementalIndex.ChainIsFull | backend/app/indexing/worker.py:424-496 | after any chain of refreshes, successful or not, a scope holds the full index of the last one that touched it, if that one wrote all its documents |
| EvidenceSelection.Select | backend/app/rag/evidence.py:22-68 | the loop with its counters: best score first, ties by place and hash, numbered from one; no hit repeats or overlaps one before it or breaks a limit; a hit is left out only because of selected hits that rank at least as high |
| EvidenceSelection.SelectionIsRanked | backend/app/rag/evidence.py:23-32 | scores never increase along the selection, and ties stand in order of path, lines and hash |
| EvidenceSelection.NothingBetterIsLeftOut | backend/app/rag/evidence.py:33-52 | a hit is left out only because of selected hits that rank at least as high: they alone exclude it, or they fill the item limit |
| EvidenceSelection.ExcludesIff | backend/app/rag/evidence.py:37-45 | a hit is excluded exactly by a repeated hash, a shared line, too many hits of its file, or too many bytes, alone or in all |
| EvidenceSelection.SelectionIsSoundAndMaximal | backend/app/rag/evidence.py:33-52 | distinct hashes, no overlap, all limits; below the item limit no other hit could be added |
| EvidenceSelection.SelectionIgnoresOrder | backend/app/rag/evidence.py:23-32 | the order of the hits does not matter when equal keys mean equal hits |
| Sorting.StrLeIff | backend/app/rag/evidence.py:23-32 | strings are ordered by the first characters that differ, a prefix first |
| EvidenceSelection.EvidenceIdsDistinct | backend/app/rag/evidence.py:53-68 | evidence ids are distinct |
| EvidenceSelection.Validate | backend/app/rag/evidence.py:83-118 | an answer stands exactly when it cites server evidence, inline as in its list; every citation is server evidence, each cited id once |
| EvidenceSelection.UniqueInOrder | backend/app/rag/evidence.py:91 | ids are cited in the order of their first occurrences |
| Numerals.DecimalDigits | backend/app/agent/tools.py:120 | the numbers in an evidence id are written in decimal: the last digit is the remainder by ten, the others write the quotient |
| AgentRun.RenderInjective | backend/app/agent/tools.py:186-229 | different steps, tools and positions have different evidence ids |
| AgentRun.RenderedIds | backend/app/agent/tools.py:120-215 | the ids as an answer writes them: step, kind and position, counted from one |
| AgentRun.HistoryItems | backend/app/agent/tools.py:186-229 | exactly the dated commits with their pull requests, each text under the id of its place, a commit before its pull requests and both in order |
| AgentRun.ToolItems | backend/app/agent/tools.py:108-229 | which text each evidence id of a tool result carries |
| AgentRun.Run | backend/app/agent/service.py:135-329 | the trace and the evidence are what the turns make of them, as long as the run may go on; there is an answer exactly if the turn that ends it is a final decision citing only evidence of the index that is still active; steps are numbered and no call is made twice, and the evidence has distinct ids and keeps both budgets |
| AgentRun.StepsAreLawful | backend/app/agent/service.py:135-329 | every step is the call of its turn, on the first index whenever there is evidence; rejected exactly if repeated, else authorized on the first index, and completed exactly if the tool found something within both budgets |
| AgentRun.Finalize | backend/app/agent/service.py:331-389 | an answer cites a non-empty part of the evidence in order, and only from the index the run began with |
| AgentRun.CitedIdsDistinct | backend/app/agent/service.py:372-374 | no id is cited twice |
| RefreshTokens.TokenService.IssueSession | backend/app/services/auth.py:348-365 | the new, live token is the root and only member of a new family; no other token changes |
| RefreshTokens.TokenService.RotateRefreshToken | backend/app/services/auth.py:464-509 | success exactly for a known token that is not spent, not expired, and has its user; then it is marked used, and its successor, of the same family and user, lives for another lifetime; no other row changes; each error with its condition and its effect, reuse revoking the whole family |
| RefreshTokens.TokenService.Logout | backend/app/services/auth.py:511-526 | exactly the family of the presented token is revoked |
| RefreshTokens.NextKeeps | backend/app/services/auth.py:464-526 | every action keeps every family a chain |
| RefreshTokens.FamiliesAreChains | backend/app/services/auth.py:464-509 | in every run a family is a parent chain from one root |
| RefreshTokens.OneLiveToken | backend/app/services/auth.py:473-502 | at most one token of a family is live, and none was rotated twice |
| RefreshTokens.ReuseAndLogoutAreFinal | backend/app/services/auth.py:473-526 | after reuse or logout the family never has a live token again |
| RefreshTokens.IssuedTokenRotates | backend/app/services/auth.py:464-509 | in any run a token that is presented within its lifetime, while it is not spent and its user exists, rotates |
| RefreshTokens.UndisturbedStaysLive | backend/app/services/auth.py:464-526 | nothing outside its family changes a token |
| RefreshTokens.RefreshInTimeRotates | backend/app/services/auth.py:464-509 | so a session that is refreshed within each lifetime goes on for ever |
| RefreshTokens.ExpiredTokenNeverRotates | backend/app/services/auth.py:484-488 | and one that is not, never again |
| Utf8.DecodeInvertsEncode | backend/app/agent/tools.py:252-257 | decoding gives back what was encoded |
| Utf8.StandardExamples | backend/app/agent/tools.py:252-257 | the examples of section 7 of RFC 3629 |
| Utf8.CutEncodingDecodes | backend/app/agent/tools.py:252-257 | a cut encoding decodes to the characters that are whole |
| Utf8.TruncateIsLongestFittingPrefix | backend/app/agent/tools.py:252-257 | the longest prefix whose encoding fits, wherever the cut falls |

## Left out

- IndexingTheorems.ZombieWritesNothing: speaks of the lock-guarded writes; `IndexingTheorems.ZombieWritesIff` says when the others write.
- IndexingBlocking.AdvancesIffNotBlocked: leaves out a next slot whose owner is running its last attempt; it depends on how far that run has come.
- IndexingQueue.ReturnedInRounds: the rounds fall within one abandonment time, after which a job that was marked is due again.
- PythonChunker.SplitBodyIsSource: one way for a single slice, since a shifted slice can happen to have the same text; both ways for all lines up to it in `SourceLines.LinesAreRowsIff`.
- PythonFile.ChunkFile: imports, decorators, signatures and docstrings are one opaque value; hashing is a parameter.
- Analyzer.Analyze: the chunks; symbols and the call graph of an analysis are `IndexingTheorems.AnalyzedRowsAreInsertable` and `CallGraphTheorems.GraphIgnoresFileAndSymbolOrder`.
- AgentRun.Run: starts after the active index is loaded; prompts, timeouts of the whole run and the text of answers are not modelled.
- Vector points under interleaved workers: the check and the deletion of an inactive scope are two steps in the code, and a zombie may delete points between them; the protocol invariants are about database rows.
- Races inside one store method, such as the select and the writes of `recover_abandoned`, the unlocked read of `logout` or the unlocked update of `_apply_repository_metadata` (backend/app/services/webhooks.py:428-452).
- Failing reads of the vector store: they change nothing.
- Deleted jobs: a build whose owner row is deleted would lose its owner; no method deletes one.
- Columns that only report progress, stages or errors; the counters of `record_freshness_plan`.
- `classify_comparison` and `plan_refresh`: the refinement of incremental by full holds for any set of target paths, so their choice affects cost only.
- The size limit of a prepared document, retries of the vector and embedding clients, and vector norms.
- Discovery, cloning, process isolation, parsing of symbols and imports, OAuth, GitHub, Redis, the API and the frontend.
