/**
 * Each transaction of `IndexingJobStore` (indexing_jobs.py) and of the job creators
 * (repositories.py, webhooks.py, public_repositories.py) as a function on the tables.
 * A failed transaction leaves the tables as they were.
 */
module IndexingTransitions {
  import opened Common
  import opened IndexingRows
  import CallGraph
  import CallGraphTheorems

  // ---------------------------------------------------------------- claiming

  predicate Pending(job: Job) {
    job.status.Queued? || job.status.Retrying?
  }

  predicate Reached(at: Option<Time>, now: Time) {
    at.None? || at.value <= now
  }

  predicate Claimable(job: Job, now: Time) {
    Pending(job) && Reached(job.nextAttemptAt, now)
  }

  /** The partial unique index admits one running job per repository. */
  predicate RepositoryBusy(db: Db, r: RepositoryId) {
    exists j :: j in db.jobs && db.jobs[j].repository == r && db.jobs[j].status.Running?
  }

  function Claim(db: Db, j: JobId, worker: WorkerId, now: Time): (Db, Option<ClaimedJob>) {
    if j !in db.jobs || !Claimable(db.jobs[j], now) || RepositoryBusy(db, db.jobs[j].repository) then (db, None)
    else
      var job := db.jobs[j].(status := Running, attempt := db.jobs[j].attempt + 1, lockedBy := Some(worker),
                             heartbeatAt := Some(now), nextAttemptAt := None);
      (db.(jobs := db.jobs[j := job]), Some(ClaimedJob(j, job.repository, job.attempt)))
  }

  /** The WHERE clause of every guarded write. */
  predicate Held(db: Db, c: ClaimedJob, worker: WorkerId) {
    c.job in db.jobs && db.jobs[c.job].status.Running? && db.jobs[c.job].lockedBy == Some(worker)
  }

  // ---------------------------------------------------------------- context and freshness

  /** `membership` is the result of the membership sub-queries, which read tables outside this model. */
  function AuthorizedContext(db: Db, c: ClaimedJob, membership: bool): (Db, Option<JobContext>) {
    if c.job !in db.jobs || !db.jobs[c.job].status.Running? || db.jobs[c.job].repository !in db.repositories
    then (db, None)
    else
      var job := db.jobs[c.job];
      var repository := db.repositories[job.repository];
      if repository.revoked || repository.deleted || !membership then (db, None)
      else
        var target := if job.targetVersion.Some? then job.targetVersion.value else repository.indexVersion + 1;
        (db.(jobs := db.jobs[c.job := job.(targetVersion := Some(target))]),
         Some(JobContext(c.job, job.repository, repository.defaultBranch, target, job.generation,
                         repository.indexVersion, repository.lastIndexedCommit, repository.indexedBranch,
                         if job.requestedMode.Some? then job.requestedMode.value else Full)))
  }

  predicate Fresh(job: Job, repository: Repository) {
    && job.generation == repository.generation
    && (job.targetBranch.None? || job.targetBranch.value == repository.defaultBranch)
  }

  predicate IsCurrent(db: Db, c: ClaimedJob, worker: WorkerId) {
    && Held(db, c, worker)
    && db.jobs[c.job].repository in db.repositories
    && Fresh(db.jobs[c.job], db.repositories[db.jobs[c.job].repository])
  }

  /** `heartbeat`. */
  function Heartbeat(db: Db, c: ClaimedJob, worker: WorkerId, now: Time): Db {
    if !Held(db, c, worker) then db
    else db.(jobs := db.jobs[c.job := db.jobs[c.job].(heartbeatAt := Some(now))])
  }

  function SetRepository(db: Db, r: RepositoryId, repository: Repository): Db {
    db.(repositories := db.repositories[r := repository])
  }

  /** `stage`, without the columns that only the user interface reads. */
  function Stage(db: Db, c: ClaimedJob, worker: WorkerId, commit: Option<Commit>, now: Time): Db {
    var r := if c.job in db.jobs then db.jobs[c.job].repository else 0;
    if !Held(db, c, worker) || commit.None? || r !in db.repositories then Heartbeat(db, c, worker, now)
    else SetRepository(Heartbeat(db, c, worker, now), r, db.repositories[r].(remoteCommit := commit))
  }

  // ---------------------------------------------------------------- leaving the running state

  /** `mark_stale` and `cancel_revoked`. */
  function Cancel(db: Db, c: ClaimedJob, worker: WorkerId, now: Time): Db {
    if !Held(db, c, worker) then db
    else db.(jobs := db.jobs[c.job := db.jobs[c.job].(status := Cancelled, heartbeatAt := Some(now), lockedBy := None)])
  }

  function Power2(n: nat): (r: nat)
    ensures r >= 1
  {
    if n == 0 then 1 else 2 * Power2(n - 1)
  }

  function DelaySeconds(s: Settings, attempt: nat): nat {
    Min(s.retryMax, s.retryBase * Power2(Max(0, attempt - 1)))
  }

  /** `_retry_delay`: `jitter` is the random number of milliseconds, at most half the delay. */
  function RetryDelay(s: Settings, attempt: nat, jitter: nat): nat {
    DelaySeconds(s, attempt) * 1000 + Min(jitter, DelaySeconds(s, attempt) * 500)
  }

  predicate ShouldRetry(s: Settings, c: ClaimedJob, retryable: bool) {
    retryable && c.attempt < s.maxAttempts
  }

  function Fail(s: Settings, db: Db, c: ClaimedJob, worker: WorkerId, retryable: bool, now: Time, jitter: nat): Db {
    if !Held(db, c, worker) then db
    else
      var retry := ShouldRetry(s, c, retryable);
      var job := db.jobs[c.job].(
        status := if retry then Retrying else Failed,
        nextAttemptAt := if retry then Some(now + RetryDelay(s, c.attempt, jitter)) else None,
        heartbeatAt := Some(now), lockedBy := None);
      db.(jobs := db.jobs[c.job := job])
  }

  predicate Abandoned(s: Settings, job: Job, now: Time) {
    job.status.Running? && (job.heartbeatAt.None? || job.heartbeatAt.value < now - s.abandonedAfter)
  }

  function Recovered(s: Settings, job: Job, now: Time): Job {
    var retry := job.attempt < s.maxAttempts;
    job.(status := if retry then Retrying else Failed,
         nextAttemptAt := if retry then Some(now) else None, lockedBy := None)
  }

  function RecoverAbandoned(s: Settings, db: Db, now: Time): Db {
    db.(jobs := map j | j in db.jobs :: if Abandoned(s, db.jobs[j], now) then Recovered(s, db.jobs[j], now) else db.jobs[j])
  }

  /** The WHERE clause of `due_jobs`. */
  predicate Due(s: Settings, job: Job, now: Time) {
    && Claimable(job, now)
    && (job.lastEnqueuedAt.None? || job.lastEnqueuedAt.value < now - s.abandonedAfter)
  }

  const DUE_LIMIT := 100

  /** A possible result of `due_jobs`: the oldest due jobs, at most `DUE_LIMIT` of them. */
  ghost predicate DueBatch(s: Settings, db: Db, now: Time, ids: seq<JobId>) {
    && |ids| <= DUE_LIMIT
    && (forall i :: 0 <= i < |ids| ==> ids[i] in db.jobs && Due(s, db.jobs[ids[i]], now))
    && (forall i, k :: 0 <= i < k < |ids| ==> ids[i] != ids[k] && db.jobs[ids[i]].createdAt <= db.jobs[ids[k]].createdAt)
    && (forall j :: j in db.jobs && Due(s, db.jobs[j], now) && j !in ids ==>
          |ids| == DUE_LIMIT && forall i :: 0 <= i < |ids| ==> db.jobs[ids[i]].createdAt <= db.jobs[j].createdAt)
  }

  /** `mark_enqueued`. */
  function MarkEnqueued(db: Db, j: JobId, now: Time): Db {
    if j !in db.jobs || !Pending(db.jobs[j]) then db
    else db.(jobs := db.jobs[j := db.jobs[j].(lastEnqueuedAt := Some(now))])
  }

  /** The unconditional update that follows an enqueue in the services that create jobs. */
  function RecordEnqueue(db: Db, j: JobId, now: Time): Db {
    if j !in db.jobs then db
    else db.(jobs := db.jobs[j := db.jobs[j].(lastEnqueuedAt := Some(now))])
  }

  // ---------------------------------------------------------------- building

  /** Primary, unique and foreign keys of the symbol and edge rows of one version. */
  predicate InsertOk(p: Processing) {
    && (forall i, k :: 0 <= i < k < |p.symbols| ==> p.symbols[i] != p.symbols[k])
    && (forall i, k :: 0 <= i < k < |p.edges| ==>
          p.edges[i].id != p.edges[k].id && p.edges[i].siteFingerprint != p.edges[k].siteFingerprint)
    && (forall i :: 0 <= i < |p.edges| ==>
          && p.edges[i].caller in p.symbols
          && (p.edges[i].callee.Some? ==> p.edges[i].callee.value in p.symbols))
  }

  function RowsOf(p: Processing): GraphRows {
    GraphRows(set x | x in p.symbols, set e | e in p.edges)
  }

  function FreshBuild(p: Processing, j: JobId): Build {
    Build(Some(j), Building, CleanupStatus.Pending, p.commit, p.chunkCount, 0, 0, p.graph, false)
  }

  /** The unique constraint on the owner job of a build. */
  predicate OwnsAnotherBuild(db: Db, j: JobId, slot: Slot) {
    exists other :: other in db.builds && other != slot && db.builds[other].owner == Some(j)
  }

  function PrepareBuild(db: Db, c: ClaimedJob, worker: WorkerId, commit: Commit, p: Processing): Result<Db, StoreError> {
    if p.repository != c.repository || p.commit != commit || p.version < 1 then Failure(ProcessingMismatch)
    else if !Held(db, c, worker) || db.jobs[c.job].repository !in db.repositories then Failure(ActivationRace)
    else
      var job := db.jobs[c.job];
      var repository := db.repositories[job.repository];
      var slot := Slot(job.repository, p.version);
      if job.targetVersion != Some(p.version) || p.version != repository.indexVersion + 1 then Failure(ActivationRace)
      else if slot in db.builds && db.builds[slot].owner != None && db.builds[slot].owner != Some(c.job) then
        Failure(ActivationRace)
      else if OwnsAnotherBuild(db, c.job, slot) || !InsertOk(p) then Failure(IntegrityViolation)
      else
        Success(db.(builds := db.builds[slot := FreshBuild(p, c.job)],
                    graphs := db.graphs[slot := RowsOf(p)],
                    repositories := db.repositories[job.repository := repository.(remoteCommit := Some(commit))]))
  }

  /** The slot of the build that the guarded build writes address. */
  function TargetSlot(db: Db, c: ClaimedJob): Slot
    requires c.job in db.jobs && db.jobs[c.job].targetVersion.Some?
  {
    Slot(c.repository, db.jobs[c.job].targetVersion.value)
  }

  predicate HeldWithTarget(db: Db, c: ClaimedJob, worker: WorkerId) {
    Held(db, c, worker) && db.jobs[c.job].targetVersion.Some?
  }

  predicate OwnsBuild(db: Db, slot: Slot, j: JobId, state: BuildState) {
    slot in db.builds && db.builds[slot].owner == Some(j) && db.builds[slot].state == state
  }

  /** The edge rows that `validate_graph` selects. */
  function EdgesAt(rows: GraphRows, commit: Commit): set<CallGraph.Edge> {
    set e | e in rows.edges && e.commit == commit
  }

  function RowsAt(db: Db, slot: Slot): GraphRows {
    if slot in db.graphs then db.graphs[slot] else GraphRows({}, {})
  }

  /** `rows` is a result that the ORDER BY query of `validate_graph` may return. */
  ghost predicate ValidationRead(db: Db, c: ClaimedJob, rows: seq<CallGraph.Edge>) {
    c.job in db.jobs && db.jobs[c.job].targetVersion.Some? && TargetSlot(db, c) in db.builds ==>
      CallGraphTheorems.OrderedRead(rows, EdgesAt(RowsAt(db, TargetSlot(db, c)), db.builds[TargetSlot(db, c)].commit))
  }

  function ValidateGraph(db: Db, c: ClaimedJob, worker: WorkerId, rows: seq<CallGraph.Edge>): Result<Db, StoreError> {
    if !HeldWithTarget(db, c, worker) then Failure(ActivationRace)
    else
      var slot := TargetSlot(db, c);
      if !OwnsBuild(db, slot, c.job, Building) || CallGraph.Summarize(rows) != db.builds[slot].graph
      then Failure(GraphValidationFailed)
      else Success(db.(builds := db.builds[slot := db.builds[slot].(graphValidated := true)]))
  }

  function RecordVectorCounts(db: Db, c: ClaimedJob, worker: WorkerId, embedded: nat, vectors: nat): Result<Db, StoreError> {
    if !HeldWithTarget(db, c, worker) || !OwnsBuild(db, TargetSlot(db, c), c.job, Building) then Failure(ActivationRace)
    else
      var slot := TargetSlot(db, c);
      Success(db.(builds := db.builds[slot := db.builds[slot].(embeddedChunks := embedded, vectorCount := vectors)]))
  }

  /** What a build needs before it may become ready, and again before it may become active. */
  predicate Publishable(b: Build) {
    b.expectedChunks == b.embeddedChunks == b.vectorCount && b.graphValidated
  }

  function MarkBuildReady(db: Db, c: ClaimedJob, worker: WorkerId): Result<Db, StoreError> {
    if !HeldWithTarget(db, c, worker) then Failure(ActivationRace)
    else
      var slot := TargetSlot(db, c);
      if !OwnsBuild(db, slot, c.job, Building) || !Publishable(db.builds[slot]) then Failure(VectorCountMismatch)
      else Success(db.(builds := db.builds[slot := db.builds[slot].(state := Ready)]))
  }

  // ---------------------------------------------------------------- activation

  predicate PreviousActive(db: Db, r: RepositoryId, version: nat) {
    Slot(r, version) in db.builds && db.builds[Slot(r, version)].state.Active?
  }

  predicate CanActivate(db: Db, c: ClaimedJob, worker: WorkerId, commit: Commit) {
    && HeldWithTarget(db, c, worker)
    && db.jobs[c.job].repository in db.repositories
    && var job := db.jobs[c.job];
       var repository := db.repositories[job.repository];
       var slot := Slot(job.repository, job.targetVersion.value);
       && repository.indexVersion + 1 == slot.version
       && Fresh(job, repository)
       && OwnsBuild(db, slot, c.job, Ready) && db.builds[slot].commit == commit && Publishable(db.builds[slot])
       && (repository.indexVersion > 0 && repository.activeVectorCount != 0 ==>
             PreviousActive(db, job.repository, repository.indexVersion))
  }

  /** On success the version that was active before. */
  function Activate(db: Db, c: ClaimedJob, worker: WorkerId, commit: Commit, now: Time): Result<(Db, nat), StoreError> {
    if !CanActivate(db, c, worker, commit) then Failure(ActivationRace)
    else
      var job := db.jobs[c.job];
      var r := job.repository;
      var repository := db.repositories[r];
      var previous := repository.indexVersion;
      var slot := Slot(r, job.targetVersion.value);
      var builds := if previous > 0 && PreviousActive(db, r, previous)
                    then db.builds[Slot(r, previous) :=
                           db.builds[Slot(r, previous)].(state := Superseded, cleanup := CleanupStatus.Pending)]
                    else db.builds;
      Success((db.(
        builds := builds[slot := builds[slot].(state := Active, cleanup := NotRequired)],
        repositories := db.repositories[r := repository.(
          indexVersion := slot.version, lastIndexedCommit := Some(commit), remoteCommit := Some(commit),
          indexedBranch := Some(repository.defaultBranch), activeVectorCount := builds[slot].vectorCount)],
        jobs := db.jobs[c.job := job.(status := JobStatus.Complete, targetCommit := Some(commit),
                                      heartbeatAt := Some(now), lockedBy := None)]),
        previous))
  }

  // ---------------------------------------------------------------- cleanup

  predicate CanCleanupInactive(db: Db, r: RepositoryId, version: nat) {
    r in db.repositories && db.repositories[r].indexVersion != version
  }

  /** Deleting the symbol rows of a version cascades to its edge rows. */
  function RecordFailedBuildCleanup(db: Db, r: RepositoryId, version: nat, cleanupComplete: bool): Db {
    var slot := Slot(r, version);
    if slot !in db.builds || db.builds[slot].state.Active? then db
    else
      db.(builds := db.builds[slot := db.builds[slot].(
            state := BuildFailed, cleanup := if cleanupComplete then Cleaned else CleanupStatus.Pending)],
          graphs := if cleanupComplete then db.graphs - {slot} else db.graphs)
  }

  function CompleteSupersededCleanup(db: Db, r: RepositoryId, version: nat): Result<Db, StoreError> {
    if !CanCleanupInactive(db, r, version) then Failure(ActivationRace)
    else
      var slot := Slot(r, version);
      Success(db.(
        builds := if slot in db.builds && (db.builds[slot].state.Superseded? || db.builds[slot].state.BuildFailed?)
                  then db.builds[slot := db.builds[slot].(cleanup := Cleaned)] else db.builds,
        graphs := db.graphs - {slot}))
  }

  // ---------------------------------------------------------------- job creation

  function AddJob(db: Db, r: RepositoryId, j: JobId, jobType: JobType, mode: Option<Mode>,
                  branch: Option<Branch>, commit: Option<Commit>, now: Time): Db
    requires r in db.repositories
  {
    db.(jobs := db.jobs[j := Job(r, jobType, mode, branch, commit, db.repositories[r].generation, now,
                                 Queued, 0, None, None, None, None, None)])
  }

  function Bump(db: Db, r: RepositoryId): Db
    requires r in db.repositories
  {
    db.(repositories := db.repositories[r := db.repositories[r].(generation := db.repositories[r].generation + 1)])
  }

  predicate Visible(db: Db, r: RepositoryId) {
    r in db.repositories && !db.repositories[r].revoked && !db.repositories[r].deleted
  }

  function NewRepository(branch: Branch, commit: Option<Commit>): Repository {
    Repository(branch, None, 0, 0, None, commit, 0, false, false)
  }

  /** `reindex`; the caller's authorization is checked before the transaction. */
  function Reindex(db: Db, r: RepositoryId, j: JobId, now: Time): Db {
    if r !in db.repositories then db
    else
      var bumped := Bump(db, r);
      AddJob(bumped, r, j, ManualReindex, Some(Full), Some(bumped.repositories[r].defaultBranch),
             bumped.repositories[r].remoteCommit, now)
  }

  predicate HasInitialJob(db: Db, r: RepositoryId) {
    exists j :: j in db.jobs && db.jobs[j].repository == r && db.jobs[j].jobType.InitialIndex?
  }

  /** `select_repository`: one initial job per repository, without a new generation. */
  function SelectRepository(db: Db, r: RepositoryId, j: JobId, now: Time): Db {
    if !Visible(db, r) || HasInitialJob(db, r) then db
    else AddJob(db, r, j, InitialIndex, None, Some(db.repositories[r].defaultBranch), None, now)
  }

  datatype PushEvent = PushEvent(branch: Branch, before: Commit, after: Commit, forced: bool, deleted: bool)

  predicate Unfinished(job: Job) {
    Pending(job) || job.status.Running?
  }

  predicate HasUnfinishedJobFor(db: Db, r: RepositoryId, commit: Commit) {
    exists j :: j in db.jobs && db.jobs[j].repository == r && db.jobs[j].targetCommit == Some(commit) && Unfinished(db.jobs[j])
  }

  const ZERO_COMMIT := "0000000000000000000000000000000000000000"

  predicate NeedsFullRebuild(repository: Repository, e: PushEvent) {
    e.forced || repository.indexVersion == 0 || repository.lastIndexedCommit != Some(e.before)
  }

  /** `_apply_push` for an active installation. */
  function ApplyPush(db: Db, r: RepositoryId, j: JobId, e: PushEvent, now: Time): Db {
    if !Visible(db, r) then db
    else
      var repository := db.repositories[r];
      if e.branch != repository.defaultBranch || e.deleted || e.after == ZERO_COMMIT
         || repository.lastIndexedCommit == Some(e.after) || HasUnfinishedJobFor(db, r, e.after)
      then db
      else
        var bumped := SetRepository(Bump(db, r), r,
                        repository.(generation := repository.generation + 1, remoteCommit := Some(e.after)));
        var full := NeedsFullRebuild(repository, e);
        AddJob(bumped, r, j, if full then FullRebuild else IncrementalReindex,
               Some(if full then Full else Incremental), Some(repository.defaultBranch), Some(e.after), now)
  }

  /** `_apply_repository_metadata` for an active installation. */
  function ApplyRepositoryMetadata(db: Db, r: RepositoryId, j: JobId, branch: Branch, now: Time): Db {
    if !Visible(db, r) then db
    else
      var changed := db.repositories[r].defaultBranch != branch;
      var renamed := SetRepository(db, r, db.repositories[r].(defaultBranch := branch));
      if !changed then renamed
      else AddJob(Bump(renamed, r), r, j, FullRebuild, Some(Full), Some(branch), None, now)
  }

  predicate HasUnfinishedJob(db: Db, r: RepositoryId) {
    exists j :: j in db.jobs && db.jobs[j].repository == r && Unfinished(db.jobs[j])
  }

  predicate AlreadyCurrent(db: Db, r: RepositoryId, commit: Commit)
    requires r in db.repositories
  {
    var slot := Slot(r, db.repositories[r].indexVersion);
    && slot in db.builds && db.builds[slot].state.Active? && db.builds[slot].commit == commit
    && db.repositories[r].lastIndexedCommit == Some(commit)
  }

  /** `_attach`, after its per-user limits: refreshes the row and coalesces with unfinished jobs. */
  function Attach(db: Db, r: RepositoryId, j: JobId, manual: bool, branch: Branch, commit: Commit, now: Time): Db {
    var existing := if r in db.repositories then db.repositories[r] else NewRepository(branch, Some(commit));
    var touched := SetRepository(db, r, existing.(defaultBranch := branch, remoteCommit := Some(commit),
                                                  revoked := false, deleted := false));
    if AlreadyCurrent(touched, r, commit) || HasUnfinishedJob(touched, r) then touched
    else
      AddJob(if manual then Bump(touched, r) else touched, r, j,
             if manual then ManualReindex else InitialIndex, Some(if manual then Incremental else Full),
             Some(branch), Some(commit), now)
  }
}
