/** The tables of the durable indexing protocol. Times are milliseconds. */
module IndexingRows {
  import opened Common
  import CallGraph

  type RepositoryId = nat
  type JobId = nat
  type WorkerId = nat
  type Time = int
  type Commit = string
  type Branch = string

  datatype JobStatus = Queued | Running | Retrying | Complete | Failed | Cancelled

  datatype JobType = InitialIndex | ManualReindex | IncrementalReindex | FullRebuild

  datatype Mode = Incremental | Full

  datatype Job = Job(
    repository: RepositoryId, jobType: JobType, requestedMode: Option<Mode>,
    targetBranch: Option<Branch>, targetCommit: Option<Commit>, generation: nat, createdAt: Time,
    status: JobStatus, attempt: nat, lockedBy: Option<WorkerId>,
    nextAttemptAt: Option<Time>, heartbeatAt: Option<Time>, lastEnqueuedAt: Option<Time>,
    targetVersion: Option<nat>)

  datatype Repository = Repository(
    defaultBranch: Branch, indexedBranch: Option<Branch>, generation: nat,
    indexVersion: nat, lastIndexedCommit: Option<Commit>, remoteCommit: Option<Commit>,
    activeVectorCount: nat, revoked: bool, deleted: bool)

  datatype BuildState = Building | Ready | Active | BuildFailed | Superseded

  datatype CleanupStatus = NotRequired | Pending | Cleaned

  datatype Build = Build(
    owner: Option<JobId>, state: BuildState, cleanup: CleanupStatus, commit: Commit,
    expectedChunks: nat, embeddedChunks: nat, vectorCount: nat,
    graph: CallGraph.GraphSummary, graphValidated: bool)

  datatype Slot = Slot(repository: RepositoryId, version: nat)

  /** Symbol rows (their ids) and edge rows of one index version. */
  datatype GraphRows = GraphRows(symbols: set<string>, edges: set<CallGraph.Edge>)

  datatype Db = Db(
    repositories: map<RepositoryId, Repository>,
    jobs: map<JobId, Job>,
    builds: map<Slot, Build>,
    graphs: map<Slot, GraphRows>)

  const EMPTY_DB := Db(map[], map[], map[], map[])

  datatype Settings = Settings(maxAttempts: nat, abandonedAfter: nat, retryBase: nat, retryMax: nat)

  /** The ranges that the configuration enforces. */
  predicate ValidSettings(s: Settings) {
    s.maxAttempts >= 1 && s.abandonedAfter >= 1 && s.retryBase >= 1 && s.retryMax >= 1
  }

  datatype ClaimedJob = ClaimedJob(job: JobId, repository: RepositoryId, attempt: nat)

  datatype JobContext = JobContext(
    job: JobId, repository: RepositoryId, defaultBranch: Branch, version: nat, generation: nat,
    activeVersion: nat, activeCommit: Option<Commit>, indexedBranch: Option<Branch>, requestedMode: Mode)

  /** What the analyzer hands to `prepare_build`. */
  datatype Processing = Processing(
    repository: RepositoryId, version: nat, commit: Commit, chunkCount: nat,
    symbols: seq<string>, edges: seq<CallGraph.Edge>, graph: CallGraph.GraphSummary)

  datatype StoreError =
    | ActivationRace | ProcessingMismatch | IntegrityViolation | GraphValidationFailed | VectorCountMismatch

  /** An `IndexingError` carries its own flag; any other exception is retried. */
  predicate Retryable(e: StoreError) {
    e.ProcessingMismatch? || e.IntegrityViolation?
  }

  predicate Terminal(s: JobStatus) {
    s.Complete? || s.Failed? || s.Cancelled?
  }
}
