/**
 * The invariant of the tables, the order in which they may evolve, and the proof that every
 * transaction keeps the one and follows the other, whoever runs it.
 */
module IndexingInvariants {
  import opened Common
  import opened IndexingRows
  import opened T = IndexingTransitions
  import CallGraph
  import CallGraphTheorems

  // ---------------------------------------------------------------- the invariant

  /** `m` is the maximum number of attempts; `repository` is the row of the job's repository. */
  ghost predicate JobOk(m: nat, job: Job, repository: Repository) {
    && job.generation <= repository.generation
    && job.attempt <= m
    && (job.status.Queued? ==> job.attempt == 0)
    && (job.status.Retrying? ==> 1 <= job.attempt < m)
    && (job.status.Running? ==> 1 <= job.attempt && job.lockedBy.Some? && job.heartbeatAt.Some?)
    && (job.lockedBy.Some? ==> job.status.Running?)
    && (job.targetVersion.Some? ==> 1 <= job.targetVersion.value <= repository.indexVersion + 1)
    && (job.status.Complete? ==> job.targetVersion.Some? && job.targetVersion.value <= repository.indexVersion)
  }

  ghost predicate JobsOk(m: nat, db: Db) {
    forall j :: j in db.jobs ==>
      && db.jobs[j].repository in db.repositories
      && JobOk(m, db.jobs[j], db.repositories[db.jobs[j].repository])
  }

  ghost predicate OneRunning(db: Db) {
    forall j, k :: j in db.jobs && k in db.jobs && db.jobs[j].status.Running? && db.jobs[k].status.Running?
                   && db.jobs[j].repository == db.jobs[k].repository
                   ==> j == k
  }

  /** The state of a build against the indexed version `n` of its repository. */
  ghost predicate StateOk(b: Build, version: nat, n: nat) {
    && 1 <= version <= n + 1
    && (b.state.Active? <==> version == n)
    && (b.state.Superseded? ==> version < n)
    && (b.state.Building? || b.state.Ready? ==> version == n + 1)
    && (b.state.Active? ==> b.cleanup.NotRequired?)
    && (b.state.Active? || b.state.Ready? ==> Publishable(b))
  }

  /** A build belongs to a job of its repository whose target is its version. */
  ghost predicate OwnerOk(b: Build, slot: Slot, jobs: map<JobId, Job>) {
    && b.owner.Some? && b.owner.value in jobs
    && jobs[b.owner.value].repository == slot.repository
    && jobs[b.owner.value].targetVersion == Some(slot.version)
  }

  ghost predicate BuildsOk(db: Db) {
    forall slot :: slot in db.builds ==>
      && slot.repository in db.repositories
      && StateOk(db.builds[slot], slot.version, db.repositories[slot.repository].indexVersion)
      && OwnerOk(db.builds[slot], slot, db.jobs)
  }

  /** However the stored rows of a commit are read, they give the counts and fingerprint of the build. */
  ghost predicate Reproduces(rows: GraphRows, b: Build) {
    forall read :: CallGraphTheorems.OrderedRead(read, EdgesAt(rows, b.commit)) ==> CallGraph.Summarize(read) == b.graph
  }

  predicate Validated(b: Build) {
    b.graphValidated && (b.state.Building? || b.state.Ready? || b.state.Active?)
  }

  ghost predicate GraphsMatch(db: Db) {
    forall slot :: slot in db.builds && Validated(db.builds[slot]) ==> Reproduces(RowsAt(db, slot), db.builds[slot])
  }

  /** Unique and foreign keys of the stored rows. */
  ghost predicate KeysOk(rows: GraphRows) {
    && CallGraphTheorems.UniqueSites(rows.edges)
    && (forall e :: e in rows.edges ==> e.caller in rows.symbols && (e.callee.Some? ==> e.callee.value in rows.symbols))
  }

  ghost predicate RowsOk(db: Db) {
    forall slot :: slot in db.graphs ==> slot in db.builds && KeysOk(db.graphs[slot])
  }

  /** The active build is the indexed version, and the repository row repeats its commit and count. */
  ghost predicate RepositoryOk(r: RepositoryId, repository: Repository, builds: map<Slot, Build>) {
    var slot := Slot(r, repository.indexVersion);
    && (repository.indexVersion == 0 ==> repository.lastIndexedCommit == None && repository.activeVectorCount == 0)
    && (repository.indexVersion > 0 ==>
          && slot in builds
          && repository.lastIndexedCommit == Some(builds[slot].commit)
          && repository.activeVectorCount == builds[slot].vectorCount)
    && (forall v :: 1 <= v <= repository.indexVersion ==> Slot(r, v) in builds)
  }

  ghost predicate RepositoriesOk(db: Db) {
    forall r :: r in db.repositories ==> RepositoryOk(r, db.repositories[r], db.builds)
  }

  ghost predicate Inv(m: nat, db: Db) {
    && JobsOk(m, db) && OneRunning(db)
    && BuildsOk(db) && GraphsMatch(db) && RowsOk(db) && RepositoriesOk(db)
  }

  // ---------------------------------------------------------------- evolution

  /** Drops on every claim and on every return to the retrying state. */
  function Rank(m: nat, job: Job): int {
    2 * (m - job.attempt) + if job.status.Running? then 1 else 0
  }

  ghost predicate JobEvolves(m: nat, a: Job, b: Job) {
    && (a.repository, a.jobType, a.generation, a.createdAt, a.targetBranch)
       == (b.repository, b.jobType, b.generation, b.createdAt, b.targetBranch)
    && (a.targetVersion.Some? ==> b.targetVersion == a.targetVersion)
    && a.attempt <= b.attempt
    && Rank(m, b) <= Rank(m, a)
    && (Terminal(a.status) ==> b.status == a.status && b.attempt == a.attempt && b.targetVersion == a.targetVersion)
  }

  ghost predicate JobsEvolve(m: nat, a: Db, b: Db) {
    forall j :: j in a.jobs ==> j in b.jobs && JobEvolves(m, a.jobs[j], b.jobs[j])
  }

  ghost predicate RepositoriesGrow(a: Db, b: Db) {
    forall r :: r in a.repositories ==>
      && r in b.repositories
      && a.repositories[r].generation <= b.repositories[r].generation
      && a.repositories[r].indexVersion <= b.repositories[r].indexVersion
  }

  ghost predicate OwnersKept(a: Db, b: Db) {
    forall slot :: slot in a.builds ==> slot in b.builds && b.builds[slot].owner == a.builds[slot].owner
  }

  ghost predicate SameSlot(a: Db, b: Db, slot: Slot)
    requires slot in a.builds
  {
    slot in b.builds && b.builds[slot] == a.builds[slot] && RowsAt(a, slot) == RowsAt(b, slot)
  }

  predicate Serves(db: Db, slot: Slot) {
    slot.repository in db.repositories && db.repositories[slot.repository].indexVersion == slot.version
  }

  /** While a version is served, its build row and its graph rows do not change. */
  ghost predicate ServedKept(a: Db, b: Db) {
    forall slot :: slot in a.builds && Serves(a, slot) && Serves(b, slot) ==> SameSlot(a, b, slot)
  }

  ghost predicate Evolves(m: nat, a: Db, b: Db) {
    RepositoriesGrow(a, b) && JobsEvolve(m, a, b) && OwnersKept(a, b) && ServedKept(a, b)
  }

  lemma JobsEvolveTransitive(m: nat, a: Db, b: Db, c: Db)
    requires JobsEvolve(m, a, b) && JobsEvolve(m, b, c)
    ensures JobsEvolve(m, a, c)
  {
    forall j | j in a.jobs ensures j in c.jobs && JobEvolves(m, a.jobs[j], c.jobs[j]) {
      assert JobEvolves(m, a.jobs[j], b.jobs[j]);
      assert JobEvolves(m, b.jobs[j], c.jobs[j]);
    }
  }

  lemma EvolvesTransitive(m: nat, a: Db, b: Db, c: Db)
    requires Evolves(m, a, b) && Evolves(m, b, c)
    ensures Evolves(m, a, c)
  {
    JobsEvolveTransitive(m, a, b, c);
    assert RepositoriesGrow(a, c);
    assert OwnersKept(a, c);
    forall slot | slot in a.builds && Serves(a, slot) && Serves(c, slot) ensures SameSlot(a, c, slot) {
      assert Serves(b, slot);
      assert SameSlot(a, b, slot);
      assert SameSlot(b, c, slot);
    }
  }

  // ---------------------------------------------------------------- transactions outside the builds

  /** Existing repositories keep the columns of the served version; new ones have none. */
  ghost predicate VersionsKept(a: Db, b: Db) {
    && (forall r :: r in a.repositories ==>
          && r in b.repositories
          && a.repositories[r].generation <= b.repositories[r].generation
          && (a.repositories[r].indexVersion, a.repositories[r].lastIndexedCommit, a.repositories[r].activeVectorCount)
             == (b.repositories[r].indexVersion, b.repositories[r].lastIndexedCommit, b.repositories[r].activeVectorCount))
    && (forall r :: r in b.repositories && r !in a.repositories ==>
          && b.repositories[r].indexVersion == 0 && b.repositories[r].lastIndexedCommit == None
          && b.repositories[r].activeVectorCount == 0)
  }

  lemma OutsideBuildsRepositories(a: Db, b: Db)
    requires RepositoriesOk(a) && a.builds == b.builds && VersionsKept(a, b)
    ensures RepositoriesOk(b)
  {
    forall r | r in b.repositories ensures RepositoryOk(r, b.repositories[r], b.builds) {
      if r in a.repositories { assert RepositoryOk(r, a.repositories[r], a.builds); }
    }
  }

  lemma OutsideBuildsState(m: nat, a: Db, b: Db)
    requires BuildsOk(a) && a.builds == b.builds && VersionsKept(a, b) && JobsEvolve(m, a, b)
    ensures BuildsOk(b)
  {
    forall slot | slot in b.builds
      ensures slot.repository in b.repositories
           && StateOk(b.builds[slot], slot.version, b.repositories[slot.repository].indexVersion)
           && OwnerOk(b.builds[slot], slot, b.jobs)
    {
      assert OwnerOk(a.builds[slot], slot, a.jobs);
      var j := a.builds[slot].owner.value;
      assert JobEvolves(m, a.jobs[j], b.jobs[j]);
    }
  }

  /** A transaction that leaves builds and rows alone keeps everything said about them. */
  lemma OutsideBuilds(m: nat, a: Db, b: Db)
    requires BuildsOk(a) && GraphsMatch(a) && RowsOk(a) && RepositoriesOk(a)
    requires a.builds == b.builds && a.graphs == b.graphs && VersionsKept(a, b) && JobsEvolve(m, a, b)
    ensures BuildsOk(b) && GraphsMatch(b) && RowsOk(b) && RepositoriesOk(b) && Evolves(m, a, b)
  {
    assert GraphsMatch(b) by {
      forall slot | slot in b.builds && Validated(b.builds[slot]) ensures Reproduces(RowsAt(b, slot), b.builds[slot]) {
        assert RowsAt(b, slot) == RowsAt(a, slot);
      }
    }
    assert BuildsOk(b) by { OutsideBuildsState(m, a, b); }
    OutsideBuildsRepositories(a, b);
    hide BuildsOk, GraphsMatch, RepositoriesOk, JobsEvolve;
  }

  lemma JobsStayOk(m: nat, a: Db, b: Db)
    requires JobsOk(m, a) && a.jobs == b.jobs && RepositoriesGrow(a, b)
    ensures JobsOk(m, b)
  {
    forall j | j in b.jobs
      ensures b.jobs[j].repository in b.repositories && JobOk(m, b.jobs[j], b.repositories[b.jobs[j].repository])
    {
      assert JobOk(m, a.jobs[j], a.repositories[a.jobs[j].repository]);
    }
  }

  /** A job row may change in any way that keeps it legal and follows the order. */
  ghost predicate JobChange(m: nat, db: Db, j: JobId, job: Job) {
    && j in db.jobs && JobEvolves(m, db.jobs[j], job)
    && job.repository in db.repositories && JobOk(m, job, db.repositories[job.repository])
    && (job.status.Running? ==> db.jobs[j].status.Running? || !RepositoryBusy(db, job.repository))
  }

  lemma JobEvolvesReflexive(m: nat, job: Job)
    ensures JobEvolves(m, job, job)
  {
  }

  lemma OneRunningAfter(db: Db, j: JobId, job: Job)
    requires OneRunning(db) && j in db.jobs && job.repository == db.jobs[j].repository
    requires job.status.Running? ==> db.jobs[j].status.Running? || !RepositoryBusy(db, job.repository)
    ensures OneRunning(db.(jobs := db.jobs[j := job]))
  {
  }

  lemma JobChangeKeeps(m: nat, db: Db, j: JobId, job: Job)
    requires Inv(m, db) && JobChange(m, db, j, job)
    ensures Inv(m, db.(jobs := db.jobs[j := job])) && Evolves(m, db, db.(jobs := db.jobs[j := job]))
  {
    var db' := db.(jobs := db.jobs[j := job]);
    assert JobsEvolve(m, db, db') by {
      forall k | k in db.jobs ensures JobEvolves(m, db.jobs[k], db'.jobs[k]) { JobEvolvesReflexive(m, db.jobs[k]); }
    }
    OutsideBuilds(m, db, db');
    assert JobsOk(m, db');
    assert OneRunning(db') by { OneRunningAfter(db, j, job); }
  }

  lemma ClaimKeeps(s: Settings, db: Db, j: JobId, worker: WorkerId, now: Time)
    requires ValidSettings(s) && Inv(s.maxAttempts, db)
    ensures Inv(s.maxAttempts, Claim(db, j, worker, now).0) && Evolves(s.maxAttempts, db, Claim(db, j, worker, now).0)
  {
    var (db', claimed) := Claim(db, j, worker, now);
    if claimed.Some? {
      JobChangeKeeps(s.maxAttempts, db, j, db'.jobs[j]);
    }
  }

  lemma ContextKeeps(m: nat, db: Db, c: ClaimedJob, membership: bool)
    requires Inv(m, db)
    ensures Inv(m, AuthorizedContext(db, c, membership).0) && Evolves(m, db, AuthorizedContext(db, c, membership).0)
  {
    var (db', context) := AuthorizedContext(db, c, membership);
    if context.Some? {
      JobChangeKeeps(m, db, c.job, db'.jobs[c.job]);
    }
  }

  lemma HeartbeatKeeps(m: nat, db: Db, c: ClaimedJob, worker: WorkerId, now: Time)
    requires Inv(m, db)
    ensures Inv(m, Heartbeat(db, c, worker, now)) && Evolves(m, db, Heartbeat(db, c, worker, now))
  {
    if Held(db, c, worker) {
      JobChangeKeeps(m, db, c.job, Heartbeat(db, c, worker, now).jobs[c.job]);
    }
  }

  lemma CancelKeeps(m: nat, db: Db, c: ClaimedJob, worker: WorkerId, now: Time)
    requires Inv(m, db)
    ensures Inv(m, Cancel(db, c, worker, now)) && Evolves(m, db, Cancel(db, c, worker, now))
  {
    if Held(db, c, worker) {
      JobChangeKeeps(m, db, c.job, Cancel(db, c, worker, now).jobs[c.job]);
    }
  }

  /** `fail` decides on the attempt of the claim; the caller must hold the current claim. */
  lemma FailKeeps(s: Settings, db: Db, c: ClaimedJob, worker: WorkerId, retryable: bool, now: Time, jitter: nat)
    requires Inv(s.maxAttempts, db)
    requires Held(db, c, worker) ==> c.attempt == db.jobs[c.job].attempt
    ensures Inv(s.maxAttempts, Fail(s, db, c, worker, retryable, now, jitter))
    ensures Evolves(s.maxAttempts, db, Fail(s, db, c, worker, retryable, now, jitter))
  {
    if Held(db, c, worker) {
      JobChangeKeeps(s.maxAttempts, db, c.job, Fail(s, db, c, worker, retryable, now, jitter).jobs[c.job]);
    }
  }

  lemma EnqueueKeeps(m: nat, db: Db, j: JobId, now: Time)
    requires Inv(m, db)
    ensures Inv(m, RecordEnqueue(db, j, now)) && Evolves(m, db, RecordEnqueue(db, j, now))
  {
    if j in db.jobs {
      JobChangeKeeps(m, db, j, RecordEnqueue(db, j, now).jobs[j]);
    }
  }

  lemma Unchanged(m: nat, db: Db)
    ensures Evolves(m, db, db)
  {
  }

  lemma MarkEnqueuedKeeps(m: nat, db: Db, j: JobId, now: Time)
    requires Inv(m, db)
    ensures Inv(m, MarkEnqueued(db, j, now)) && Evolves(m, db, MarkEnqueued(db, j, now))
  {
    EnqueueKeeps(m, db, j, now);
    Unchanged(m, db);
    assert MarkEnqueued(db, j, now) == db || MarkEnqueued(db, j, now) == RecordEnqueue(db, j, now);
  }

  lemma RecoveredJobOk(s: Settings, job: Job, now: Time, repository: Repository)
    requires JobOk(s.maxAttempts, job, repository)
    ensures Abandoned(s, job, now) ==>
              && JobOk(s.maxAttempts, Recovered(s, job, now), repository)
              && JobEvolves(s.maxAttempts, job, Recovered(s, job, now))
              && Rank(s.maxAttempts, Recovered(s, job, now)) < Rank(s.maxAttempts, job)
  {
  }

  lemma RecoverKeeps(s: Settings, db: Db, now: Time)
    requires Inv(s.maxAttempts, db)
    ensures Inv(s.maxAttempts, RecoverAbandoned(s, db, now)) && Evolves(s.maxAttempts, db, RecoverAbandoned(s, db, now))
  {
    var m := s.maxAttempts;
    var db' := RecoverAbandoned(s, db, now);
    assert JobsEvolve(m, db, db') && JobsOk(m, db') by {
      forall j | j in db.jobs
        ensures JobEvolves(m, db.jobs[j], db'.jobs[j]) && db'.jobs[j].repository in db'.repositories
             && JobOk(m, db'.jobs[j], db'.repositories[db'.jobs[j].repository])
      {
        RecoveredJobOk(s, db.jobs[j], now, db.repositories[db.jobs[j].repository]);
        JobEvolvesReflexive(m, db.jobs[j]);
      }
    }
    OutsideBuilds(m, db, db');
    hide BuildsOk, GraphsMatch, RowsOk, RepositoriesOk, Evolves, JobsOk;
    assert OneRunning(db');
  }

  // ---------------------------------------------------------------- job creation

  lemma RepositoryChangeKeeps(m: nat, db: Db, r: RepositoryId, repository: Repository)
    requires Inv(m, db) && VersionsKept(db, SetRepository(db, r, repository))
    ensures Inv(m, SetRepository(db, r, repository)) && Evolves(m, db, SetRepository(db, r, repository))
  {
    var db' := SetRepository(db, r, repository);
    assert JobsEvolve(m, db, db') by {
      forall k | k in db.jobs ensures JobEvolves(m, db.jobs[k], db'.jobs[k]) { JobEvolvesReflexive(m, db.jobs[k]); }
    }
    OutsideBuilds(m, db, db');
    JobsStayOk(m, db, db');
    assert OneRunning(db');
  }

  lemma AddJobJobs(m: nat, db: Db, r: RepositoryId, j: JobId, jobType: JobType, mode: Option<Mode>,
                   branch: Option<Branch>, commit: Option<Commit>, now: Time)
    requires JobsOk(m, db) && OneRunning(db) && r in db.repositories && j !in db.jobs
    ensures JobsOk(m, AddJob(db, r, j, jobType, mode, branch, commit, now))
    ensures OneRunning(AddJob(db, r, j, jobType, mode, branch, commit, now))
  {
  }

  lemma AddJobKeeps(m: nat, db: Db, r: RepositoryId, j: JobId, jobType: JobType, mode: Option<Mode>,
                    branch: Option<Branch>, commit: Option<Commit>, now: Time)
    requires Inv(m, db) && r in db.repositories && j !in db.jobs
    ensures Inv(m, AddJob(db, r, j, jobType, mode, branch, commit, now))
    ensures Evolves(m, db, AddJob(db, r, j, jobType, mode, branch, commit, now))
  {
    var db' := AddJob(db, r, j, jobType, mode, branch, commit, now);
    assert JobsEvolve(m, db, db') by {
      forall k | k in db.jobs ensures JobEvolves(m, db.jobs[k], db'.jobs[k]) { JobEvolvesReflexive(m, db.jobs[k]); }
    }
    AddJobJobs(m, db, r, j, jobType, mode, branch, commit, now);
    hide BuildsOk, GraphsMatch, RowsOk, RepositoriesOk, Evolves, JobsEvolve, JobsOk, OneRunning;
    OutsideBuilds(m, db, db');
  }

  /** Every job creator rewrites at most the repository row and then adds at most one new job. */
  lemma RowThenJobKeeps(m: nat, db: Db, r: RepositoryId, row: Repository, j: JobId, jobType: JobType, mode: Option<Mode>,
                        branch: Option<Branch>, commit: Option<Commit>, now: Time)
    requires Inv(m, db) && VersionsKept(db, SetRepository(db, r, row)) && j !in db.jobs
    ensures var db' := AddJob(SetRepository(db, r, row), r, j, jobType, mode, branch, commit, now);
            Inv(m, db') && Evolves(m, db, db')
  {
    var middle := SetRepository(db, r, row);
    RepositoryChangeKeeps(m, db, r, row);
    AddJobKeeps(m, middle, r, j, jobType, mode, branch, commit, now);
    EvolvesTransitive(m, db, middle, AddJob(middle, r, j, jobType, mode, branch, commit, now));
  }

  lemma ReindexKeeps(m: nat, db: Db, r: RepositoryId, j: JobId, now: Time)
    requires Inv(m, db) && j !in db.jobs
    ensures Inv(m, Reindex(db, r, j, now)) && Evolves(m, db, Reindex(db, r, j, now))
  {
    if r in db.repositories {
      var row := db.repositories[r].(generation := db.repositories[r].generation + 1);
      assert Bump(db, r) == SetRepository(db, r, row) by {}
      RowThenJobKeeps(m, db, r, row, j, ManualReindex, Some(Full), Some(row.defaultBranch), row.remoteCommit, now);
    } else {
      Unchanged(m, db);
    }
  }

  lemma SelectKeeps(m: nat, db: Db, r: RepositoryId, j: JobId, now: Time)
    requires Inv(m, db) && j !in db.jobs
    ensures Inv(m, SelectRepository(db, r, j, now)) && Evolves(m, db, SelectRepository(db, r, j, now))
  {
    if Visible(db, r) && !HasInitialJob(db, r) {
      AddJobKeeps(m, db, r, j, InitialIndex, None, Some(db.repositories[r].defaultBranch), None, now);
    } else {
      Unchanged(m, db);
    }
  }

  function PushedRow(repository: Repository, e: PushEvent): Repository {
    repository.(generation := repository.generation + 1, remoteCommit := Some(e.after))
  }

  function PushJob(db: Db, r: RepositoryId, j: JobId, e: PushEvent, now: Time): Db
    requires r in db.repositories
  {
    var full := NeedsFullRebuild(db.repositories[r], e);
    AddJob(SetRepository(db, r, PushedRow(db.repositories[r], e)), r, j,
           if full then FullRebuild else IncrementalReindex, Some(if full then Full else Incremental),
           Some(db.repositories[r].defaultBranch), Some(e.after), now)
  }

  lemma PushShape(db: Db, r: RepositoryId, j: JobId, e: PushEvent, now: Time)
    requires ApplyPush(db, r, j, e, now) != db
    ensures r in db.repositories && ApplyPush(db, r, j, e, now) == PushJob(db, r, j, e, now)
  {
    var row := PushedRow(db.repositories[r], e);
    assert SetRepository(Bump(db, r), r, row) == SetRepository(db, r, row);
  }

  lemma PushJobKeeps(m: nat, db: Db, r: RepositoryId, j: JobId, e: PushEvent, now: Time)
    requires Inv(m, db) && j !in db.jobs && r in db.repositories
    ensures Inv(m, PushJob(db, r, j, e, now)) && Evolves(m, db, PushJob(db, r, j, e, now))
  {
    var full := NeedsFullRebuild(db.repositories[r], e);
    RowThenJobKeeps(m, db, r, PushedRow(db.repositories[r], e), j, if full then FullRebuild else IncrementalReindex,
                    Some(if full then Full else Incremental), Some(db.repositories[r].defaultBranch), Some(e.after), now);
  }

  lemma PushKeeps(m: nat, db: Db, r: RepositoryId, j: JobId, e: PushEvent, now: Time)
    requires Inv(m, db) && j !in db.jobs
    ensures Inv(m, ApplyPush(db, r, j, e, now)) && Evolves(m, db, ApplyPush(db, r, j, e, now))
  {
    if ApplyPush(db, r, j, e, now) == db {
      Unchanged(m, db);
    } else {
      PushShape(db, r, j, e, now);
      hide Inv, Evolves, ApplyPush;
      PushJobKeeps(m, db, r, j, e, now);
    }
  }

  lemma RowVersionsKept(db: Db, r: RepositoryId, row: Repository)
    requires r in db.repositories && db.repositories[r].generation <= row.generation
    requires (row.indexVersion, row.lastIndexedCommit, row.activeVectorCount)
             == (db.repositories[r].indexVersion, db.repositories[r].lastIndexedCommit, db.repositories[r].activeVectorCount)
    ensures VersionsKept(db, SetRepository(db, r, row))
  {
  }

  lemma MetadataShape(db: Db, r: RepositoryId, j: JobId, branch: Branch, now: Time)
    requires Visible(db, r)
    ensures var row := db.repositories[r].(defaultBranch := branch);
            ApplyRepositoryMetadata(db, r, j, branch, now)
            == if db.repositories[r].defaultBranch == branch then SetRepository(db, r, row)
               else AddJob(SetRepository(db, r, row.(generation := row.generation + 1)), r, j, FullRebuild, Some(Full),
                           Some(branch), None, now)
  {
    var row := db.repositories[r].(defaultBranch := branch);
    assert Bump(SetRepository(db, r, row), r) == SetRepository(db, r, row.(generation := row.generation + 1));
  }

  lemma MetadataKeeps(m: nat, db: Db, r: RepositoryId, j: JobId, branch: Branch, now: Time)
    requires Inv(m, db) && j !in db.jobs
    ensures Inv(m, ApplyRepositoryMetadata(db, r, j, branch, now))
    ensures Evolves(m, db, ApplyRepositoryMetadata(db, r, j, branch, now))
  {
    if Visible(db, r) {
      hide Inv, Evolves, ApplyRepositoryMetadata, AddJob, SetRepository, VersionsKept;
      var row := db.repositories[r].(defaultBranch := branch);
      var bumped := row.(generation := row.generation + 1);
      RowVersionsKept(db, r, row);
      RowVersionsKept(db, r, bumped);
      MetadataShape(db, r, j, branch, now);
      if db.repositories[r].defaultBranch == branch {
        RepositoryChangeKeeps(m, db, r, row);
      } else {
        RowThenJobKeeps(m, db, r, bumped, j, FullRebuild, Some(Full), Some(branch), None, now);
      }
    } else {
      Unchanged(m, db);
    }
  }

  /** The repository row that `_attach` writes before it decides on a job. */
  function Attached(db: Db, r: RepositoryId, branch: Branch, commit: Commit): Repository {
    (if r in db.repositories then db.repositories[r] else NewRepository(branch, Some(commit))).(
      defaultBranch := branch, remoteCommit := Some(commit), revoked := false, deleted := false)
  }

  lemma AttachShape(db: Db, r: RepositoryId, j: JobId, manual: bool, branch: Branch, commit: Commit, now: Time)
    ensures var row := Attached(db, r, branch, commit);
            || Attach(db, r, j, manual, branch, commit, now) == SetRepository(db, r, row)
            || Attach(db, r, j, manual, branch, commit, now)
               == AddJob(SetRepository(db, r, if manual then row.(generation := row.generation + 1) else row), r, j,
                         if manual then ManualReindex else InitialIndex, Some(if manual then Incremental else Full),
                         Some(branch), Some(commit), now)
  {
    var row := Attached(db, r, branch, commit);
    assert Bump(SetRepository(db, r, row), r) == SetRepository(db, r, row.(generation := row.generation + 1));
  }

  lemma AttachKeeps(m: nat, db: Db, r: RepositoryId, j: JobId, manual: bool, branch: Branch, commit: Commit, now: Time)
    requires Inv(m, db) && j !in db.jobs
    ensures Inv(m, Attach(db, r, j, manual, branch, commit, now))
    ensures Evolves(m, db, Attach(db, r, j, manual, branch, commit, now))
  {
    var row := Attached(db, r, branch, commit);
    AttachShape(db, r, j, manual, branch, commit, now);
    hide Inv, Evolves, Attach;
    RepositoryChangeKeeps(m, db, r, row);
    RowThenJobKeeps(m, db, r, if manual then row.(generation := row.generation + 1) else row, j,
                    if manual then ManualReindex else InitialIndex, Some(if manual then Incremental else Full),
                    Some(branch), Some(commit), now);
  }

  lemma StageKeeps(m: nat, db: Db, c: ClaimedJob, worker: WorkerId, commit: Option<Commit>, now: Time)
    requires Inv(m, db)
    ensures Inv(m, Stage(db, c, worker, commit, now)) && Evolves(m, db, Stage(db, c, worker, commit, now))
  {
    hide Inv, Evolves;
    HeartbeatKeeps(m, db, c, worker, now);
    if Held(db, c, worker) && commit.Some? && db.jobs[c.job].repository in db.repositories {
      var beaten := Heartbeat(db, c, worker, now);
      var r := db.jobs[c.job].repository;
      RepositoryChangeKeeps(m, beaten, r, beaten.repositories[r].(remoteCommit := commit));
      EvolvesTransitive(m, db, beaten, Stage(db, c, worker, commit, now));
    }
  }

  // ---------------------------------------------------------------- builds

  /** One build and its rows change in a slot that is not served; everything else is untouched. */
  ghost predicate SlotChange(a: Db, b: Db, slot: Slot) {
    && a.jobs == b.jobs && a.repositories == b.repositories
    && slot in a.builds && slot in b.builds && !a.builds[slot].state.Active?
    && a.builds == b.builds[slot := a.builds[slot]]
    && b.builds[slot].owner == a.builds[slot].owner
    && (forall other :: other != slot ==> RowsAt(a, other) == RowsAt(b, other))
    && b.graphs.Keys <= a.graphs.Keys && (slot in b.graphs ==> b.graphs[slot] == a.graphs[slot])
  }

  lemma SlotChangeRepositories(a: Db, b: Db, slot: Slot)
    requires BuildsOk(a) && RepositoriesOk(a) && SlotChange(a, b, slot)
    ensures RepositoriesOk(b)
  {
    forall r | r in b.repositories ensures RepositoryOk(r, b.repositories[r], b.builds) {
      assert RepositoryOk(r, a.repositories[r], a.builds);
    }
  }

  lemma SlotChangeServed(a: Db, b: Db, slot: Slot)
    requires BuildsOk(a) && SlotChange(a, b, slot)
    ensures ServedKept(a, b)
  {
    forall other | other in a.builds && Serves(a, other) && Serves(b, other) ensures SameSlot(a, b, other) {
      assert StateOk(a.builds[other], other.version, a.repositories[other.repository].indexVersion);
    }
  }

  lemma SlotChangeBuilds(a: Db, b: Db, slot: Slot)
    requires BuildsOk(a) && RepositoriesOk(a) && SlotChange(a, b, slot)
    requires StateOk(b.builds[slot], slot.version, b.repositories[slot.repository].indexVersion)
    ensures BuildsOk(b) && RepositoriesOk(b) && OwnersKept(a, b) && ServedKept(a, b)
  {
    SlotChangeServed(a, b, slot);
    SlotChangeRepositories(a, b, slot);
    forall other | other in b.builds
      ensures other.repository in b.repositories
           && StateOk(b.builds[other], other.version, b.repositories[other.repository].indexVersion)
           && OwnerOk(b.builds[other], other, b.jobs)
    {
      assert OwnerOk(a.builds[other], other, a.jobs);
    }
  }

  lemma SlotChangeRows(a: Db, b: Db, slot: Slot)
    requires GraphsMatch(a) && RowsOk(a) && SlotChange(a, b, slot)
    requires Validated(b.builds[slot]) ==> Reproduces(RowsAt(b, slot), b.builds[slot])
    ensures GraphsMatch(b) && RowsOk(b)
  {
    forall other | other in b.builds && Validated(b.builds[other]) ensures Reproduces(RowsAt(b, other), b.builds[other]) {
      if other != slot { assert RowsAt(a, other) == RowsAt(b, other) && b.builds[other] == a.builds[other]; }
    }
    forall other | other in b.graphs ensures other in b.builds && KeysOk(b.graphs[other]) {
      assert other in a.graphs;
      if other != slot { assert RowsAt(a, other) == RowsAt(b, other); }
    }
  }

  lemma SlotChangeKeeps(m: nat, a: Db, b: Db, slot: Slot)
    requires Inv(m, a) && SlotChange(a, b, slot)
    requires StateOk(b.builds[slot], slot.version, b.repositories[slot.repository].indexVersion)
    requires Validated(b.builds[slot]) ==> Reproduces(RowsAt(b, slot), b.builds[slot])
    ensures Inv(m, b) && Evolves(m, a, b)
  {
    SlotChangeBuilds(a, b, slot);
    SlotChangeRows(a, b, slot);
    assert JobsEvolve(m, a, b) by {
      forall k | k in a.jobs ensures JobEvolves(m, a.jobs[k], b.jobs[k]) { JobEvolvesReflexive(m, a.jobs[k]); }
    }
  }

  /** The read that matched is the only ordered read of the stored rows, so it settles every read. */
  lemma OneReadSettlesGraph(rows: GraphRows, b: Build, read: seq<CallGraph.Edge>)
    requires CallGraphTheorems.UniqueSites(rows.edges)
    requires CallGraphTheorems.OrderedRead(read, EdgesAt(rows, b.commit)) && CallGraph.Summarize(read) == b.graph
    ensures Reproduces(rows, b)
  {
    forall other | CallGraphTheorems.OrderedRead(other, EdgesAt(rows, b.commit)) ensures CallGraph.Summarize(other) == b.graph {
      CallGraphTheorems.ReadIsUnique(read, other, EdgesAt(rows, b.commit));
    }
  }

  lemma RowsAtKeysOk(db: Db, slot: Slot)
    requires RowsOk(db)
    ensures KeysOk(RowsAt(db, slot))
  {
  }

  /** A write to the row of a build that is not served, which may also drop the rows of its slot. */
  function SlotWrite(db: Db, slot: Slot, build: Build, drop: bool): Db {
    db.(builds := db.builds[slot := build], graphs := if drop then db.graphs - {slot} else db.graphs)
  }

  lemma SlotWriteIsChange(db: Db, slot: Slot, build: Build, drop: bool)
    requires slot in db.builds && !db.builds[slot].state.Active? && build.owner == db.builds[slot].owner
    ensures SlotChange(db, SlotWrite(db, slot, build, drop), slot)
  {
  }

  lemma SlotWriteKeeps(m: nat, db: Db, slot: Slot, build: Build, drop: bool)
    requires Inv(m, db) && slot in db.builds && !db.builds[slot].state.Active? && build.owner == db.builds[slot].owner
    requires StateOk(build, slot.version, db.repositories[slot.repository].indexVersion)
    requires Validated(build) ==> !drop && Reproduces(RowsAt(db, slot), build)
    ensures Inv(m, SlotWrite(db, slot, build, drop)) && Evolves(m, db, SlotWrite(db, slot, build, drop))
  {
    SlotWriteIsChange(db, slot, build, drop);
    SlotChangeKeeps(m, db, SlotWrite(db, slot, build, drop), slot);
  }

  /** What the guarded build writes know about the build they address. */
  lemma SlotFacts(m: nat, db: Db, slot: Slot)
    requires Inv(m, db) && slot in db.builds
    ensures slot.repository in db.repositories
    ensures StateOk(db.builds[slot], slot.version, db.repositories[slot.repository].indexVersion)
    ensures Validated(db.builds[slot]) ==> Reproduces(RowsAt(db, slot), db.builds[slot])
  {
  }

  lemma ValidateKeeps(m: nat, db: Db, c: ClaimedJob, worker: WorkerId, rows: seq<CallGraph.Edge>)
    requires Inv(m, db) && ValidationRead(db, c, rows)
    ensures var r := ValidateGraph(db, c, worker, rows); r.Success? ==> Inv(m, r.value) && Evolves(m, db, r.value)
  {
    if ValidateGraph(db, c, worker, rows).Success? {
      var slot := TargetSlot(db, c);
      var build := db.builds[slot].(graphValidated := true);
      SlotFacts(m, db, slot);
      RowsAtKeysOk(db, slot);
      OneReadSettlesGraph(RowsAt(db, slot), build, rows);
      SlotWriteKeeps(m, db, slot, build, false);
    }
  }

  lemma SameReproduction(rows: GraphRows, a: Build, b: Build)
    requires a.commit == b.commit && a.graph == b.graph && Reproduces(rows, a)
    ensures Reproduces(rows, b)
  {
  }

  lemma RecordCountsKeeps(m: nat, db: Db, c: ClaimedJob, worker: WorkerId, embedded: nat, vectors: nat)
    requires Inv(m, db)
    ensures var r := RecordVectorCounts(db, c, worker, embedded, vectors); r.Success? ==> Inv(m, r.value) && Evolves(m, db, r.value)
  {
    if RecordVectorCounts(db, c, worker, embedded, vectors).Success? {
      var slot := TargetSlot(db, c);
      var build := db.builds[slot].(embeddedChunks := embedded, vectorCount := vectors);
      SlotFacts(m, db, slot);
      if Validated(build) { SameReproduction(RowsAt(db, slot), db.builds[slot], build); }
      SlotWriteKeeps(m, db, slot, build, false);
    }
  }

  lemma MarkReadyKeeps(m: nat, db: Db, c: ClaimedJob, worker: WorkerId)
    requires Inv(m, db)
    ensures var r := MarkBuildReady(db, c, worker); r.Success? ==> Inv(m, r.value) && Evolves(m, db, r.value)
  {
    if MarkBuildReady(db, c, worker).Success? {
      var slot := TargetSlot(db, c);
      var build := db.builds[slot].(state := Ready);
      SlotFacts(m, db, slot);
      SameReproduction(RowsAt(db, slot), db.builds[slot], build);
      SlotWriteKeeps(m, db, slot, build, false);
    }
  }

  lemma FailedCleanupKeeps(m: nat, db: Db, r: RepositoryId, version: nat, cleanupComplete: bool)
    requires Inv(m, db)
    ensures var db' := RecordFailedBuildCleanup(db, r, version, cleanupComplete); Inv(m, db') && Evolves(m, db, db')
  {
    var slot := Slot(r, version);
    if slot in db.builds && !db.builds[slot].state.Active? {
      var build := db.builds[slot].(state := BuildFailed, cleanup := if cleanupComplete then Cleaned else CleanupStatus.Pending);
      SlotFacts(m, db, slot);
      SlotWriteKeeps(m, db, slot, build, cleanupComplete);
    } else {
      Unchanged(m, db);
    }
  }

  lemma SupersededShape(db: Db, r: RepositoryId, version: nat)
    requires CanCleanupInactive(db, r, version)
    ensures var slot := Slot(r, version);
            slot in db.builds ==>
              CompleteSupersededCleanup(db, r, version).value
              == SlotWrite(db, slot, if db.builds[slot].state.Superseded? || db.builds[slot].state.BuildFailed?
                                     then db.builds[slot].(cleanup := Cleaned) else db.builds[slot], true)
    ensures Slot(r, version) !in db.builds && Slot(r, version) !in db.graphs ==>
              CompleteSupersededCleanup(db, r, version).value == db
  {
    var slot := Slot(r, version);
    if slot in db.builds { assert db.builds[slot := db.builds[slot]] == db.builds; }
    if slot !in db.graphs { assert db.graphs - {slot} == db.graphs; }
  }

  /** Deleting the rows of a version below the served one is safe whatever its build says. */
  lemma SupersededCleanupKeeps(m: nat, db: Db, r: RepositoryId, version: nat)
    requires Inv(m, db) && r in db.repositories && version < db.repositories[r].indexVersion
    ensures var t := CompleteSupersededCleanup(db, r, version);
            t.Success? && Inv(m, t.value) && Evolves(m, db, t.value)
  {
    var slot := Slot(r, version);
    SupersededShape(db, r, version);
    if slot in db.builds {
      SlotFacts(m, db, slot);
      SlotWriteKeeps(m, db, slot, db.builds[slot].(cleanup := Cleaned), true);
    } else {
      Unchanged(m, db);
    }
  }

  lemma PreparedKeysOk(p: Processing)
    requires InsertOk(p)
    ensures KeysOk(RowsOf(p))
  {
    forall a, b | a in RowsOf(p).edges && b in RowsOf(p).edges && a.siteFingerprint == b.siteFingerprint
      ensures a == b
    {
      var i :| 0 <= i < |p.edges| && p.edges[i] == a;
      var k :| 0 <= k < |p.edges| && p.edges[k] == b;
    }
  }

  /** What a successful `prepare_build` found. */
  ghost predicate Preparable(db: Db, j: JobId, slot: Slot) {
    && j in db.jobs && db.jobs[j].repository == slot.repository && db.jobs[j].targetVersion == Some(slot.version)
    && slot.repository in db.repositories && slot.version == db.repositories[slot.repository].indexVersion + 1
    && (slot in db.builds ==> db.builds[slot].owner == Some(j) || db.builds[slot].owner == None)
  }

  /** Its effect. */
  function Prepared(db: Db, j: JobId, slot: Slot, commit: Commit, p: Processing): Db
    requires slot.repository in db.repositories
  {
    db.(builds := db.builds[slot := FreshBuild(p, j)], graphs := db.graphs[slot := RowsOf(p)],
        repositories := db.repositories[slot.repository := db.repositories[slot.repository].(remoteCommit := Some(commit))])
  }

  lemma PreparedBuildsOk(db: Db, j: JobId, slot: Slot, commit: Commit, p: Processing)
    requires BuildsOk(db) && Preparable(db, j, slot)
    ensures BuildsOk(Prepared(db, j, slot, commit, p)) && OwnersKept(db, Prepared(db, j, slot, commit, p))
  {
    var db' := Prepared(db, j, slot, commit, p);
    forall other | other in db'.builds
      ensures other.repository in db'.repositories
           && StateOk(db'.builds[other], other.version, db'.repositories[other.repository].indexVersion)
           && OwnerOk(db'.builds[other], other, db'.jobs)
    {
      if other != slot {
        assert OwnerOk(db.builds[other], other, db.jobs);
        assert StateOk(db.builds[other], other.version, db.repositories[other.repository].indexVersion);
      }
    }
    if slot in db.builds { assert OwnerOk(db.builds[slot], slot, db.jobs); }
  }

  lemma PreparedRowsOk(db: Db, j: JobId, slot: Slot, commit: Commit, p: Processing)
    requires GraphsMatch(db) && RowsOk(db) && Preparable(db, j, slot) && InsertOk(p)
    ensures GraphsMatch(Prepared(db, j, slot, commit, p)) && RowsOk(Prepared(db, j, slot, commit, p))
  {
    var db' := Prepared(db, j, slot, commit, p);
    PreparedKeysOk(p);
    forall other | other in db'.builds && Validated(db'.builds[other]) ensures Reproduces(RowsAt(db', other), db'.builds[other]) {
      assert other != slot && RowsAt(db', other) == RowsAt(db, other);
    }
  }

  lemma PreparedRepositoriesOk(db: Db, j: JobId, slot: Slot, commit: Commit, p: Processing)
    requires RepositoriesOk(db) && Preparable(db, j, slot)
    ensures var db' := Prepared(db, j, slot, commit, p);
            RepositoriesOk(db') && RepositoriesGrow(db, db') && ServedKept(db, db')
  {
    var db' := Prepared(db, j, slot, commit, p);
    forall r | r in db'.repositories ensures RepositoryOk(r, db'.repositories[r], db'.builds) {
      assert RepositoryOk(r, db.repositories[r], db.builds);
    }
    forall other | other in db.builds && Serves(db, other) && Serves(db', other) ensures SameSlot(db, db', other) {
      assert other != slot;
    }
  }

  lemma PreparedKeeps(m: nat, db: Db, j: JobId, slot: Slot, commit: Commit, p: Processing)
    requires Inv(m, db) && Preparable(db, j, slot) && InsertOk(p)
    ensures Inv(m, Prepared(db, j, slot, commit, p)) && Evolves(m, db, Prepared(db, j, slot, commit, p))
  {
    var db' := Prepared(db, j, slot, commit, p);
    JobsStayOk(m, db, db');
    assert OneRunning(db');
    PreparedBuildsOk(db, j, slot, commit, p);
    PreparedRowsOk(db, j, slot, commit, p);
    PreparedRepositoriesOk(db, j, slot, commit, p);
    assert JobsEvolve(m, db, db') by {
      forall k | k in db.jobs ensures JobEvolves(m, db.jobs[k], db'.jobs[k]) { JobEvolvesReflexive(m, db.jobs[k]); }
    }
  }

  /** Rebuilding a slot: only the next version is ever rebuilt, and by the owner of the slot. */
  lemma PrepareKeeps(m: nat, db: Db, c: ClaimedJob, worker: WorkerId, commit: Commit, p: Processing)
    requires Inv(m, db)
    ensures var r := PrepareBuild(db, c, worker, commit, p); r.Success? ==> Inv(m, r.value) && Evolves(m, db, r.value)
  {
    if PrepareBuild(db, c, worker, commit, p).Success? {
      PreparedKeeps(m, db, c.job, Slot(db.jobs[c.job].repository, p.version), commit, p);
    }
  }

  /** The builds after activation: the target is active and what was active is superseded. */
  ghost predicate HandedOver(db: Db, db': Db, r: RepositoryId, n: nat) {
    var next, last := Slot(r, n + 1), Slot(r, n);
    && next in db.builds && db'.builds.Keys == db.builds.Keys
    && db'.builds[next] == db.builds[next].(state := Active, cleanup := NotRequired)
    && (n > 0 && last in db.builds ==>
          db'.builds[last] == db.builds[last].(state := Superseded, cleanup := CleanupStatus.Pending))
    && (forall slot :: slot in db.builds && slot != next && (slot != last || n == 0) ==> db'.builds[slot] == db.builds[slot])
  }

  /** What a successful `activate` found and did, seen from version `n`. */
  ghost predicate Activation(db: Db, db': Db, j: JobId, r: RepositoryId, n: nat, commit: Commit, now: Time) {
    var next := Slot(r, n + 1);
    && r in db.repositories && db.repositories[r].indexVersion == n
    && j in db.jobs && db.jobs[j].repository == r && db.jobs[j].status.Running? && db.jobs[j].targetVersion == Some(n + 1)
    && HandedOver(db, db', r, n) && db'.graphs == db.graphs
    && db.builds[next].commit == commit && db.builds[next].state.Ready? && Publishable(db.builds[next])
    && db'.repositories == db.repositories[r := db.repositories[r].(
         indexVersion := n + 1, lastIndexedCommit := Some(commit), remoteCommit := Some(commit),
         indexedBranch := Some(db.repositories[r].defaultBranch), activeVectorCount := db.builds[next].vectorCount)]
    && db'.jobs == db.jobs[j := db.jobs[j].(
         status := JobStatus.Complete, targetCommit := Some(commit), heartbeatAt := Some(now), lockedBy := None)]
  }

  lemma ActivateShape(db: Db, c: ClaimedJob, worker: WorkerId, commit: Commit, now: Time)
    requires CanActivate(db, c, worker, commit) && BuildsOk(db)
    ensures var r := db.jobs[c.job].repository;
            Activation(db, Activate(db, c, worker, commit, now).value.0, c.job, r, db.repositories[r].indexVersion, commit, now)
  {
    var r := db.jobs[c.job].repository;
    var n := db.repositories[r].indexVersion;
    if n > 0 && Slot(r, n) in db.builds {
      assert StateOk(db.builds[Slot(r, n)], n, n);
    }
  }

  lemma ActivateJobs(m: nat, db: Db, db': Db, j: JobId, r: RepositoryId, n: nat, commit: Commit, now: Time)
    requires JobsOk(m, db) && OneRunning(db) && Activation(db, db', j, r, n, commit, now)
    ensures JobsOk(m, db') && OneRunning(db') && JobsEvolve(m, db, db')
  {
    forall k | k in db'.jobs
      ensures db'.jobs[k].repository in db'.repositories && JobOk(m, db'.jobs[k], db'.repositories[db'.jobs[k].repository])
           && JobEvolves(m, db.jobs[k], db'.jobs[k])
    {
      assert JobOk(m, db.jobs[k], db.repositories[db.jobs[k].repository]);
    }
  }

  lemma ActivateBuilds(m: nat, db: Db, db': Db, j: JobId, r: RepositoryId, n: nat, commit: Commit, now: Time)
    requires BuildsOk(db) && JobsEvolve(m, db, db') && Activation(db, db', j, r, n, commit, now)
    ensures BuildsOk(db') && OwnersKept(db, db')
  {
    forall slot | slot in db'.builds
      ensures slot.repository in db'.repositories
           && StateOk(db'.builds[slot], slot.version, db'.repositories[slot.repository].indexVersion)
           && OwnerOk(db'.builds[slot], slot, db'.jobs)
    {
      assert OwnerOk(db.builds[slot], slot, db.jobs);
      var owner := db.builds[slot].owner.value;
      assert JobEvolves(m, db.jobs[owner], db'.jobs[owner]);
      assert StateOk(db.builds[slot], slot.version, db.repositories[slot.repository].indexVersion);
    }
  }

  lemma ActivateGraphs(db: Db, db': Db, j: JobId, r: RepositoryId, n: nat, commit: Commit, now: Time)
    requires GraphsMatch(db) && RowsOk(db) && Activation(db, db', j, r, n, commit, now)
    ensures GraphsMatch(db') && RowsOk(db')
  {
    forall slot | slot in db'.builds && Validated(db'.builds[slot]) ensures Reproduces(RowsAt(db', slot), db'.builds[slot]) {
      assert RowsAt(db', slot) == RowsAt(db, slot);
      if slot == Slot(r, n + 1) { SameReproduction(RowsAt(db, slot), db.builds[slot], db'.builds[slot]); }
    }
  }

  lemma ActivateRepositories(db: Db, db': Db, j: JobId, r: RepositoryId, n: nat, commit: Commit, now: Time)
    requires RepositoriesOk(db) && Activation(db, db', j, r, n, commit, now)
    ensures RepositoriesOk(db') && RepositoriesGrow(db, db') && ServedKept(db, db')
  {
    forall k | k in db'.repositories ensures RepositoryOk(k, db'.repositories[k], db'.builds) {
      assert RepositoryOk(k, db.repositories[k], db.builds);
    }
    forall slot | slot in db.builds && Serves(db, slot) && Serves(db', slot) ensures SameSlot(db, db', slot) {
      assert slot.repository != r;
    }
  }

  lemma ActivationKeeps(m: nat, db: Db, db': Db, j: JobId, r: RepositoryId, n: nat, commit: Commit, now: Time)
    requires Inv(m, db) && Activation(db, db', j, r, n, commit, now)
    ensures Inv(m, db') && Evolves(m, db, db')
  {
    ActivateJobs(m, db, db', j, r, n, commit, now);
    ActivateBuilds(m, db, db', j, r, n, commit, now);
    ActivateGraphs(db, db', j, r, n, commit, now);
    ActivateRepositories(db, db', j, r, n, commit, now);
  }

  /** Activation hands the repository from one complete, validated build to the next. */
  lemma ActivateKeeps(m: nat, db: Db, c: ClaimedJob, worker: WorkerId, commit: Commit, now: Time)
    requires Inv(m, db)
    ensures var r := Activate(db, c, worker, commit, now); r.Success? ==> Inv(m, r.value.0) && Evolves(m, db, r.value.0)
  {
    if CanActivate(db, c, worker, commit) {
      var r := db.jobs[c.job].repository;
      ActivateShape(db, c, worker, commit, now);
      ActivationKeeps(m, db, Activate(db, c, worker, commit, now).value.0, c.job, r, db.repositories[r].indexVersion,
                      commit, now);
    }
  }

  /** The job that owns a slot owns no other, so the unique constraint never fires. */
  lemma OneBuildPerJob(m: nat, db: Db, c: ClaimedJob, slot: Slot)
    requires Inv(m, db) && c.job in db.jobs
    requires slot.repository == db.jobs[c.job].repository && db.jobs[c.job].targetVersion == Some(slot.version)
    ensures !OwnsAnotherBuild(db, c.job, slot)
  {
    forall other | other in db.builds && db.builds[other].owner == Some(c.job) ensures other == slot {
      assert OwnerOk(db.builds[other], other, db.jobs);
    }
  }
}
