/**
 * Every action of the system, taken by any worker at any point, keeps the invariant of the tables
 * and what the runs and the history know about them.
 */
module IndexingRuns {
  import opened Common
  import opened IndexingRows
  import opened T = IndexingTransitions
  import opened I = IndexingInvariants
  import opened IndexingSystem
  import CallGraph

  // ---------------------------------------------------------------- runs

  /** The fence: a run that holds its job by worker id holds it by attempt number too. */
  ghost predicate Fenced(db: Db, w: WorkerId, run: Run) {
    Held(db, run.claimed, w) ==> run.claimed.attempt == db.jobs[run.claimed.job].attempt
  }

  ghost predicate RunOk(db: Db, w: WorkerId, run: Run) {
    && run.claimed.job in db.jobs
    && db.jobs[run.claimed.job].repository == run.claimed.repository
    && 1 <= run.claimed.attempt <= db.jobs[run.claimed.job].attempt
    && Fenced(db, w, run)
    && (run.context.Some? ==> run.context.value.repository == run.claimed.repository)
    && (run.phase.CleaningSuperseded? ==>
          && run.claimed.repository in db.repositories
          && run.phase.previous < db.repositories[run.claimed.repository].indexVersion)
  }

  ghost predicate RunsOk(db: Db, runs: map<WorkerId, Run>) {
    forall w :: w in runs ==> RunOk(db, w, runs[w])
  }

  /** How many attempts have ended with the job still to be done, or ended it. */
  function Completed(job: Job): nat {
    if job.status.Retrying? || job.attempt == 0 then job.attempt else job.attempt - 1
  }

  /** No job is claimed: whoever holds a job afterwards held it before, under the same attempt. */
  ghost predicate LocksKept(a: Db, b: Db) {
    && (forall j :: j in a.jobs ==> j in b.jobs)
    && (forall j :: j in b.jobs ==>
          if j !in a.jobs then b.jobs[j].attempt == 0
          else
            && a.jobs[j].attempt == b.jobs[j].attempt && Completed(a.jobs[j]) <= Completed(b.jobs[j])
            && (b.jobs[j].status.Running? ==> a.jobs[j].status.Running? && a.jobs[j].lockedBy == b.jobs[j].lockedBy))
  }

  lemma RunStaysOk(m: nat, a: Db, b: Db, w: WorkerId, run: Run)
    requires RunOk(a, w, run) && Evolves(m, a, b) && LocksKept(a, b)
    ensures RunOk(b, w, run)
  {
    assert JobEvolves(m, a.jobs[run.claimed.job], b.jobs[run.claimed.job]);
  }

  lemma RunsStayOk(m: nat, a: Db, b: Db, runs: map<WorkerId, Run>)
    requires RunsOk(a, runs) && Evolves(m, a, b) && LocksKept(a, b)
    ensures RunsOk(b, runs)
  {
    forall w | w in runs ensures RunOk(b, w, runs[w]) { RunStaysOk(m, a, b, w, runs[w]); }
  }

  /** A claim takes a lock, but for a worker that has no other run. */
  lemma RunsStayOkOnClaim(m: nat, db: Db, j: JobId, w: WorkerId, now: Time, runs: map<WorkerId, Run>)
    requires RunsOk(db, runs) && w !in runs && Claim(db, j, w, now).1.Some?
    requires Evolves(m, db, Claim(db, j, w, now).0)
    ensures RunsOk(Claim(db, j, w, now).0, runs)
    ensures RunOk(Claim(db, j, w, now).0, w, RunState(Claim(db, j, w, now).1.value, None, "", false, Authorizing))
  {
    var db' := Claim(db, j, w, now).0;
    forall v | v in runs ensures RunOk(db', v, runs[v]) {
      assert JobEvolves(m, db.jobs[runs[v].claimed.job], db'.jobs[runs[v].claimed.job]);
    }
  }

  // ---------------------------------------------------------------- one step of a run

  /** A step keeps the invariant because the fence lets `fail` decide on the current attempt. */
  lemma StepKeeps(s: Settings, db: Db, now: Time, w: WorkerId, run: Run, i: Input)
    requires Inv(s.maxAttempts, db) && RunOk(db, w, run)
    requires run.phase.Validating? ==> ValidationRead(db, run.claimed, i.rows)
    ensures var db' := StepRun(s, db, now, w, run, i).db;
            Inv(s.maxAttempts, db') && Evolves(s.maxAttempts, db, db')
  {
    hide Inv, Evolves;
    var m := s.maxAttempts;
    var c := run.claimed;
    Unchanged(m, db);
    match run.phase
    case Authorizing => ContextKeeps(m, db, c, i.membership);
    case Reauthorizing => ContextKeeps(m, db, c, i.membership);
    case Analyzing => PrepareKeeps(m, db, c, w, i.commit, i.processing);
    case CountingVectors => RecordCountsKeeps(m, db, c, w, i.embedded, i.vectors);
    case Validating => ValidateKeeps(m, db, c, w, i.rows);
    case Readying => MarkReadyKeeps(m, db, c, w);
    case Activating => ActivateKeeps(m, db, c, w, run.commit, now);
    case CleaningSuperseded(previous) => SupersededCleanupKeeps(m, db, c.repository, previous);
    case RecordingCleanup(_) => FailedCleanupKeeps(m, db, c.repository, run.context.value.version, i.vectorsDeleted);
    case Staling => CancelKeeps(m, db, c, w, now);
    case Cancelling => CancelKeeps(m, db, c, w, now);
    case Failing(retryable) => FailKeeps(s, db, c, w, retryable, now, i.jitter);
    case _ =>
  }

  lemma SameLocks(a: Db, b: Db)
    requires a.jobs == b.jobs
    ensures LocksKept(a, b)
  {
  }

  lemma LeaveLocks(s: Settings, db: Db, c: ClaimedJob, w: WorkerId, retryable: bool, now: Time, jitter: nat)
    ensures LocksKept(db, Cancel(db, c, w, now)) && LocksKept(db, Fail(s, db, c, w, retryable, now, jitter))
  {
    hide RetryDelay;
  }

  lemma ActivateLocks(db: Db, c: ClaimedJob, w: WorkerId, commit: Commit, now: Time)
    ensures var r := Activate(db, c, w, commit, now); r.Success? ==> LocksKept(db, r.value.0)
  {
    if Activate(db, c, w, commit, now).Success? {
      var db' := Activate(db, c, w, commit, now).value.0;
      assert db'.jobs == db.jobs[c.job := db'.jobs[c.job]] && !db'.jobs[c.job].status.Running?;
    }
  }

  lemma PrepareKeepsJobs(db: Db, c: ClaimedJob, w: WorkerId, commit: Commit, p: Processing)
    ensures var r := PrepareBuild(db, c, w, commit, p); r.Success? ==> r.value.jobs == db.jobs
  {
    hide InsertOk, OwnsAnotherBuild, RowsOf, FreshBuild;
  }

  lemma BuildWritesKeepJobs(db: Db, c: ClaimedJob, w: WorkerId, embedded: nat, vectors: nat, rows: seq<CallGraph.Edge>)
    ensures var r := RecordVectorCounts(db, c, w, embedded, vectors); r.Success? ==> r.value.jobs == db.jobs
    ensures var r := ValidateGraph(db, c, w, rows); r.Success? ==> r.value.jobs == db.jobs
    ensures var r := MarkBuildReady(db, c, w); r.Success? ==> r.value.jobs == db.jobs
  {
    hide CallGraph.Summarize, OwnsBuild, Publishable;
  }

  lemma CleanupsKeepJobs(db: Db, r: RepositoryId, version: nat, complete: bool)
    ensures RecordFailedBuildCleanup(db, r, version, complete).jobs == db.jobs
    ensures var t := CompleteSupersededCleanup(db, r, version); t.Success? ==> t.value.jobs == db.jobs
  {
  }

  lemma ContextLocks(db: Db, c: ClaimedJob, membership: bool)
    ensures LocksKept(db, AuthorizedContext(db, c, membership).0)
  {
  }

  lemma StepKeepsLocks(s: Settings, db: Db, now: Time, w: WorkerId, run: Run, i: Input)
    ensures LocksKept(db, StepRun(s, db, now, w, run, i).db)
  {
    hide LocksKept, PrepareBuild, RecordVectorCounts, ValidateGraph, MarkBuildReady, Activate, AuthorizedContext, Cancel, Fail,
         RecordFailedBuildCleanup, CompleteSupersededCleanup, IsCurrent, Held, CanCleanupInactive, RetryDelay;
    var c := run.claimed;
    SameLocks(db, db);
    match run.phase
    case Authorizing => ContextLocks(db, c, i.membership);
    case Reauthorizing => ContextLocks(db, c, i.membership);
    case Activating => ActivateLocks(db, c, w, run.commit, now);
    case Staling => LeaveLocks(s, db, c, w, false, now, 0);
    case Cancelling => LeaveLocks(s, db, c, w, false, now, 0);
    case Failing(retryable) => LeaveLocks(s, db, c, w, retryable, now, i.jitter);
    case CleaningSuperseded(previous) =>
      CleanupsKeepJobs(db, run.context.value.repository, previous, false);
      SameLocks(db, StepRun(s, db, now, w, run, i).db);
    case RecordingCleanup(_) =>
      CleanupsKeepJobs(db, run.context.value.repository, run.context.value.version, i.vectorsDeleted);
      SameLocks(db, StepRun(s, db, now, w, run, i).db);
    case _ =>
      PrepareKeepsJobs(db, c, w, i.commit, i.processing);
      BuildWritesKeepJobs(db, c, w, i.embedded, i.vectors, i.rows);
      SameLocks(db, StepRun(s, db, now, w, run, i).db);
  }

  lemma ActivateSupersedes(db: Db, c: ClaimedJob, w: WorkerId, commit: Commit, now: Time)
    ensures var r := Activate(db, c, w, commit, now);
            r.Success? ==>
              && c.job in db.jobs && db.jobs[c.job].repository in r.value.0.repositories
              && r.value.1 < r.value.0.repositories[db.jobs[c.job].repository].indexVersion
  {
  }

  lemma ContextNamesRepository(db: Db, c: ClaimedJob, membership: bool)
    ensures var r := AuthorizedContext(db, c, membership);
            r.1.Some? ==> c.job in db.jobs && r.1.value.repository == db.jobs[c.job].repository
  {
  }

  lemma RaiseFacts(run: Run, retryable: bool)
    ensures Raise(run, retryable).Some? ==>
              && Raise(run, retryable).value.claimed == run.claimed
              && Raise(run, retryable).value.context == run.context
              && !Raise(run, retryable).value.phase.CleaningSuperseded?
  {
  }

  lemma ResumeFacts(run: Run, after: AfterCleanup, complete: bool)
    requires run.context.Some?
    ensures var next := Resume(run, after, complete);
            next.claimed == run.claimed && next.context == run.context && !next.phase.CleaningSuperseded?
  {
  }

  lemma CheckedFacts(db: Db, run: Run, result: Result<Db, StoreError>, next: Run)
    ensures var outcome := Checked(db, run, result, next);
            outcome.next.Some? ==>
              || outcome.next.value == next
              || (&& outcome.next.value.claimed == run.claimed && outcome.next.value.context == run.context
                  && !outcome.next.value.phase.CleaningSuperseded?)
  {
    if result.Failure? { RaiseFacts(run, Retryable(result.error)); }
  }

  /** What a run carries on is its claim, a context of its repository, and perhaps a superseded version. */
  ghost predicate CarriesOn(run: Run, outcome: Outcome) {
    outcome.next.Some? ==>
      && outcome.next.value.claimed == run.claimed
      && (outcome.next.value.context.Some? ==> outcome.next.value.context.value.repository == run.claimed.repository)
      && (outcome.next.value.phase.CleaningSuperseded? ==>
            && run.claimed.repository in outcome.db.repositories
            && outcome.next.value.phase.previous < outcome.db.repositories[run.claimed.repository].indexVersion)
  }

  lemma ActivateCarriesOn(db: Db, now: Time, w: WorkerId, run: Run)
    requires RunOk(db, w, run)
    ensures run.phase.Activating? ==> CarriesOn(run, ActivateStep(db, now, w, run))
  {
    hide Activate, Raise, Fenced;
    forall retryable {:trigger Raise(run, retryable)} { RaiseFacts(run, retryable); }
    ActivateSupersedes(db, run.claimed, w, run.commit, now);
  }

  lemma AnalyzeCarriesOn(db: Db, w: WorkerId, run: Run, i: Input)
    requires RunOk(db, w, run)
    ensures run.phase.Analyzing? ==> CarriesOn(run, AnalyzeStep(db, w, run, i))
    ensures run.phase.Reauthorizing? ==> CarriesOn(run, ReauthorizeStep(db, run, i))
  {
    hide PrepareBuild, AuthorizedContext, Raise, Fenced;
    forall retryable {:trigger Raise(run, retryable)} { RaiseFacts(run, retryable); }
    ContextNamesRepository(db, run.claimed, i.membership);
  }

  lemma NextRunFacts(s: Settings, db: Db, now: Time, w: WorkerId, run: Run, i: Input)
    requires RunOk(db, w, run)
    ensures CarriesOn(run, StepRun(s, db, now, w, run, i))
  {
    hide AnalyzeStep, ReauthorizeStep, ActivateStep, RecordVectorCounts, ValidateGraph, MarkBuildReady, AuthorizedContext, Cancel, Fail,
         RecordFailedBuildCleanup, CompleteSupersededCleanup, IsCurrent, Held, CanCleanupInactive, RetryDelay, Raise, Resume, Fenced;
    hide Checked;
    forall db', result, next {:trigger Checked(db', run, result, next)} { CheckedFacts(db', run, result, next); }
    forall retryable {:trigger Raise(run, retryable)} { RaiseFacts(run, retryable); }
    forall after, complete {:trigger Resume(run, after, complete)} | run.context.Some? { ResumeFacts(run, after, complete); }
    ActivateCarriesOn(db, now, w, run);
    AnalyzeCarriesOn(db, w, run, i);
    ContextNamesRepository(db, run.claimed, i.membership);
  }

  lemma NextRunOk(s: Settings, db: Db, now: Time, w: WorkerId, run: Run, i: Input)
    requires RunOk(db, w, run) && Evolves(s.maxAttempts, db, StepRun(s, db, now, w, run, i).db)
    ensures var outcome := StepRun(s, db, now, w, run, i);
            outcome.next.Some? ==> RunOk(outcome.db, w, outcome.next.value)
  {
    var outcome := StepRun(s, db, now, w, run, i);
    StepKeepsLocks(s, db, now, w, run, i);
    RunStaysOk(s.maxAttempts, db, outcome.db, w, run);
    NextRunFacts(s, db, now, w, run, i);
    hide StepRun, LocksKept, Evolves;
  }
}
