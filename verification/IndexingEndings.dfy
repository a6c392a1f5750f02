/**
 * How a run ends, and what each ending does to the tables: the store calls that a worker makes, in
 * their order, when a job is superseded, revoked, needless or failing. Nothing else acts meanwhile.
 */
module IndexingEndings {
  import opened Common
  import opened IndexingRows
  import opened T = IndexingTransitions
  import opened IndexingSystem
  import opened IndexingProgress
  import CallGraph

  /** The run is over and the tables are these. */
  ghost predicate Ended(sys: System, w: WorkerId, db: Db) {
    w !in sys.runs && sys.db == db
  }

  lemma StepEnds(s: Settings, sys: System, w: WorkerId, i: Input, k: nat, db: Db, run: Run, now: Time)
    requires At(StepTimes(s, sys, w, i, k), w, db, run, now) && !run.phase.Validating?
    requires StepRun(s, db, now, w, run, i).next == None
    ensures Ended(StepTimes(s, sys, w, i, k + 1), w, StepRun(s, db, now, w, run, i).db)
  {
    hide StepRun, Raise;
  }

  lemma NoSteps(s: Settings, sys: System, w: WorkerId, i: Input)
    ensures StepTimes(s, sys, w, i, 0) == sys
  {
  }

  // ---------------------------------------------------------------- releasing the job

  lemma CancelEnds(s: Settings, sys: System, w: WorkerId, i: Input, k: nat, db: Db, run: Run, now: Time)
    requires At(StepTimes(s, sys, w, i, k), w, db, run, now) && (run.phase.Staling? || run.phase.Cancelling?)
    ensures Ended(StepTimes(s, sys, w, i, k + 1), w, Cancel(db, run.claimed, w, now))
  {
    hide At, Cancel;
    StepEnds(s, sys, w, i, k, db, run, now);
  }

  lemma FailureEnds(s: Settings, sys: System, w: WorkerId, i: Input, k: nat, db: Db, run: Run, now: Time)
    requires At(StepTimes(s, sys, w, i, k), w, db, run, now) && run.phase.Failing?
    ensures Ended(StepTimes(s, sys, w, i, k + 1), w, Fail(s, db, run.claimed, w, run.phase.retryable, now, i.jitter))
  {
    hide At, Fail, RetryDelay;
    StepEnds(s, sys, w, i, k, db, run, now);
  }

  /** What the last call makes of the tables, once the cleanup is done, completely or not. */
  function Released(s: Settings, db: Db, c: ClaimedJob, w: WorkerId, after: AfterCleanup, complete: bool, now: Time, jitter: nat): Db {
    match after
    case ThenFail(retryable) => Fail(s, db, c, w, retryable || !complete, now, jitter)
    case _ => Cancel(db, c, w, now)
  }

  lemma ResumedEnds(s: Settings, sys: System, w: WorkerId, i: Input, k: nat, db: Db, run: Run, now: Time, after: AfterCleanup, complete: bool)
    requires run.context.Some? && At(StepTimes(s, sys, w, i, k), w, db, Resume(run, after, complete), now)
    ensures Ended(StepTimes(s, sys, w, i, k + 1), w, Released(s, db, run.claimed, w, after, complete, now, i.jitter))
  {
    hide At, Cancel, Fail;
    match after
    case ThenFail(retryable) => FailureEnds(s, sys, w, i, k, db, Resume(run, after, complete), now);
    case _ => CancelEnds(s, sys, w, i, k, db, Resume(run, after, complete), now);
  }

  /**
   * The cleanup of a build that is not served: its row fails, its vectors and graph rows go, and then
   * the job is released. A cleanup that could not delete the vectors makes any failure retryable.
   */
  lemma CleanupEnds(s: Settings, sys: System, w: WorkerId, i: Input, k: nat, db: Db, run: Run, now: Time)
    requires At(StepTimes(s, sys, w, i, k), w, db, run, now) && run.phase.CheckingCleanup? && run.context.Some?
    requires var (r, v) := (run.context.value.repository, run.context.value.version);
             r in db.repositories && db.repositories[r].indexVersion != v
    ensures var (r, v) := (run.context.value.repository, run.context.value.version);
            Ended(StepTimes(s, sys, w, i, k + 3), w,
                  Released(s, RecordFailedBuildCleanup(db, r, v, i.vectorsDeleted), run.claimed, w, run.phase.after, i.vectorsDeleted,
                           now, i.jitter))
  {
    hide At, RecordFailedBuildCleanup, Released;
    var (r, v) := (run.context.value.repository, run.context.value.version);
    var cleaned := RecordFailedBuildCleanup(db, r, v, i.vectorsDeleted);
    OneStep(s, sys, w, i, k, db, run, now, db, run.(phase := RecordingCleanup(run.phase.after)));
    OneStep(s, sys, w, i, k + 1, db, run.(phase := RecordingCleanup(run.phase.after)), now, cleaned,
            Resume(run.(phase := RecordingCleanup(run.phase.after)), run.phase.after, i.vectorsDeleted));
    ResumedEnds(s, sys, w, i, k + 2, cleaned, run.(phase := RecordingCleanup(run.phase.after)), now, run.phase.after, i.vectorsDeleted);
  }

  /** A build that is served meanwhile is left alone; the failure of the job is retryable. */
  lemma RefusedCleanupEnds(s: Settings, sys: System, w: WorkerId, i: Input, k: nat, db: Db, run: Run, now: Time)
    requires At(StepTimes(s, sys, w, i, k), w, db, run, now) && run.phase.CheckingCleanup? && run.context.Some?
    requires var (r, v) := (run.context.value.repository, run.context.value.version);
             r in db.repositories ==> db.repositories[r].indexVersion == v
    ensures Ended(StepTimes(s, sys, w, i, k + 2), w, Released(s, db, run.claimed, w, run.phase.after, false, now, i.jitter))
  {
    hide At, Released;
    OneStep(s, sys, w, i, k, db, run, now, db, Resume(run, run.phase.after, false));
    ResumedEnds(s, sys, w, i, k + 1, db, run, now, run.phase.after, false);
  }

  // ---------------------------------------------------------------- endings without a build

  /** Without access the job is cancelled, and nothing else changes. */
  lemma RevokedRunIsCancelled(s: Settings, sys: System, w: WorkerId, i: Input, db: Db, run: Run, now: Time)
    requires At(sys, w, db, run, now) && run.phase.Authorizing?
    requires AuthorizedContext(db, run.claimed, i.membership) == (db, None)
    ensures Ended(StepTimes(s, sys, w, i, 2), w, Cancel(db, run.claimed, w, now))
  {
    hide At, AuthorizedContext, Cancel;
    NoSteps(s, sys, w, i);
    OneStep(s, sys, w, i, 0, db, run, now, db, run.(phase := Cancelling));
    CancelEnds(s, sys, w, i, 1, db, run.(phase := Cancelling), now);
  }

  /** A job that was superseded before it began is cancelled. */
  lemma SupersededRunIsCancelled(s: Settings, sys: System, w: WorkerId, i: Input, db: Db, run: Run, now: Time)
    requires At(sys, w, db, run, now) && run.phase.CheckingCurrent? && !IsCurrent(db, run.claimed, w)
    ensures Ended(StepTimes(s, sys, w, i, 2), w, Cancel(db, run.claimed, w, now))
  {
    hide At, IsCurrent, Cancel;
    NoSteps(s, sys, w, i);
    OneStep(s, sys, w, i, 0, db, run, now, db, run.(phase := Staling));
    CancelEnds(s, sys, w, i, 1, db, run.(phase := Staling), now);
  }

  /** So is an incremental job whose commit is the active one, on the branch that was indexed; no other is. */
  lemma NeedlessRunIsCancelled(s: Settings, sys: System, w: WorkerId, i: Input, db: Db, run: Run, now: Time)
    requires At(sys, w, db, run, now) && run.phase.Analyzing? && run.context.Some?
    requires var x := run.context.value;
             x.activeCommit == Some(i.commit) && x.indexedBranch == Some(x.defaultBranch) && x.requestedMode.Incremental?
    ensures Ended(StepTimes(s, sys, w, i, 2), w, Cancel(db, run.claimed, w, now))
  {
    hide At, Cancel, PrepareBuild;
    NoSteps(s, sys, w, i);
    OneStep(s, sys, w, i, 0, db, run, now, db, run.(phase := Staling));
    CancelEnds(s, sys, w, i, 1, db, run.(phase := Staling), now);
  }

  /** A build that cannot be prepared fails the job, and is not cleaned up. */
  lemma UnpreparedRunFails(s: Settings, sys: System, w: WorkerId, i: Input, db: Db, run: Run, now: Time)
    requires At(sys, w, db, run, now) && run.phase.Analyzing? && run.context.Some? && !run.prepared
    requires var x := run.context.value;
             x.activeCommit != Some(i.commit) || x.indexedBranch != Some(x.defaultBranch) || x.requestedMode.Full?
    requires PrepareBuild(db, run.claimed, w, i.commit, i.processing).Failure?
    ensures var error := PrepareBuild(db, run.claimed, w, i.commit, i.processing).error;
            var retryable := error.ProcessingMismatch? || error.IntegrityViolation?;
            Ended(StepTimes(s, sys, w, i, 2), w, Fail(s, db, run.claimed, w, retryable, now, i.jitter))
  {
    hide At, Fail, PrepareBuild, RetryDelay;
    var error := PrepareBuild(db, run.claimed, w, i.commit, i.processing).error;
    NoSteps(s, sys, w, i);
    OneStep(s, sys, w, i, 0, db, run, now, db, run.(phase := Failing(Retryable(error))));
    FailureEnds(s, sys, w, i, 1, db, run.(phase := Failing(Retryable(error))), now);
  }

  // ---------------------------------------------------------------- endings with a build

  /** The build of the run is not the served one. */
  predicate NotServed(db: Db, run: Run) {
    && run.context.Some? && run.prepared
    && run.context.value.repository in db.repositories
    && db.repositories[run.context.value.repository].indexVersion != run.context.value.version
  }

  /** The tables after the cleanup of the run's build and the release of its job. */
  function CleanedAndReleased(s: Settings, db: Db, run: Run, w: WorkerId, i: Input, after: AfterCleanup, now: Time): Db
    requires run.context.Some?
  {
    Released(s, RecordFailedBuildCleanup(db, run.context.value.repository, run.context.value.version, i.vectorsDeleted),
             run.claimed, w, after, i.vectorsDeleted, now, i.jitter)
  }

  lemma StepThenCleanup(s: Settings, sys: System, w: WorkerId, i: Input, db: Db, run: Run, now: Time, after: AfterCleanup)
    requires At(sys, w, db, run, now) && NotServed(db, run) && (run.phase.Validating? ==> ValidationRead(db, run.claimed, i.rows))
    requires StepRun(s, db, now, w, run, i) == Outcome(db, Some(run.(phase := CheckingCleanup(after))), [])
    ensures Ended(StepTimes(s, sys, w, i, 4), w, CleanedAndReleased(s, db, run, w, i, after, now))
  {
    hide At, StepRun, Released, RecordFailedBuildCleanup, ValidationRead;
    NoSteps(s, sys, w, i);
    OneStep(s, sys, w, i, 0, db, run, now, db, run.(phase := CheckingCleanup(after)));
    CleanupEnds(s, sys, w, i, 1, db, run.(phase := CheckingCleanup(after)), now);
  }

  /** A job that was superseded while it was built is cancelled, and its build cleaned up. */
  lemma OvertakenBuildIsCleanedUp(s: Settings, sys: System, w: WorkerId, i: Input, db: Db, run: Run, now: Time)
    requires At(sys, w, db, run, now) && NotServed(db, run) && run.phase.Rechecking? && !IsCurrent(db, run.claimed, w)
    ensures Ended(StepTimes(s, sys, w, i, 4), w, CleanedAndReleased(s, db, run, w, i, ThenStale, now))
  {
    hide At, NotServed, IsCurrent, CleanedAndReleased;
    StepThenCleanup(s, sys, w, i, db, run, now, ThenStale);
  }

  /** A job that lost its access while it was built is cancelled, and its build cleaned up. */
  lemma RevokedBuildIsCleanedUp(s: Settings, sys: System, w: WorkerId, i: Input, db: Db, run: Run, now: Time)
    requires At(sys, w, db, run, now) && NotServed(db, run) && run.phase.Reauthorizing?
    requires AuthorizedContext(db, run.claimed, i.membership) == (db, None)
    ensures Ended(StepTimes(s, sys, w, i, 4), w, CleanedAndReleased(s, db, run, w, i, ThenCancel, now))
  {
    hide At, AuthorizedContext, CleanedAndReleased;
    StepThenCleanup(s, sys, w, i, db, run, now, ThenCancel);
  }

  /** A job whose context changed while it was built fails, and its build is cleaned up. */
  lemma ChangedContextFails(s: Settings, sys: System, w: WorkerId, i: Input, db: Db, run: Run, now: Time)
    requires At(sys, w, db, run, now) && NotServed(db, run) && run.phase.Reauthorizing?
    requires var (db', context) := AuthorizedContext(db, run.claimed, i.membership); db' == db && context.Some? && context != run.context
    ensures Ended(StepTimes(s, sys, w, i, 4), w, CleanedAndReleased(s, db, run, w, i, ThenFail(false), now))
  {
    hide At, AuthorizedContext, CleanedAndReleased;
    StepThenCleanup(s, sys, w, i, db, run, now, ThenFail(false));
  }

  /** The store call of the phase, if it is one that may refuse. */
  function CallOf(db: Db, run: Run, w: WorkerId, i: Input, now: Time): Option<StoreError> {
    match run.phase
    case CountingVectors =>
      var r := RecordVectorCounts(db, run.claimed, w, i.embedded, i.vectors); if r.Failure? then Some(r.error) else None
    case Validating => var r := ValidateGraph(db, run.claimed, w, i.rows); if r.Failure? then Some(r.error) else None
    case Readying => var r := MarkBuildReady(db, run.claimed, w); if r.Failure? then Some(r.error) else None
    case Activating => var r := Activate(db, run.claimed, w, run.commit, now); if r.Failure? then Some(r.error) else None
    case _ => None
  }

  lemma RefusedStep(s: Settings, db: Db, run: Run, w: WorkerId, i: Input, now: Time)
    requires CallOf(db, run, w, i, now).Some? && run.context.Some? && run.prepared
    ensures !CallOf(db, run, w, i, now).value.ProcessingMismatch? && !CallOf(db, run, w, i, now).value.IntegrityViolation?
    ensures StepRun(s, db, now, w, run, i) == Outcome(db, Some(run.(phase := CheckingCleanup(ThenFail(false)))), [])
  {
    hide CallGraph.Summarize, OwnsBuild, Publishable, Held;
  }

  /** A refused store call fails the job for good, unless its build could not be cleaned up completely. */
  lemma RefusedCallFails(s: Settings, sys: System, w: WorkerId, i: Input, db: Db, run: Run, now: Time)
    requires At(sys, w, db, run, now) && NotServed(db, run) && CallOf(db, run, w, i, now).Some?
    requires run.phase.Validating? ==> ValidationRead(db, run.claimed, i.rows)
    ensures Ended(StepTimes(s, sys, w, i, 4), w, CleanedAndReleased(s, db, run, w, i, ThenFail(false), now))
  {
    RefusedStep(s, db, run, w, i, now);
    hide At, CallOf, CleanedAndReleased, StepRun, ValidationRead;
    StepThenCleanup(s, sys, w, i, db, run, now, ThenFail(false));
  }

  lemma AbortedAt(s: Settings, sys: System, w: WorkerId, i: Input, db: Db, run: Run, now: Time, retryable: bool)
    requires At(sys, w, db, run, now) && Raise(run, retryable).Some?
    ensures At(StepTimes(s, Next(s, sys, Abort(w, retryable)), w, i, 0), w, db, Raise(run, retryable).value, now)
  {
    hide Raise;
  }

  /** An exception in a run that built something, whatever the phase before the first handler. */
  lemma AbortedBuildIsCleanedUp(s: Settings, sys: System, w: WorkerId, i: Input, db: Db, run: Run, now: Time, retryable: bool)
    requires At(sys, w, db, run, now) && NotServed(db, run)
    requires !run.phase.Failing? && !run.phase.CleaningSuperseded? && !run.phase.CheckingCleanup? && !run.phase.RecordingCleanup?
    ensures var aborted := Next(s, sys, Abort(w, retryable));
            Ended(StepTimes(s, aborted, w, i, 3), w, CleanedAndReleased(s, db, run, w, i, ThenFail(retryable), now))
  {
    var aborted := Next(s, sys, Abort(w, retryable));
    hide Released, RecordFailedBuildCleanup, At, Next;
    AbortedAt(s, sys, w, i, db, run, now, retryable);
    CleanupEnds(s, aborted, w, i, 0, db, run.(phase := CheckingCleanup(ThenFail(retryable))), now);
  }

  /** An exception in a run that built nothing. */
  lemma AbortedRunFails(s: Settings, sys: System, w: WorkerId, i: Input, db: Db, run: Run, now: Time, retryable: bool)
    requires At(sys, w, db, run, now) && !run.prepared
    requires run.phase.Authorizing? || run.phase.CheckingCurrent? || run.phase.Analyzing?
    ensures var aborted := Next(s, sys, Abort(w, retryable));
            Ended(StepTimes(s, aborted, w, i, 1), w, Fail(s, db, run.claimed, w, retryable, now, i.jitter))
  {
    var aborted := Next(s, sys, Abort(w, retryable));
    hide Fail, At, Next;
    AbortedAt(s, sys, w, i, db, run, now, retryable);
    FailureEnds(s, aborted, w, i, 0, db, run.(phase := Failing(retryable)), now);
  }

  /** An exception in a handler ends the run; the job stays as it is, until its heartbeat is old. */
  lemma AbortedHandlerEnds(s: Settings, sys: System, w: WorkerId, db: Db, run: Run, now: Time, retryable: bool)
    requires At(sys, w, db, run, now)
    requires run.phase.Failing? || run.phase.CleaningSuperseded?
             || ((run.phase.CheckingCleanup? || run.phase.RecordingCleanup?) && run.phase.after.ThenFail?)
    ensures Ended(Next(s, sys, Abort(w, retryable)), w, db)
  {
  }

  /** A step whose reply is lost commits like any other, and the worker goes on as after any other exception. */
  lemma LostReplyCommits(s: Settings, sys: System, w: WorkerId, i: Input)
    requires w in sys.runs && (sys.runs[w].phase.Validating? ==> ValidationRead(sys.db, sys.runs[w].claimed, i.rows))
    ensures var lost := Next(s, sys, Step(w, i, true));
            && (lost.db, lost.history) == (Next(s, sys, Step(w, i, false)).db, Next(s, sys, Step(w, i, false)).history)
            && lost.runs == Next(s, sys, Abort(w, true)).runs
  {
    hide StepRun, Raise, ValidationRead;
  }

  /** After an activation the superseded version is cleaned up, unless its vectors could not be deleted. */
  lemma SupersededVersionIsCleanedUp(s: Settings, sys: System, w: WorkerId, i: Input, db: Db, run: Run, now: Time)
    requires At(sys, w, db, run, now) && run.phase.CleaningSuperseded? && run.context.Some?
    requires var r := run.context.value.repository; r in db.repositories && db.repositories[r].indexVersion != run.phase.previous
    ensures CompleteSupersededCleanup(db, run.context.value.repository, run.phase.previous).Success?
    ensures Ended(StepTimes(s, sys, w, i, 1), w,
                  if i.vectorsDeleted then CompleteSupersededCleanup(db, run.context.value.repository, run.phase.previous).value else db)
  {
    hide At;
    NoSteps(s, sys, w, i);
    StepEnds(s, sys, w, i, 0, db, run, now);
  }

  lemma CleanupAllowed(db: Db, r: RepositoryId, version: nat)
    requires r in db.repositories && db.repositories[r].indexVersion != version
    ensures CompleteSupersededCleanup(db, r, version).Success?
  {
  }

  /** So an activation is followed by the cleanup of the version before, and then the run is over. */
  lemma ActivationEnds(s: Settings, sys: System, w: WorkerId, i: Input, db: Db, run: Run, now: Time)
    requires At(sys, w, db, run, now) && run.phase.Activating? && run.context.Some? && i.vectorsDeleted
    requires Activate(db, run.claimed, w, run.commit, now).Success?
    requires run.context.value.repository == db.jobs[run.claimed.job].repository
    ensures var (db', previous) := Activate(db, run.claimed, w, run.commit, now).value;
            if previous == 0 then Ended(StepTimes(s, sys, w, i, 1), w, db')
            else
              var cleaned := CompleteSupersededCleanup(db', run.context.value.repository, previous);
              cleaned.Success? && Ended(StepTimes(s, sys, w, i, 2), w, cleaned.value)
  {
    var (db', previous) := Activate(db, run.claimed, w, run.commit, now).value;
    var r := run.context.value.repository;
    assert r in db'.repositories && db'.repositories[r].indexVersion == previous + 1;
    hide At, Activate, CompleteSupersededCleanup;
    NoSteps(s, sys, w, i);
    if previous == 0 {
      StepEnds(s, sys, w, i, 0, db, run, now);
    } else {
      var cleaning := run.(phase := CleaningSuperseded(previous));
      OneStep(s, sys, w, i, 0, db, run, now, db', cleaning);
      assert CompleteSupersededCleanup(db', r, previous).Success? by { CleanupAllowed(db', r, previous); }
      StepEnds(s, sys, w, i, 1, db', cleaning, now);
    }
  }

  /** A run whose version is served already writes no vectors, leaves the build alone, and fails with a retry. */
  lemma ServedScopeIsRefused(s: Settings, sys: System, w: WorkerId, i: Input, db: Db, run: Run, now: Time)
    requires At(sys, w, db, run, now) && run.phase.CheckingScope? && run.context.Some? && run.prepared
    requires var (r, v) := (run.context.value.repository, run.context.value.version);
             r in db.repositories ==> db.repositories[r].indexVersion == v
    ensures Ended(StepTimes(s, sys, w, i, 3), w, Fail(s, db, run.claimed, w, true, now, i.jitter))
  {
    hide At, Fail;
    NoSteps(s, sys, w, i);
    OneStep(s, sys, w, i, 0, db, run, now, db, run.(phase := CheckingCleanup(ThenFail(false))));
    RefusedCleanupEnds(s, sys, w, i, 1, db, run.(phase := CheckingCleanup(ThenFail(false))), now);
  }

  // ---------------------------------------------------------------- every run ends

  /** How many steps a run has left at most, whatever the store and the services answer. */
  function StepsLeft(phase: Phase): nat {
    match phase
    case Authorizing => 15
    case CheckingCurrent => 14
    case Analyzing => 13
    case CheckingScope => 12
    case CountingVectors => 11
    case Validating => 10
    case Readying => 9
    case Rechecking => 8
    case Reauthorizing => 7
    case Activating => 4
    case CleaningSuperseded(_) => 1
    case CheckingCleanup(after) => if after.ThenFail? then 3 else 6
    case RecordingCleanup(after) => if after.ThenFail? then 2 else 5
    case Staling => 4
    case Cancelling => 4
    case Failing(_) => 1
  }

  lemma RaiseShortens(run: Run, retryable: bool)
    ensures Raise(run, retryable).Some? ==> StepsLeft(Raise(run, retryable).value.phase) < StepsLeft(run.phase)
  {
  }

  ghost predicate Shortens(run: Run, next: Option<Run>) {
    next.Some? ==> StepsLeft(next.value.phase) < StepsLeft(run.phase)
  }

  lemma CheckedShortens(db: Db, run: Run, result: Result<Db, StoreError>, next: Run)
    requires StepsLeft(next.phase) < StepsLeft(run.phase)
    ensures Shortens(run, Checked(db, run, result, next).next)
  {
    hide Raise;
    if result.Failure? { RaiseShortens(run, Retryable(result.error)); }
  }

  lemma ContextStepsShorten(db: Db, now: Time, w: WorkerId, run: Run, i: Input)
    requires run.context.Some?
    ensures run.phase.Analyzing? ==> Shortens(run, AnalyzeStep(db, w, run, i).next)
    ensures run.phase.Reauthorizing? ==> Shortens(run, ReauthorizeStep(db, run, i).next)
    ensures run.phase.Activating? ==> Shortens(run, ActivateStep(db, now, w, run).next)
  {
    hide AuthorizedContext, PrepareBuild, Activate, Raise, TargetAlreadyActive;
    forall retryable { RaiseShortens(run, retryable); }
  }

  lemma StepShortens(s: Settings, db: Db, now: Time, w: WorkerId, run: Run, i: Input)
    ensures Shortens(run, StepRun(s, db, now, w, run, i).next)
  {
    hide AnalyzeStep, ReauthorizeStep, ActivateStep, AuthorizedContext, IsCurrent, RecordVectorCounts, ValidateGraph, MarkBuildReady,
         CanCleanupInactive, RecordFailedBuildCleanup, CompleteSupersededCleanup, Cancel, Fail, Raise, Checked;
    forall retryable { RaiseShortens(run, retryable); }
    forall db', result, next: Run {:trigger Checked(db', run, result, next)} | StepsLeft(next.phase) < StepsLeft(run.phase) {
      CheckedShortens(db', run, result, next);
    }
    if run.context.Some? { ContextStepsShorten(db, now, w, run, i); }
  }

  function Left(sys: System, w: WorkerId): nat {
    if w in sys.runs then StepsLeft(sys.runs[w].phase) else 0
  }

  /** The action lets the run of the worker go on, or breaks it off; the rows that a validation reads are those of the database. */
  ghost predicate Moves(sys: System, a: Action, w: WorkerId) {
    && w in sys.runs
    && match a
       case Step(v, i, _) => v == w && (sys.runs[w].phase.Validating? ==> ValidationRead(sys.db, sys.runs[w].claimed, i.rows))
       case Abort(v, _) => v == w
       case Crash(v) => v == w
       case _ => false
  }

  /** Every step shortens the run that takes it and no other action lengthens one, so a run ends within fifteen steps. */
  lemma EveryRunEnds(s: Settings, sys: System, a: Action, w: WorkerId)
    requires w in sys.runs
    ensures Left(Next(s, sys, a), w) <= Left(sys, w) <= 15
    ensures Moves(sys, a, w) ==> Left(Next(s, sys, a), w) < Left(sys, w)
  {
    hide StepRun, Raise, ValidationRead, Claim, Reindex, SelectRepository, ApplyPush, ApplyRepositoryMetadata, Attach, Heartbeat, Stage,
         RecoverAbandoned, RecordEnqueue, MarkEnqueued;
    match a
    case Step(v, i, _) =>
      if v in sys.runs {
        StepShortens(s, sys.db, sys.now, v, sys.runs[v], i);
        RaiseShortens(sys.runs[v], true);
      }
    case Abort(v, retryable) => if v in sys.runs { RaiseShortens(sys.runs[v], retryable); }
    case _ =>
  }

  // ---------------------------------------------------------------- workers that live and workers that do not

  /** A worker that beats within the abandonment time keeps its job through recovery. */
  lemma BeatingKeepsTheJob(s: Settings, sys: System, w: WorkerId, elapsed: nat)
    requires w in sys.runs && Held(sys.db, sys.runs[w].claimed, w) && elapsed <= s.abandonedAfter
    ensures var c := sys.runs[w].claimed;
            var sys' := Next(s, Next(s, Next(s, sys, Beat(w)), Tick(elapsed)), Recover);
            && w in sys'.runs && sys'.runs[w] == sys.runs[w] && Held(sys'.db, c, w)
            && sys'.db.jobs[c.job].attempt == sys.db.jobs[c.job].attempt
  {
  }

  /** The job of a worker that is gone is taken from it once its heartbeat is old: queued again at once, or failed for good. */
  lemma CrashedJobIsReleased(s: Settings, sys: System, w: WorkerId, elapsed: nat)
    requires w in sys.runs && Held(sys.db, sys.runs[w].claimed, w)
    requires var beat := sys.db.jobs[sys.runs[w].claimed.job].heartbeatAt;
             beat.Some? ==> beat.value + s.abandonedAfter < sys.now + elapsed
    ensures var j := sys.runs[w].claimed.job;
            var sys' := Next(s, Next(s, Next(s, sys, Crash(w)), Tick(elapsed)), Recover);
            var job := sys'.db.jobs[j];
            && w !in sys'.runs && j in sys'.db.jobs && job.lockedBy == None && job.attempt == sys.db.jobs[j].attempt
            && (if job.attempt < s.maxAttempts then job.status.Retrying? && job.nextAttemptAt == Some(sys'.now) else job.status.Failed?)
  {
  }

  /** A job that was put on the queue is not due again before the abandonment time is over. */
  lemma EnqueuedJobRests(s: Settings, sys: System, j: JobId, later: Time)
    requires j in sys.db.jobs && later <= sys.now + s.abandonedAfter
    ensures var sys' := Next(s, sys, Enqueue(j)); j in sys'.db.jobs && !Due(s, sys'.db.jobs[j], later)
  {
  }

  /** A first delivery of a push to the default branch of a visible repository, for a new commit, queues a job for that commit. */
  lemma RelevantPushIsQueued(s: Settings, sys: System, delivery: string, r: RepositoryId, j: JobId, e: PushEvent)
    requires delivery !in sys.deliveries && j !in sys.db.jobs && r in sys.db.repositories
    requires var row := sys.db.repositories[r];
             && !row.revoked && !row.deleted && e.branch == row.defaultBranch && !e.deleted && e.after != ZERO_COMMIT
             && row.lastIndexedCommit != Some(e.after)
    requires forall k :: k in sys.db.jobs && sys.db.jobs[k].repository == r && sys.db.jobs[k].targetCommit == Some(e.after) ==>
               sys.db.jobs[k].status.Complete? || sys.db.jobs[k].status.Failed? || sys.db.jobs[k].status.Cancelled?
    ensures var sys' := Next(s, sys, Deliver(delivery, r, j, Push(e)));
            && delivery in sys'.deliveries && j in sys'.db.jobs && sys'.db.jobs[j].status.Queued?
            && sys'.db.jobs[j].repository == r && sys'.db.jobs[j].targetCommit == Some(e.after)
            && sys'.db.jobs[j].generation == sys'.db.repositories[r].generation == sys.db.repositories[r].generation + 1
  {
  }
}
