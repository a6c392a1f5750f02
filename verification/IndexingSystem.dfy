/**
 * Workers, job creators and the clock as one transition system. A worker's run (worker.py) is a
 * program counter; each of its store calls is one step, and the steps of all workers interleave.
 * A worker starts a run only when it has none (worker.py:95-101), but a run whose claim was
 * recovered and handed to another worker goes on as a zombie.
 */
module IndexingSystem {
  import opened Common
  import opened IndexingRows
  import opened T = IndexingTransitions
  import CallGraph

  // ---------------------------------------------------------------- runs

  /** What follows the cleanup of an inactive build. */
  datatype AfterCleanup = ThenStale | ThenCancel | ThenFail(retryable: bool)

  datatype Phase =
    | Authorizing
    | CheckingCurrent
    | Analyzing
    | CheckingScope
    | CountingVectors
    | Validating
    | Readying
    | Rechecking
    | Reauthorizing
    | Activating
    | CleaningSuperseded(previous: nat)
    | CheckingCleanup(after: AfterCleanup)
    | RecordingCleanup(after: AfterCleanup)
    | Staling
    | Cancelling
    | Failing(retryable: bool)

  datatype RunState = RunState(
    claimed: ClaimedJob, context: Option<JobContext>, commit: Commit, prepared: bool, phase: Phase)

  predicate WellFormed(run: RunState) {
    run.context.Some? || run.phase.Authorizing? || run.phase.Cancelling? || run.phase.Failing?
  }

  type Run = run: RunState | WellFormed(run) witness RunState(ClaimedJob(0, 0, 0), None, "", false, Authorizing)

  /** What a step may learn from outside the store. */
  datatype Input = Input(
    membership: bool, commit: Commit, processing: Processing, embedded: nat, vectors: nat,
    rows: seq<CallGraph.Edge>, vectorsDeleted: bool, jitter: nat)

  datatype Event =
    | Claimed(job: JobId, attempt: nat)
    | Backoff(job: JobId, delay: nat)
    | Activated(repository: RepositoryId, version: nat, job: JobId, generation: nat, branch: Branch)

  datatype Outcome = Outcome(db: Db, next: Option<Run>, events: seq<Event>)

  /** The exception handlers of `_run_claimed`; an exception inside a handler ends the run. */
  function Raise(run: Run, retryable: bool): Option<Run> {
    match run.phase
    case Failing(_) => None
    case CleaningSuperseded(_) => None
    case CheckingCleanup(ThenFail(_)) => None
    case RecordingCleanup(ThenFail(_)) => None
    case _ =>
      if run.context.Some? && run.prepared then Some(run.(phase := CheckingCleanup(ThenFail(retryable))))
      else Some(run.(phase := Failing(retryable)))
  }

  function Resume(run: Run, after: AfterCleanup, complete: bool): Run
    requires run.context.Some?
  {
    match after
    case ThenStale => run.(phase := Staling)
    case ThenCancel => run.(phase := Cancelling)
    case ThenFail(retryable) => run.(phase := Failing(retryable || !complete))
  }

  predicate TargetAlreadyActive(context: JobContext, commit: Commit) {
    && context.activeCommit == Some(commit) && context.indexedBranch == Some(context.defaultBranch)
    && context.requestedMode == Incremental
  }

  /** The result of a store call that may fail: go on in `phase`, or raise. */
  function Checked(db: Db, run: Run, result: Result<Db, StoreError>, next: Run): Outcome {
    match result
    case Success(db') => Outcome(db', Some(next), [])
    case Failure(error) => Outcome(db, Raise(run, Retryable(error)), [])
  }

  function AnalyzeStep(db: Db, w: WorkerId, run: Run, i: Input): Outcome
    requires run.context.Some?
  {
    if TargetAlreadyActive(run.context.value, i.commit) then Outcome(db, Some(run.(phase := Staling)), [])
    else Checked(db, run, PrepareBuild(db, run.claimed, w, i.commit, i.processing),
                 run.(commit := i.commit, prepared := true, phase := CheckingScope))
  }

  function ReauthorizeStep(db: Db, run: Run, i: Input): Outcome
    requires run.context.Some?
  {
    var (db', context) := AuthorizedContext(db, run.claimed, i.membership);
    if context.None? then Outcome(db', Some(run.(phase := CheckingCleanup(ThenCancel))), [])
    else if context != run.context then Outcome(db', Raise(run, false), [])
    else Outcome(db', Some(run.(phase := Activating)), [])
  }

  function ActivateStep(db: Db, now: Time, w: WorkerId, run: Run): Outcome
    requires run.context.Some?
  {
    match Activate(db, run.claimed, w, run.commit, now)
    case Failure(error) => Outcome(db, Raise(run, Retryable(error)), [])
    case Success((db', previous)) =>
      var job := db.jobs[run.claimed.job];
      Outcome(db', if previous > 0 then Some(run.(phase := CleaningSuperseded(previous))) else None,
              [Activated(job.repository, job.targetVersion.value, run.claimed.job, job.generation,
                         db.repositories[job.repository].defaultBranch)])
  }

  function FailStep(s: Settings, db: Db, now: Time, w: WorkerId, run: Run, retryable: bool, jitter: nat): Outcome {
    Outcome(Fail(s, db, run.claimed, w, retryable, now, jitter), None,
            if Held(db, run.claimed, w) && ShouldRetry(s, run.claimed, retryable)
            then [Backoff(run.claimed.job, RetryDelay(s, run.claimed.attempt, jitter))] else [])
  }

  function StepRun(s: Settings, db: Db, now: Time, w: WorkerId, run: Run, i: Input): Outcome {
    var c := run.claimed;
    match run.phase
    case Authorizing =>
      var (db', context) := AuthorizedContext(db, c, i.membership);
      Outcome(db', Some(if context.None? then run.(phase := Cancelling)
                        else run.(context := context, phase := CheckingCurrent)), [])
    case CheckingCurrent => Outcome(db, Some(run.(phase := if IsCurrent(db, c, w) then Analyzing else Staling)), [])
    case Analyzing => AnalyzeStep(db, w, run, i)
    case CheckingScope =>
      if CanCleanupInactive(db, run.context.value.repository, run.context.value.version)
      then Outcome(db, Some(run.(phase := CountingVectors)), [])
      else Outcome(db, Raise(run, false), [])
    case CountingVectors =>
      Checked(db, run, RecordVectorCounts(db, c, w, i.embedded, i.vectors), run.(phase := Validating))
    case Validating => Checked(db, run, ValidateGraph(db, c, w, i.rows), run.(phase := Readying))
    case Readying => Checked(db, run, MarkBuildReady(db, c, w), run.(phase := Rechecking))
    case Rechecking =>
      Outcome(db, Some(run.(phase := if IsCurrent(db, c, w) then Reauthorizing else CheckingCleanup(ThenStale))), [])
    case Reauthorizing => ReauthorizeStep(db, run, i)
    case Activating => ActivateStep(db, now, w, run)
    case CleaningSuperseded(previous) =>
      var cleaned := CompleteSupersededCleanup(db, run.context.value.repository, previous);
      Outcome(if i.vectorsDeleted && cleaned.Success? then cleaned.value else db, None, [])
    case CheckingCleanup(after) =>
      if CanCleanupInactive(db, run.context.value.repository, run.context.value.version)
      then Outcome(db, Some(run.(phase := RecordingCleanup(after))), [])
      else Outcome(db, Some(Resume(run, after, false)), [])
    case RecordingCleanup(after) =>
      Outcome(RecordFailedBuildCleanup(db, run.context.value.repository, run.context.value.version, i.vectorsDeleted),
              Some(Resume(run, after, i.vectorsDeleted)), [])
    case Staling => Outcome(Cancel(db, c, w, now), None, [])
    case Cancelling => Outcome(Cancel(db, c, w, now), None, [])
    case Failing(retryable) => FailStep(s, db, now, w, run, retryable, i.jitter)
  }

  // ---------------------------------------------------------------- the system

  datatype System = System(
    db: Db, now: Time, runs: map<WorkerId, Run>, deliveries: set<string>, history: seq<Event>)

  const INITIAL := System(EMPTY_DB, 0, map[], {}, [])

  datatype Webhook = Push(event: PushEvent) | Metadata(branch: Branch)

  datatype Action =
    | Tick(elapsed: nat)
    | RequestReindex(r: RepositoryId, j: JobId)
    | Select(r: RepositoryId, j: JobId)
    | Deliver(delivery: string, r: RepositoryId, j: JobId, webhook: Webhook)
    | AttachPublic(r: RepositoryId, j: JobId, manual: bool, branch: Branch, commit: Commit)
    | Discover(r: RepositoryId, branch: Branch)
    | ChangeAccess(r: RepositoryId, branch: Branch, revoked: bool, deleted: bool)
    | Enqueue(j: JobId)
    | MarkDue(j: JobId)
    | Recover
    | StartRun(w: WorkerId, j: JobId)
    | Beat(w: WorkerId)
    | ReportStage(w: WorkerId, cloned: Option<Commit>)
    | Step(w: WorkerId, input: Input, lost: bool)
    | Abort(w: WorkerId, retryable: bool)
    | Crash(w: WorkerId)

  function WithRun(sys: System, w: WorkerId, next: Option<Run>): System {
    sys.(runs := if next.Some? then sys.runs[w := next.value] else sys.runs - {w})
  }

  /** A job id is never used twice. */
  function Create(sys: System, j: JobId, db: Db): System {
    if j in sys.db.jobs then sys else sys.(db := db)
  }

  /** The delivery row and the effect of the webhook commit together (webhooks.py:145-161). */
  function DeliverWebhook(sys: System, delivery: string, r: RepositoryId, j: JobId, webhook: Webhook): System {
    if delivery in sys.deliveries || j in sys.db.jobs then sys
    else
      sys.(deliveries := sys.deliveries + {delivery},
           db := match webhook
                 case Push(e) => ApplyPush(sys.db, r, j, e, sys.now)
                 case Metadata(branch) => ApplyRepositoryMetadata(sys.db, r, j, branch, sys.now))
  }

  function Start(sys: System, w: WorkerId, j: JobId): System {
    var (db', claimed) := Claim(sys.db, j, w, sys.now);
    if claimed.None? || w in sys.runs then sys
    else
      sys.(db := db', runs := sys.runs[w := RunState(claimed.value, None, "", false, Authorizing)],
           history := sys.history + [Claimed(j, claimed.value.attempt)])
  }

  /** With `lost` the transaction commits but the worker sees an exception. */
  ghost function TakeStep(s: Settings, sys: System, w: WorkerId, i: Input, lost: bool): System {
    if w !in sys.runs then sys
    else
      var run := sys.runs[w];
      if run.phase.Validating? && !ValidationRead(sys.db, run.claimed, i.rows) then sys
      else
        var outcome := StepRun(s, sys.db, sys.now, w, run, i);
        WithRun(sys, w, if lost then Raise(run, true) else outcome.next).(
          db := outcome.db, history := sys.history + outcome.events)
  }

  ghost function Next(s: Settings, sys: System, a: Action): System {
    match a
    case Tick(elapsed) => sys.(now := sys.now + elapsed)
    case RequestReindex(r, j) => Create(sys, j, Reindex(sys.db, r, j, sys.now))
    case Select(r, j) => Create(sys, j, SelectRepository(sys.db, r, j, sys.now))
    case Deliver(delivery, r, j, webhook) => DeliverWebhook(sys, delivery, r, j, webhook)
    case AttachPublic(r, j, manual, branch, commit) => Create(sys, j, Attach(sys.db, r, j, manual, branch, commit, sys.now))
    case Discover(r, branch) =>
      if r in sys.db.repositories then sys else sys.(db := SetRepository(sys.db, r, NewRepository(branch, None)))
    case ChangeAccess(r, branch, revoked, deleted) =>
      if r !in sys.db.repositories then sys
      else sys.(db := SetRepository(sys.db, r, sys.db.repositories[r].(
                        defaultBranch := branch, revoked := revoked, deleted := deleted)))
    case Enqueue(j) => sys.(db := RecordEnqueue(sys.db, j, sys.now))
    case MarkDue(j) => sys.(db := MarkEnqueued(sys.db, j, sys.now))
    case Recover => sys.(db := RecoverAbandoned(s, sys.db, sys.now))
    case StartRun(w, j) => Start(sys, w, j)
    case Beat(w) => if w in sys.runs then sys.(db := Heartbeat(sys.db, sys.runs[w].claimed, w, sys.now)) else sys
    case ReportStage(w, commit) =>
      if w in sys.runs then sys.(db := Stage(sys.db, sys.runs[w].claimed, w, commit, sys.now)) else sys
    case Step(w, i, lost) => TakeStep(s, sys, w, i, lost)
    case Abort(w, retryable) => if w in sys.runs then WithRun(sys, w, Raise(sys.runs[w], retryable)) else sys
    case Crash(w) => WithRun(sys, w, None)
  }

  /** The state after the actions, in any order and number, from `sys`. */
  ghost function Perform(s: Settings, sys: System, actions: seq<Action>): System {
    if actions == [] then sys
    else Next(s, Perform(s, sys, actions[..|actions| - 1]), actions[|actions| - 1])
  }
}
