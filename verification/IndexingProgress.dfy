/**
 * Progress: a run that nothing disturbs activates the next version, whether the job is new or its
 * slot was left behind by an attempt that failed.
 */
module IndexingProgress {
  import opened Common
  import opened IndexingRows
  import opened T = IndexingTransitions
  import opened I = IndexingInvariants
  import opened IndexingSystem
  import opened IndexingRuns
  import opened IndexingTheorems
  import CallGraph
  import CallGraphTheorems

  /** The job and repository rows during the run; the remote commit may change. */
  ghost predicate RowsAre(db: Db, c: ClaimedJob, job: Job, repository: Repository) {
    && c.job in db.jobs && db.jobs[c.job] == job
    && c.repository in db.repositories
    && db.repositories[c.repository].(remoteCommit := None) == repository.(remoteCommit := None)
    && (repository.indexVersion > 0 ==> PreviousActive(db, c.repository, repository.indexVersion))
  }

  predicate Holder(c: ClaimedJob, w: WorkerId, job: Job, repository: Repository) {
    && job.status.Running? && job.lockedBy == Some(w) && job.repository == c.repository
    && Fresh(job, repository) && !repository.revoked && !repository.deleted
  }

  predicate Targets(job: Job, repository: Repository) {
    job.targetVersion == Some(repository.indexVersion + 1)
  }

  function ContextOf(c: ClaimedJob, job: Job, repository: Repository): JobContext {
    JobContext(c.job, job.repository, repository.defaultBranch, repository.indexVersion + 1, job.generation,
               repository.indexVersion, repository.lastIndexedCommit, repository.indexedBranch,
               if job.requestedMode.Some? then job.requestedMode.value else Full)
  }

  /** What an undisturbed run is given: an analysis that may be stored, its counts, and an ordered read of its edges. */
  ghost predicate GoodInput(c: ClaimedJob, job: Job, repository: Repository, i: Input) {
    var p := i.processing;
    && i.membership && i.commit == p.commit && p.repository == c.repository && p.version == repository.indexVersion + 1
    && InsertOk(p) && i.embedded == p.chunkCount && i.vectors == p.chunkCount
    && CallGraphTheorems.OrderedRead(i.rows, EdgesAt(RowsOf(p), p.commit)) && CallGraph.Summarize(i.rows) == p.graph
    && !TargetAlreadyActive(ContextOf(c, job, repository), i.commit)
  }

  ghost predicate BuildIs(db: Db, c: ClaimedJob, repository: Repository, b: Build) {
    var slot := Slot(c.repository, repository.indexVersion + 1);
    slot in db.builds && db.builds[slot] == b
  }

  // ---------------------------------------------------------------- transactions of the run

  lemma ClaimSucceeds(db: Db, j: JobId, w: WorkerId, now: Time)
    requires j in db.jobs && Claimable(db.jobs[j], now) && !RepositoryBusy(db, db.jobs[j].repository)
    requires db.jobs[j].repository in db.repositories
    ensures var (db', claimed) := Claim(db, j, w, now);
            && claimed == Some(ClaimedJob(j, db.jobs[j].repository, db.jobs[j].attempt + 1))
            && db'.repositories == db.repositories && db'.builds == db.builds && db'.graphs == db.graphs
            && db'.jobs == db.jobs[j := db.jobs[j].(status := Running, attempt := db.jobs[j].attempt + 1, lockedBy := Some(w),
                                                     heartbeatAt := Some(now), nextAttemptAt := None)]
  {
  }

  lemma ContextSucceeds(db: Db, c: ClaimedJob, w: WorkerId, job: Job, repository: Repository)
    requires RowsAre(db, c, job, repository) && Holder(c, w, job, repository)
    requires job.targetVersion == None || Targets(job, repository)
    ensures var targeted := job.(targetVersion := Some(repository.indexVersion + 1));
            var (db', context) := AuthorizedContext(db, c, true);
            && context == Some(ContextOf(c, job, repository)) && ContextOf(c, targeted, repository) == ContextOf(c, job, repository)
            && RowsAre(db', c, targeted, repository) && Holder(c, w, targeted, repository) && Targets(targeted, repository)
            && db'.builds == db.builds && db'.graphs == db.graphs && db'.jobs == db.jobs[c.job := targeted]
  {
  }

  lemma RunIsCurrent(db: Db, c: ClaimedJob, w: WorkerId, job: Job, repository: Repository)
    requires RowsAre(db, c, job, repository) && Holder(c, w, job, repository)
    ensures IsCurrent(db, c, w)
    ensures CanCleanupInactive(db, c.repository, repository.indexVersion + 1)
  {
  }

  lemma PrepareSucceeds(db: Db, c: ClaimedJob, w: WorkerId, job: Job, repository: Repository, commit: Commit, p: Processing)
    requires RowsAre(db, c, job, repository) && Holder(c, w, job, repository) && Targets(job, repository)
    requires p.commit == commit && p.repository == c.repository && p.version == repository.indexVersion + 1 && InsertOk(p)
    requires var slot := Slot(c.repository, p.version);
             && (slot in db.builds ==> db.builds[slot].owner == Some(c.job)) && !OwnsAnotherBuild(db, c.job, slot)
    ensures var r := PrepareBuild(db, c, w, commit, p);
            && r.Success? && RowsAre(r.value, c, job, repository)
            && BuildIs(r.value, c, repository, FreshBuild(p, c.job))
            && RowsAt(r.value, Slot(c.repository, p.version)) == RowsOf(p)
  {
    hide InsertOk, OwnsAnotherBuild, RowsOf;
  }

  lemma CountsSucceed(db: Db, c: ClaimedJob, w: WorkerId, job: Job, repository: Repository, b: Build, embedded: nat, vectors: nat)
    requires RowsAre(db, c, job, repository) && Holder(c, w, job, repository) && Targets(job, repository)
    requires BuildIs(db, c, repository, b) && b.owner == Some(c.job) && b.state == Building
    ensures var r := RecordVectorCounts(db, c, w, embedded, vectors);
            && r.Success? && RowsAre(r.value, c, job, repository) && r.value.graphs == db.graphs
            && BuildIs(r.value, c, repository, b.(embeddedChunks := embedded, vectorCount := vectors))
  {
  }

  lemma ValidationSucceeds(db: Db, c: ClaimedJob, w: WorkerId, job: Job, repository: Repository, b: Build, rows: seq<CallGraph.Edge>)
    requires RowsAre(db, c, job, repository) && Holder(c, w, job, repository) && Targets(job, repository)
    requires BuildIs(db, c, repository, b) && b.owner == Some(c.job) && b.state == Building
    requires CallGraph.Summarize(rows) == b.graph
    requires CallGraphTheorems.OrderedRead(rows, EdgesAt(RowsAt(db, Slot(c.repository, repository.indexVersion + 1)), b.commit))
    ensures ValidationRead(db, c, rows)
    ensures var r := ValidateGraph(db, c, w, rows);
            && r.Success? && RowsAre(r.value, c, job, repository) && r.value.graphs == db.graphs
            && BuildIs(r.value, c, repository, b.(graphValidated := true))
  {
    hide CallGraph.Summarize, CallGraphTheorems.OrderedRead;
  }

  lemma ReadySucceeds(db: Db, c: ClaimedJob, w: WorkerId, job: Job, repository: Repository, b: Build)
    requires RowsAre(db, c, job, repository) && Holder(c, w, job, repository) && Targets(job, repository)
    requires BuildIs(db, c, repository, b) && b.owner == Some(c.job) && b.state == Building && Publishable(b)
    ensures var r := MarkBuildReady(db, c, w);
            && r.Success? && RowsAre(r.value, c, job, repository) && BuildIs(r.value, c, repository, b.(state := Ready))
  {
  }

  lemma ActivationSucceeds(db: Db, c: ClaimedJob, w: WorkerId, job: Job, repository: Repository, b: Build, now: Time)
    requires RowsAre(db, c, job, repository) && Holder(c, w, job, repository) && Targets(job, repository)
    requires BuildIs(db, c, repository, b) && b.owner == Some(c.job) && b.state == Ready && Publishable(b)
    ensures var r := Activate(db, c, w, b.commit, now);
            && r.Success? && c.repository in r.value.0.repositories && c.job in r.value.0.jobs
            && r.value.0.repositories[c.repository].indexVersion == repository.indexVersion + 1
            && r.value.0.repositories[c.repository].lastIndexedCommit == Some(b.commit)
            && r.value.0.jobs[c.job].status.Complete?
  {
  }

  // ---------------------------------------------------------------- steps of the run

  /** The worker takes `k` steps. */
  ghost function StepTimes(s: Settings, sys: System, w: WorkerId, i: Input, k: nat): System {
    if k == 0 then sys else Next(s, StepTimes(s, sys, w, i, k - 1), Step(w, i, false))
  }

  ghost predicate At(sys: System, w: WorkerId, db: Db, run: Run, now: Time) {
    sys.db == db && w in sys.runs && sys.runs[w] == run && sys.now == now
  }

  lemma OneStep(s: Settings, sys: System, w: WorkerId, i: Input, k: nat, db: Db, run: Run, now: Time, db': Db, next: Run)
    requires At(StepTimes(s, sys, w, i, k), w, db, run, now)
    requires run.phase.Validating? ==> ValidationRead(db, run.claimed, i.rows)
    requires StepRun(s, db, now, w, run, i).db == db' && StepRun(s, db, now, w, run, i).next == Some(next)
    ensures At(StepTimes(s, sys, w, i, k + 1), w, db', next, now)
  {
    hide StepRun, ValidationRead, Raise;
  }

  /** From the start of the run to the analyzed checkout. */
  lemma ReachAnalysis(s: Settings, sys: System, w: WorkerId, i: Input, c: ClaimedJob, job: Job, repository: Repository, db: Db, now: Time)
    requires At(sys, w, db, RunState(c, None, "", false, Authorizing), now) && i.membership
    requires RowsAre(db, c, job, repository) && Holder(c, w, job, repository)
    requires job.targetVersion == None || Targets(job, repository)
    ensures At(StepTimes(s, sys, w, i, 2), w, AuthorizedContext(db, c, true).0,
               RunState(c, Some(ContextOf(c, job, repository)), "", false, Analyzing), now)
  {
    var targeted := job.(targetVersion := Some(repository.indexVersion + 1));
    var ctx := ContextOf(c, job, repository);
    ContextSucceeds(db, c, w, job, repository);
    var db' := AuthorizedContext(db, c, true).0;
    RunIsCurrent(db', c, w, targeted, repository);
    hide AuthorizedContext, IsCurrent, RowsAre, Holder, ContextOf, At, Next;
    assert StepTimes(s, sys, w, i, 0) == sys;
    OneStep(s, sys, w, i, 0, db, RunState(c, None, "", false, Authorizing), now, db', RunState(c, Some(ctx), "", false, CheckingCurrent));
    OneStep(s, sys, w, i, 1, db', RunState(c, Some(ctx), "", false, CheckingCurrent), now, db',
            RunState(c, Some(ctx), "", false, Analyzing));
  }

  /** From the analyzed checkout to the stored, counted build. */
  lemma ReachValidation(s: Settings, sys: System, w: WorkerId, i: Input, c: ClaimedJob, job: Job, repository: Repository, db: Db,
                        now: Time, k: nat) returns (db': Db)
    requires At(StepTimes(s, sys, w, i, k), w, db, RunState(c, Some(ContextOf(c, job, repository)), "", false, Analyzing), now)
    requires RowsAre(db, c, job, repository) && Holder(c, w, job, repository) && Targets(job, repository)
    requires GoodInput(c, job, repository, i)
    requires var slot := Slot(c.repository, repository.indexVersion + 1);
             && (slot in db.builds ==> db.builds[slot].owner == Some(c.job)) && !OwnsAnotherBuild(db, c.job, slot)
    ensures At(StepTimes(s, sys, w, i, k + 3), w, db', RunState(c, Some(ContextOf(c, job, repository)), i.commit, true, Validating), now)
    ensures RowsAre(db', c, job, repository) && RowsAt(db', Slot(c.repository, repository.indexVersion + 1)) == RowsOf(i.processing)
    ensures BuildIs(db', c, repository, FreshBuild(i.processing, c.job).(embeddedChunks := i.embedded, vectorCount := i.vectors))
  {
    hide PrepareBuild, RecordVectorCounts, CanCleanupInactive, RowsAre, At, StepTimes, OwnsAnotherBuild, TargetAlreadyActive,
         BuildIs, InsertOk, Publishable, CallGraph.Summarize, CallGraphTheorems.OrderedRead;
    var ctx := ContextOf(c, job, repository);
    PrepareSucceeds(db, c, w, job, repository, i.commit, i.processing);
    var db1 := PrepareBuild(db, c, w, i.commit, i.processing).value;
    RunIsCurrent(db1, c, w, job, repository);
    CountsSucceed(db1, c, w, job, repository, FreshBuild(i.processing, c.job), i.embedded, i.vectors);
    db' := RecordVectorCounts(db1, c, w, i.embedded, i.vectors).value;
    assert !TargetAlreadyActive(ctx, i.commit);
    hide ContextOf, Holder, Targets, GoodInput, FreshBuild;
    var run := RunState(c, Some(ctx), i.commit, true, CheckingScope);
    OneStep(s, sys, w, i, k, db, RunState(c, Some(ctx), "", false, Analyzing), now, db1, run);
    OneStep(s, sys, w, i, k + 1, db1, run, now, db1, run.(phase := CountingVectors));
    OneStep(s, sys, w, i, k + 2, db1, run.(phase := CountingVectors), now, db', run.(phase := Validating));
  }

  lemma SameContext(db: Db, c: ClaimedJob, w: WorkerId, job: Job, repository: Repository)
    requires RowsAre(db, c, job, repository) && Holder(c, w, job, repository) && Targets(job, repository)
    ensures AuthorizedContext(db, c, true) == (db, Some(ContextOf(c, job, repository)))
  {
    assert db.jobs[c.job := db.jobs[c.job].(targetVersion := db.jobs[c.job].targetVersion)] == db.jobs;
  }

  /** From the counted build to the reauthorized, ready one. */
  lemma ReachActivation(s: Settings, sys: System, w: WorkerId, i: Input, c: ClaimedJob, job: Job, repository: Repository, db: Db,
                        now: Time, k: nat, b: Build) returns (db': Db)
    requires At(StepTimes(s, sys, w, i, k), w, db, RunState(c, Some(ContextOf(c, job, repository)), i.commit, true, Validating), now)
    requires RowsAre(db, c, job, repository) && Holder(c, w, job, repository) && Targets(job, repository) && i.membership
    requires BuildIs(db, c, repository, b) && b.owner == Some(c.job) && b.state == Building
    requires b.expectedChunks == b.embeddedChunks == b.vectorCount && CallGraph.Summarize(i.rows) == b.graph
    requires CallGraphTheorems.OrderedRead(i.rows, EdgesAt(RowsAt(db, Slot(c.repository, repository.indexVersion + 1)), b.commit))
    ensures At(StepTimes(s, sys, w, i, k + 4), w, db', RunState(c, Some(ContextOf(c, job, repository)), i.commit, true, Activating), now)
    ensures RowsAre(db', c, job, repository) && BuildIs(db', c, repository, b.(graphValidated := true, state := Ready))
  {
    hide ValidateGraph, MarkBuildReady, IsCurrent, AuthorizedContext, ValidationRead, RowsAre, Holder, Targets, ContextOf, At, StepTimes,
         BuildIs, CallGraph.Summarize, CallGraphTheorems.OrderedRead;
    var ctx := ContextOf(c, job, repository);
    ValidationSucceeds(db, c, w, job, repository, b, i.rows);
    var db1 := ValidateGraph(db, c, w, i.rows).value;
    ReadySucceeds(db1, c, w, job, repository, b.(graphValidated := true));
    db' := MarkBuildReady(db1, c, w).value;
    RunIsCurrent(db', c, w, job, repository);
    SameContext(db', c, w, job, repository);
    var run := RunState(c, Some(ctx), i.commit, true, Validating);
    OneStep(s, sys, w, i, k, db, run, now, db1, run.(phase := Readying));
    OneStep(s, sys, w, i, k + 1, db1, run.(phase := Readying), now, db', run.(phase := Rechecking));
    OneStep(s, sys, w, i, k + 2, db', run.(phase := Rechecking), now, db', run.(phase := Reauthorizing));
    OneStep(s, sys, w, i, k + 3, db', run.(phase := Reauthorizing), now, db', run.(phase := Activating));
  }

  lemma LastStep(s: Settings, sys: System, w: WorkerId, i: Input, k: nat, db: Db, run: Run, now: Time)
    requires At(StepTimes(s, sys, w, i, k), w, db, run, now) && run.phase.Activating?
    requires Activate(db, run.claimed, w, run.commit, now).Success?
    ensures StepTimes(s, sys, w, i, k + 1).db == Activate(db, run.claimed, w, run.commit, now).value.0
  {
    hide Activate;
  }

  /** The state in which the run starts, and why its job can reach its slot. */
  ghost predicate CanStart(s: Settings, sys: System, w: WorkerId, j: JobId) {
    && SystemOk(s, sys) && w !in sys.runs && j in sys.db.jobs
    && var job := sys.db.jobs[j];
       && Claimable(job, sys.now) && !RepositoryBusy(sys.db, job.repository) && Visible(sys.db, job.repository)
       && var repository := sys.db.repositories[job.repository];
          var slot := Slot(job.repository, repository.indexVersion + 1);
          && Fresh(job, repository) && (job.targetVersion == None || Targets(job, repository))
          && (slot in sys.db.builds ==> sys.db.builds[slot].owner == Some(j))
  }

  lemma NoOtherBuild(m: nat, db: Db, j: JobId, slot: Slot)
    requires Inv(m, db) && j in db.jobs && slot.repository == db.jobs[j].repository
    requires db.jobs[j].targetVersion == None || db.jobs[j].targetVersion == Some(slot.version)
    ensures !OwnsAnotherBuild(db, j, slot)
  {
    forall other | other in db.builds && db.builds[other].owner == Some(j) ensures other == slot {
      assert OwnerOk(db.builds[other], other, db.jobs);
    }
  }

  lemma ServedIsActive(m: nat, db: Db, r: RepositoryId)
    requires Inv(m, db) && r in db.repositories && db.repositories[r].indexVersion > 0
    ensures PreviousActive(db, r, db.repositories[r].indexVersion)
  {
    assert RepositoryOk(r, db.repositories[r], db.builds);
    assert StateOk(db.builds[Slot(r, db.repositories[r].indexVersion)], db.repositories[r].indexVersion, db.repositories[r].indexVersion);
  }

  lemma SlotStaysFree(a: Db, b: Db, j: JobId, slot: Slot)
    requires a.builds == b.builds && !OwnsAnotherBuild(a, j, slot)
    ensures !OwnsAnotherBuild(b, j, slot)
  {
  }

  lemma InputStaysGood(c: ClaimedJob, a: Job, b: Job, repository: Repository, i: Input)
    requires GoodInput(c, a, repository, i)
    requires (a.repository, a.generation, a.requestedMode) == (b.repository, b.generation, b.requestedMode)
    ensures GoodInput(c, b, repository, i)
  {
    hide InsertOk, CallGraph.Summarize, CallGraphTheorems.OrderedRead;
  }

  lemma RunActivates(s: Settings, start: System, w: WorkerId, i: Input, c: ClaimedJob, job: Job, repository: Repository, db: Db, now: Time)
    requires At(start, w, db, RunState(c, None, "", false, Authorizing), now)
    requires RowsAre(db, c, job, repository) && Holder(c, w, job, repository) && GoodInput(c, job, repository, i)
    requires job.targetVersion == None || Targets(job, repository)
    requires var slot := Slot(c.repository, repository.indexVersion + 1);
             && (slot in db.builds ==> db.builds[slot].owner == Some(c.job)) && !OwnsAnotherBuild(db, c.job, slot)
    ensures var end := StepTimes(s, start, w, i, 10).db;
            && c.repository in end.repositories && end.repositories[c.repository].indexVersion == repository.indexVersion + 1
            && end.repositories[c.repository].lastIndexedCommit == Some(i.commit)
            && c.job in end.jobs && end.jobs[c.job].status.Complete?
  {
    hide RowsAre, Holder, Targets, At, StepTimes, Next, AuthorizedContext, InsertOk, OwnsAnotherBuild, CallGraph.Summarize,
         CallGraphTheorems.OrderedRead, TargetAlreadyActive, BuildIs, ContextOf, RowsOf, EdgesAt, StepRun, Activate;
    var slot := Slot(c.repository, repository.indexVersion + 1);
    var targeted := job.(targetVersion := Some(repository.indexVersion + 1));
    ContextSucceeds(db, c, w, job, repository);
    var db1 := AuthorizedContext(db, c, true).0;
    InputStaysGood(c, job, targeted, repository, i);
    ReachAnalysis(s, start, w, i, c, job, repository, db, now);
    SlotStaysFree(db, db1, c.job, slot);
    var db2 := ReachValidation(s, start, w, i, c, targeted, repository, db1, now, 2);
    var counted := FreshBuild(i.processing, c.job).(embeddedChunks := i.embedded, vectorCount := i.vectors);
    var db3 := ReachActivation(s, start, w, i, c, targeted, repository, db2, now, 5, counted);
    ActivationSucceeds(db3, c, w, targeted, repository, counted.(graphValidated := true, state := Ready), now);
    LastStep(s, start, w, i, 9, db3, RunState(c, Some(ContextOf(c, targeted, repository)), i.commit, true, Activating), now);
  }

  lemma StartFacts(s: Settings, sys: System, r: RepositoryId, j: JobId, slot: Slot)
    requires SystemOk(s, sys) && r in sys.db.repositories && j in sys.db.jobs
    requires slot.repository == r && sys.db.jobs[j].repository == r
    requires sys.db.jobs[j].targetVersion == None || sys.db.jobs[j].targetVersion == Some(slot.version)
    ensures sys.db.repositories[r].indexVersion > 0 ==> PreviousActive(sys.db, r, sys.db.repositories[r].indexVersion)
    ensures !OwnsAnotherBuild(sys.db, j, slot)
  {
    hide Inv;
    if sys.db.repositories[r].indexVersion > 0 { ServedIsActive(s.maxAttempts, sys.db, r); }
    NoOtherBuild(s.maxAttempts, sys.db, j, slot);
  }

  lemma RunStarts(s: Settings, sys: System, w: WorkerId, j: JobId) returns (db: Db, job: Job)
    requires CanStart(s, sys, w, j)
    ensures var before := sys.db.jobs[j];
            var r := before.repository;
            var repository := sys.db.repositories[r];
            var slot := Slot(r, repository.indexVersion + 1);
            var c := ClaimedJob(j, r, before.attempt + 1);
            && At(Next(s, sys, StartRun(w, j)), w, db, RunState(c, None, "", false, Authorizing), sys.now)
            && RowsAre(db, c, job, repository) && Holder(c, w, job, repository)
            && (job.targetVersion == None || Targets(job, repository))
            && (slot in db.builds ==> db.builds[slot].owner == Some(j)) && !OwnsAnotherBuild(db, j, slot)
            && (before.repository, before.generation, before.requestedMode) == (job.repository, job.generation, job.requestedMode)
  {
    hide SystemOk;
    var r := sys.db.jobs[j].repository;
    var repository := sys.db.repositories[r];
    var slot := Slot(r, repository.indexVersion + 1);
    ClaimSucceeds(sys.db, j, w, sys.now);
    db := Claim(sys.db, j, w, sys.now).0;
    job := db.jobs[j];
    StartFacts(s, sys, r, j, slot);
    SlotStaysFree(sys.db, db, j, slot);
    hide Claim, OwnsAnotherBuild;
  }

  lemma GoodRunActivates(s: Settings, sys: System, w: WorkerId, j: JobId, i: Input)
    requires CanStart(s, sys, w, j)
    requires var job := sys.db.jobs[j];
             GoodInput(ClaimedJob(j, job.repository, job.attempt + 1), job, sys.db.repositories[job.repository], i)
    ensures var r := sys.db.jobs[j].repository;
            var end := StepTimes(s, Next(s, sys, StartRun(w, j)), w, i, 10).db;
            && r in end.repositories && end.repositories[r].indexVersion == sys.db.repositories[r].indexVersion + 1
            && end.repositories[r].lastIndexedCommit == Some(i.commit)
            && j in end.jobs && end.jobs[j].status.Complete?
  {
    hide SystemOk, RowsAre, Holder, Targets, At, StepTimes, Next, OwnsAnotherBuild, GoodInput, RepositoryBusy, Claimable, Fresh;
    var r := sys.db.jobs[j].repository;
    var db, job := RunStarts(s, sys, w, j);
    var c := ClaimedJob(j, r, sys.db.jobs[j].attempt + 1);
    InputStaysGood(c, sys.db.jobs[j], job, sys.db.repositories[r], i);
    RunActivates(s, Next(s, sys, StartRun(w, j)), w, i, c, job, sys.db.repositories[r], db, sys.now);
  }

  /** What the run is given: the analysis of a checkout, its counts, and the rows in an order that the database may choose. */
  ghost predicate CheckoutInput(c: ClaimedJob, job: Job, repository: Repository, i: Input, n: CallGraph.Naming,
                                files: seq<CallGraph.ParsedFile>, symbols: seq<CallGraph.Symbol>) {
    var p := i.processing;
    && i.membership && i.commit == p.commit && p.repository == c.repository && p.version == repository.indexVersion + 1
    && Analyzed(p, n, files, symbols) && i.embedded == p.chunkCount && i.vectors == p.chunkCount
    && CallGraphTheorems.OrderedRead(i.rows, EdgesAt(RowsOf(p), p.commit))
    && !TargetAlreadyActive(ContextOf(c, job, repository), i.commit)
  }

  /** Checkouts in which sites and symbols are told apart by what their hashes are made from. */
  ghost predicate Identifiable(p: Processing, n: CallGraph.Naming, files: seq<CallGraph.ParsedFile>, symbols: seq<CallGraph.Symbol>) {
    && CallGraph.Injective(n) && CallGraph.DistinctSiteKeys(CallGraph.AllSites(files))
    && DistinctSymbols(CallGraph.ContextOf(n, p.repository, p.version, p.commit, files, symbols), symbols)
  }

  lemma CheckoutIsGood(c: ClaimedJob, job: Job, repository: Repository, i: Input, n: CallGraph.Naming,
                       files: seq<CallGraph.ParsedFile>, symbols: seq<CallGraph.Symbol>)
    requires CheckoutInput(c, job, repository, i, n, files, symbols) && Identifiable(i.processing, n, files, symbols)
    ensures GoodInput(c, job, repository, i)
  {
    hide InsertOk, CallGraph.GraphOf, CallGraph.Summarize, CallGraph.DistinctSiteKeys, DistinctSymbols, CallGraph.ContextOf,
         CallGraph.Injective, CallGraphTheorems.OrderedRead, TargetAlreadyActive, ContextOf;
    var p := i.processing;
    AnalyzedRowsAreInsertable(p, n, files, symbols);
    assert EdgesAt(RowsOf(p), p.commit) == set e | e in p.edges;
    CallGraphTheorems.StoreAndValidate(n, p.repository, p.version, p.commit, files, symbols, i.rows);
  }

  /** Ten undisturbed steps after the claim, the next version is active with the commit of the checkout, whatever it holds. */
  lemma UndisturbedRunActivates(s: Settings, sys: System, w: WorkerId, j: JobId, i: Input, n: CallGraph.Naming,
                                files: seq<CallGraph.ParsedFile>, symbols: seq<CallGraph.Symbol>)
    requires CanStart(s, sys, w, j) && Identifiable(i.processing, n, files, symbols)
    requires var job := sys.db.jobs[j];
             CheckoutInput(ClaimedJob(j, job.repository, job.attempt + 1), job, sys.db.repositories[job.repository], i, n, files, symbols)
    ensures var r := sys.db.jobs[j].repository;
            var end := StepTimes(s, Next(s, sys, StartRun(w, j)), w, i, 10).db;
            && r in end.repositories && end.repositories[r].indexVersion == sys.db.repositories[r].indexVersion + 1
            && end.repositories[r].lastIndexedCommit == Some(i.commit)
            && j in end.jobs && end.jobs[j].status.Complete?
  {
    var job := sys.db.jobs[j];
    var c := ClaimedJob(j, job.repository, job.attempt + 1);
    CheckoutIsGood(c, job, sys.db.repositories[job.repository], i, n, files, symbols);
    hide SystemOk, StepTimes, Next, GoodInput, CheckoutInput, Identifiable, Claimable, Fresh, RepositoryBusy;
    GoodRunActivates(s, sys, w, j, i);
  }
}
