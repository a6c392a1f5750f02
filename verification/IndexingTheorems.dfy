/** What holds of every run of the indexing system: any actions, in any order, by any workers. */
module IndexingTheorems {
  import opened Common
  import opened IndexingRows
  import opened T = IndexingTransitions
  import opened I = IndexingInvariants
  import opened IndexingSystem
  import opened IndexingRuns
  import opened IndexingHistory
  import CallGraph
  import CallGraphTheorems

  ghost predicate SystemOk(s: Settings, sys: System) {
    Inv(s.maxAttempts, sys.db) && RunsOk(sys.db, sys.runs) && HistoryOk(s, sys.db, sys.history)
  }

  // ---------------------------------------------------------------- one action

  /** A change of the tables that is neither a claim nor an activation. */
  ghost predicate Quiet(m: nat, a: Db, b: Db) {
    Inv(m, b) && Evolves(m, a, b) && LocksKept(a, b) && VersionsSame(a, b)
  }

  lemma QuietKeeps(s: Settings, sys: System, sys': System)
    requires SystemOk(s, sys) && Quiet(s.maxAttempts, sys.db, sys'.db)
    requires sys'.runs == sys.runs && sys'.history == sys.history
    ensures SystemOk(s, sys') && Evolves(s.maxAttempts, sys.db, sys'.db)
  {
    RunsStayOk(s.maxAttempts, sys.db, sys'.db, sys.runs);
    HistoryStaysOk(s, sys.db, sys'.db, sys.history);
  }

  lemma RowChangeIsQuiet(m: nat, db: Db, r: RepositoryId, row: Repository)
    requires Inv(m, db) && VersionsKept(db, SetRepository(db, r, row)) && row.indexedBranch == IndexedBranchOf(db, r)
    ensures Quiet(m, db, SetRepository(db, r, row))
  {
    RepositoryChangeKeeps(m, db, r, row);
    hide Inv, Evolves;
  }

  /** The creators of jobs: a change of one repository row and at most one new job. */
  ghost predicate CreatorShape(db: Db, db': Db) {
    && (forall j :: j in db.jobs ==> j in db'.jobs && db'.jobs[j] == db.jobs[j])
    && (forall j :: j in db'.jobs && j !in db.jobs ==> db'.jobs[j].attempt == 0)
    && VersionsSame(db, db')
  }

  lemma CreatorIsQuiet(m: nat, db: Db, db': Db)
    requires Inv(m, db') && Evolves(m, db, db') && CreatorShape(db, db')
    ensures Quiet(m, db, db')
  {
    hide Inv, Evolves;
  }

  lemma RowThenJobShape(db: Db, r: RepositoryId, row: Repository, j: JobId, jobType: JobType, mode: Option<Mode>,
                        branch: Option<Branch>, commit: Option<Commit>, now: Time)
    requires j !in db.jobs && row.indexVersion == VersionOf(db, r) && row.indexedBranch == IndexedBranchOf(db, r)
    ensures CreatorShape(db, AddJob(SetRepository(db, r, row), r, j, jobType, mode, branch, commit, now))
    ensures CreatorShape(db, SetRepository(db, r, row))
  {
  }

  lemma SelectShape(db: Db, r: RepositoryId, j: JobId, now: Time)
    requires j !in db.jobs
    ensures CreatorShape(db, SelectRepository(db, r, j, now)) && CreatorShape(db, Reindex(db, r, j, now))
  {
  }

  lemma ReindexIsQuiet(m: nat, db: Db, r: RepositoryId, j: JobId, now: Time)
    requires Inv(m, db) && j !in db.jobs
    ensures Quiet(m, db, Reindex(db, r, j, now))
  {
    ReindexKeeps(m, db, r, j, now);
    SelectShape(db, r, j, now);
    hide Inv, Evolves, CreatorShape, Quiet, Reindex;
    CreatorIsQuiet(m, db, Reindex(db, r, j, now));
  }

  lemma SelectIsQuiet(m: nat, db: Db, r: RepositoryId, j: JobId, now: Time)
    requires Inv(m, db) && j !in db.jobs
    ensures Quiet(m, db, SelectRepository(db, r, j, now))
  {
    SelectKeeps(m, db, r, j, now);
    SelectShape(db, r, j, now);
    hide Inv, Evolves, CreatorShape, Quiet, SelectRepository;
    CreatorIsQuiet(m, db, SelectRepository(db, r, j, now));
  }

  lemma PushCreatorShape(db: Db, r: RepositoryId, j: JobId, e: PushEvent, now: Time)
    requires j !in db.jobs
    ensures CreatorShape(db, ApplyPush(db, r, j, e, now))
  {
    if ApplyPush(db, r, j, e, now) != db {
      PushShape(db, r, j, e, now);
      hide CreatorShape, ApplyPush;
      var full := NeedsFullRebuild(db.repositories[r], e);
      RowThenJobShape(db, r, PushedRow(db.repositories[r], e), j, if full then FullRebuild else IncrementalReindex,
                      Some(if full then Full else Incremental), Some(db.repositories[r].defaultBranch), Some(e.after), now);
    }
  }

  lemma MetadataCreatorShape(db: Db, r: RepositoryId, j: JobId, branch: Branch, now: Time)
    requires j !in db.jobs
    ensures CreatorShape(db, ApplyRepositoryMetadata(db, r, j, branch, now))
  {
    if Visible(db, r) {
      var row := db.repositories[r].(defaultBranch := branch);
      MetadataShape(db, r, j, branch, now);
      hide CreatorShape, ApplyRepositoryMetadata;
      RowThenJobShape(db, r, row, j, FullRebuild, Some(Full), Some(branch), None, now);
      RowThenJobShape(db, r, row.(generation := row.generation + 1), j, FullRebuild, Some(Full), Some(branch), None, now);
    }
  }

  lemma WebhookIsQuiet(m: nat, db: Db, r: RepositoryId, j: JobId, webhook: Webhook, now: Time)
    requires Inv(m, db) && j !in db.jobs
    ensures match webhook
            case Push(e) => Quiet(m, db, ApplyPush(db, r, j, e, now))
            case Metadata(branch) => Quiet(m, db, ApplyRepositoryMetadata(db, r, j, branch, now))
  {
    hide Inv, Evolves, CreatorShape, Quiet, ApplyPush, ApplyRepositoryMetadata;
    match webhook
    case Push(e) =>
      PushKeeps(m, db, r, j, e, now);
      PushCreatorShape(db, r, j, e, now);
      CreatorIsQuiet(m, db, ApplyPush(db, r, j, e, now));
    case Metadata(branch) =>
      MetadataKeeps(m, db, r, j, branch, now);
      MetadataCreatorShape(db, r, j, branch, now);
      CreatorIsQuiet(m, db, ApplyRepositoryMetadata(db, r, j, branch, now));
  }

  lemma AttachCreatorShape(db: Db, r: RepositoryId, j: JobId, manual: bool, branch: Branch, commit: Commit, now: Time)
    requires j !in db.jobs
    ensures CreatorShape(db, Attach(db, r, j, manual, branch, commit, now))
  {
    var row := Attached(db, r, branch, commit);
    AttachShape(db, r, j, manual, branch, commit, now);
    hide CreatorShape, Attach;
    var bumped := if manual then row.(generation := row.generation + 1) else row;
    RowThenJobShape(db, r, row, j, InitialIndex, None, None, None, now);
    RowThenJobShape(db, r, bumped, j, if manual then ManualReindex else InitialIndex,
                    Some(if manual then Incremental else Full), Some(branch), Some(commit), now);
  }

  lemma AttachIsQuiet(m: nat, db: Db, r: RepositoryId, j: JobId, manual: bool, branch: Branch, commit: Commit, now: Time)
    requires Inv(m, db) && j !in db.jobs
    ensures Quiet(m, db, Attach(db, r, j, manual, branch, commit, now))
  {
    AttachKeeps(m, db, r, j, manual, branch, commit, now);
    AttachCreatorShape(db, r, j, manual, branch, commit, now);
    hide Inv, Evolves, CreatorShape, Quiet, Attach;
    CreatorIsQuiet(m, db, Attach(db, r, j, manual, branch, commit, now));
  }

  lemma EnqueueShape(db: Db, j: JobId, now: Time)
    ensures LocksKept(db, RecordEnqueue(db, j, now)) && VersionsSame(db, RecordEnqueue(db, j, now))
    ensures LocksKept(db, MarkEnqueued(db, j, now)) && VersionsSame(db, MarkEnqueued(db, j, now))
  {
  }

  lemma EnqueueIsQuiet(m: nat, db: Db, j: JobId, now: Time)
    requires Inv(m, db)
    ensures Quiet(m, db, RecordEnqueue(db, j, now)) && Quiet(m, db, MarkEnqueued(db, j, now))
  {
    hide Inv, Evolves, LocksKept, VersionsSame, RecordEnqueue, MarkEnqueued;
    EnqueueKeeps(m, db, j, now);
    MarkEnqueuedKeeps(m, db, j, now);
    EnqueueShape(db, j, now);
  }

  lemma RecoveryShape(s: Settings, db: Db, now: Time)
    ensures LocksKept(db, RecoverAbandoned(s, db, now)) && VersionsSame(db, RecoverAbandoned(s, db, now))
  {
  }

  lemma RecoveryIsQuiet(s: Settings, db: Db, now: Time)
    requires Inv(s.maxAttempts, db)
    ensures Quiet(s.maxAttempts, db, RecoverAbandoned(s, db, now))
  {
    hide Inv, Evolves, LocksKept, VersionsSame, RecoverAbandoned;
    RecoverKeeps(s, db, now);
    RecoveryShape(s, db, now);
  }

  lemma StageShape(db: Db, c: ClaimedJob, w: WorkerId, commit: Option<Commit>, now: Time)
    ensures LocksKept(db, Heartbeat(db, c, w, now)) && VersionsSame(db, Heartbeat(db, c, w, now))
    ensures LocksKept(db, Stage(db, c, w, commit, now)) && VersionsSame(db, Stage(db, c, w, commit, now))
  {
  }

  lemma StageIsQuiet(m: nat, db: Db, c: ClaimedJob, w: WorkerId, commit: Option<Commit>, now: Time)
    requires Inv(m, db)
    ensures Quiet(m, db, Heartbeat(db, c, w, now)) && Quiet(m, db, Stage(db, c, w, commit, now))
  {
    hide Inv, Evolves, LocksKept, VersionsSame, Heartbeat, Stage;
    HeartbeatKeeps(m, db, c, w, now);
    StageKeeps(m, db, c, w, commit, now);
    StageShape(db, c, w, commit, now);
  }

  lemma CreateKeeps(s: Settings, sys: System, j: JobId, db': Db)
    requires SystemOk(s, sys) && (j !in sys.db.jobs ==> Quiet(s.maxAttempts, sys.db, db'))
    ensures SystemOk(s, Create(sys, j, db')) && Evolves(s.maxAttempts, sys.db, Create(sys, j, db').db)
  {
    hide SystemOk, Evolves, Quiet;
    Unchanged(s.maxAttempts, sys.db);
    if j !in sys.db.jobs { QuietKeeps(s, sys, Create(sys, j, db')); }
  }

  lemma DeliverKeeps(s: Settings, sys: System, delivery: string, r: RepositoryId, j: JobId, webhook: Webhook)
    requires SystemOk(s, sys)
    ensures var sys' := DeliverWebhook(sys, delivery, r, j, webhook);
            SystemOk(s, sys') && Evolves(s.maxAttempts, sys.db, sys'.db)
  {
    hide Inv, RunsOk, HistoryOk, Evolves, Quiet, ApplyPush, ApplyRepositoryMetadata;
    Unchanged(s.maxAttempts, sys.db);
    if delivery !in sys.deliveries && j !in sys.db.jobs {
      WebhookIsQuiet(s.maxAttempts, sys.db, r, j, webhook, sys.now);
      QuietKeeps(s, sys, DeliverWebhook(sys, delivery, r, j, webhook));
    }
  }

  lemma QueueWritesKeep(s: Settings, sys: System, a: Action)
    requires SystemOk(s, sys)
    requires a.Tick? || a.Discover? || a.ChangeAccess? || a.Enqueue? || a.MarkDue? || a.Recover? || a.Beat? || a.ReportStage?
    ensures SystemOk(s, Next(s, sys, a)) && Evolves(s.maxAttempts, sys.db, Next(s, sys, a).db)
  {
    hide RecordEnqueue, MarkEnqueued, RecoverAbandoned, Heartbeat, Stage, Quiet, Evolves, HistoryOk, RunsOk, Inv;
    var m := s.maxAttempts;
    Unchanged(m, sys.db);
    var sys' := Next(s, sys, a);
    if sys'.db != sys.db {
      match a {
        case Discover(r, branch) => RowChangeIsQuiet(m, sys.db, r, NewRepository(branch, None));
        case ChangeAccess(r, branch, revoked, deleted) => RowChangeIsQuiet(m, sys.db, r, sys'.db.repositories[r]);
        case Enqueue(j) => EnqueueIsQuiet(m, sys.db, j, sys.now);
        case MarkDue(j) => EnqueueIsQuiet(m, sys.db, j, sys.now);
        case Recover => RecoveryIsQuiet(s, sys.db, sys.now);
        case Beat(w) => StageIsQuiet(m, sys.db, sys.runs[w].claimed, w, None, sys.now);
        case ReportStage(w, cloned) => StageIsQuiet(m, sys.db, sys.runs[w].claimed, w, cloned, sys.now);
      }
      hide SystemOk;
      QuietKeeps(s, sys, sys');
    }
  }

  lemma StartKeeps(s: Settings, sys: System, w: WorkerId, j: JobId)
    requires ValidSettings(s) && SystemOk(s, sys)
    ensures SystemOk(s, Start(sys, w, j)) && Evolves(s.maxAttempts, sys.db, Start(sys, w, j).db)
  {
    hide Inv, Evolves, HistoryOk, RunOk, Claim;
    Unchanged(s.maxAttempts, sys.db);
    if Claim(sys.db, j, w, sys.now).1.Some? && w !in sys.runs {
      ClaimKeeps(s, sys.db, j, w, sys.now);
      RunsStayOkOnClaim(s.maxAttempts, sys.db, j, w, sys.now, sys.runs);
      HistoryOkOnClaim(s, sys.db, sys.history, j, w, sys.now);
    }
  }

  lemma RaisedRunOk(db: Db, w: WorkerId, run: Run, retryable: bool)
    requires RunOk(db, w, run)
    ensures Raise(run, retryable).Some? ==> RunOk(db, w, Raise(run, retryable).value)
  {
    RaiseFacts(run, retryable);
    hide Raise;
  }

  lemma TakeStepKeeps(s: Settings, sys: System, w: WorkerId, i: Input, lost: bool)
    requires SystemOk(s, sys)
    ensures SystemOk(s, TakeStep(s, sys, w, i, lost)) && Evolves(s.maxAttempts, sys.db, TakeStep(s, sys, w, i, lost).db)
  {
    hide Inv, Evolves, HistoryOk, RunOk, StepRun, LocksKept, Raise, ValidationRead;
    Unchanged(s.maxAttempts, sys.db);
    if w in sys.runs && (sys.runs[w].phase.Validating? ==> ValidationRead(sys.db, sys.runs[w].claimed, i.rows)) {
      var run := sys.runs[w];
      var outcome := StepRun(s, sys.db, sys.now, w, run, i);
      StepKeeps(s, sys.db, sys.now, w, run, i);
      StepKeepsHistory(s, sys.db, sys.now, w, run, i, sys.history);
      StepKeepsLocks(s, sys.db, sys.now, w, run, i);
      NextRunOk(s, sys.db, sys.now, w, run, i);
      RunsStayOk(s.maxAttempts, sys.db, outcome.db, sys.runs);
      RaisedRunOk(outcome.db, w, run, true);
    }
  }

  lemma CreationKeeps(s: Settings, sys: System, a: Action)
    requires SystemOk(s, sys) && (a.RequestReindex? || a.Select? || a.AttachPublic?)
    ensures SystemOk(s, Next(s, sys, a)) && Evolves(s.maxAttempts, sys.db, Next(s, sys, a).db)
  {
    hide Inv, RunsOk, HistoryOk, Evolves, Quiet, Create, Reindex, SelectRepository, Attach;
    var m := s.maxAttempts;
    if a.j !in sys.db.jobs {
      match a {
        case RequestReindex(r, j) => ReindexIsQuiet(m, sys.db, r, j, sys.now);
        case Select(r, j) => SelectIsQuiet(m, sys.db, r, j, sys.now);
        case AttachPublic(r, j, manual, branch, commit) => AttachIsQuiet(m, sys.db, r, j, manual, branch, commit, sys.now);
      }
    }
    match a
    case RequestReindex(r, j) => CreateKeeps(s, sys, j, Reindex(sys.db, r, j, sys.now));
    case Select(r, j) => CreateKeeps(s, sys, j, SelectRepository(sys.db, r, j, sys.now));
    case AttachPublic(r, j, manual, branch, commit) =>
      CreateKeeps(s, sys, j, Attach(sys.db, r, j, manual, branch, commit, sys.now));
  }

  /** One action keeps everything, and the tables evolve. */
  lemma NextKeeps(s: Settings, sys: System, a: Action)
    requires ValidSettings(s) && SystemOk(s, sys)
    ensures SystemOk(s, Next(s, sys, a)) && Evolves(s.maxAttempts, sys.db, Next(s, sys, a).db)
  {
    Unchanged(s.maxAttempts, sys.db);
    hide Inv, Evolves, HistoryOk, RunOk, Raise, Start, TakeStep, DeliverWebhook;
    match a
    case StartRun(w, j) => StartKeeps(s, sys, w, j);
    case Step(w, i, lost) => TakeStepKeeps(s, sys, w, i, lost);
    case Abort(w, retryable) => if w in sys.runs { RaisedRunOk(sys.db, w, sys.runs[w], retryable); }
    case Crash(w) =>
    case Deliver(delivery, r, j, webhook) => DeliverKeeps(s, sys, delivery, r, j, webhook);
    case RequestReindex(_, _) => CreationKeeps(s, sys, a);
    case Select(_, _) => CreationKeeps(s, sys, a);
    case AttachPublic(_, _, _, _, _) => CreationKeeps(s, sys, a);
    case _ => QueueWritesKeep(s, sys, a);
  }

  // ---------------------------------------------------------------- every run

  lemma EmptySystemOk(s: Settings)
    ensures SystemOk(s, INITIAL)
  {
  }

  /** Any number of actions keeps everything, and the tables evolve from the first state to the last. */
  lemma {:induction false} PerformKeeps(s: Settings, sys: System, actions: seq<Action>)
    requires ValidSettings(s) && SystemOk(s, sys)
    ensures SystemOk(s, Perform(s, sys, actions)) && Evolves(s.maxAttempts, sys.db, Perform(s, sys, actions).db)
  {
    hide SystemOk, Evolves, Next;
    if actions == [] {
      Unchanged(s.maxAttempts, sys.db);
    } else {
      var before := actions[..|actions| - 1];
      PerformKeeps(s, sys, before);
      NextKeeps(s, Perform(s, sys, before), actions[|actions| - 1]);
      EvolvesTransitive(s.maxAttempts, sys.db, Perform(s, sys, before).db, Perform(s, sys, actions).db);
    }
  }

  lemma EveryReachableStateIsOk(s: Settings, actions: seq<Action>)
    requires ValidSettings(s)
    ensures SystemOk(s, Perform(s, INITIAL, actions))
  {
    EmptySystemOk(s);
    PerformKeeps(s, INITIAL, actions);
  }

  lemma {:induction false} PerformAppended(s: Settings, sys: System, a: seq<Action>, b: seq<Action>)
    ensures Perform(s, sys, a + b) == Perform(s, Perform(s, sys, a), b)
  {
    hide Next;
    if b == [] {
      assert a + b == a;
    } else {
      PerformAppended(s, sys, a, b[..|b| - 1]);
      assert (a + b)[..|a + b| - 1] == a + b[..|b| - 1];
    }
  }

  lemma PerformOne(s: Settings, sys: System, a: Action)
    ensures Perform(s, sys, [a]) == Next(s, sys, a)
  {
    hide Next;
    assert [a][..0] == [];
  }

  // ---------------------------------------------------------------- the active index

  /** The one active build of an indexed repository is its version, complete, validated and repeated by its row. */
  ghost predicate ActiveIndexOk(db: Db, r: RepositoryId)
    requires r in db.repositories
  {
    var repository := db.repositories[r];
    var n := repository.indexVersion;
    && (n > 0 ==>
          && Slot(r, n) in db.builds
          && var b := db.builds[Slot(r, n)];
             && b.state.Active? && b.graphValidated
             && repository.lastIndexedCommit == Some(b.commit)
             && repository.activeVectorCount == b.expectedChunks == b.embeddedChunks == b.vectorCount)
    && (forall v: nat :: Slot(r, v) in db.builds && db.builds[Slot(r, v)].state.Active? ==> v == n)
    && (forall v: nat :: Slot(r, v) in db.builds && db.builds[Slot(r, v)].state.Superseded? ==> v < n)
  }

  lemma ActiveIndex(s: Settings, actions: seq<Action>, r: RepositoryId)
    requires ValidSettings(s) && r in Perform(s, INITIAL, actions).db.repositories
    ensures ActiveIndexOk(Perform(s, INITIAL, actions).db, r)
  {
    EveryReachableStateIsOk(s, actions);
    var db := Perform(s, INITIAL, actions).db;
    assert RepositoryOk(r, db.repositories[r], db.builds);
  }

  /** However the rows under the active version are read, they give the counts and fingerprint of its build. */
  lemma ServedGraphIsValidatedGraph(s: Settings, actions: seq<Action>, slot: Slot, read: seq<CallGraph.Edge>)
    requires ValidSettings(s)
    requires var db := Perform(s, INITIAL, actions).db;
             && slot in db.builds && db.builds[slot].state.Active?
             && CallGraphTheorems.OrderedRead(read, EdgesAt(RowsAt(db, slot), db.builds[slot].commit))
    ensures var db := Perform(s, INITIAL, actions).db;
            && CallGraph.Summarize(read) == db.builds[slot].graph
            && forall e :: e in read ==> e.caller in RowsAt(db, slot).symbols
                                         && (e.callee.Some? ==> e.callee.value in RowsAt(db, slot).symbols)
  {
    EveryReachableStateIsOk(s, actions);
    var db := Perform(s, INITIAL, actions).db;
    assert StateOk(db.builds[slot], slot.version, db.repositories[slot.repository].indexVersion);
    assert Reproduces(RowsAt(db, slot), db.builds[slot]);
    RowsAtKeysOk(db, slot);
    forall e | e in read
      ensures e.caller in RowsAt(db, slot).symbols && (e.callee.Some? ==> e.callee.value in RowsAt(db, slot).symbols)
    {
      assert e in multiset(read);
    }
  }

  /** Between two states that serve the same version, no action touched its build row or its graph rows. */
  lemma ServedVersionIsNeverTouched(s: Settings, before: seq<Action>, after: seq<Action>, slot: Slot)
    requires ValidSettings(s)
    requires var a := Perform(s, INITIAL, before); slot in a.db.builds && Serves(a.db, slot)
    requires Serves(Perform(s, Perform(s, INITIAL, before), after).db, slot)
    ensures SameSlot(Perform(s, INITIAL, before).db, Perform(s, Perform(s, INITIAL, before), after).db, slot)
  {
    EveryReachableStateIsOk(s, before);
    PerformKeeps(s, Perform(s, INITIAL, before), after);
  }

  // ---------------------------------------------------------------- fencing

  /** No two live runs hold jobs of one repository. */
  lemma OneHolder(s: Settings, actions: seq<Action>, v: WorkerId, w: WorkerId)
    requires ValidSettings(s)
    requires var sys := Perform(s, INITIAL, actions);
             && v in sys.runs && w in sys.runs && sys.runs[v].claimed.repository == sys.runs[w].claimed.repository
             && Held(sys.db, sys.runs[v].claimed, v) && Held(sys.db, sys.runs[w].claimed, w)
    ensures v == w
  {
    EveryReachableStateIsOk(s, actions);
    var sys := Perform(s, INITIAL, actions);
    assert RunOk(sys.db, v, sys.runs[v]) && RunOk(sys.db, w, sys.runs[w]);
  }

  /** The steps that write under the lock of the job. */
  predicate Guarded(phase: Phase) {
    || phase.Analyzing? || phase.CountingVectors? || phase.Validating? || phase.Readying? || phase.Activating?
    || phase.Staling? || phase.Cancelling? || phase.Failing?
  }

  lemma UnheldStepWritesNothing(s: Settings, db: Db, now: Time, w: WorkerId, run: Run, i: Input)
    requires !Held(db, run.claimed, w) && Guarded(run.phase)
    ensures StepRun(s, db, now, w, run, i).db == db
  {
    hide Held;
  }

  /** A run whose job was claimed again writes nothing with them: neither with heartbeats nor with stages. */
  lemma ZombieWritesNothing(s: Settings, actions: seq<Action>, w: WorkerId, i: Input, commit: Option<Commit>)
    requires ValidSettings(s)
    requires var sys := Perform(s, INITIAL, actions);
             && w in sys.runs && sys.runs[w].claimed.attempt != AttemptOf(sys.db, sys.runs[w].claimed.job)
             && Guarded(sys.runs[w].phase)
    ensures var sys := Perform(s, INITIAL, actions);
            && StepRun(s, sys.db, sys.now, w, sys.runs[w], i).db == sys.db
            && Heartbeat(sys.db, sys.runs[w].claimed, w, sys.now) == sys.db
            && Stage(sys.db, sys.runs[w].claimed, w, commit, sys.now) == sys.db
  {
    EveryReachableStateIsOk(s, actions);
    var sys := Perform(s, INITIAL, actions);
    hide Inv, HistoryOk, Perform;
    assert RunOk(sys.db, w, sys.runs[w]);
    assert !Held(sys.db, sys.runs[w].claimed, w);
    UnheldStepWritesNothing(s, sys.db, sys.now, w, sys.runs[w], i);
  }

  // The three writes that do not look at the lock.

  /** The context read writes the target version of any running, visible job without one. */
  predicate WritesTarget(db: Db, run: Run, i: Input) {
    && (run.phase.Authorizing? || run.phase.Reauthorizing?)
    && run.claimed.job in db.jobs
    && var job := db.jobs[run.claimed.job];
       job.status.Running? && job.targetVersion.None? && Visible(db, job.repository) && i.membership
  }

  /** The cleanup of an inactive build fails whatever build is in the slot, unless it is served. */
  predicate WritesFailure(db: Db, run: Run, i: Input) {
    && run.phase.RecordingCleanup?
    && var slot := Slot(run.context.value.repository, run.context.value.version);
       && slot in db.builds && !db.builds[slot].state.Active?
       && (!db.builds[slot].state.BuildFailed?
           || db.builds[slot].cleanup != (if i.vectorsDeleted then Cleaned else CleanupStatus.Pending)
           || (i.vectorsDeleted && slot in db.graphs))
  }

  /** The cleanup of a superseded version deletes what is left of it. */
  predicate WritesCleanup(db: Db, run: Run, i: Input) {
    && run.phase.CleaningSuperseded? && i.vectorsDeleted
    && var slot := Slot(run.context.value.repository, run.phase.previous);
       || slot in db.graphs
       || (slot in db.builds && (db.builds[slot].state.Superseded? || db.builds[slot].state.BuildFailed?)
           && !db.builds[slot].cleanup.Cleaned?)
  }

  lemma OtherPhases(db: Db, run: Run, i: Input)
    ensures WritesTarget(db, run, i) ==> run.phase.Authorizing? || run.phase.Reauthorizing?
    ensures WritesFailure(db, run, i) ==> run.phase.RecordingCleanup?
    ensures WritesCleanup(db, run, i) ==> run.phase.CleaningSuperseded?
  {
  }

  lemma ContextWritesIff(db: Db, run: Run, i: Input)
    requires run.phase.Authorizing? || run.phase.Reauthorizing?
    ensures AuthorizedContext(db, run.claimed, i.membership).0 != db <==> WritesTarget(db, run, i)
  {
    var db' := AuthorizedContext(db, run.claimed, i.membership).0;
    if run.claimed.job in db.jobs && db'.jobs[run.claimed.job] == db.jobs[run.claimed.job] { assert db'.jobs == db.jobs; }
  }

  lemma FailureWritesIff(db: Db, run: Run, i: Input)
    requires run.phase.RecordingCleanup?
    ensures RecordFailedBuildCleanup(db, run.context.value.repository, run.context.value.version, i.vectorsDeleted) != db
            <==> WritesFailure(db, run, i)
  {
    var slot := Slot(run.context.value.repository, run.context.value.version);
    var db' := RecordFailedBuildCleanup(db, slot.repository, slot.version, i.vectorsDeleted);
    if slot in db.builds && !WritesFailure(db, run, i) {
      assert db'.builds == db.builds && db'.graphs == db.graphs;
    }
  }

  lemma CleanupWritesIff(db: Db, w: WorkerId, run: Run, i: Input)
    requires RunOk(db, w, run) && run.phase.CleaningSuperseded?
    ensures var cleaned := CompleteSupersededCleanup(db, run.context.value.repository, run.phase.previous);
            (i.vectorsDeleted && cleaned.Success? && cleaned.value != db) <==> WritesCleanup(db, run, i)
  {
    var slot := Slot(run.context.value.repository, run.phase.previous);
    var db' := CompleteSupersededCleanup(db, slot.repository, slot.version).value;
    if slot in db.builds && db'.builds[slot] == db.builds[slot] { assert db'.builds == db.builds; }
    if slot !in db.graphs { assert db'.graphs == db.graphs; }
  }

  lemma UnheldStepWritesIff(s: Settings, db: Db, now: Time, w: WorkerId, run: Run, i: Input)
    requires RunOk(db, w, run) && !Held(db, run.claimed, w)
    ensures StepRun(s, db, now, w, run, i).db != db
            <==> WritesTarget(db, run, i) || WritesFailure(db, run, i) || WritesCleanup(db, run, i)
  {
    hide WritesTarget, WritesFailure, WritesCleanup, AuthorizedContext, RecordFailedBuildCleanup, CompleteSupersededCleanup, Resume;
    OtherPhases(db, run, i);
    if Guarded(run.phase) {
      UnheldStepWritesNothing(s, db, now, w, run, i);
    } else {
      match run.phase
      case Authorizing => ContextWritesIff(db, run, i);
      case Reauthorizing => ContextWritesIff(db, run, i);
      case RecordingCleanup(_) => FailureWritesIff(db, run, i);
      case CleaningSuperseded(_) => CleanupWritesIff(db, w, run, i);
      case _ =>
    }
  }

  /** A step of a run whose job was claimed again changes the tables exactly in these three cases. */
  lemma ZombieWritesIff(s: Settings, actions: seq<Action>, w: WorkerId, i: Input)
    requires ValidSettings(s)
    requires var sys := Perform(s, INITIAL, actions);
             w in sys.runs && sys.runs[w].claimed.attempt != AttemptOf(sys.db, sys.runs[w].claimed.job)
    ensures var sys := Perform(s, INITIAL, actions);
            var run := sys.runs[w];
            StepRun(s, sys.db, sys.now, w, run, i).db != sys.db
            <==> WritesTarget(sys.db, run, i) || WritesFailure(sys.db, run, i) || WritesCleanup(sys.db, run, i)
  {
    EveryReachableStateIsOk(s, actions);
    var sys := Perform(s, INITIAL, actions);
    hide Inv, HistoryOk, Perform;
    assert RunOk(sys.db, w, sys.runs[w]);
    assert !Held(sys.db, sys.runs[w].claimed, w);
    UnheldStepWritesIff(s, sys.db, sys.now, w, sys.runs[w], i);
  }

  // ---------------------------------------------------------------- what the checks mean

  /** A run that is told it is current holds the latest claim, and nobody has asked for a later refresh. */
  lemma CurrentRunIsNewest(s: Settings, actions: seq<Action>, w: WorkerId)
    requires ValidSettings(s) && w in Perform(s, INITIAL, actions).runs
    ensures var sys := Perform(s, INITIAL, actions);
            var c := sys.runs[w].claimed;
            && (IsCurrent(sys.db, c, w) ==>
                  && c.job in sys.db.jobs && c.attempt == sys.db.jobs[c.job].attempt
                  && forall k :: k in sys.db.jobs && sys.db.jobs[k].repository == c.repository ==>
                       && sys.db.jobs[k].generation <= sys.db.jobs[c.job].generation
                       && (sys.db.jobs[k].status.Running? ==> k == c.job))
            && (!IsCurrent(sys.db, c, w) ==> forall commit :: !CanActivate(sys.db, c, w, commit))
  {
    EveryReachableStateIsOk(s, actions);
    var sys := Perform(s, INITIAL, actions);
    hide Perform, HistoryOk, BuildsOk, GraphsMatch, RowsOk, RepositoriesOk;
    assert RunOk(sys.db, w, sys.runs[w]);
    var c := sys.runs[w].claimed;
    if IsCurrent(sys.db, c, w) {
      forall k | k in sys.db.jobs && sys.db.jobs[k].repository == c.repository
        ensures sys.db.jobs[k].generation <= sys.db.jobs[c.job].generation && (sys.db.jobs[k].status.Running? ==> k == c.job)
      {
        assert JobOk(s.maxAttempts, sys.db.jobs[k], sys.db.repositories[c.repository]);
      }
    }
  }

  /** Whoever was overtaken by a later refresh is never current again. */
  lemma OvertakenStaysOvertaken(s: Settings, sys: System, after: seq<Action>, c: ClaimedJob, w: WorkerId)
    requires ValidSettings(s) && SystemOk(s, sys) && c.job in sys.db.jobs
    requires var job := sys.db.jobs[c.job]; job.generation < GenerationOf(sys.db, job.repository)
    ensures !IsCurrent(Perform(s, sys, after).db, c, w)
  {
    PerformKeeps(s, sys, after);
    hide Perform, SystemOk, ServedKept, OwnersKept;
    assert JobEvolves(s.maxAttempts, sys.db.jobs[c.job], Perform(s, sys, after).db.jobs[c.job]);
  }

  /** Of the versions of a repository, exactly the served one may not be cleaned up. */
  lemma CleanupSparesServed(s: Settings, actions: seq<Action>, r: RepositoryId, version: nat)
    requires ValidSettings(s) && r in Perform(s, INITIAL, actions).db.repositories && version >= 1
    ensures var db := Perform(s, INITIAL, actions).db;
            CanCleanupInactive(db, r, version) <==> !PreviousActive(db, r, version)
  {
    ActiveIndex(s, actions, r);
    hide Perform;
  }

  // ---------------------------------------------------------------- bounded work

  lemma JobIsBounded(s: Settings, sys: System, j: JobId)
    requires ValidSettings(s) && SystemOk(s, sys) && j in sys.db.jobs
    ensures var job := sys.db.jobs[j];
            && ClaimCount(sys.history, j) == job.attempt <= s.maxAttempts
            && TotalBackoff(sys.history, j) <= BackoffBound(s, s.maxAttempts - 1)
            && (job.status.Retrying? ==> job.attempt < s.maxAttempts)
            && (job.status.Running? ==> 1 <= job.attempt)
  {
    hide OneRunning, BuildsOk, GraphsMatch, RowsOk, RepositoriesOk, RunsOk, ActivationsOk, ClaimCount, TotalBackoff, BackoffBound;
    assert JobHistoryOk(s, sys.db, sys.history, j);
    assert JobOk(s.maxAttempts, sys.db.jobs[j], sys.db.repositories[sys.db.jobs[j].repository]);
    BackoffBoundMonotone(s, CompletedOf(sys.db, j), s.maxAttempts - 1);
  }

  /** Claims, attempts and waiting are bounded over every run. */
  lemma BoundedWork(s: Settings, actions: seq<Action>, j: JobId)
    requires ValidSettings(s) && j in Perform(s, INITIAL, actions).db.jobs
    ensures var sys := Perform(s, INITIAL, actions);
            var job := sys.db.jobs[j];
            && ClaimCount(sys.history, j) == job.attempt <= s.maxAttempts
            && TotalBackoff(sys.history, j) <= (s.maxAttempts - 1) * (1500 * s.retryMax)
            && (job.status.Retrying? ==> job.attempt < s.maxAttempts)
            && (job.status.Running? ==> 1 <= job.attempt)
  {
    hide Perform, SystemOk, ClaimCount, TotalBackoff;
    EveryReachableStateIsOk(s, actions);
    JobIsBounded(s, Perform(s, INITIAL, actions), j);
  }

  /** One action never raises the rank of a job, and lowers it on a claim and on a return to retrying. */
  lemma RankDrops(s: Settings, sys: System, a: Action, j: JobId)
    requires ValidSettings(s) && SystemOk(s, sys) && j in sys.db.jobs
    ensures j in Next(s, sys, a).db.jobs
    ensures var (old', new') := (sys.db.jobs[j], Next(s, sys, a).db.jobs[j]);
            && 0 <= Rank(s.maxAttempts, new') <= Rank(s.maxAttempts, old')
            && (old'.status.Running? != new'.status.Running? ==> Rank(s.maxAttempts, new') < Rank(s.maxAttempts, old'))
            && (Terminal(old'.status) ==> new'.status == old'.status && new'.attempt == old'.attempt)
  {
    NextKeeps(s, sys, a);
    hide Next, HistoryOk, RunsOk;
    var db' := Next(s, sys, a).db;
    assert JobEvolves(s.maxAttempts, sys.db.jobs[j], db'.jobs[j]);
    assert JobOk(s.maxAttempts, db'.jobs[j], db'.repositories[db'.jobs[j].repository]);
  }

  /** The delay doubles with every attempt up to the ceiling, and jitter adds at most half of it. */
  lemma BackoffDoubles(s: Settings, attempt: nat, jitter: nat)
    requires attempt >= 1
    ensures DelaySeconds(s, 1) == Min(s.retryMax, s.retryBase)
    ensures DelaySeconds(s, attempt + 1) == Min(s.retryMax, 2 * DelaySeconds(s, attempt))
    ensures 1000 * DelaySeconds(s, attempt) <= RetryDelay(s, attempt, jitter) <= 1500 * DelaySeconds(s, attempt)
    ensures jitter <= 500 * DelaySeconds(s, attempt) ==> RetryDelay(s, attempt, jitter) == 1000 * DelaySeconds(s, attempt) + jitter
  {
    assert Power2(attempt) == 2 * Power2(attempt - 1);
    var base := s.retryBase * Power2(attempt - 1);
    assert s.retryBase * Power2(attempt) == 2 * base;
  }

  /** After a failure that is retried, a claim succeeds exactly when the delay has passed and the repository is idle. */
  lemma RetriedJobWaits(s: Settings, db: Db, c: ClaimedJob, w: WorkerId, now: Time, jitter: nat, v: WorkerId, later: Time)
    requires Held(db, c, w) && ShouldRetry(s, c, true)
    ensures var failed := Fail(s, db, c, w, true, now, jitter);
            Claim(failed, c.job, v, later).1.Some? <==>
              now + RetryDelay(s, c.attempt, jitter) <= later && !RepositoryBusy(failed, db.jobs[c.job].repository)
  {
    hide RetryDelay;
    var failed := Fail(s, db, c, w, true, now, jitter);
    assert failed.jobs[c.job].status.Retrying? && failed.jobs[c.job].repository == db.jobs[c.job].repository;
  }

  // ---------------------------------------------------------------- version slots

  /** A repository activates versions 1, 2, 3, ... each once, by the job that owns the slot, and no job twice. */
  lemma VersionsInOrder(s: Settings, actions: seq<Action>, r: RepositoryId)
    requires ValidSettings(s)
    ensures var sys := Perform(s, INITIAL, actions);
            var acts := Activations(sys.history, r);
            && |acts| == VersionOf(sys.db, r)
            && (forall i :: 0 <= i < |acts| ==>
                  && acts[i].version == i + 1 && Slot(r, i + 1) in sys.db.builds
                  && sys.db.builds[Slot(r, i + 1)].owner == Some(acts[i].job))
            && (forall i, k :: 0 <= i < k < |acts| ==>
                  acts[i].job != acts[k].job && acts[i].generation <= acts[k].generation)
            && (forall i :: 0 <= i < |acts| ==>
                  acts[i].job in sys.db.jobs && sys.db.jobs[acts[i].job].targetBranch in {None, Some(acts[i].branch)})
            && (acts != [] ==> r in sys.db.repositories && sys.db.repositories[r].indexedBranch == Some(acts[|acts| - 1].branch))
  {
    EveryReachableStateIsOk(s, actions);
    var sys := Perform(s, INITIAL, actions);
    var acts := Activations(sys.history, r);
    assert ActivationsOk(acts, sys.db, r);
    forall i | 0 <= i < |acts| ensures acts[i].job in sys.db.jobs && sys.db.jobs[acts[i].job].targetBranch in {None, Some(acts[i].branch)} {
      assert ActivationOk(acts[i], i + 1, sys.db, r);
    }
    forall i, k | 0 <= i < k < |acts| ensures acts[i].job != acts[k].job {
      assert ActivationOk(acts[i], i + 1, sys.db, r) && ActivationOk(acts[k], k + 1, sys.db, r);
      assert OwnerOk(sys.db.builds[Slot(r, i + 1)], Slot(r, i + 1), sys.db.jobs);
      assert OwnerOk(sys.db.builds[Slot(r, k + 1)], Slot(r, k + 1), sys.db.jobs);
    }
  }

  /** A slot never changes its owner and a job never changes its target. */
  lemma SlotsAndTargetsAreWrittenOnce(s: Settings, before: seq<Action>, after: seq<Action>, slot: Slot, j: JobId)
    requires ValidSettings(s)
    ensures var a := Perform(s, INITIAL, before).db;
            var b := Perform(s, Perform(s, INITIAL, before), after).db;
            && (slot in a.builds ==> slot in b.builds && b.builds[slot].owner == a.builds[slot].owner)
            && (j in a.jobs && a.jobs[j].targetVersion.Some? ==>
                  j in b.jobs && b.jobs[j].targetVersion == a.jobs[j].targetVersion)
  {
    EveryReachableStateIsOk(s, before);
    PerformKeeps(s, Perform(s, INITIAL, before), after);
    hide Perform, SystemOk, ServedKept, RepositoriesGrow;
    var a := Perform(s, INITIAL, before).db;
    if j in a.jobs { assert JobEvolves(s.maxAttempts, a.jobs[j], Perform(s, Perform(s, INITIAL, before), after).db.jobs[j]); }
  }

  // ---------------------------------------------------------------- freshness

  /** The new job is current, and every older job of the repository is not. */
  ghost predicate OnlyFresh(db: Db, r: RepositoryId, j: JobId) {
    && r in db.repositories && j in db.jobs && db.jobs[j].repository == r && Fresh(db.jobs[j], db.repositories[r])
    && (forall k :: k in db.jobs && k != j && db.jobs[k].repository == r ==> !Fresh(db.jobs[k], db.repositories[r]))
  }

  lemma BumpedRowSupersedes(m: nat, db: Db, r: RepositoryId, row: Repository, j: JobId, jobType: JobType, mode: Option<Mode>,
                            branch: Option<Branch>, commit: Option<Commit>, now: Time)
    requires JobsOk(m, db) && r in db.repositories && j !in db.jobs
    requires row.generation == db.repositories[r].generation + 1 && (branch == None || branch == Some(row.defaultBranch))
    ensures OnlyFresh(AddJob(SetRepository(db, r, row), r, j, jobType, mode, branch, commit, now), r, j)
  {
    var after := AddJob(SetRepository(db, r, row), r, j, jobType, mode, branch, commit, now);
    forall k | k in after.jobs && k != j && after.jobs[k].repository == r ensures !Fresh(after.jobs[k], after.repositories[r]) {
      assert JobOk(m, db.jobs[k], db.repositories[r]);
    }
  }

  lemma ReindexSupersedes(m: nat, db: Db, r: RepositoryId, j: JobId, now: Time)
    requires JobsOk(m, db) && r in db.repositories && j !in db.jobs
    ensures OnlyFresh(Reindex(db, r, j, now), r, j)
  {
    var row := db.repositories[r].(generation := db.repositories[r].generation + 1);
    assert Bump(db, r) == SetRepository(db, r, row);
    BumpedRowSupersedes(m, db, r, row, j, ManualReindex, Some(Full), Some(row.defaultBranch), row.remoteCommit, now);
  }

  lemma PushSupersedes(m: nat, db: Db, r: RepositoryId, j: JobId, e: PushEvent, now: Time)
    requires JobsOk(m, db) && r in db.repositories && j !in db.jobs && ApplyPush(db, r, j, e, now) != db
    ensures OnlyFresh(ApplyPush(db, r, j, e, now), r, j)
  {
    PushShape(db, r, j, e, now);
    hide ApplyPush, JobsOk, OnlyFresh;
    var full := NeedsFullRebuild(db.repositories[r], e);
    BumpedRowSupersedes(m, db, r, PushedRow(db.repositories[r], e), j, if full then FullRebuild else IncrementalReindex,
                        Some(if full then Full else Incremental), Some(db.repositories[r].defaultBranch), Some(e.after), now);
  }

  lemma MetadataSupersedes(m: nat, db: Db, r: RepositoryId, j: JobId, branch: Branch, now: Time)
    requires JobsOk(m, db) && j !in db.jobs && Visible(db, r) && db.repositories[r].defaultBranch != branch
    ensures OnlyFresh(ApplyRepositoryMetadata(db, r, j, branch, now), r, j)
  {
    MetadataShape(db, r, j, branch, now);
    hide ApplyRepositoryMetadata, JobsOk, OnlyFresh;
    var row := db.repositories[r].(defaultBranch := branch);
    BumpedRowSupersedes(m, db, r, row.(generation := row.generation + 1), j, FullRebuild, Some(Full), Some(branch), None, now);
  }

  /** A manual reindex, an accepted push and a new default branch supersede every older job. */
  lemma RefreshSupersedes(m: nat, db: Db, r: RepositoryId, j: JobId, e: PushEvent, branch: Branch, now: Time)
    requires Inv(m, db) && r in db.repositories && j !in db.jobs
    ensures OnlyFresh(Reindex(db, r, j, now), r, j)
    ensures ApplyPush(db, r, j, e, now) != db ==> OnlyFresh(ApplyPush(db, r, j, e, now), r, j)
    ensures Visible(db, r) && db.repositories[r].defaultBranch != branch ==>
              OnlyFresh(ApplyRepositoryMetadata(db, r, j, branch, now), r, j)
  {
    ReindexSupersedes(m, db, r, j, now);
    if ApplyPush(db, r, j, e, now) != db { PushSupersedes(m, db, r, j, e, now); }
    if Visible(db, r) && db.repositories[r].defaultBranch != branch { MetadataSupersedes(m, db, r, j, branch, now); }
  }

  /** What is activated is a job of the repository as it is now: of its generation, and of its default branch. */
  ghost predicate OfPresent(db: Db, e: Event)
    requires e.Activated?
  {
    && e.repository in db.repositories && e.job in db.jobs && db.jobs[e.job].repository == e.repository
    && e.generation == db.jobs[e.job].generation == db.repositories[e.repository].generation
    && e.branch == db.repositories[e.repository].defaultBranch && db.jobs[e.job].targetBranch in {None, Some(e.branch)}
  }

  lemma ActivationIsFresh(db: Db, now: Time, w: WorkerId, run: Run)
    requires run.context.Some? && ActivateStep(db, now, w, run).events != []
    ensures var events := ActivateStep(db, now, w, run).events;
            |events| == 1 && events[0].Activated? && OfPresent(db, events[0])
  {
    hide Raise;
  }

  lemma StepActivatesFresh(s: Settings, db: Db, now: Time, w: WorkerId, run: Run, i: Input, e: Event)
    requires e in StepRun(s, db, now, w, run, i).events && e.Activated?
    ensures OfPresent(db, e)
  {
    hide PrepareBuild, RecordVectorCounts, ValidateGraph, MarkBuildReady, AuthorizedContext, RetryDelay, ActivateStep, OfPresent, Raise,
         Resume, Fail, Cancel, Held, ShouldRetry, IsCurrent, CanCleanupInactive;
    if run.phase.Activating? { ActivationIsFresh(db, now, w, run); }
  }

  /** The history only grows, and what is activated is of the generation and of the default branch of that moment. */
  lemma NextActivatesFresh(s: Settings, sys: System, a: Action)
    ensures sys.history <= Next(s, sys, a).history
    ensures forall i :: |sys.history| <= i < |Next(s, sys, a).history| && Next(s, sys, a).history[i].Activated? ==>
              OfPresent(sys.db, Next(s, sys, a).history[i])
  {
    var sys' := Next(s, sys, a);
    hide Reindex, SelectRepository, ApplyPush, ApplyRepositoryMetadata, Attach, StepRun, Raise, Claim, Heartbeat, Stage,
         RecoverAbandoned, RecordEnqueue, MarkEnqueued;
    if a.Step? && sys' != sys {
      var events := StepRun(s, sys.db, sys.now, a.w, sys.runs[a.w], a.input).events;
      assert sys'.history == sys.history + events;
      forall i | |sys.history| <= i < |sys'.history| && sys'.history[i].Activated?
        ensures OfPresent(sys.db, sys'.history[i])
      {
        assert sys'.history[i] == events[i - |sys.history|];
        StepActivatesFresh(s, sys.db, sys.now, a.w, sys.runs[a.w], a.input, sys'.history[i]);
      }
    }
  }

  /** While another branch is the default, no action activates a job that was created for its own. */
  lemma OtherBranchNeverActivates(s: Settings, sys: System, a: Action, j: JobId)
    requires j in sys.db.jobs && sys.db.jobs[j].targetBranch.Some? && sys.db.jobs[j].repository in sys.db.repositories
    requires sys.db.repositories[sys.db.jobs[j].repository].defaultBranch != sys.db.jobs[j].targetBranch.value
    ensures forall i :: |sys.history| <= i < |Next(s, sys, a).history| ==>
              var e := Next(s, sys, a).history[i]; e.Activated? ==> e.job != j
  {
    NextActivatesFresh(s, sys, a);
    hide Next;
  }

  /** Attaching a moved branch to a job under way leaves the repository without a job that can be activated. */
  lemma JoinedJobsCannotActivate(db: Db, r: RepositoryId, j: JobId, manual: bool, branch: Branch, commit: Commit, now: Time,
                                 c: ClaimedJob, w: WorkerId, sha: Commit, later: Time)
    requires r in db.repositories && HasUnfinishedJob(db, r)
    requires forall k :: k in db.jobs && db.jobs[k].repository == r ==> db.jobs[k].targetBranch.Some? && db.jobs[k].targetBranch.value != branch
    ensures var after := Attach(db, r, j, manual, branch, commit, now);
            && after.jobs == db.jobs && after.repositories[r].defaultBranch == branch
            && (c.job in db.jobs && db.jobs[c.job].repository == r ==> Activate(after, c, w, sha, later).Failure?)
  {
    hide AlreadyCurrent;
  }

  /** Activations after the first `k` events of a history have at least this generation. */
  ghost predicate ActivatedAtLeast(h: seq<Event>, k: nat, r: RepositoryId, generation: nat) {
    forall i :: k <= i < |h| && h[i].Activated? && h[i].repository == r ==> generation <= h[i].generation
  }

  /** A job created before a generation bump never activates after it. */
  lemma {:induction false} StaleJobsNeverActivate(s: Settings, sys: System, after: seq<Action>, r: RepositoryId)
    requires ValidSettings(s) && SystemOk(s, sys)
    ensures var sys' := Perform(s, sys, after);
            sys.history <= sys'.history && ActivatedAtLeast(sys'.history, |sys.history|, r, GenerationOf(sys.db, r))
  {
    if after == [] {
    } else {
      var before := after[..|after| - 1];
      var middle := Perform(s, sys, before);
      StaleJobsNeverActivate(s, sys, before, r);
      PerformKeeps(s, sys, before);
      NextActivatesFresh(s, middle, after[|after| - 1]);
      hide Next, SystemOk;
      assert GenerationOf(sys.db, r) <= GenerationOf(middle.db, r);
    }
  }

  lemma DeliveriesKept(s: Settings, sys: System, a: Action)
    ensures sys.deliveries <= Next(s, sys, a).deliveries
  {
    hide Reindex, SelectRepository, ApplyPush, ApplyRepositoryMetadata, Attach, StepRun, Raise, Claim, Heartbeat, Stage,
         RecoverAbandoned, RecordEnqueue, MarkEnqueued;
  }

  // ---------------------------------------------------------------- blocked repositories

  /**
   * The next version belongs to a job that ended without activating it, or that a later refresh has
   * overtaken.
   */
  predicate Blocked(db: Db, r: RepositoryId) {
    && r in db.repositories
    && var slot := Slot(r, db.repositories[r].indexVersion + 1);
       && slot in db.builds && db.builds[slot].owner.Some? && db.builds[slot].owner.value in db.jobs
       && var job := db.jobs[db.builds[slot].owner.value];
          job.status.Failed? || job.status.Cancelled? || job.generation < db.repositories[r].generation
  }

  lemma BlockedOwnerStays(m: nat, a: Db, b: Db, r: RepositoryId)
    requires Evolves(m, a, b) && Blocked(a, r) && VersionOf(b, r) == VersionOf(a, r)
    ensures Blocked(b, r)
  {
    hide ServedKept;
    var slot := Slot(r, a.repositories[r].indexVersion + 1);
    var j := a.builds[slot].owner.value;
    assert JobEvolves(m, a.jobs[j], b.jobs[j]);
  }

  /** Version `v` was activated by the owner of its slot, which is complete and of the generation of the event. */
  lemma ActivatedByOwner(db: Db, h: seq<Event>, r: RepositoryId, v: nat)
    requires ActivationsOk(Activations(h, r), db, r) && 1 <= v <= VersionOf(db, r)
    ensures var e := Activations(h, r)[v - 1];
            && Slot(r, v) in db.builds && db.builds[Slot(r, v)].owner == Some(e.job) && e.job in db.jobs
            && db.jobs[e.job].status.Complete? && db.jobs[e.job].generation == e.generation
  {
    assert ActivationOk(Activations(h, r)[v - 1], v, db, r);
  }

  lemma ActivationsOfLast(h: seq<Event>, r: RepositoryId)
    requires h != []
    ensures var before := Activations(h[..|h| - 1], r);
            Activations(h, r) == before || Activations(h, r) == before + [h[|h| - 1]]
  {
  }

  /** Activations that a history has more than an earlier one came later. */
  lemma {:induction false} LaterActivation(h: seq<Event>, h': seq<Event>, r: RepositoryId, i: nat) returns (k: nat)
    requires h <= h' && |Activations(h, r)| <= i < |Activations(h', r)|
    ensures |h| <= k < |h'| && h'[k] == Activations(h', r)[i]
    decreases |h'|
  {
    hide Activations;
    var before := h'[..|h'| - 1];
    assert h != h';
    assert h <= before;
    ActivationsOfLast(h', r);
    if i < |Activations(before, r)| {
      k := LaterActivation(h, before, r, i);
    } else {
      k := |h'| - 1;
    }
  }

  lemma ActivationCount(db: Db, h: seq<Event>, r: RepositoryId)
    requires ActivationsOk(Activations(h, r), db, r)
    ensures |Activations(h, r)| == VersionOf(db, r)
  {
  }

  lemma OwnerKept(m: nat, a: Db, b: Db, r: RepositoryId)
    requires Evolves(m, a, b) && Blocked(a, r)
    ensures var slot := Slot(r, a.repositories[r].indexVersion + 1);
            var j := a.builds[slot].owner.value;
            && r in b.repositories && slot in b.builds && b.builds[slot].owner == Some(j) && j in b.jobs
            && JobEvolves(m, a.jobs[j], b.jobs[j]) && VersionOf(a, r) <= VersionOf(b, r)
  {
    hide ServedKept;
  }

  lemma EndedStays(m: nat, a: Job, b: Job)
    requires JobEvolves(m, a, b)
    ensures a.generation == b.generation && (a.status.Failed? || a.status.Cancelled? ==> !b.status.Complete?)
  {
  }

  /** An activation of the blocked version would belong to its owner, and be of the present generation. */
  lemma BlockedVersionStays(m: nat, a: System, b: System, r: RepositoryId)
    requires Evolves(m, a.db, b.db) && Blocked(a.db, r) && a.history <= b.history
    requires ActivationsOk(Activations(a.history, r), a.db, r) && ActivationsOk(Activations(b.history, r), b.db, r)
    requires ActivatedAtLeast(b.history, |a.history|, r, GenerationOf(a.db, r))
    ensures VersionOf(b.db, r) == VersionOf(a.db, r)
  {
    hide Evolves, ActivationsOk, Activations, JobEvolves;
    var n := VersionOf(a.db, r);
    OwnerKept(m, a.db, b.db, r);
    ActivationCount(a.db, a.history, r);
    ActivationCount(b.db, b.history, r);
    if VersionOf(b.db, r) > n {
      var j := a.db.builds[Slot(r, n + 1)].owner.value;
      EndedStays(m, a.db.jobs[j], b.db.jobs[j]);
      ActivatedByOwner(b.db, b.history, r, n + 1);
      var k := LaterActivation(a.history, b.history, r, n);
    }
  }

  /** Then no run ever activates it, whatever refreshes are asked for: the repository keeps its version for good. */
  lemma BlockedForGood(s: Settings, sys: System, after: seq<Action>, r: RepositoryId)
    requires ValidSettings(s) && SystemOk(s, sys) && Blocked(sys.db, r)
    ensures var db := Perform(s, sys, after).db;
            Blocked(db, r) && db.repositories[r].indexVersion == sys.db.repositories[r].indexVersion
  {
    var sys' := Perform(s, sys, after);
    PerformKeeps(s, sys, after);
    StaleJobsNeverActivate(s, sys, after, r);
    assert HistoryOk(s, sys.db, sys.history) && HistoryOk(s, sys'.db, sys'.history);
    hide Perform, SystemOk, Evolves, ActivationsOk, ActivatedAtLeast;
    BlockedVersionStays(s.maxAttempts, sys, sys', r);
    BlockedOwnerStays(s.maxAttempts, sys.db, sys'.db, r);
  }

  // ---------------------------------------------------------------- deliveries

  /** A webhook delivery that was handled once changes nothing when it arrives again, whenever that is. */
  lemma {:induction false} ReplayChangesNothing(s: Settings, sys: System, after: seq<Action>, delivery: string,
                                                r: RepositoryId, j: JobId, webhook: Webhook)
    requires delivery in sys.deliveries
    ensures var sys' := Perform(s, sys, after);
            delivery in sys'.deliveries && Next(s, sys', Deliver(delivery, r, j, webhook)) == sys'
  {
    if after == [] {
    } else {
      ReplayChangesNothing(s, sys, after[..|after| - 1], delivery, r, j, webhook);
      DeliveriesKept(s, Perform(s, sys, after[..|after| - 1]), after[|after| - 1]);
    }
  }

  // ---------------------------------------------------------------- the builder's graph

  function IdentityOf(c: CallGraph.Context, s: CallGraph.Symbol): CallGraph.SymbolIdentity {
    CallGraph.SymbolIdentity(c.repository, c.version, s.filePath, s.qualifiedName, s.startLine, s.contentHash)
  }

  /** Symbols are identified by what their ids hash. */
  ghost predicate DistinctSymbols(c: CallGraph.Context, symbols: seq<CallGraph.Symbol>) {
    forall i, k :: 0 <= i < k < |symbols| ==>
      IdentityOf(c, symbols[i]) != IdentityOf(c, symbols[k])
  }

  /** What the analyzer hands over for a checkout. */
  ghost predicate Analyzed(p: Processing, n: CallGraph.Naming, files: seq<CallGraph.ParsedFile>, symbols: seq<CallGraph.Symbol>) {
    var c := CallGraph.ContextOf(n, p.repository, p.version, p.commit, files, symbols);
    var g := CallGraph.GraphOf(n, p.repository, p.version, p.commit, files, symbols);
    && p.edges == g.edges && p.graph == g.summary
    && p.symbols == seq(|symbols|, i requires 0 <= i < |symbols| => CallGraph.SymbolIdOf(c, symbols[i]))
  }

  /** The rows of an analyzed checkout meet every unique and foreign key. */
  lemma AnalyzedRowsAreInsertable(p: Processing, n: CallGraph.Naming, files: seq<CallGraph.ParsedFile>, symbols: seq<CallGraph.Symbol>)
    requires CallGraph.Injective(n) && CallGraph.DistinctSiteKeys(CallGraph.AllSites(files))
    requires DistinctSymbols(CallGraph.ContextOf(n, p.repository, p.version, p.commit, files, symbols), symbols)
    requires Analyzed(p, n, files, symbols)
    ensures InsertOk(p) && forall e :: e in p.edges ==> e.commit == p.commit
  {
    var c := CallGraph.ContextOf(n, p.repository, p.version, p.commit, files, symbols);
    forall i, k | 0 <= i < k < |p.symbols| ensures p.symbols[i] != p.symbols[k] {
      assert IdentityOf(c, symbols[i]) != IdentityOf(c, symbols[k]);
    }
    CallGraphTheorems.EdgeRowsAreUnique(n, p.repository, p.version, p.commit, files, symbols);
    forall e | e in p.edges
      ensures e.commit == p.commit && e.caller in p.symbols && (e.callee.Some? ==> e.callee.value in p.symbols)
    {
      CallGraphTheorems.GraphEdgesReferToSymbols(n, p.repository, p.version, p.commit, files, symbols, e);
      var s :| s in symbols && e.caller == CallGraph.SymbolIdOf(c, s);
      var i :| 0 <= i < |symbols| && symbols[i] == s;
      assert p.symbols[i] == e.caller;
      if e.callee.Some? {
        var t :| t in symbols && e.callee.value == CallGraph.SymbolIdOf(c, t);
        var k :| 0 <= k < |symbols| && symbols[k] == t;
        assert p.symbols[k] == e.callee.value;
      }
    }
  }

  lemma PreparedSlot(db: Db, c: ClaimedJob, w: WorkerId, p: Processing)
    requires PrepareBuild(db, c, w, p.commit, p).Success? && db.jobs[c.job].repository == c.repository
    ensures var db' := PrepareBuild(db, c, w, p.commit, p).value;
            var slot := Slot(c.repository, p.version);
            && HeldWithTarget(db', c, w) && TargetSlot(db', c) == slot
            && slot in db'.builds && db'.builds[slot] == FreshBuild(p, c.job) && RowsAt(db', slot) == RowsOf(p)
  {
    hide InsertOk, OwnsAnotherBuild, RowsOf;
  }

  /** The graph that was built, stored and read back in any admissible order passes validation. */
  lemma PreparedGraphValidates(db: Db, c: ClaimedJob, w: WorkerId, p: Processing, n: CallGraph.Naming,
                               files: seq<CallGraph.ParsedFile>, symbols: seq<CallGraph.Symbol>, rows: seq<CallGraph.Edge>)
    requires CallGraph.Injective(n) && CallGraph.DistinctSiteKeys(CallGraph.AllSites(files))
    requires DistinctSymbols(CallGraph.ContextOf(n, p.repository, p.version, p.commit, files, symbols), symbols)
    requires Analyzed(p, n, files, symbols)
    requires c.job in db.jobs ==> db.jobs[c.job].repository == c.repository
    requires PrepareBuild(db, c, w, p.commit, p).Success?
    requires ValidationRead(PrepareBuild(db, c, w, p.commit, p).value, c, rows)
    ensures rows == p.edges && ValidateGraph(PrepareBuild(db, c, w, p.commit, p).value, c, w, rows).Success?
  {
    hide InsertOk, CallGraph.GraphOf, CallGraph.Summarize, CallGraph.DistinctSiteKeys, DistinctSymbols, CallGraph.ContextOf;
    AnalyzedRowsAreInsertable(p, n, files, symbols);
    PreparedSlot(db, c, w, p);
    var slot := Slot(c.repository, p.version);
    assert EdgesAt(RowsOf(p), p.commit) == set e | e in p.edges;
    CallGraphTheorems.StoreAndValidate(n, p.repository, p.version, p.commit, files, symbols, rows);
  }
}
