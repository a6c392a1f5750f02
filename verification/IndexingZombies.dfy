/**
 * Reachable states that the fence does not exclude: runs of the system, written out action by
 * action, in which a step that ignores the lock meets the build of a later attempt.
 */
module IndexingZombies {
  import opened Common
  import opened IndexingRows
  import opened T = IndexingTransitions
  import opened I = IndexingInvariants
  import opened IndexingSystem
  import opened IndexingHistory
  import opened IndexingTheorems
  import CallGraph
  import CallGraphTheorems

  // ---------------------------------------------------------------- one repository, one job, an empty checkout

  const REPOSITORY := Repository("main", None, 0, 0, None, Some("c"), 0, false, false)
  const QUEUED := Job(0, InitialIndex, Some(Full), Some("main"), Some("c"), 0, 0, Queued, 0, None, None, None, None, None)
  const SLOT := Slot(0, 1)
  const CONTEXT := JobContext(0, 0, "main", 1, 0, 0, None, None, Full)
  const ZOMBIE: WorkerId := 1
  const HOLDER: WorkerId := 2

  function Analysis(): Processing {
    Processing(0, 1, "c", 0, [], [], CallGraph.Summarize([]))
  }

  function Given(): Input {
    Input(true, "c", Analysis(), 0, 0, [], true, 0)
  }

  function Taken(attempt: nat, w: WorkerId, at: Time, target: Option<nat>): Job {
    QUEUED.(status := Running, attempt := attempt, lockedBy := Some(w), heartbeatAt := Some(at), targetVersion := target)
  }

  function Released(status: JobStatus, attempt: nat, beat: Time, next: Option<Time>, target: Option<nat>): Job {
    QUEUED.(status := status, attempt := attempt, heartbeatAt := Some(beat), nextAttemptAt := next, targetVersion := target)
  }

  function BuildIn(state: BuildState, cleanup: CleanupStatus, validated: bool): Build {
    Build(Some(0), state, cleanup, "c", 0, 0, 0, CallGraph.Summarize([]), validated)
  }

  /** The tables with one repository and one job, and perhaps one build with or without its rows. */
  function Tables(job: Job, build: Option<Build>, rows: bool): Db {
    Db(map[0 := REPOSITORY], map[0 := job],
       if build.None? then map[] else map[SLOT := build.value],
       if rows then map[SLOT := GraphRows({}, {})] else map[])
  }

  function RunIn(attempt: nat, prepared: bool, phase: Phase): Run {
    RunState(ClaimedJob(0, 0, attempt), Some(CONTEXT), if prepared then "c" else "", prepared, phase)
  }

  function Begun(attempt: nat): Run {
    RunState(ClaimedJob(0, 0, attempt), None, "", false, Authorizing)
  }

  // ---------------------------------------------------------------- following a run

  ghost predicate IsAt(sys: System, db: Db, now: Time, runs: map<WorkerId, Run>) {
    sys.db == db && sys.now == now && sys.runs == runs
  }

  lemma Prefix(s: Settings, actions: seq<Action>, k: nat)
    requires k < |actions|
    ensures Perform(s, INITIAL, actions[..k + 1]) == Next(s, Perform(s, INITIAL, actions[..k]), actions[k])
  {
    assert actions[..k + 1][..k] == actions[..k];
  }

  /** One step of a run, of which only the tables and its own program counter change. */
  lemma Took(s: Settings, actions: seq<Action>, k: nat, w: WorkerId, db: Db, now: Time, runs: map<WorkerId, Run>, db': Db,
             next: Option<Run>)
    requires k < |actions| && actions[k] == Step(w, Given(), false)
    requires IsAt(Perform(s, INITIAL, actions[..k]), db, now, runs) && w in runs
    requires runs[w].phase.Validating? ==> ValidationRead(db, runs[w].claimed, Given().rows)
    requires StepRun(s, db, now, w, runs[w], Given()).db == db' && StepRun(s, db, now, w, runs[w], Given()).next == next
    ensures IsAt(Perform(s, INITIAL, actions[..k + 1]), db', now, if next.Some? then runs[w := next.value] else runs - {w})
  {
    hide StepRun, ValidationRead, Perform, Given;
    Prefix(s, actions, k);
  }

  lemma OneRunMap(a: Run, b: Run)
    ensures map[ZOMBIE := a][ZOMBIE := b] == map[ZOMBIE := b]
  {
  }

  lemma TwoRunsMap(a: Run, b: Run, c: Run)
    ensures map[ZOMBIE := a, HOLDER := b][HOLDER := c] == map[ZOMBIE := a, HOLDER := c]
    ensures map[ZOMBIE := a][HOLDER := c] == map[ZOMBIE := a, HOLDER := c]
  {
  }

  // ---------------------------------------------------------------- the steps, one by one

  lemma Attached(s: Settings)
    ensures IsAt(Next(s, INITIAL, AttachPublic(0, 0, false, "main", "c")), Tables(QUEUED, None, false), 0, map[])
  {
  }

  lemma Claims(s: Settings, sys: System, job: Job, build: Option<Build>, rows: bool, now: Time, runs: map<WorkerId, Run>, w: WorkerId)
    requires IsAt(sys, Tables(job, build, rows), now, runs) && w !in runs && Claimable(job, now)
    requires
      || job == QUEUED
      || (job.heartbeatAt.Some? && job == Released(Retrying, job.attempt, job.heartbeatAt.value, job.nextAttemptAt, job.targetVersion))
    ensures IsAt(Next(s, sys, StartRun(w, 0)), Tables(Taken(job.attempt + 1, w, now, job.targetVersion), build, rows), now,
                 runs[w := Begun(job.attempt + 1)])
  {
    assert !RepositoryBusy(sys.db, 0);
    var taken := Taken(job.attempt + 1, w, now, job.targetVersion);
    assert sys.db.jobs[0 := taken] == map[0 := taken];
  }

  lemma Authorizes(s: Settings, now: Time, w: WorkerId, attempt: nat, v: WorkerId, a: nat, at: Time, target: Option<nat>,
                   build: Option<Build>, rows: bool)
    requires target == None || target == Some(1)
    ensures StepRun(s, Tables(Taken(a, v, at, target), build, rows), now, w, Begun(attempt), Given())
         == Outcome(Tables(Taken(a, v, at, Some(1)), build, rows), Some(RunIn(attempt, false, CheckingCurrent)), [])
  {
    var job := Taken(a, v, at, target);
    assert map[0 := job][0 := job.(targetVersion := Some(1))] == map[0 := Taken(a, v, at, Some(1))];
  }

  lemma Prepares(s: Settings, now: Time, w: WorkerId, attempt: nat, at: Time, build: Option<Build>, rows: bool)
    requires build.Some? ==> build.value.owner == Some(0)
    ensures var db := Tables(Taken(attempt, w, at, Some(1)), build, rows);
            var rebuilt := Tables(Taken(attempt, w, at, Some(1)), Some(BuildIn(Building, CleanupStatus.Pending, false)), true);
            && StepRun(s, db, now, w, RunIn(attempt, false, CheckingCurrent), Given())
               == Outcome(db, Some(RunIn(attempt, false, Analyzing)), [])
            && StepRun(s, db, now, w, RunIn(attempt, false, Analyzing), Given())
               == Outcome(rebuilt, Some(RunIn(attempt, true, CheckingScope)), [])
  {
    hide CallGraph.Summarize;
    var db := Tables(Taken(attempt, w, at, Some(1)), build, rows);
    var rebuilt := BuildIn(Building, CleanupStatus.Pending, false);
    assert InsertOk(Analysis()) && RowsOf(Analysis()) == GraphRows({}, {}) && FreshBuild(Analysis(), 0) == rebuilt;
    assert db.builds[SLOT := rebuilt] == map[SLOT := rebuilt];
    assert db.graphs[SLOT := GraphRows({}, {})] == map[SLOT := GraphRows({}, {})];
    assert db.repositories[0 := REPOSITORY] == db.repositories;
  }

  lemma Counts(s: Settings, now: Time, w: WorkerId, attempt: nat, at: Time)
    ensures var db := Tables(Taken(attempt, w, at, Some(1)), Some(BuildIn(Building, CleanupStatus.Pending, false)), true);
            && StepRun(s, db, now, w, RunIn(attempt, true, CheckingScope), Given())
               == Outcome(db, Some(RunIn(attempt, true, CountingVectors)), [])
            && StepRun(s, db, now, w, RunIn(attempt, true, CountingVectors), Given())
               == Outcome(db, Some(RunIn(attempt, true, Validating)), [])
  {
    hide CallGraph.Summarize;
    var build := BuildIn(Building, CleanupStatus.Pending, false);
    assert map[SLOT := build][SLOT := build.(embeddedChunks := 0, vectorCount := 0)] == map[SLOT := build];
  }

  lemma Validates(s: Settings, now: Time, w: WorkerId, attempt: nat, at: Time)
    ensures var db := Tables(Taken(attempt, w, at, Some(1)), Some(BuildIn(Building, CleanupStatus.Pending, false)), true);
            && ValidationRead(db, ClaimedJob(0, 0, attempt), Given().rows)
            && StepRun(s, db, now, w, RunIn(attempt, true, Validating), Given())
               == Outcome(Tables(Taken(attempt, w, at, Some(1)), Some(BuildIn(Building, CleanupStatus.Pending, true)), true),
                          Some(RunIn(attempt, true, Readying)), [])
  {
    hide CallGraph.Summarize;
    var build := BuildIn(Building, CleanupStatus.Pending, false);
    var db := Tables(Taken(attempt, w, at, Some(1)), Some(build), true);
    assert EdgesAt(RowsAt(db, SLOT), "c") == {};
    assert CallGraphTheorems.OrderedRead([], {});
    assert map[SLOT := build][SLOT := build.(graphValidated := true)] == map[SLOT := BuildIn(Building, CleanupStatus.Pending, true)];
  }

  lemma Readies(s: Settings, now: Time, w: WorkerId, attempt: nat, at: Time)
    ensures var db := Tables(Taken(attempt, w, at, Some(1)), Some(BuildIn(Building, CleanupStatus.Pending, true)), true);
            StepRun(s, db, now, w, RunIn(attempt, true, Readying), Given())
            == Outcome(Tables(Taken(attempt, w, at, Some(1)), Some(BuildIn(Ready, CleanupStatus.Pending, true)), true),
                       Some(RunIn(attempt, true, Rechecking)), [])
  {
    hide CallGraph.Summarize;
    var build := BuildIn(Building, CleanupStatus.Pending, true);
    assert map[SLOT := build][SLOT := build.(state := Ready)] == map[SLOT := BuildIn(Ready, CleanupStatus.Pending, true)];
  }

  lemma Checks(s: Settings, now: Time, w: WorkerId, attempt: nat, job: Job, build: Build, after: AfterCleanup)
    ensures var db := Tables(job, Some(build), true);
            StepRun(s, db, now, w, RunIn(attempt, true, CheckingCleanup(after)), Given())
            == Outcome(db, Some(RunIn(attempt, true, RecordingCleanup(after))), [])
  {
  }

  lemma Cleans(s: Settings, now: Time, w: WorkerId, attempt: nat, job: Job, build: Build, retryable: bool)
    requires !build.state.Active?
    ensures StepRun(s, Tables(job, Some(build), true), now, w, RunIn(attempt, true, RecordingCleanup(ThenFail(retryable))), Given())
            == Outcome(Tables(job, Some(build.(state := BuildFailed, cleanup := Cleaned)), false),
                       Some(RunIn(attempt, true, Failing(retryable))), [])
  {
    var cleaned := build.(state := BuildFailed, cleanup := Cleaned);
    assert map[SLOT := build][SLOT := cleaned] == map[SLOT := cleaned];
    assert map[SLOT := GraphRows({}, {})] - {SLOT} == map[];
  }

  lemma Fails(s: Settings, now: Time, w: WorkerId, attempt: nat, at: Time, build: Option<Build>, rows: bool)
    ensures StepRun(s, Tables(Taken(attempt, w, at, Some(1)), build, rows), now, w, RunIn(attempt, true, Failing(false)), Given())
            == Outcome(Tables(Released(Failed, attempt, now, None, Some(1)), build, rows), None, [])
  {
    var job := Taken(attempt, w, at, Some(1));
    assert map[0 := job][0 := Released(Failed, attempt, now, None, Some(1))] == map[0 := Released(Failed, attempt, now, None, Some(1))];
  }

  lemma Recovers(s: Settings, sys: System, w: WorkerId, target: Option<nat>, build: Option<Build>, rows: bool, runs: map<WorkerId, Run>)
    requires 1 < s.maxAttempts
    requires IsAt(sys, Tables(Taken(1, w, 0, target), build, rows), s.abandonedAfter + 1, runs)
    ensures IsAt(Next(s, sys, Recover),
                 Tables(Released(Retrying, 1, 0, Some(s.abandonedAfter + 1), target), build, rows), s.abandonedAfter + 1, runs)
  {
    var job := Released(Retrying, 1, 0, Some(s.abandonedAfter + 1), target);
    assert Recovered(s, sys.db.jobs[0], sys.now) == job;
    assert RecoverAbandoned(s, sys.db, sys.now).jobs == map[0 := job];
  }

  lemma ClaimsAgain(s: Settings, sys: System, target: Option<nat>, build: Option<Build>, rows: bool, runs: map<WorkerId, Run>, w: WorkerId)
    requires IsAt(sys, Tables(Released(Retrying, 1, 0, Some(s.abandonedAfter + 1), target), build, rows), s.abandonedAfter + 1, runs)
    requires w !in runs
    ensures IsAt(Next(s, sys, StartRun(w, 0)), Tables(Taken(2, w, s.abandonedAfter + 1, target), build, rows), s.abandonedAfter + 1,
                 runs[w := Begun(2)])
  {
    hide IsAt, Tables, Next;
    Claims(s, sys, Released(Retrying, 1, 0, Some(s.abandonedAfter + 1), target), build, rows, s.abandonedAfter + 1, runs, w);
  }

  lemma Ticks(s: Settings, sys: System, db: Db, runs: map<WorkerId, Run>)
    requires IsAt(sys, db, 0, runs)
    ensures IsAt(Next(s, sys, Tick(s.abandonedAfter + 1)), db, s.abandonedAfter + 1, runs)
  {
  }

  /** The first worker falls silent, its job is recovered and claimed by the second one. */
  lemma Overtakes(s: Settings, actions: seq<Action>, k: nat, target: Option<nat>, build: Option<Build>, rows: bool, zombie: Run)
    requires ValidSettings(s) && 1 < s.maxAttempts && k + 2 < |actions|
    requires actions[k] == Tick(s.abandonedAfter + 1) && actions[k + 1] == Recover && actions[k + 2] == StartRun(HOLDER, 0)
    requires IsAt(Perform(s, INITIAL, actions[..k]), Tables(Taken(1, ZOMBIE, 0, target), build, rows), 0, map[ZOMBIE := zombie])
    ensures IsAt(Perform(s, INITIAL, actions[..k + 3]), Tables(Taken(2, HOLDER, s.abandonedAfter + 1, target), build, rows),
                 s.abandonedAfter + 1, map[ZOMBIE := zombie, HOLDER := Begun(2)])
  {
    hide Next, IsAt, Tables, Perform, Taken, Released, Begun;
    var runs := map[ZOMBIE := zombie];
    Prefix(s, actions, k);
    Ticks(s, Perform(s, INITIAL, actions[..k]), Tables(Taken(1, ZOMBIE, 0, target), build, rows), runs);
    Prefix(s, actions, k + 1);
    Recovers(s, Perform(s, INITIAL, actions[..k + 1]), ZOMBIE, target, build, rows, runs);
    Prefix(s, actions, k + 2);
    ClaimsAgain(s, Perform(s, INITIAL, actions[..k + 2]), target, build, rows, runs, HOLDER);
    TwoRunsMap(zombie, Begun(2), Begun(2));
  }

  // ---------------------------------------------------------------- a late cleanup

  function By(w: WorkerId): Action {
    Step(w, Given(), false)
  }

  /** A worker stalls in its cleanup, its job is recovered, and another worker builds the same slot again. */
  function LateCleanup(s: Settings): seq<Action> {
    [AttachPublic(0, 0, false, "main", "c"), StartRun(ZOMBIE, 0), By(ZOMBIE), By(ZOMBIE), By(ZOMBIE), Abort(ZOMBIE, true), By(ZOMBIE),
     Tick(s.abandonedAfter + 1), Recover, StartRun(HOLDER, 0),
     By(HOLDER), By(HOLDER), By(HOLDER), By(HOLDER), By(HOLDER), By(HOLDER), By(HOLDER)]
  }

  lemma FirstClaim(s: Settings, actions: seq<Action>)
    requires |actions| >= 2 && actions[0] == AttachPublic(0, 0, false, "main", "c") && actions[1] == StartRun(ZOMBIE, 0)
    ensures IsAt(Perform(s, INITIAL, actions[..2]), Tables(Taken(1, ZOMBIE, 0, None), None, false), 0, map[ZOMBIE := Begun(1)])
  {
    hide Next, IsAt, Tables;
    Attached(s);
    assert actions[..0] == [] && Perform(s, INITIAL, actions[..0]) == INITIAL;
    Prefix(s, actions, 0);
    Prefix(s, actions, 1);
    Claims(s, Perform(s, INITIAL, actions[..1]), QUEUED, None, false, 0, map[], ZOMBIE);
    assert map[][ZOMBIE := Begun(1)] == map[ZOMBIE := Begun(1)];
  }

  lemma FirstBuild(s: Settings, actions: seq<Action>)
    requires |actions| >= 5 && actions[0] == AttachPublic(0, 0, false, "main", "c") && actions[1] == StartRun(ZOMBIE, 0)
    requires actions[2] == By(ZOMBIE) && actions[3] == By(ZOMBIE) && actions[4] == By(ZOMBIE)
    ensures IsAt(Perform(s, INITIAL, actions[..5]),
                 Tables(Taken(1, ZOMBIE, 0, Some(1)), Some(BuildIn(Building, CleanupStatus.Pending, false)), true), 0,
                 map[ZOMBIE := RunIn(1, true, CheckingScope)])
  {
    hide Next, IsAt, Tables, StepRun, Perform, Given;
    var job, rebuilt := Taken(1, ZOMBIE, 0, Some(1)), Some(BuildIn(Building, CleanupStatus.Pending, false));
    FirstClaim(s, actions);
    Authorizes(s, 0, ZOMBIE, 1, ZOMBIE, 1, 0, None, None, false);
    Took(s, actions, 2, ZOMBIE, Tables(Taken(1, ZOMBIE, 0, None), None, false), 0, map[ZOMBIE := Begun(1)],
         Tables(job, None, false), Some(RunIn(1, false, CheckingCurrent)));
    Prepares(s, 0, ZOMBIE, 1, 0, None, false);
    OneRunMap(Begun(1), RunIn(1, false, CheckingCurrent));
    Took(s, actions, 3, ZOMBIE, Tables(job, None, false), 0, map[ZOMBIE := RunIn(1, false, CheckingCurrent)],
         Tables(job, None, false), Some(RunIn(1, false, Analyzing)));
    OneRunMap(RunIn(1, false, CheckingCurrent), RunIn(1, false, Analyzing));
    Took(s, actions, 4, ZOMBIE, Tables(job, None, false), 0, map[ZOMBIE := RunIn(1, false, Analyzing)],
         Tables(job, rebuilt, true), Some(RunIn(1, true, CheckingScope)));
    OneRunMap(RunIn(1, false, Analyzing), RunIn(1, true, CheckingScope));
  }

  lemma Aborts(s: Settings, sys: System, db: Db, now: Time, retryable: bool)
    requires IsAt(sys, db, now, map[ZOMBIE := RunIn(1, true, CheckingScope)])
    ensures IsAt(Next(s, sys, Abort(ZOMBIE, retryable)), db, now, map[ZOMBIE := RunIn(1, true, CheckingCleanup(ThenFail(retryable)))])
  {
    var before, after := RunIn(1, true, CheckingScope), RunIn(1, true, CheckingCleanup(ThenFail(retryable)));
    assert Raise(before, retryable) == Some(after);
    OneRunMap(before, after);
    hide Raise, RunIn;
  }

  /** The first worker stands before the write of its cleanup. */
  lemma Stalls(s: Settings)
    ensures IsAt(Perform(s, INITIAL, LateCleanup(s)[..7]),
                 Tables(Taken(1, ZOMBIE, 0, Some(1)), Some(BuildIn(Building, CleanupStatus.Pending, false)), true), 0,
                 map[ZOMBIE := RunIn(1, true, RecordingCleanup(ThenFail(true)))])
  {
    var actions := LateCleanup(s);
    var job, build := Taken(1, ZOMBIE, 0, Some(1)), BuildIn(Building, CleanupStatus.Pending, false);
    FirstBuild(s, actions);
    Aborts(s, Perform(s, INITIAL, actions[..5]), Tables(job, Some(build), true), 0, true);
    Prefix(s, actions, 5);
    hide Next, IsAt, Tables, StepRun, Perform, Given;
    Checks(s, 0, ZOMBIE, 1, job, build, ThenFail(true));
    Took(s, actions, 6, ZOMBIE, Tables(job, Some(build), true), 0, map[ZOMBIE := RunIn(1, true, CheckingCleanup(ThenFail(true)))],
         Tables(job, Some(build), true), Some(RunIn(1, true, RecordingCleanup(ThenFail(true)))));
    OneRunMap(RunIn(1, true, CheckingCleanup(ThenFail(true))), RunIn(1, true, RecordingCleanup(ThenFail(true))));
  }

  lemma IsOvertaken(s: Settings)
    requires ValidSettings(s) && 1 < s.maxAttempts
    ensures IsAt(Perform(s, INITIAL, LateCleanup(s)[..10]),
                 Tables(Taken(2, HOLDER, s.abandonedAfter + 1, Some(1)), Some(BuildIn(Building, CleanupStatus.Pending, false)), true),
                 s.abandonedAfter + 1, map[ZOMBIE := RunIn(1, true, RecordingCleanup(ThenFail(true))), HOLDER := Begun(2)])
  {
    hide Next, IsAt, Tables, Perform;
    Stalls(s);
    Overtakes(s, LateCleanup(s), 7, Some(1), Some(BuildIn(Building, CleanupStatus.Pending, false)), true,
              RunIn(1, true, RecordingCleanup(ThenFail(true))));
  }

  /** One step of the second worker. */
  lemma HolderTook(s: Settings, k: nat, db: Db, a: Run, db': Db, b: Run)
    requires k < |LateCleanup(s)| && LateCleanup(s)[k] == By(HOLDER)
    requires var runs := map[ZOMBIE := RunIn(1, true, RecordingCleanup(ThenFail(true))), HOLDER := a];
             IsAt(Perform(s, INITIAL, LateCleanup(s)[..k]), db, s.abandonedAfter + 1, runs)
    requires a.phase.Validating? ==> ValidationRead(db, a.claimed, Given().rows)
    requires StepRun(s, db, s.abandonedAfter + 1, HOLDER, a, Given()) == Outcome(db', Some(b), [])
    ensures IsAt(Perform(s, INITIAL, LateCleanup(s)[..k + 1]), db', s.abandonedAfter + 1,
                 map[ZOMBIE := RunIn(1, true, RecordingCleanup(ThenFail(true))), HOLDER := b])
  {
    hide IsAt, StepRun, Perform, Given, ValidationRead;
    var zombie := RunIn(1, true, RecordingCleanup(ThenFail(true)));
    Took(s, LateCleanup(s), k, HOLDER, db, s.abandonedAfter + 1, map[ZOMBIE := zombie, HOLDER := a], db', Some(b));
    TwoRunsMap(zombie, a, b);
  }

  /** The second worker builds the slot again, and its build is ready. */
  lemma RebuildIsReady(s: Settings)
    requires ValidSettings(s) && 1 < s.maxAttempts
    ensures IsAt(Perform(s, INITIAL, LateCleanup(s)),
                 Tables(Taken(2, HOLDER, s.abandonedAfter + 1, Some(1)), Some(BuildIn(Ready, CleanupStatus.Pending, true)), true),
                 s.abandonedAfter + 1,
                 map[ZOMBIE := RunIn(1, true, RecordingCleanup(ThenFail(true))), HOLDER := RunIn(2, true, Rechecking)])
  {
    hide IsAt, Tables, StepRun, Perform, Given, ValidationRead;
    var at := s.abandonedAfter + 1;
    var job := Taken(2, HOLDER, at, Some(1));
    var old' := Tables(job, Some(BuildIn(Building, CleanupStatus.Pending, false)), true);
    var validated := Tables(job, Some(BuildIn(Building, CleanupStatus.Pending, true)), true);
    IsOvertaken(s);
    Authorizes(s, at, HOLDER, 2, HOLDER, 2, at, Some(1), Some(BuildIn(Building, CleanupStatus.Pending, false)), true);
    Prepares(s, at, HOLDER, 2, at, Some(BuildIn(Building, CleanupStatus.Pending, false)), true);
    Counts(s, at, HOLDER, 2, at);
    Validates(s, at, HOLDER, 2, at);
    Readies(s, at, HOLDER, 2, at);
    HolderTook(s, 10, old', Begun(2), old', RunIn(2, false, CheckingCurrent));
    HolderTook(s, 11, old', RunIn(2, false, CheckingCurrent), old', RunIn(2, false, Analyzing));
    HolderTook(s, 12, old', RunIn(2, false, Analyzing), old', RunIn(2, true, CheckingScope));
    HolderTook(s, 13, old', RunIn(2, true, CheckingScope), old', RunIn(2, true, CountingVectors));
    HolderTook(s, 14, old', RunIn(2, true, CountingVectors), old', RunIn(2, true, Validating));
    HolderTook(s, 15, old', RunIn(2, true, Validating), validated, RunIn(2, true, Readying));
    HolderTook(s, 16, validated, RunIn(2, true, Readying),
               Tables(job, Some(BuildIn(Ready, CleanupStatus.Pending, true)), true), RunIn(2, true, Rechecking));
    assert LateCleanup(s)[..17] == LateCleanup(s);
  }

  /** The step of the overtaken worker fails the ready build of the worker that holds the job, which cannot activate it any more. */
  lemma ZombieFailsReadyBuild(s: Settings)
    requires ValidSettings(s) && 1 < s.maxAttempts
    ensures var sys := Perform(s, INITIAL, LateCleanup(s));
            var after := Next(s, sys, By(ZOMBIE));
            && ZOMBIE in sys.runs && sys.runs[ZOMBIE].claimed.attempt != AttemptOf(sys.db, 0)
            && HOLDER in sys.runs && Held(sys.db, sys.runs[HOLDER].claimed, HOLDER) && OwnsBuild(sys.db, SLOT, 0, Ready)
            && OwnsBuild(after.db, SLOT, 0, BuildFailed) && SLOT !in after.db.graphs
            && forall commit :: !CanActivate(after.db, sys.runs[HOLDER].claimed, HOLDER, commit)
  {
    var sys := Perform(s, INITIAL, LateCleanup(s));
    var job, build := Taken(2, HOLDER, s.abandonedAfter + 1, Some(1)), BuildIn(Ready, CleanupStatus.Pending, true);
    RebuildIsReady(s);
    Cleans(s, s.abandonedAfter + 1, ZOMBIE, 1, job, build, true);
    hide StepRun, Perform;
    assert Next(s, sys, By(ZOMBIE)).db == Tables(job, Some(build.(state := BuildFailed, cleanup := Cleaned)), false);
  }

  // ---------------------------------------------------------------- a late context read

  /** A worker stalls before its first read; its job is recovered and claimed by another one. */
  function LateContext(s: Settings): seq<Action> {
    [AttachPublic(0, 0, false, "main", "c"), StartRun(ZOMBIE, 0), Tick(s.abandonedAfter + 1), Recover, StartRun(HOLDER, 0)]
  }

  lemma ContextIsLate(s: Settings)
    requires ValidSettings(s) && 1 < s.maxAttempts
    ensures IsAt(Perform(s, INITIAL, LateContext(s)), Tables(Taken(2, HOLDER, s.abandonedAfter + 1, None), None, false),
                 s.abandonedAfter + 1, map[ZOMBIE := Begun(1), HOLDER := Begun(2)])
  {
    hide Next, IsAt, Tables, Perform;
    FirstClaim(s, LateContext(s));
    Overtakes(s, LateContext(s), 2, None, None, false, Begun(1));
    assert LateContext(s)[..5] == LateContext(s);
  }

  lemma Performs(s: Settings, sys: System, w: WorkerId, db: Db, now: Time, runs: map<WorkerId, Run>)
    requires IsAt(sys, db, now, runs) && w in runs && !runs[w].phase.Validating?
    ensures Next(s, sys, By(w)).db == StepRun(s, db, now, w, runs[w], Given()).db
  {
    hide StepRun;
  }

  /** Then the read of the overtaken worker writes the target version. */
  lemma ZombieWritesTarget(s: Settings)
    requires ValidSettings(s) && 1 < s.maxAttempts
    ensures var sys := Perform(s, INITIAL, LateContext(s));
            var after := Next(s, sys, By(ZOMBIE));
            && ZOMBIE in sys.runs && sys.runs[ZOMBIE].claimed.attempt != AttemptOf(sys.db, 0)
            && 0 in sys.db.jobs && sys.db.jobs[0].targetVersion == None
            && 0 in after.db.jobs && after.db.jobs[0].targetVersion == Some(1)
  {
    var at := s.abandonedAfter + 1;
    ContextIsLate(s);
    var runs := map[ZOMBIE := Begun(1), HOLDER := Begun(2)];
    Performs(s, Perform(s, INITIAL, LateContext(s)), ZOMBIE, Tables(Taken(2, HOLDER, at, None), None, false), at, runs);
    hide Perform, StepRun, Next;
    Authorizes(s, at, ZOMBIE, 1, HOLDER, 2, at, None, None, false);
  }

  // ---------------------------------------------------------------- a blocked repository

  /** A first build that fails for good after it was prepared. */
  function FailedBuild(): seq<Action> {
    [AttachPublic(0, 0, false, "main", "c"), StartRun(ZOMBIE, 0), By(ZOMBIE), By(ZOMBIE), By(ZOMBIE), Abort(ZOMBIE, false),
     By(ZOMBIE), By(ZOMBIE), By(ZOMBIE)]
  }

  lemma ZombieTook(s: Settings, k: nat, db: Db, a: Run, db': Db, b: Run)
    requires k < |FailedBuild()| && FailedBuild()[k] == By(ZOMBIE) && !a.phase.Validating?
    requires IsAt(Perform(s, INITIAL, FailedBuild()[..k]), db, 0, map[ZOMBIE := a])
    requires StepRun(s, db, 0, ZOMBIE, a, Given()) == Outcome(db', Some(b), [])
    ensures IsAt(Perform(s, INITIAL, FailedBuild()[..k + 1]), db', 0, map[ZOMBIE := b])
  {
    hide IsAt, StepRun, Perform, Given, ValidationRead;
    Took(s, FailedBuild(), k, ZOMBIE, db, 0, map[ZOMBIE := a], db', Some(b));
    OneRunMap(a, b);
  }

  lemma TablesOf(sys: System, db: Db, now: Time, runs: map<WorkerId, Run>)
    requires IsAt(sys, db, now, runs)
    ensures sys.db == db
  {
  }

  lemma BuildFails(s: Settings)
    ensures Perform(s, INITIAL, FailedBuild()).db
         == Tables(Released(Failed, 1, 0, None, Some(1)), Some(BuildIn(BuildFailed, Cleaned, false)), false)
  {
    var actions := FailedBuild();
    var job, build := Taken(1, ZOMBIE, 0, Some(1)), BuildIn(Building, CleanupStatus.Pending, false);
    var failed := BuildIn(BuildFailed, Cleaned, false);
    hide Next, Tables, StepRun, Perform, Given, IsAt;
    FirstBuild(s, actions);
    Aborts(s, Perform(s, INITIAL, actions[..5]), Tables(job, Some(build), true), 0, false);
    Prefix(s, actions, 5);
    Checks(s, 0, ZOMBIE, 1, job, build, ThenFail(false));
    ZombieTook(s, 6, Tables(job, Some(build), true), RunIn(1, true, CheckingCleanup(ThenFail(false))),
               Tables(job, Some(build), true), RunIn(1, true, RecordingCleanup(ThenFail(false))));
    Cleans(s, 0, ZOMBIE, 1, job, build, false);
    ZombieTook(s, 7, Tables(job, Some(build), true), RunIn(1, true, RecordingCleanup(ThenFail(false))),
               Tables(job, Some(failed), false), RunIn(1, true, Failing(false)));
    Fails(s, 0, ZOMBIE, 1, 0, Some(failed), false);
    Took(s, actions, 8, ZOMBIE, Tables(job, Some(failed), false), 0, map[ZOMBIE := RunIn(1, true, Failing(false))],
         Tables(Released(Failed, 1, 0, None, Some(1)), Some(failed), false), None);
    assert actions[..9] == actions;
    TablesOf(Perform(s, INITIAL, actions), Tables(Released(Failed, 1, 0, None, Some(1)), Some(failed), false), 0,
             map[ZOMBIE := RunIn(1, true, Failing(false))] - {ZOMBIE});
  }

  /** The repository is never indexed after it: no later job can build the slot of version 1. */
  lemma FailedBuildBlocks(s: Settings, after: seq<Action>)
    requires ValidSettings(s)
    ensures var db := Perform(s, Perform(s, INITIAL, FailedBuild()), after).db;
            Blocked(db, 0) && db.repositories[0].indexVersion == 0
  {
    hide Perform, FailedBuild;
    BuildFails(s);
    assert Blocked(Perform(s, INITIAL, FailedBuild()).db, 0);
    EveryReachableStateIsOk(s, FailedBuild());
    BlockedForGood(s, Perform(s, INITIAL, FailedBuild()), after, 0);
  }

  /** A refresh while the first build is under way. */
  function RefreshedBuild(): seq<Action> {
    [AttachPublic(0, 0, false, "main", "c"), StartRun(ZOMBIE, 0), By(ZOMBIE), By(ZOMBIE), By(ZOMBIE), RequestReindex(0, 1)]
  }

  lemma BuildIsOvertaken(s: Settings)
    ensures var db := Perform(s, INITIAL, RefreshedBuild()).db;
            Blocked(db, 0) && db.repositories[0].indexVersion == 0 && 0 in db.jobs && db.jobs[0].status.Running? && 1 in db.jobs
  {
    var actions := RefreshedBuild();
    FirstBuild(s, actions);
    Prefix(s, actions, 5);
    assert actions[..6] == actions;
    hide Perform, CallGraph.Summarize;
  }

  /** It blocks the repository as well: the build keeps its slot, and its job is never current again. */
  lemma RefreshDuringBuildBlocks(s: Settings, after: seq<Action>)
    requires ValidSettings(s)
    ensures var db := Perform(s, Perform(s, INITIAL, RefreshedBuild()), after).db;
            Blocked(db, 0) && db.repositories[0].indexVersion == 0
  {
    hide Perform, RefreshedBuild, Blocked;
    BuildIsOvertaken(s);
    EveryReachableStateIsOk(s, RefreshedBuild());
    BlockedForGood(s, Perform(s, INITIAL, RefreshedBuild()), after, 0);
  }
}
