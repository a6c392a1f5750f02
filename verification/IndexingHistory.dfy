/**
 * What the history of claims, retries and activations of a run of the system says about the tables,
 * and the proof that every action of the system keeps it.
 */
module IndexingHistory {
  import opened Common
  import opened IndexingRows
  import opened T = IndexingTransitions
  import opened I = IndexingInvariants
  import opened IndexingSystem
  import opened IndexingRuns
  import CallGraph

  // ---------------------------------------------------------------- reading a history

  /** The activations of one repository, oldest first. */
  function Activations(h: seq<Event>, r: RepositoryId): (acts: seq<Event>)
    ensures forall e :: e in acts ==> e in h && e.Activated? && e.repository == r
  {
    if h == [] then []
    else
      var e := h[|h| - 1];
      Activations(h[..|h| - 1], r) + if e.Activated? && e.repository == r then [e] else []
  }

  function ClaimCount(h: seq<Event>, j: JobId): nat {
    if h == [] then 0
    else
      var e := h[|h| - 1];
      ClaimCount(h[..|h| - 1], j) + if e.Claimed? && e.job == j then 1 else 0
  }

  function TotalBackoff(h: seq<Event>, j: JobId): nat {
    if h == [] then 0
    else
      var e := h[|h| - 1];
      TotalBackoff(h[..|h| - 1], j) + if e.Backoff? && e.job == j then e.delay else 0
  }

  /** Backoff adds up along a history. */
  lemma {:induction false} BackoffAddsUp(a: seq<Event>, b: seq<Event>, j: JobId)
    ensures TotalBackoff(a + b, j) == TotalBackoff(a, j) + TotalBackoff(b, j)
    ensures forall delay :: TotalBackoff([Backoff(j, delay)], j) == delay
  {
    forall delay ensures TotalBackoff([Backoff(j, delay)], j) == delay { assert [Backoff(j, delay)][..0] == []; }
    if b == [] {
      assert a + b == a;
    } else {
      BackoffAddsUp(a, b[..|b| - 1], j);
      assert (a + b)[..|a + b| - 1] == a + b[..|b| - 1];
    }
  }

  function VersionOf(db: Db, r: RepositoryId): nat {
    if r in db.repositories then db.repositories[r].indexVersion else 0
  }

  function GenerationOf(db: Db, r: RepositoryId): nat {
    if r in db.repositories then db.repositories[r].generation else 0
  }

  function IndexedBranchOf(db: Db, r: RepositoryId): Option<Branch> {
    if r in db.repositories then db.repositories[r].indexedBranch else None
  }

  function AttemptOf(db: Db, j: JobId): nat {
    if j in db.jobs then db.jobs[j].attempt else 0
  }

  function CompletedOf(db: Db, j: JobId): nat {
    if j in db.jobs then Completed(db.jobs[j]) else 0
  }

  /** One and a half times the retry ceiling, in milliseconds, for each attempt. */
  function BackoffBound(s: Settings, attempts: nat): nat {
    attempts * (1500 * s.retryMax)
  }

  ghost predicate ActivationOk(e: Event, version: nat, db: Db, r: RepositoryId)
    requires e.Activated?
  {
    && e.version == version && e.generation <= GenerationOf(db, r)
    && e.job in db.jobs && db.jobs[e.job].generation == e.generation && db.jobs[e.job].status.Complete?
    && db.jobs[e.job].targetBranch in {None, Some(e.branch)}
    && Slot(r, version) in db.builds && db.builds[Slot(r, version)].owner == Some(e.job)
  }

  /**
   * Version k of a repository was activated k-th, by the owner of its build, in order of generation; the
   * indexed branch is that of the last activation.
   */
  ghost predicate ActivationsOk(acts: seq<Event>, db: Db, r: RepositoryId) {
    && |acts| == VersionOf(db, r)
    && (forall i :: 0 <= i < |acts| ==> acts[i].Activated? && ActivationOk(acts[i], i + 1, db, r))
    && (forall i, k :: 0 <= i <= k < |acts| ==> acts[i].generation <= acts[k].generation)
    && (acts != [] ==> IndexedBranchOf(db, r) == Some(acts[|acts| - 1].branch))
  }

  ghost predicate JobHistoryOk(s: Settings, db: Db, h: seq<Event>, j: JobId) {
    ClaimCount(h, j) == AttemptOf(db, j) && TotalBackoff(h, j) <= BackoffBound(s, CompletedOf(db, j))
  }

  ghost predicate HistoryOk(s: Settings, db: Db, h: seq<Event>) {
    && (forall r :: ActivationsOk(Activations(h, r), db, r))
    && (forall j :: JobHistoryOk(s, db, h, j))
  }

  ghost predicate VersionsSame(a: Db, b: Db) {
    forall r :: VersionOf(a, r) == VersionOf(b, r) && IndexedBranchOf(a, r) == IndexedBranchOf(b, r)
  }

  // ---------------------------------------------------------------- keeping it

  lemma BackoffBoundMonotone(s: Settings, a: nat, b: nat)
    requires a <= b
    ensures BackoffBound(s, a) <= BackoffBound(s, b)
  {
  }

  lemma ActivationsStayOk(m: nat, a: Db, b: Db, r: RepositoryId, acts: seq<Event>)
    requires ActivationsOk(acts, a, r) && Evolves(m, a, b)
    requires VersionOf(a, r) == VersionOf(b, r) && IndexedBranchOf(a, r) == IndexedBranchOf(b, r)
    ensures ActivationsOk(acts, b, r)
  {
    forall i | 0 <= i < |acts| ensures ActivationOk(acts[i], i + 1, b, r) {
      assert ActivationOk(acts[i], i + 1, a, r);
      assert JobEvolves(m, a.jobs[acts[i].job], b.jobs[acts[i].job]);
      assert Slot(r, i + 1) in b.builds;
    }
  }

  lemma JobHistoryStaysOk(s: Settings, a: Db, b: Db, h: seq<Event>, j: JobId)
    requires JobHistoryOk(s, a, h, j) && LocksKept(a, b)
    ensures JobHistoryOk(s, b, h, j)
  {
    BackoffBoundMonotone(s, CompletedOf(a, j), CompletedOf(b, j));
  }

  lemma HistoryStaysOk(s: Settings, a: Db, b: Db, h: seq<Event>)
    requires HistoryOk(s, a, h) && Evolves(s.maxAttempts, a, b) && LocksKept(a, b) && VersionsSame(a, b)
    ensures HistoryOk(s, b, h)
  {
    hide Evolves, LocksKept;
    forall r ensures ActivationsOk(Activations(h, r), b, r) {
      ActivationsStayOk(s.maxAttempts, a, b, r, Activations(h, r));
    }
    forall j ensures JobHistoryOk(s, b, h, j) { JobHistoryStaysOk(s, a, b, h, j); }
  }

  lemma Appended(h: seq<Event>, e: Event)
    ensures (h + [e])[..|h + [e]| - 1] == h && (h + [e])[|h + [e]| - 1] == e
  {
  }

  lemma HistoryOkOnClaim(s: Settings, db: Db, h: seq<Event>, j: JobId, w: WorkerId, now: Time)
    requires HistoryOk(s, db, h) && Claim(db, j, w, now).1.Some?
    requires Evolves(s.maxAttempts, db, Claim(db, j, w, now).0)
    ensures HistoryOk(s, Claim(db, j, w, now).0, h + [Claimed(j, Claim(db, j, w, now).1.value.attempt)])
  {
    var db' := Claim(db, j, w, now).0;
    var e := Claimed(j, Claim(db, j, w, now).1.value.attempt);
    Appended(h, e);
    forall r ensures ActivationsOk(Activations(h + [e], r), db', r) {
      ActivationsStayOk(s.maxAttempts, db, db', r, Activations(h, r));
      assert Activations(h + [e], r) == Activations(h, r);
    }
    forall k ensures JobHistoryOk(s, db', h + [e], k) {
      assert JobHistoryOk(s, db, h, k);
      BackoffBoundMonotone(s, CompletedOf(db, k), CompletedOf(db', k));
    }
  }

  lemma RetryDelayBounded(s: Settings, attempt: nat, jitter: nat)
    ensures RetryDelay(s, attempt, jitter) <= BackoffBound(s, 1)
  {
  }

  lemma BackoffAdds(s: Settings, a: nat, b: nat)
    ensures BackoffBound(s, a) + BackoffBound(s, b) == BackoffBound(s, a + b)
  {
  }

  lemma FailKeepsRest(s: Settings, db: Db, c: ClaimedJob, w: WorkerId, retryable: bool, now: Time, jitter: nat)
    requires Held(db, c, w)
    ensures var db' := Fail(s, db, c, w, retryable, now, jitter);
            && db'.repositories == db.repositories && db'.builds == db.builds
            && db'.jobs == db.jobs[c.job := db'.jobs[c.job]]
            && db'.jobs[c.job].attempt == db.jobs[c.job].attempt
            && db'.jobs[c.job].status == if ShouldRetry(s, c, retryable) then Retrying else Failed
  {
  }

  lemma HistoryOkOnBackoff(s: Settings, db: Db, h: seq<Event>, c: ClaimedJob, w: WorkerId, retryable: bool, now: Time, jitter: nat)
    requires HistoryOk(s, db, h) && Held(db, c, w) && db.jobs[c.job].attempt >= 1 && ShouldRetry(s, c, retryable)
    requires Evolves(s.maxAttempts, db, Fail(s, db, c, w, retryable, now, jitter))
    ensures HistoryOk(s, Fail(s, db, c, w, retryable, now, jitter), h + [Backoff(c.job, RetryDelay(s, c.attempt, jitter))])
  {
    var db' := Fail(s, db, c, w, retryable, now, jitter);
    var e := Backoff(c.job, RetryDelay(s, c.attempt, jitter));
    Appended(h, e);
    FailKeepsRest(s, db, c, w, retryable, now, jitter);
    hide Fail;
    forall r ensures ActivationsOk(Activations(h + [e], r), db', r) {
      ActivationsStayOk(s.maxAttempts, db, db', r, Activations(h, r));
      assert Activations(h + [e], r) == Activations(h, r);
    }
    hide Evolves;
    forall k ensures JobHistoryOk(s, db', h + [e], k) {
      assert JobHistoryOk(s, db, h, k);
      RetryDelayBounded(s, c.attempt, jitter);
      BackoffAdds(s, CompletedOf(db, c.job), 1);
    }
  }

  lemma ActivationAppended(m: nat, db: Db, db': Db, acts: seq<Event>, j: JobId, r: RepositoryId, n: nat, commit: Commit, now: Time)
    requires ActivationsOk(acts, db, r) && Activation(db, db', j, r, n, commit, now) && Evolves(m, db, db')
    requires db.jobs[j].generation == db.repositories[r].generation && db.builds[Slot(r, n + 1)].owner == Some(j)
    requires db.jobs[j].targetBranch in {None, Some(db.repositories[r].defaultBranch)}
    ensures ActivationsOk(acts + [Activated(r, n + 1, j, db.jobs[j].generation, db.repositories[r].defaultBranch)], db', r)
  {
    var e := Activated(r, n + 1, j, db.jobs[j].generation, db.repositories[r].defaultBranch);
    forall i | 0 <= i < |acts| ensures ActivationOk(acts[i], i + 1, db', r) {
      assert ActivationOk(acts[i], i + 1, db, r);
      assert JobEvolves(m, db.jobs[acts[i].job], db'.jobs[acts[i].job]);
    }
    assert ActivationOk(e, n + 1, db', r);
  }

  lemma HistoryOkOnActivation(s: Settings, db: Db, db': Db, h: seq<Event>, j: JobId, r: RepositoryId, n: nat, commit: Commit, now: Time)
    requires HistoryOk(s, db, h) && Activation(db, db', j, r, n, commit, now)
    requires db.jobs[j].generation == db.repositories[r].generation && db.builds[Slot(r, n + 1)].owner == Some(j)
    requires db.jobs[j].targetBranch in {None, Some(db.repositories[r].defaultBranch)}
    requires Evolves(s.maxAttempts, db, db') && LocksKept(db, db')
    ensures HistoryOk(s, db', h + [Activated(r, n + 1, j, db.jobs[j].generation, db.repositories[r].defaultBranch)])
  {
    var e := Activated(r, n + 1, j, db.jobs[j].generation, db.repositories[r].defaultBranch);
    Appended(h, e);
    forall q ensures ActivationsOk(Activations(h + [e], q), db', q) {
      if q == r {
        ActivationAppended(s.maxAttempts, db, db', Activations(h, r), j, r, n, commit, now);
      } else {
        assert VersionOf(db, q) == VersionOf(db', q);
        ActivationsStayOk(s.maxAttempts, db, db', q, Activations(h, q));
        assert Activations(h + [e], q) == Activations(h, q);
      }
    }
    hide Activation, Evolves, LocksKept;
    forall k ensures JobHistoryOk(s, db', h + [e], k) {
      JobHistoryStaysOk(s, db, db', h, k);
    }
  }

  // ---------------------------------------------------------------- steps

  lemma PrepareKeepsVersions(db: Db, c: ClaimedJob, w: WorkerId, commit: Commit, p: Processing)
    ensures var r := PrepareBuild(db, c, w, commit, p); r.Success? ==> VersionsSame(db, r.value)
  {
    hide InsertOk, OwnsAnotherBuild, RowsOf, FreshBuild;
  }

  lemma OtherStepsKeepRepositories(s: Settings, db: Db, c: ClaimedJob, w: WorkerId, i: Input, retryable: bool, r: RepositoryId,
                                   version: nat, now: Time)
    ensures AuthorizedContext(db, c, i.membership).0.repositories == db.repositories
    ensures var t := RecordVectorCounts(db, c, w, i.embedded, i.vectors); t.Success? ==> t.value.repositories == db.repositories
    ensures var t := ValidateGraph(db, c, w, i.rows); t.Success? ==> t.value.repositories == db.repositories
    ensures var t := MarkBuildReady(db, c, w); t.Success? ==> t.value.repositories == db.repositories
    ensures var t := CompleteSupersededCleanup(db, r, version); t.Success? ==> t.value.repositories == db.repositories
    ensures RecordFailedBuildCleanup(db, r, version, i.vectorsDeleted).repositories == db.repositories
    ensures Cancel(db, c, w, now).repositories == db.repositories
    ensures Fail(s, db, c, w, retryable, now, i.jitter).repositories == db.repositories
  {
    hide CallGraph.Summarize, OwnsBuild, Publishable, Held, RetryDelay;
  }

  lemma SameRepositories(a: Db, b: Db)
    requires a.repositories == b.repositories
    ensures VersionsSame(a, b)
  {
  }

  lemma StepKeepsVersions(s: Settings, db: Db, now: Time, w: WorkerId, run: Run, i: Input)
    requires StepRun(s, db, now, w, run, i).events == [] || run.phase.Failing?
    ensures VersionsSame(db, StepRun(s, db, now, w, run, i).db)
  {
    hide VersionsSame, PrepareBuild, RecordVectorCounts, ValidateGraph, MarkBuildReady, Activate, AuthorizedContext, Cancel, Fail,
         RecordFailedBuildCleanup, CompleteSupersededCleanup, IsCurrent, Held, CanCleanupInactive, RetryDelay;
    SameRepositories(db, db);
    match run.phase
    case Analyzing => PrepareKeepsVersions(db, run.claimed, w, i.commit, i.processing);
    case CleaningSuperseded(previous) =>
      OtherStepsKeepRepositories(s, db, run.claimed, w, i, false, run.context.value.repository, previous, now);
      SameRepositories(db, StepRun(s, db, now, w, run, i).db);
    case RecordingCleanup(_) =>
      OtherStepsKeepRepositories(s, db, run.claimed, w, i, false, run.context.value.repository, run.context.value.version, now);
      SameRepositories(db, StepRun(s, db, now, w, run, i).db);
    case Failing(retryable) =>
      OtherStepsKeepRepositories(s, db, run.claimed, w, i, retryable, 0, 0, now);
      SameRepositories(db, StepRun(s, db, now, w, run, i).db);
    case _ =>
      OtherStepsKeepRepositories(s, db, run.claimed, w, i, false, 0, 0, now);
      SameRepositories(db, StepRun(s, db, now, w, run, i).db);
  }

  lemma ActivatedBranch(db: Db, c: ClaimedJob, w: WorkerId, commit: Commit)
    requires CanActivate(db, c, w, commit)
    ensures db.jobs[c.job].targetBranch in {None, Some(db.repositories[db.jobs[c.job].repository].defaultBranch)}
  {
  }

  lemma StepKeepsHistoryOnActivation(s: Settings, db: Db, now: Time, w: WorkerId, run: Run, i: Input, h: seq<Event>)
    requires HistoryOk(s, db, h) && BuildsOk(db)
    requires Evolves(s.maxAttempts, db, StepRun(s, db, now, w, run, i).db)
    requires StepRun(s, db, now, w, run, i).events != [] && !run.phase.Failing?
    ensures HistoryOk(s, StepRun(s, db, now, w, run, i).db, h + StepRun(s, db, now, w, run, i).events)
  {
    hide HistoryOk, Evolves, BuildsOk, PrepareBuild, RecordVectorCounts, ValidateGraph, MarkBuildReady, AuthorizedContext;
    assert run.phase.Activating?;
    var c := run.claimed;
    var r := db.jobs[c.job].repository;
    var n := db.repositories[r].indexVersion;
    var outcome := StepRun(s, db, now, w, run, i);
    assert outcome.events == [Activated(r, n + 1, c.job, db.jobs[c.job].generation, db.repositories[r].defaultBranch)];
    assert outcome.db == Activate(db, c, w, run.commit, now).value.0;
    ActivateShape(db, c, w, run.commit, now);
    StepKeepsLocks(s, db, now, w, run, i);
    ActivatedBranch(db, c, w, run.commit);
    HistoryOkOnActivation(s, db, outcome.db, h, c.job, r, n, run.commit, now);
  }

  lemma StepKeepsHistory(s: Settings, db: Db, now: Time, w: WorkerId, run: Run, i: Input, h: seq<Event>)
    requires HistoryOk(s, db, h) && Inv(s.maxAttempts, db) && RunOk(db, w, run)
    requires Evolves(s.maxAttempts, db, StepRun(s, db, now, w, run, i).db)
    ensures HistoryOk(s, StepRun(s, db, now, w, run, i).db, h + StepRun(s, db, now, w, run, i).events)
  {
    hide HistoryOk, Evolves, LocksKept, VersionsSame, PrepareBuild, RecordVectorCounts, ValidateGraph, MarkBuildReady, Activate,
         AuthorizedContext, RecordFailedBuildCleanup, CompleteSupersededCleanup, RetryDelay;
    var outcome := StepRun(s, db, now, w, run, i);
    StepKeepsLocks(s, db, now, w, run, i);
    if outcome.events == [] {
      assert h + outcome.events == h;
      StepKeepsVersions(s, db, now, w, run, i);
      hide StepRun;
      HistoryStaysOk(s, db, outcome.db, h);
    } else if run.phase.Failing? {
      hide Inv;
      HistoryOkOnBackoff(s, db, h, run.claimed, w, run.phase.retryable, now, i.jitter);
    } else {
      StepKeepsHistoryOnActivation(s, db, now, w, run, i, h);
    }
  }
}
