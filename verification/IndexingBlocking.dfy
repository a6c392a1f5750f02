/**
 * When a repository can still advance: unless its next slot is blocked, there is a continuation that
 * activates the next version.
 */
module IndexingBlocking {
  import opened Common
  import opened IndexingRows
  import opened T = IndexingTransitions
  import opened I = IndexingInvariants
  import opened IndexingSystem
  import opened IndexingRuns
  import opened IndexingHistory
  import opened IndexingTheorems
  import opened IndexingProgress
  import CallGraph
  import CallGraphTheorems

  // ---------------------------------------------------------------- the continuation

  function Steps(w: WorkerId, i: Input, k: nat): seq<Action> {
    seq(k, _ => Step(w, i, false))
  }

  lemma {:induction false} StepsArePerformed(s: Settings, sys: System, w: WorkerId, i: Input, k: nat)
    ensures Perform(s, sys, Steps(w, i, k)) == StepTimes(s, sys, w, i, k)
  {
    hide Next;
    if k == 0 {
    } else {
      StepsArePerformed(s, sys, w, i, k - 1);
      assert Steps(w, i, k)[..k - 1] == Steps(w, i, k - 1);
    }
  }

  /** A checkout without source files, of a commit that is not the indexed one. */
  function NewCommit(repository: Repository): Commit {
    if repository.lastIndexedCommit.Some? then repository.lastIndexedCommit.value + "+" else "+"
  }

  function EmptyCheckout(r: RepositoryId, repository: Repository): Input {
    var commit := NewCommit(repository);
    Input(true, commit, Processing(r, repository.indexVersion + 1, commit, 0, [], [], CallGraph.Summarize([])), 0, 0, [], true, 0)
  }

  lemma EmptyCheckoutIsGood(c: ClaimedJob, job: Job, repository: Repository)
    ensures GoodInput(c, job, repository, EmptyCheckout(c.repository, repository))
  {
    hide CallGraph.Summarize;
    var i := EmptyCheckout(c.repository, repository);
    assert EdgesAt(RowsOf(i.processing), i.processing.commit) == {};
    assert CallGraphTheorems.OrderedRead([], {});
    assert repository.lastIndexedCommit != Some(i.commit) by {
      if repository.lastIndexedCommit.Some? { assert |i.commit| == |repository.lastIndexedCommit.value| + 1; }
    }
  }

  lemma {:induction false} Above(keys: set<nat>) returns (k: nat)
    ensures forall x :: x in keys ==> x < k
  {
    if keys == {} {
      k := 0;
    } else {
      var x :| x in keys;
      var above := Above(keys - {x});
      k := Max(above, x + 1);
      forall y | y in keys ensures y < k { assert y == x || y in keys - {x}; }
    }
  }

  lemma FreshKey<T>(m: map<nat, T>) returns (k: nat)
    ensures k !in m
  {
    k := Above(m.Keys);
  }

  // ---------------------------------------------------------------- who can be the next owner

  /** The running job of the next slot is on its last attempt: only its own run can still activate it. */
  predicate LastChance(s: Settings, db: Db, r: RepositoryId) {
    && r in db.repositories
    && var slot := Slot(r, db.repositories[r].indexVersion + 1);
       && slot in db.builds && db.builds[slot].owner.Some? && db.builds[slot].owner.value in db.jobs
       && var job := db.jobs[db.builds[slot].owner.value];
          job.status.Running? && job.attempt >= s.maxAttempts
  }

  /** The job owns the next slot, or nobody does. */
  predicate MayOwnNext(db: Db, r: RepositoryId, j: JobId) {
    && r in db.repositories && j in db.jobs && db.jobs[j].repository == r
    && var n := db.repositories[r].indexVersion;
       && (Slot(r, n + 1) in db.builds ==> db.builds[Slot(r, n + 1)].owner == Some(j))
       && (db.jobs[j].targetVersion == None || db.jobs[j].targetVersion == Some(n + 1))
  }

  /** What an owner that is not blocked is. */
  lemma OwnerIsUnfinished(s: Settings, db: Db, r: RepositoryId) returns (j: JobId)
    requires Inv(s.maxAttempts, db) && r in db.repositories && !Blocked(db, r)
    requires Slot(r, db.repositories[r].indexVersion + 1) in db.builds
    ensures MayOwnNext(db, r, j) && db.builds[Slot(r, db.repositories[r].indexVersion + 1)].owner == Some(j)
    ensures Unfinished(db.jobs[j]) && db.jobs[j].generation == db.repositories[r].generation
  {
    var slot := Slot(r, db.repositories[r].indexVersion + 1);
    assert OwnerOk(db.builds[slot], slot, db.jobs);
    j := db.builds[slot].owner.value;
    assert JobOk(s.maxAttempts, db.jobs[j], db.repositories[r]);
  }

  // ---------------------------------------------------------------- making way

  /** After this time, every running job of the repository is abandoned, and the delay of job `j` has passed. */
  lemma LongEnough(s: Settings, db: Db, now: Time, r: RepositoryId, j: Option<JobId>) returns (elapsed: nat)
    requires Inv(s.maxAttempts, db) && (j.Some? ==> j.value in db.jobs)
    ensures forall k :: k in db.jobs && db.jobs[k].repository == r && db.jobs[k].status.Running? ==> Abandoned(s, db.jobs[k], now + elapsed)
    ensures j.Some? ==> Reached(db.jobs[j.value].nextAttemptAt, now + elapsed)
  {
    elapsed := 0;
    if k :| k in db.jobs && db.jobs[k].repository == r && db.jobs[k].status.Running? {
      assert JobOk(s.maxAttempts, db.jobs[k], db.repositories[db.jobs[k].repository]);
      elapsed := Max(0, db.jobs[k].heartbeatAt.value + s.abandonedAfter + 1 - now);
      assert forall q :: q in db.jobs && db.jobs[q].repository == r && db.jobs[q].status.Running? ==> q == k;
    }
    if j.Some? && db.jobs[j.value].nextAttemptAt.Some? {
      elapsed := Max(elapsed, db.jobs[j.value].nextAttemptAt.value - now);
    }
  }

  /** The repository is visible, and as long has passed that nothing of it runs. */
  function MadeWay(s: Settings, sys: System, r: RepositoryId, branch: Branch, elapsed: nat): Db
    requires r in sys.db.repositories
  {
    var row := sys.db.repositories[r].(defaultBranch := branch, revoked := false, deleted := false);
    RecoverAbandoned(s, SetRepository(sys.db, r, row), sys.now + elapsed)
  }

  function MakeWay(r: RepositoryId, branch: Branch, elapsed: nat): seq<Action> {
    [ChangeAccess(r, branch, false, false), Tick(elapsed), Recover]
  }

  lemma WayIsMade(s: Settings, sys: System, r: RepositoryId, branch: Branch, elapsed: nat)
    requires r in sys.db.repositories
    ensures var sys' := Perform(s, sys, MakeWay(r, branch, elapsed));
            sys'.db == MadeWay(s, sys, r, branch, elapsed) && sys'.now == sys.now + elapsed && sys'.runs == sys.runs
  {
    hide RecoverAbandoned;
    var actions := MakeWay(r, branch, elapsed);
    assert actions[..2][..1][..0] == [] && actions[..2][..1] == [actions[0]] && actions[..2] == [actions[0], actions[1]];
    var sys1 := Next(s, sys, actions[0]);
    var sys2 := Next(s, sys1, actions[1]);
    assert Perform(s, sys, actions[..2][..1]) == sys1;
    assert Perform(s, sys, actions[..2]) == sys2;
    assert Perform(s, sys, actions) == Next(s, sys2, actions[2]);
  }

  lemma NothingRuns(s: Settings, sys: System, r: RepositoryId, branch: Branch, elapsed: nat)
    requires r in sys.db.repositories
    requires forall k :: k in sys.db.jobs && sys.db.jobs[k].repository == r && sys.db.jobs[k].status.Running? ==>
               Abandoned(s, sys.db.jobs[k], sys.now + elapsed)
    ensures !RepositoryBusy(MadeWay(s, sys, r, branch, elapsed), r) && Visible(MadeWay(s, sys, r, branch, elapsed), r)
  {
  }

  /** The owner of the next slot may be claimed then. */
  lemma OwnerIsClaimable(s: Settings, sys: System, r: RepositoryId, j: JobId, branch: Branch, elapsed: nat)
    requires r in sys.db.repositories && MayOwnNext(sys.db, r, j) && Unfinished(sys.db.jobs[j])
    requires sys.db.jobs[j].generation == sys.db.repositories[r].generation
    requires sys.db.jobs[j].targetBranch == None || sys.db.jobs[j].targetBranch == Some(branch)
    requires sys.db.jobs[j].status.Running? ==>
               sys.db.jobs[j].attempt < s.maxAttempts && Abandoned(s, sys.db.jobs[j], sys.now + elapsed)
    requires Reached(sys.db.jobs[j].nextAttemptAt, sys.now + elapsed)
    ensures var db := MadeWay(s, sys, r, branch, elapsed);
            MayOwnNext(db, r, j) && Claimable(db.jobs[j], sys.now + elapsed) && Fresh(db.jobs[j], db.repositories[r])
  {
  }

  /** A job that is asked for then, and may be claimed. */
  lemma NewJobIsClaimable(s: Settings, sys: System, r: RepositoryId, j: JobId)
    requires r in sys.db.repositories && Slot(r, sys.db.repositories[r].indexVersion + 1) !in sys.db.builds && j !in sys.db.jobs
    requires !RepositoryBusy(sys.db, r) && Visible(sys.db, r)
    ensures var sys' := Next(s, sys, RequestReindex(r, j));
            && MayOwnNext(sys'.db, r, j) && Claimable(sys'.db.jobs[j], sys'.now) && Fresh(sys'.db.jobs[j], sys'.db.repositories[r])
            && !RepositoryBusy(sys'.db, r) && Visible(sys'.db, r) && sys'.runs == sys.runs
            && sys'.db.repositories[r].indexVersion == sys.db.repositories[r].indexVersion
  {
    var sys' := Next(s, sys, RequestReindex(r, j));
    assert forall k :: k in sys'.db.jobs && k != j ==> k in sys.db.jobs && sys'.db.jobs[k] == sys.db.jobs[k];
  }

  // ---------------------------------------------------------------- advancing

  lemma MayStart(s: Settings, sys: System, r: RepositoryId, j: JobId, w: WorkerId)
    requires SystemOk(s, sys) && MayOwnNext(sys.db, r, j) && w !in sys.runs
    requires Claimable(sys.db.jobs[j], sys.now) && Fresh(sys.db.jobs[j], sys.db.repositories[r])
    requires !RepositoryBusy(sys.db, r) && Visible(sys.db, r)
    ensures CanStart(s, sys, w, j)
  {
    hide SystemOk, RepositoryBusy, Claimable, Fresh, Visible;
  }

  lemma RunIsPerformed(s: Settings, sys: System, w: WorkerId, j: JobId, i: Input)
    ensures Perform(s, sys, [StartRun(w, j)] + Steps(w, i, 10)) == StepTimes(s, Next(s, sys, StartRun(w, j)), w, i, 10)
  {
    PerformAppended(s, sys, [StartRun(w, j)], Steps(w, i, 10));
    PerformOne(s, sys, StartRun(w, j));
    StepsArePerformed(s, Next(s, sys, StartRun(w, j)), w, i, 10);
  }

  /** From a state in which the job may be claimed, its run activates the next version. */
  lemma ClaimAdvances(s: Settings, sys: System, r: RepositoryId, j: JobId) returns (actions: seq<Action>)
    requires SystemOk(s, sys) && MayOwnNext(sys.db, r, j)
    requires Claimable(sys.db.jobs[j], sys.now) && Fresh(sys.db.jobs[j], sys.db.repositories[r])
    requires !RepositoryBusy(sys.db, r) && Visible(sys.db, r)
    ensures VersionOf(Perform(s, sys, actions).db, r) == VersionOf(sys.db, r) + 1
  {
    hide SystemOk, GoodInput, EmptyCheckout, CanStart, RepositoryBusy, Claimable, Fresh, Visible, StepTimes, Steps, Perform, Next;
    var job, repository := sys.db.jobs[j], sys.db.repositories[r];
    var i := EmptyCheckout(r, repository);
    var w := FreshKey(sys.runs);
    EmptyCheckoutIsGood(ClaimedJob(j, r, job.attempt + 1), job, repository);
    MayStart(s, sys, r, j, w);
    GoodRunActivates(s, sys, w, j, i);
    RunIsPerformed(s, sys, w, j, i);
    actions := [StartRun(w, j)] + Steps(w, i, 10);
  }

  lemma WayKeepsVersion(s: Settings, sys: System, r: RepositoryId, branch: Branch, elapsed: nat)
    requires r in sys.db.repositories
    ensures var db := MadeWay(s, sys, r, branch, elapsed);
            && r in db.repositories && db.repositories[r].indexVersion == sys.db.repositories[r].indexVersion
            && db.builds == sys.db.builds && db.jobs.Keys == sys.db.jobs.Keys
  {
  }

  /** The owner of the next slot, when it has way. */
  lemma OwnerHasWay(s: Settings, sys: System, r: RepositoryId) returns (j: JobId, branch: Branch, elapsed: nat)
    requires SystemOk(s, sys) && r in sys.db.repositories && !Blocked(sys.db, r) && !LastChance(s, sys.db, r)
    requires Slot(r, sys.db.repositories[r].indexVersion + 1) in sys.db.builds
    ensures var db := MadeWay(s, sys, r, branch, elapsed);
            && MayOwnNext(db, r, j) && Claimable(db.jobs[j], sys.now + elapsed) && Fresh(db.jobs[j], db.repositories[r])
            && !RepositoryBusy(db, r) && Visible(db, r)
  {
    hide Inv, RunsOk, HistoryOk, MadeWay, RepositoryBusy, Claimable, Fresh, Visible, Abandoned, Reached;
    j := OwnerIsUnfinished(s, sys.db, r);
    hide Blocked;
    var job := sys.db.jobs[j];
    branch := if job.targetBranch.Some? then job.targetBranch.value else sys.db.repositories[r].defaultBranch;
    elapsed := LongEnough(s, sys.db, sys.now, r, Some(j));
    NothingRuns(s, sys, r, branch, elapsed);
    OwnerIsClaimable(s, sys, r, j, branch, elapsed);
  }

  lemma OwnerAdvances(s: Settings, sys: System, r: RepositoryId) returns (actions: seq<Action>)
    requires ValidSettings(s) && SystemOk(s, sys) && r in sys.db.repositories && !Blocked(sys.db, r) && !LastChance(s, sys.db, r)
    requires Slot(r, sys.db.repositories[r].indexVersion + 1) in sys.db.builds
    ensures VersionOf(Perform(s, sys, actions).db, r) == VersionOf(sys.db, r) + 1
  {
    hide SystemOk, Perform, MadeWay, MakeWay, MayOwnNext, RepositoryBusy, Claimable, Fresh, Visible, Evolves, Blocked, LastChance;
    var j, branch, elapsed := OwnerHasWay(s, sys, r);
    var way := MakeWay(r, branch, elapsed);
    WayIsMade(s, sys, r, branch, elapsed);
    WayKeepsVersion(s, sys, r, branch, elapsed);
    PerformKeeps(s, sys, way);
    var more := ClaimAdvances(s, Perform(s, sys, way), r, j);
    actions := way + more;
    PerformAppended(s, sys, way, more);
  }

  lemma NewJobHasWay(s: Settings, sys: System, r: RepositoryId) returns (branch: Branch, elapsed: nat)
    requires SystemOk(s, sys) && r in sys.db.repositories
    ensures !RepositoryBusy(MadeWay(s, sys, r, branch, elapsed), r) && Visible(MadeWay(s, sys, r, branch, elapsed), r)
  {
    branch := sys.db.repositories[r].defaultBranch;
    elapsed := LongEnough(s, sys.db, sys.now, r, None);
    hide Inv, RunsOk, HistoryOk, MadeWay, RepositoryBusy, Visible, Abandoned;
    NothingRuns(s, sys, r, branch, elapsed);
  }

  lemma OwnNextIsThere(db: Db, r: RepositoryId, j: JobId)
    requires MayOwnNext(db, r, j)
    ensures r in db.repositories
  {
  }

  /** In an idle repository whose next slot is free, a new job activates the next version. */
  lemma RequestAdvances(s: Settings, sys: System, r: RepositoryId) returns (actions: seq<Action>)
    requires ValidSettings(s) && SystemOk(s, sys) && r in sys.db.repositories && !RepositoryBusy(sys.db, r) && Visible(sys.db, r)
    requires Slot(r, sys.db.repositories[r].indexVersion + 1) !in sys.db.builds
    ensures VersionOf(Perform(s, sys, actions).db, r) == VersionOf(sys.db, r) + 1
  {
    hide SystemOk, Perform, MayOwnNext, RepositoryBusy, Claimable, Fresh, Visible, Evolves, Next;
    var j := FreshKey(sys.db.jobs);
    var request := RequestReindex(r, j);
    NewJobIsClaimable(s, sys, r, j);
    NextKeeps(s, sys, request);
    PerformOne(s, sys, request);
    var more := ClaimAdvances(s, Next(s, sys, request), r, j);
    PerformAppended(s, sys, [request], more);
    OwnNextIsThere(Next(s, sys, request).db, r, j);
    actions := [request] + more;
  }

  lemma NewJobAdvances(s: Settings, sys: System, r: RepositoryId) returns (actions: seq<Action>)
    requires ValidSettings(s) && SystemOk(s, sys) && r in sys.db.repositories
    requires Slot(r, sys.db.repositories[r].indexVersion + 1) !in sys.db.builds
    ensures VersionOf(Perform(s, sys, actions).db, r) == VersionOf(sys.db, r) + 1
  {
    hide SystemOk, Perform, MadeWay, MakeWay, RepositoryBusy, Visible, Evolves;
    var branch, elapsed := NewJobHasWay(s, sys, r);
    var way := MakeWay(r, branch, elapsed);
    WayIsMade(s, sys, r, branch, elapsed);
    WayKeepsVersion(s, sys, r, branch, elapsed);
    PerformKeeps(s, sys, way);
    var more := RequestAdvances(s, Perform(s, sys, way), r);
    PerformAppended(s, sys, way, more);
    actions := way + more;
  }

  ghost predicate CanAdvance(s: Settings, sys: System, r: RepositoryId) {
    exists after :: VersionOf(Perform(s, sys, after).db, r) > VersionOf(sys.db, r)
  }

  lemma BlockedIsThere(db: Db, r: RepositoryId)
    requires Blocked(db, r)
    ensures r in db.repositories
  {
  }

  /**
   * In every reachable state, a repository can ever get another version exactly if its next slot is
   * not blocked, unless the job that owns the slot is running its last attempt.
   */
  lemma AdvancesIffNotBlocked(s: Settings, before: seq<Action>, r: RepositoryId)
    requires ValidSettings(s) && r in Perform(s, INITIAL, before).db.repositories
    requires !LastChance(s, Perform(s, INITIAL, before).db, r)
    ensures CanAdvance(s, Perform(s, INITIAL, before), r) <==> !Blocked(Perform(s, INITIAL, before).db, r)
  {
    hide Perform, SystemOk, Blocked, LastChance;
    var sys := Perform(s, INITIAL, before);
    EveryReachableStateIsOk(s, before);
    if Blocked(sys.db, r) {
      forall after ensures VersionOf(Perform(s, sys, after).db, r) == VersionOf(sys.db, r) {
        BlockedForGood(s, sys, after, r);
        BlockedIsThere(Perform(s, sys, after).db, r);
      }
    } else if Slot(r, sys.db.repositories[r].indexVersion + 1) in sys.db.builds {
      var after := OwnerAdvances(s, sys, r);
    } else {
      var after := NewJobAdvances(s, sys, r);
    }
  }
}
