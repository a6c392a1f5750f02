/**
 * A run of the system in which a due job is never picked up: a hundred older jobs come due again in
 * every round of `reconcile`.
 */
module IndexingStarvation {
  import opened Common
  import opened IndexingRows
  import opened T = IndexingTransitions
  import opened IndexingSystem
  import opened IndexingTheorems
  import opened IndexingQueue

  // ---------------------------------------------------------------- arrivals

  const LATE: JobId := 100

  function Arrival(i: nat): Action {
    AttachPublic(i, i, false, "main", "c")
  }

  function Crowd(k: nat): seq<Action> {
    seq(k, i requires 0 <= i < k => Arrival(i))
  }

  /** A hundred public repositories are attached, and one more a moment later. */
  function Arrivals(): seq<Action> {
    Crowd(100) + [Tick(1), Arrival(LATE)]
  }

  function Arrived(i: nat, at: Time): Job {
    Job(i, InitialIndex, Some(Full), Some("main"), Some("c"), 0, at, Queued, 0, None, None, None, None, None)
  }

  ghost predicate CrowdIs(sys: System, k: nat) {
    && sys.now == 0 && sys.db.builds == map[]
    && (forall i: nat :: i in sys.db.jobs <==> i < k)
    && (forall i: nat :: i in sys.db.repositories <==> i < k)
    && (forall i: nat :: i < k ==> sys.db.jobs[i] == Arrived(i, 0))
  }

  lemma ArrivalIsNew(s: Settings, sys: System, i: nat)
    requires i !in sys.db.repositories && i !in sys.db.jobs && sys.db.builds == map[]
    requires forall k :: k in sys.db.jobs ==> sys.db.jobs[k].repository != i
    ensures var sys' := Next(s, sys, Arrival(i));
            && sys'.db.jobs == sys.db.jobs[i := Arrived(i, sys.now)] && sys'.db.repositories.Keys == sys.db.repositories.Keys + {i}
            && sys'.db.builds == map[] && sys'.now == sys.now
  {
  }

  lemma OneMoreArrives(s: Settings, sys: System, k: nat)
    requires CrowdIs(sys, k)
    ensures CrowdIs(Next(s, sys, Arrival(k)), k + 1)
  {
    ArrivalIsNew(s, sys, k);
    hide Next, Arrived;
    var sys' := Next(s, sys, Arrival(k));
    forall i: nat ensures i in sys'.db.repositories <==> i < k + 1 {
      assert i in sys'.db.repositories <==> i in sys.db.repositories.Keys + {k};
    }
  }

  lemma NobodyArrived()
    ensures CrowdIs(INITIAL, 0)
  {
  }

  lemma {:induction false} CrowdArrives(s: Settings, k: nat)
    ensures CrowdIs(Perform(s, INITIAL, Crowd(k)), k)
  {
    hide Next, CrowdIs;
    if k == 0 {
      NobodyArrived();
    } else {
      CrowdArrives(s, k - 1);
      assert Crowd(k)[..k - 1] == Crowd(k - 1);
      OneMoreArrives(s, Perform(s, INITIAL, Crowd(k - 1)), k - 1);
    }
  }

  // ---------------------------------------------------------------- rounds

  /** A job that waits for a worker, and may have been marked before. */
  predicate Waits(job: Job, at: Time, now: Time) {
    && job.status.Queued? && job.createdAt == at && job.nextAttemptAt == None
    && (job.lastEnqueuedAt.None? || job.lastEnqueuedAt.value <= now)
  }

  ghost predicate Starving(sys: System) {
    && (forall i: nat :: i in sys.db.jobs <==> i <= LATE)
    && (forall i: nat :: i < LATE ==> Waits(sys.db.jobs[i], 0, sys.now))
    && Waits(sys.db.jobs[LATE], 1, sys.now) && sys.db.jobs[LATE].lastEnqueuedAt == None
  }

  lemma ArrivalsStarve(s: Settings)
    ensures Starving(Perform(s, INITIAL, Arrivals()))
  {
    var crowd := Perform(s, INITIAL, Crowd(100));
    CrowdArrives(s, 100);
    var later := Next(s, crowd, Tick(1));
    assert later.db == crowd.db && later.now == 1;
    ArrivalIsNew(s, later, LATE);
    hide Next, Perform;
    PerformAppended(s, INITIAL, Crowd(100), [Tick(1), Arrival(LATE)]);
    PerformAppended(s, crowd, [Tick(1)], [Arrival(LATE)]);
    assert [Tick(1)] + [Arrival(LATE)] == [Tick(1), Arrival(LATE)];
    PerformOne(s, crowd, Tick(1));
    PerformOne(s, later, Arrival(LATE));
  }

  /** So much time passes that every mark has lapsed. */
  function Pause(s: Settings): Action {
    Tick(s.abandonedAfter + 1)
  }

  /** The pause, the batch and its marks. */
  function RoundActions(s: Settings, ids: seq<JobId>): seq<Action> {
    [Pause(s)] + Marks(ids)
  }

  lemma AllDue(s: Settings, sys: System)
    requires Starving(sys)
    ensures var at := Next(s, sys, Pause(s));
            Starving(at) && forall i: nat :: i <= LATE ==> Due(s, at.db.jobs[i], at.now)
  {
  }

  function Below(k: nat): set<JobId> {
    if k == 0 then {} else Below(k - 1) + {k - 1}
  }

  lemma {:induction false} CountBelow(k: nat)
    ensures |Below(k)| == k && forall i: nat :: i in Below(k) <==> i < k
  {
    if k == 0 {
    } else {
      CountBelow(k - 1);
    }
  }

  /** Whatever the batch, it is made of the crowd. */
  lemma LateIsPassedOver(s: Settings, at: System, ids: seq<JobId>)
    requires Starving(at) && (forall i: nat :: i <= LATE ==> Due(s, at.db.jobs[i], at.now)) && DueBatch(s, at.db, at.now, ids)
    ensures LATE !in ids && |ids| == DUE_LIMIT
  {
    hide Due;
    CountBelow(100);
    hide Below;
    forall k | k in Below(100) ensures k in Rivals(s, at.db, LATE, at.now) {}
    StarvedBehindOlder(s, at.db, at.now, LATE, Below(100), ids);
    assert LATE in at.db.jobs && Due(s, at.db.jobs[LATE], at.now);
  }

  lemma MarksStarve(s: Settings, at: System, ids: seq<JobId>)
    requires Starving(at) && LATE !in ids
    ensures Starving(Perform(s, at, Marks(ids)))
  {
    MarkAllIsPerformed(s, at, ids);
    hide MarkAll;
    var after := Perform(s, at, Marks(ids));
    MarkAllKeys(at.db, ids, at.now);
    forall i: nat | i <= LATE
      ensures i in after.db.jobs
      ensures after.db.jobs[i] == at.db.jobs[i] || after.db.jobs[i] == at.db.jobs[i].(lastEnqueuedAt := Some(at.now))
      ensures i == LATE ==> after.db.jobs[i] == at.db.jobs[i]
    {
      MarkAllRows(at.db, ids, at.now, i);
    }
  }

  /** A batch that `due_jobs` may return: the crowd. */
  function CrowdBatch(): seq<JobId> {
    seq(100, i requires 0 <= i < 100 => i)
  }

  lemma CrowdIsABatch(s: Settings, at: System)
    requires Starving(at) && forall i: nat :: i <= LATE ==> Due(s, at.db.jobs[i], at.now)
    ensures DueBatch(s, at.db, at.now, CrowdBatch())
  {
    hide Due;
    var ids := CrowdBatch();
    forall i: nat | i < 100 ensures i in ids { assert ids[i] == i; }
  }

  // ---------------------------------------------------------------- the run

  function Rounds(s: Settings, batches: seq<seq<JobId>>): seq<Action> {
    if batches == [] then [] else Rounds(s, batches[..|batches| - 1]) + RoundActions(s, batches[|batches| - 1])
  }

  /** The state after the arrivals and these rounds. */
  ghost function After(s: Settings, batches: seq<seq<JobId>>): System {
    Perform(s, INITIAL, Arrivals() + Rounds(s, batches))
  }

  /** When the next round reads its batch. */
  ghost function AtRead(s: Settings, batches: seq<seq<JobId>>): System {
    Next(s, After(s, batches), Pause(s))
  }

  /** Every batch is one that `due_jobs` may return. */
  ghost predicate AreBatches(s: Settings, batches: seq<seq<JobId>>) {
    forall k :: 0 <= k < |batches| ==> DueBatch(s, AtRead(s, batches[..k]).db, AtRead(s, batches[..k]).now, batches[k])
  }

  lemma RoundIsPerformed(s: Settings, batches: seq<seq<JobId>>, ids: seq<JobId>)
    ensures After(s, batches + [ids]) == Perform(s, AtRead(s, batches), Marks(ids))
  {
    hide Next, Perform, Arrivals, Marks;
    assert (batches + [ids])[..|batches|] == batches;
    var before := Arrivals() + Rounds(s, batches);
    assert Arrivals() + Rounds(s, batches + [ids]) == before + RoundActions(s, ids);
    PerformAppended(s, INITIAL, before, RoundActions(s, ids));
    PerformAppended(s, After(s, batches), [Pause(s)], Marks(ids));
    PerformOne(s, After(s, batches), Pause(s));
  }

  lemma NoRounds(s: Settings)
    ensures After(s, []) == Perform(s, INITIAL, Arrivals())
  {
    assert Arrivals() + [] == Arrivals();
  }

  lemma ReadStarves(s: Settings, batches: seq<seq<JobId>>)
    requires Starving(After(s, batches))
    ensures var at := AtRead(s, batches); Starving(at) && forall i: nat :: i <= LATE ==> Due(s, at.db.jobs[i], at.now)
  {
    hide After, Next, Starving;
    AllDue(s, After(s, batches));
  }

  lemma {:induction false} RoundsStarve(s: Settings, batches: seq<seq<JobId>>)
    requires AreBatches(s, batches)
    ensures Starving(After(s, batches))
  {
    hide Starving, DueBatch, After, AtRead;
    if batches == [] {
      ArrivalsStarve(s);
      NoRounds(s);
    } else {
      var before, ids := batches[..|batches| - 1], batches[|batches| - 1];
      assert forall k :: 0 <= k < |before| ==> before[..k] == batches[..k];
      RoundsStarve(s, before);
      ReadStarves(s, before);
      LateIsPassedOver(s, AtRead(s, before), ids);
      MarksStarve(s, AtRead(s, before), ids);
      assert batches == before + [ids];
      RoundIsPerformed(s, before, ids);
    }
  }

  /** The late job is due in every round, and no round returns it, whatever batches are chosen. */
  lemma LateIsNeverReturned(s: Settings, batches: seq<seq<JobId>>, k: nat)
    requires AreBatches(s, batches) && k < |batches|
    ensures var at := AtRead(s, batches[..k]);
            && LATE in at.db.jobs && Due(s, at.db.jobs[LATE], at.now)
            && DueBatch(s, at.db, at.now, batches[k]) && LATE !in batches[k]
  {
    hide DueBatch, After, AtRead, Due;
    assert forall q :: 0 <= q < k ==> batches[..k][..q] == batches[..q];
    RoundsStarve(s, batches[..k]);
    ReadStarves(s, batches[..k]);
    LateIsPassedOver(s, AtRead(s, batches[..k]), batches[k]);
  }

  /** And there are as many rounds as one likes. */
  lemma {:induction false} RoundsGoOn(s: Settings, n: nat) returns (batches: seq<seq<JobId>>)
    ensures |batches| == n && AreBatches(s, batches)
  {
    hide Starving, DueBatch, After, AtRead, Due;
    if n == 0 {
      batches := [];
    } else {
      var before := RoundsGoOn(s, n - 1);
      RoundsStarve(s, before);
      ReadStarves(s, before);
      CrowdIsABatch(s, AtRead(s, before));
      batches := before + [CrowdBatch()];
      assert forall k :: 0 <= k < n - 1 ==> batches[..k] == before[..k];
      assert batches[..n - 1] == before;
    }
  }
}
