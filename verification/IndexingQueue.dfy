/**
 * Which jobs `reconcile` picks up: it returns the oldest hundred due jobs, so a due job is returned
 * at once only if fewer than a hundred due jobs are as old.
 */
module IndexingQueue {
  import opened Common
  import opened IndexingRows
  import opened T = IndexingTransitions
  import opened IndexingSystem
  import opened IndexingTheorems

  // ---------------------------------------------------------------- becoming due

  /** From when on a job that nobody touches is due, or abandoned. */
  function PickupTime(s: Settings, job: Job): Time {
    if job.status.Running? then (if job.heartbeatAt.Some? then job.heartbeatAt.value + s.abandonedAfter + 1 else 0)
    else
      Max(if job.nextAttemptAt.Some? then job.nextAttemptAt.value else 0,
          if job.lastEnqueuedAt.Some? then job.lastEnqueuedAt.value + s.abandonedAfter + 1 else 0)
  }

  lemma DueFromPickupTime(s: Settings, job: Job, now: Time)
    requires now >= 0
    ensures T.Pending(job) ==> (Due(s, job, now) <==> now >= PickupTime(s, job))
    ensures job.status.Running? ==> (Abandoned(s, job, now) <==> now >= PickupTime(s, job))
  {
  }

  // ---------------------------------------------------------------- one batch

  /** The other jobs that are as old as `j` and due at `now`. */
  function Rivals(s: Settings, db: Db, j: JobId, now: Time): set<JobId>
    requires j in db.jobs
  {
    set k | k in db.jobs && k != j && Due(s, db.jobs[k], now) && db.jobs[k].createdAt <= db.jobs[j].createdAt
  }

  function ElementsOf(ids: seq<JobId>): set<JobId> {
    set k | k in ids
  }

  lemma {:induction false} DistinctElements(ids: seq<JobId>)
    requires forall i, k :: 0 <= i < k < |ids| ==> ids[i] != ids[k]
    ensures |ElementsOf(ids)| == |ids|
  {
    if ids == [] {
    } else {
      var before, last := ids[..|ids| - 1], ids[|ids| - 1];
      DistinctElements(before);
      assert ElementsOf(ids) == ElementsOf(before) + {last};
    }
  }

  lemma {:induction false} SubsetSize(a: set<JobId>, b: set<JobId>)
    requires a <= b
    ensures |a| <= |b|
  {
    if a == {} {
    } else {
      var x :| x in a;
      SubsetSize(a - {x}, b - {x});
    }
  }

  /** A due job that is passed over stands behind a full batch of rivals. */
  lemma PassedOver(s: Settings, db: Db, now: Time, ids: seq<JobId>, j: JobId)
    requires DueBatch(s, db, now, ids) && j in db.jobs && Due(s, db.jobs[j], now) && j !in ids
    ensures ElementsOf(ids) <= Rivals(s, db, j, now) && |ElementsOf(ids)| == DUE_LIMIT
  {
    hide Due;
    DistinctElements(ids);
    forall k | k in ElementsOf(ids) ensures k in Rivals(s, db, j, now) {
      var i :| 0 <= i < |ids| && ids[i] == k;
    }
  }

  /** Sequences of due jobs, oldest first. */
  ghost predicate OldestFirst(db: Db, ids: seq<JobId>) {
    && (forall i :: 0 <= i < |ids| ==> ids[i] in db.jobs)
    && (forall i, k :: 0 <= i < k < |ids| ==> ids[i] != ids[k] && db.jobs[ids[i]].createdAt <= db.jobs[ids[k]].createdAt)
  }

  lemma {:induction false} SomeOldest(db: Db, candidates: set<JobId>) returns (j: JobId)
    requires candidates != {} && candidates <= db.jobs.Keys
    ensures j in candidates && forall k :: k in candidates ==> db.jobs[j].createdAt <= db.jobs[k].createdAt
  {
    j :| j in candidates;
    if rest :| rest in candidates && db.jobs[rest].createdAt < db.jobs[j].createdAt {
      assert rest in candidates - {j};
      j := SomeOldest(db, candidates - {j});
    }
  }

  /** The `n` oldest of some jobs. */
  lemma {:induction false} OldestOf(db: Db, candidates: set<JobId>, n: nat) returns (ids: seq<JobId>)
    requires candidates <= db.jobs.Keys && n <= |candidates|
    ensures |ids| == n && OldestFirst(db, ids) && ElementsOf(ids) <= candidates
    ensures forall i, k :: 0 <= i < n && k in candidates && k !in ids ==> db.jobs[ids[i]].createdAt <= db.jobs[k].createdAt
    decreases n
  {
    if n == 0 {
      ids := [];
    } else {
      var j := SomeOldest(db, candidates);
      var rest := OldestOf(db, candidates - {j}, n - 1);
      ids := [j] + rest;
      forall i | 0 <= i < |rest| ensures rest[i] in candidates && rest[i] != j { assert rest[i] in ElementsOf(rest); }
      forall k | k in ElementsOf(ids) ensures k in candidates {}
    }
  }

  lemma RivalsAreABatch(s: Settings, db: Db, now: Time, j: JobId, ids: seq<JobId>)
    requires j in db.jobs && |ids| == DUE_LIMIT && OldestFirst(db, ids) && ElementsOf(ids) <= Rivals(s, db, j, now)
    requires forall i, k :: 0 <= i < |ids| && k in Rivals(s, db, j, now) && k !in ids ==> db.jobs[ids[i]].createdAt <= db.jobs[k].createdAt
    ensures DueBatch(s, db, now, ids)
  {
    hide Due;
    var rivals := Rivals(s, db, j, now);
    forall i | 0 <= i < |ids| ensures ids[i] in rivals { assert ids[i] in ElementsOf(ids); }
    forall k, i | k in db.jobs && Due(s, db.jobs[k], now) && k !in ids && 0 <= i < |ids|
      ensures db.jobs[ids[i]].createdAt <= db.jobs[k].createdAt
    {
      assert ids[i] in rivals;
      if k in rivals {
      } else {
        assert db.jobs[ids[i]].createdAt <= db.jobs[j].createdAt;
      }
    }
  }

  /** `due_jobs` is bound to return a due job exactly when fewer than a hundred due jobs are as old. */
  lemma ReturnedIff(s: Settings, db: Db, now: Time, j: JobId)
    requires j in db.jobs && Due(s, db.jobs[j], now)
    ensures (forall ids :: DueBatch(s, db, now, ids) ==> j in ids) <==> |Rivals(s, db, j, now)| < DUE_LIMIT
  {
    hide DueBatch, Due;
    var rivals := Rivals(s, db, j, now);
    forall ids | DueBatch(s, db, now, ids) && j !in ids ensures |rivals| >= DUE_LIMIT {
      PassedOver(s, db, now, ids, j);
      SubsetSize(ElementsOf(ids), rivals);
    }
    if |rivals| >= DUE_LIMIT {
      var ids := OldestOf(db, rivals, DUE_LIMIT);
      assert j in ids ==> j in ElementsOf(ids);
      RivalsAreABatch(s, db, now, j, ids);
    }
  }

  /** A hundred due jobs that are strictly older starve it: no batch returns it. */
  lemma StarvedBehindOlder(s: Settings, db: Db, now: Time, j: JobId, older: set<JobId>, ids: seq<JobId>)
    requires j in db.jobs && older <= Rivals(s, db, j, now) && |older| >= DUE_LIMIT
    requires forall k :: k in older ==> db.jobs[k].createdAt < db.jobs[j].createdAt
    requires DueBatch(s, db, now, ids)
    ensures j !in ids
  {
    hide Due;
    if j in ids {
      forall k | k in older ensures k in ElementsOf(ids) - {j} {
        assert k in Rivals(s, db, j, now);
        var i :| 0 <= i < |ids| && ids[i] == j;
      }
      DistinctElements(ids);
      SubsetSize(older, ElementsOf(ids) - {j});
    }
  }

  /** A job left alone until its time is either recovered, or returned unless a hundred due jobs are as old. */
  lemma NoJobIsForgotten(s: Settings, actions: seq<Action>, j: JobId, elapsed: nat, ids: seq<JobId>)
    requires ValidSettings(s)
    requires var sys := Perform(s, INITIAL, actions);
             && j in sys.db.jobs && !Terminal(sys.db.jobs[j].status) && sys.now + elapsed >= PickupTime(s, sys.db.jobs[j])
             && sys.now + elapsed >= 0
    ensures var sys := Next(s, Perform(s, INITIAL, actions), Tick(elapsed));
            var job := sys.db.jobs[j];
            if job.status.Running? then
              var after := Next(s, sys, Recover).db.jobs[j];
              if job.attempt < s.maxAttempts then after.status.Retrying? && Claimable(after, sys.now) else after.status.Failed?
            else
              DueBatch(s, sys.db, sys.now, ids) && |Rivals(s, sys.db, j, sys.now)| < DUE_LIMIT ==> j in ids
  {
    var sys := Next(s, Perform(s, INITIAL, actions), Tick(elapsed));
    hide Perform, DueBatch, Rivals;
    DueFromPickupTime(s, sys.db.jobs[j], sys.now);
    if !sys.db.jobs[j].status.Running? { ReturnedIff(s, sys.db, sys.now, j); }
  }

  // ---------------------------------------------------------------- many rounds

  /** The loop of `reconcile`: every job of the batch is marked. */
  function MarkAll(db: Db, ids: seq<JobId>, now: Time): Db {
    if ids == [] then db else MarkEnqueued(MarkAll(db, ids[..|ids| - 1], now), ids[|ids| - 1], now)
  }

  function Marks(ids: seq<JobId>): (actions: seq<Action>)
    ensures |actions| == |ids|
  {
    seq(|ids|, i requires 0 <= i < |ids| => MarkDue(ids[i]))
  }

  lemma {:induction false} MarkAllIsPerformed(s: Settings, sys: System, ids: seq<JobId>)
    ensures Perform(s, sys, Marks(ids)) == sys.(db := MarkAll(sys.db, ids, sys.now))
  {
    hide MarkEnqueued;
    if ids == [] {
    } else {
      MarkAllIsPerformed(s, sys, ids[..|ids| - 1]);
      assert Marks(ids)[..|ids| - 1] == Marks(ids[..|ids| - 1]);
    }
  }

  lemma {:induction false} MarkAllRows(db: Db, ids: seq<JobId>, now: Time, k: JobId)
    requires k in db.jobs
    ensures k in MarkAll(db, ids, now).jobs
    ensures MarkAll(db, ids, now).jobs[k]
         == if k in ids && T.Pending(db.jobs[k]) then db.jobs[k].(lastEnqueuedAt := Some(now)) else db.jobs[k]
  {
    if ids == [] {
    } else {
      MarkAllRows(db, ids[..|ids| - 1], now, k);
      assert ids == ids[..|ids| - 1] + [ids[|ids| - 1]];
    }
  }

  lemma {:induction false} MarkAllKeys(db: Db, ids: seq<JobId>, now: Time)
    ensures MarkAll(db, ids, now).jobs.Keys == db.jobs.Keys
  {
    if ids == [] {
    } else {
      MarkAllKeys(db, ids[..|ids| - 1], now);
    }
  }

  datatype Round = Round(db: Db, now: Time, ids: seq<JobId>)

  predicate ReturnedBefore(rounds: seq<Round>, n: nat, j: JobId)
    requires n <= |rounds|
  {
    exists i :: 0 <= i < n && j in rounds[i].ids
  }

  ghost predicate NoNewRivals(s: Settings, a: Round, b: Round, j: JobId, end: Time)
    requires j in a.db.jobs && j in b.db.jobs
  {
    MarkAllKeys(a.db, a.ids, a.now);
    Rivals(s, b.db, j, end) <= Rivals(s, MarkAll(a.db, a.ids, a.now), j, end)
  }

  /**
   * Rounds of `reconcile`, by any workers, until `end`, within one `abandonedAfter`. Between them
   * anything may happen, but no job that is as old as `j` comes to be due by `end`.
   */
  ghost predicate Reconciles(s: Settings, rounds: seq<Round>, j: JobId, end: Time) {
    && (forall i :: 0 <= i < |rounds| ==>
          && DueBatch(s, rounds[i].db, rounds[i].now, rounds[i].ids)
          && rounds[i].now <= end <= rounds[i].now + s.abandonedAfter
          && j in rounds[i].db.jobs && (!ReturnedBefore(rounds, i, j) ==> Due(s, rounds[i].db.jobs[j], rounds[i].now)))
    && (forall i, k :: 0 <= i && k == i + 1 && k < |rounds| ==> NoNewRivals(s, rounds[i], rounds[k], j, end))
  }

  lemma DueStaysDue(s: Settings, job: Job, now: Time, later: Time)
    requires Due(s, job, now) && now <= later
    ensures Due(s, job, later)
  {
  }

  lemma MarkedIsNotDue(s: Settings, job: Job, now: Time, end: Time)
    requires end <= now + s.abandonedAfter
    ensures !Due(s, job.(lastEnqueuedAt := Some(now)), end)
  {
  }

  lemma DueIsPending(s: Settings, job: Job, now: Time)
    requires Due(s, job, now)
    ensures T.Pending(job)
  {
  }

  /** A round that passes `j` over takes a hundred of its rivals away. */
  lemma RoundTakesRivals(s: Settings, a: Round, j: JobId, end: Time)
    requires DueBatch(s, a.db, a.now, a.ids) && a.now <= end <= a.now + s.abandonedAfter
    requires j in a.db.jobs && Due(s, a.db.jobs[j], a.now) && j !in a.ids
    ensures j in MarkAll(a.db, a.ids, a.now).jobs
    ensures |Rivals(s, MarkAll(a.db, a.ids, a.now), j, end)| + DUE_LIMIT <= |Rivals(s, a.db, j, end)|
  {
    var marked := MarkAll(a.db, a.ids, a.now);
    MarkAllKeys(a.db, a.ids, a.now);
    MarkAllRows(a.db, a.ids, a.now, j);
    PassedOver(s, a.db, a.now, a.ids, j);
    hide Due, DueBatch, MarkAll;
    var before, after, taken := Rivals(s, a.db, j, end), Rivals(s, marked, j, end), ElementsOf(a.ids);
    forall k | k in taken ensures k in before && k !in after {
      assert k in Rivals(s, a.db, j, a.now);
      DueStaysDue(s, a.db.jobs[k], a.now, end);
      MarkAllRows(a.db, a.ids, a.now, k);
      DueIsPending(s, a.db.jobs[k], a.now);
      MarkedIsNotDue(s, a.db.jobs[k], a.now, end);
    }
    forall k | k in after ensures k in before {
      MarkAllRows(a.db, a.ids, a.now, k);
      assert k in a.ids ==> k in taken;
    }
    assert after <= before - taken;
    SubsetSize(after, before - taken);
  }

  /** As long as it is passed over, every round costs it a hundred rivals. */
  lemma {:induction false} RivalsRunOut(s: Settings, rounds: seq<Round>, j: JobId, end: Time, n: nat)
    requires Reconciles(s, rounds, j, end) && n < |rounds| && !ReturnedBefore(rounds, n, j)
    ensures |Rivals(s, rounds[n].db, j, end)| + n * DUE_LIMIT <= |Rivals(s, rounds[0].db, j, end)|
  {
    hide DueBatch, Due, MarkAll, Rivals;
    if n == 0 {
    } else {
      assert !ReturnedBefore(rounds, n - 1, j);
      RivalsRunOut(s, rounds, j, end, n - 1);
      RoundTakesRivals(s, rounds[n - 1], j, end);
      assert NoNewRivals(s, rounds[n - 1], rounds[n], j, end);
      SubsetSize(Rivals(s, rounds[n].db, j, end), Rivals(s, MarkAll(rounds[n - 1].db, rounds[n - 1].ids, rounds[n - 1].now), j, end));
    }
  }

  /** A due job behind k due jobs that are as old is returned by the round number k / 100 + 1 at the latest. */
  lemma ReturnedInRounds(s: Settings, rounds: seq<Round>, j: JobId, end: Time)
    requires Reconciles(s, rounds, j, end) && rounds != []
    requires |Rivals(s, rounds[0].db, j, end)| < |rounds| * DUE_LIMIT
    ensures ReturnedBefore(rounds, |rounds|, j)
  {
    hide DueBatch, Due, Rivals;
    var last := |rounds| - 1;
    if !ReturnedBefore(rounds, last, j) {
      RivalsRunOut(s, rounds, j, end, last);
      if j !in rounds[last].ids { RoundTakesRivals(s, rounds[last], j, end); }
      assert j in rounds[last].ids;
    }
  }

  /** Rounds with nothing but time between them. */
  ghost predicate Undisturbed(s: Settings, rounds: seq<Round>, end: Time) {
    && (forall i :: 0 <= i < |rounds| ==>
          && DueBatch(s, rounds[i].db, rounds[i].now, rounds[i].ids) && rounds[i].now <= end <= rounds[i].now + s.abandonedAfter)
    && (forall i, k :: 0 <= i && k == i + 1 && k < |rounds| ==>
          rounds[i].now <= rounds[k].now && rounds[k].db == MarkAll(rounds[i].db, rounds[i].ids, rounds[i].now))
  }

  lemma {:induction false} UntouchedUntilReturned(s: Settings, rounds: seq<Round>, j: JobId, end: Time, n: nat)
    requires Undisturbed(s, rounds, end) && n < |rounds| && j in rounds[0].db.jobs && Due(s, rounds[0].db.jobs[j], rounds[0].now)
    ensures j in rounds[n].db.jobs && (!ReturnedBefore(rounds, n, j) ==> Due(s, rounds[n].db.jobs[j], rounds[n].now))
  {
    hide DueBatch, Due, MarkAll;
    if n == 0 {
    } else {
      var a, b := rounds[n - 1], rounds[n];
      UntouchedUntilReturned(s, rounds, j, end, n - 1);
      assert b.db == MarkAll(a.db, a.ids, a.now) && a.now <= b.now;
      MarkAllRows(a.db, a.ids, a.now, j);
      if !ReturnedBefore(rounds, n, j) {
        assert !ReturnedBefore(rounds, n - 1, j) && j !in a.ids;
        DueStaysDue(s, a.db.jobs[j], a.now, b.now);
      }
    }
  }

  lemma UndisturbedRoundsReturnIt(s: Settings, rounds: seq<Round>, j: JobId, end: Time)
    requires Undisturbed(s, rounds, end) && rounds != []
    requires j in rounds[0].db.jobs && Due(s, rounds[0].db.jobs[j], rounds[0].now)
    requires |Rivals(s, rounds[0].db, j, end)| < |rounds| * DUE_LIMIT
    ensures ReturnedBefore(rounds, |rounds|, j)
  {
    forall i | 0 <= i < |rounds|
      ensures j in rounds[i].db.jobs && (!ReturnedBefore(rounds, i, j) ==> Due(s, rounds[i].db.jobs[j], rounds[i].now))
    {
      UntouchedUntilReturned(s, rounds, j, end, i);
    }
    hide DueBatch, Due, MarkAll, Rivals;
    ReturnedInRounds(s, rounds, j, end);
  }
}
