/**
 * The transactions in their imperative form: each method updates the tables in place. Its contract
 * says which rows may change, when, and what they are afterwards; the last clause ties it to its
 * transition function.
 */
module IndexingJobStore {
  import opened Common
  import opened IndexingRows
  import T = IndexingTransitions
  import CallGraph

  /** Only the row of job `j` may differ. */
  ghost predicate OnlyJob(a: Db, b: Db, j: JobId) {
    && b.repositories == a.repositories && b.builds == a.builds && b.graphs == a.graphs && b.jobs.Keys == a.jobs.Keys
    && forall k :: k in a.jobs && k != j ==> b.jobs[k] == a.jobs[k]
  }

  /** Only the build and graph rows of one slot may differ. */
  ghost predicate OnlySlot(a: Db, b: Db, slot: Slot) {
    && b.jobs == a.jobs && b.repositories == a.repositories
    && b.builds - {slot} == a.builds - {slot} && b.graphs - {slot} == a.graphs - {slot}
  }

  /** The symbol ids are distinct, so are the edge ids and the call sites, and edges refer to symbols of the same build. */
  ghost predicate Insertable(p: Processing) {
    && (forall i, k :: 0 <= i < |p.symbols| && 0 <= k < |p.symbols| && p.symbols[i] == p.symbols[k] ==> i == k)
    && (forall i, k :: 0 <= i < |p.edges| && 0 <= k < |p.edges| && p.edges[i].id == p.edges[k].id ==> i == k)
    && (forall i, k :: 0 <= i < |p.edges| && 0 <= k < |p.edges| && p.edges[i].siteFingerprint == p.edges[k].siteFingerprint ==> i == k)
    && (forall e :: e in p.edges ==> e.caller in p.symbols)
    && (forall e :: e in p.edges && e.callee != None ==> e.callee.value in p.symbols)
  }

  /**
   * The held job, of the present generation and branch, completes; its ready build of the next version
   * becomes the active one, and the build that was active is superseded; the repository row repeats the
   * build and records the branch of the job. No other row changes.
   */
  ghost predicate Published(a: Db, b: Db, c: ClaimedJob, worker: WorkerId, commit: Commit, now: Time, previous: nat) {
    && c.job in a.jobs && a.jobs[c.job].status.Running? && a.jobs[c.job].lockedBy == Some(worker)
    && b.graphs == a.graphs
    && b.jobs == a.jobs[c.job := a.jobs[c.job].(status := JobStatus.Complete, targetCommit := Some(commit),
                                                heartbeatAt := Some(now), lockedBy := None)]
    && var r := a.jobs[c.job].repository;
       var slot, before := Slot(r, previous + 1), Slot(r, previous);
       && r in a.repositories && a.repositories[r].indexVersion == previous && a.jobs[c.job].targetVersion == Some(previous + 1)
       && a.repositories[r].generation == a.jobs[c.job].generation
       && slot in a.builds && slot in b.builds && a.builds[slot].owner == Some(c.job) && a.builds[slot].state.Ready?
       && a.builds[slot].commit == commit && a.builds[slot].graphValidated
       && a.builds[slot].expectedChunks == a.builds[slot].embeddedChunks == a.builds[slot].vectorCount
       && b.builds[slot] == a.builds[slot].(state := Active, cleanup := NotRequired)
       && b.repositories == a.repositories[r := a.repositories[r].(
            indexVersion := previous + 1, lastIndexedCommit := Some(commit), remoteCommit := Some(commit),
            indexedBranch := Some(a.repositories[r].defaultBranch), activeVectorCount := a.builds[slot].vectorCount)]
       && (a.jobs[c.job].targetBranch == None || a.jobs[c.job].targetBranch == b.repositories[r].indexedBranch)
       && b.builds.Keys == a.builds.Keys
       && (forall other :: other in a.builds && other != slot && other != before ==> b.builds[other] == a.builds[other])
       && (before in a.builds ==>
             b.builds[before] == if previous > 0 && a.builds[before].state.Active?
                                 then a.builds[before].(state := Superseded, cleanup := CleanupStatus.Pending) else a.builds[before])
  }

  lemma ActivationPublishes(db: Db, c: ClaimedJob, worker: WorkerId, commit: Commit, now: Time)
    ensures var t := T.Activate(db, c, worker, commit, now);
            t.Success? ==> Published(db, t.value.0, c, worker, commit, now, t.value.1)
  {
  }

  class Store {
    const settings: Settings
    var repositories: map<RepositoryId, Repository>
    var jobs: map<JobId, Job>
    var builds: map<Slot, Build>
    var graphs: map<Slot, GraphRows>

    constructor (settings: Settings)
      ensures this.settings == settings && Tables() == EMPTY_DB
    {
      this.settings := settings;
      repositories, jobs, builds, graphs := map[], map[], map[], map[];
    }

    function Tables(): Db
      reads this
    {
      Db(repositories, jobs, builds, graphs)
    }

    method Claim(j: JobId, worker: WorkerId, now: Time) returns (claimed: Option<ClaimedJob>)
      modifies this
      ensures claimed.Some? <==>
                && j in old(jobs) && (old(jobs)[j].status.Queued? || old(jobs)[j].status.Retrying?)
                && (old(jobs)[j].nextAttemptAt == None || old(jobs)[j].nextAttemptAt.value <= now)
                && forall k :: k in old(jobs) && old(jobs)[k].repository == old(jobs)[j].repository ==> !old(jobs)[k].status.Running?
      ensures claimed.None? ==> Tables() == old(Tables())
      ensures claimed.Some? ==>
                && repositories == old(repositories) && builds == old(builds) && graphs == old(graphs)
                && jobs == old(jobs)[j := old(jobs)[j].(status := Running, attempt := old(jobs)[j].attempt + 1,
                                                        lockedBy := Some(worker), heartbeatAt := Some(now), nextAttemptAt := None)]
                && claimed.value == ClaimedJob(j, jobs[j].repository, jobs[j].attempt) && T.Held(Tables(), claimed.value, worker)
      ensures claimed.Some? ==> forall k :: k in jobs && jobs[k].repository == jobs[j].repository && jobs[k].status.Running? ==> k == j
      ensures (Tables(), claimed) == T.Claim(old(Tables()), j, worker, now)
    {
      if j !in jobs || !(jobs[j].status.Queued? || jobs[j].status.Retrying?) {
        return None;
      }
      var job := jobs[j];
      if job.nextAttemptAt.Some? && job.nextAttemptAt.value > now {
        return None;
      }
      if exists k :: k in jobs && jobs[k].repository == job.repository && jobs[k].status.Running? {
        return None;  // the unique index rejects the update
      }
      job := job.(status := Running, attempt := job.attempt + 1, lockedBy := Some(worker));
      job := job.(heartbeatAt := Some(now), nextAttemptAt := None);
      jobs := jobs[j := job];
      return Some(ClaimedJob(j, job.repository, job.attempt));
    }

    method AuthorizedContext(c: ClaimedJob, membership: bool) returns (context: Option<JobContext>)
      modifies this
      ensures context.Some? <==>
                && c.job in old(jobs) && old(jobs)[c.job].status.Running? && membership
                && var r := old(jobs)[c.job].repository;
                   r in old(repositories) && !old(repositories)[r].revoked && !old(repositories)[r].deleted
      ensures context.None? ==> Tables() == old(Tables())
      ensures context.Some? ==>
                && OnlyJob(old(Tables()), Tables(), c.job)
                && jobs[c.job] == old(jobs)[c.job].(targetVersion := Some(context.value.version))
                && (old(jobs)[c.job].targetVersion.Some? ==> jobs[c.job] == old(jobs)[c.job])
                && (old(jobs)[c.job].targetVersion.None? ==> context.value.version == context.value.activeVersion + 1)
                && var job, row := jobs[c.job], repositories[jobs[c.job].repository];
                   && (context.value.job, context.value.repository, context.value.generation) == (c.job, job.repository, job.generation)
                   && (context.value.defaultBranch, context.value.indexedBranch) == (row.defaultBranch, row.indexedBranch)
                   && (context.value.activeVersion, context.value.activeCommit) == (row.indexVersion, row.lastIndexedCommit)
                   && (context.value.requestedMode.Incremental? <==> job.requestedMode == Some(Incremental))
      ensures (Tables(), context) == T.AuthorizedContext(old(Tables()), c, membership)
    {
      if c.job !in jobs || !jobs[c.job].status.Running? || jobs[c.job].repository !in repositories {
        return None;
      }
      var job := jobs[c.job];
      var repository := repositories[job.repository];
      if repository.revoked || repository.deleted || !membership {
        return None;
      }
      if job.targetVersion.None? {
        job := job.(targetVersion := Some(repository.indexVersion + 1));
      }
      jobs := jobs[c.job := job];
      var mode := if job.requestedMode.Some? then job.requestedMode.value else Full;
      return Some(JobContext(c.job, job.repository, repository.defaultBranch, job.targetVersion.value, job.generation,
                             repository.indexVersion, repository.lastIndexedCommit, repository.indexedBranch, mode));
    }

    method IsCurrent(c: ClaimedJob, worker: WorkerId) returns (current: bool)
      ensures current <==>
                && c.job in jobs && jobs[c.job].status.Running? && jobs[c.job].lockedBy == Some(worker)
                && var job := jobs[c.job];
                   && job.repository in repositories && job.generation == repositories[job.repository].generation
                   && (job.targetBranch == None || job.targetBranch == Some(repositories[job.repository].defaultBranch))
      ensures current == T.IsCurrent(Tables(), c, worker)
    {
      if c.job !in jobs || !jobs[c.job].status.Running? || jobs[c.job].lockedBy != Some(worker)
         || jobs[c.job].repository !in repositories {
        return false;
      }
      var job := jobs[c.job];
      var repository := repositories[job.repository];
      return job.generation == repository.generation
          && (job.targetBranch == None || job.targetBranch == Some(repository.defaultBranch));
    }

    method Heartbeat(c: ClaimedJob, worker: WorkerId, now: Time)
      modifies this`jobs
      ensures OnlyJob(old(Tables()), Tables(), c.job)
      ensures c.job in jobs ==>
                jobs[c.job] == if old(jobs)[c.job].status.Running? && old(jobs)[c.job].lockedBy == Some(worker)
                               then old(jobs)[c.job].(heartbeatAt := Some(now)) else old(jobs)[c.job]
      ensures T.Held(Tables(), c, worker) <==> T.Held(old(Tables()), c, worker)
      ensures Tables() == T.Heartbeat(old(Tables()), c, worker, now)
    {
      if c.job in jobs && jobs[c.job].status.Running? && jobs[c.job].lockedBy == Some(worker) {
        jobs := jobs[c.job := jobs[c.job].(heartbeatAt := Some(now))];
      }
    }

    method Stage(c: ClaimedJob, worker: WorkerId, commit: Option<Commit>, now: Time)
      modifies this`jobs, this`repositories
      ensures builds == old(builds) && graphs == old(graphs)
      ensures if !(c.job in old(jobs) && old(jobs)[c.job].status.Running? && old(jobs)[c.job].lockedBy == Some(worker))
              then Tables() == old(Tables())
              else
                && jobs == old(jobs)[c.job := old(jobs)[c.job].(heartbeatAt := Some(now))]
                && var r := old(jobs)[c.job].repository;
                   repositories == if r in old(repositories) && commit.Some?
                                   then old(repositories)[r := old(repositories)[r].(remoteCommit := commit)] else old(repositories)
      ensures Tables() == T.Stage(old(Tables()), c, worker, commit, now)
    {
      if c.job !in jobs || !jobs[c.job].status.Running? || jobs[c.job].lockedBy != Some(worker) {
        return;
      }
      var r := jobs[c.job].repository;
      jobs := jobs[c.job := jobs[c.job].(heartbeatAt := Some(now))];
      if r in repositories && commit.Some? {
        repositories := repositories[r := repositories[r].(remoteCommit := commit)];
      }
    }

    /** `mark_stale` and `cancel_revoked`. */
    method Cancel(c: ClaimedJob, worker: WorkerId, now: Time)
      modifies this`jobs
      ensures OnlyJob(old(Tables()), Tables(), c.job) && !T.Held(Tables(), c, worker)
      ensures c.job in jobs ==>
                jobs[c.job] == if old(jobs)[c.job].status.Running? && old(jobs)[c.job].lockedBy == Some(worker)
                               then old(jobs)[c.job].(status := Cancelled, heartbeatAt := Some(now), lockedBy := None)
                               else old(jobs)[c.job]
      ensures Tables() == T.Cancel(old(Tables()), c, worker, now)
    {
      if !T.Held(Tables(), c, worker) {
        return;
      }
      var job := jobs[c.job];
      job := job.(status := Cancelled);
      job := job.(heartbeatAt := Some(now));
      job := job.(lockedBy := None);
      jobs := jobs[c.job := job];
    }

    method Fail(c: ClaimedJob, worker: WorkerId, retryable: bool, now: Time, jitter: nat) returns (retrying: bool)
      modifies this`jobs
      ensures OnlyJob(old(Tables()), Tables(), c.job) && !T.Held(Tables(), c, worker)
      ensures retrying <==> retryable && c.attempt < settings.maxAttempts
      ensures c.job in jobs ==>
                if old(jobs)[c.job].status.Running? && old(jobs)[c.job].lockedBy == Some(worker)
                then
                  && jobs[c.job] == old(jobs)[c.job].(
                       status := if retrying then Retrying else Failed, heartbeatAt := Some(now), lockedBy := None,
                       nextAttemptAt := if retrying then Some(now + T.RetryDelay(settings, c.attempt, jitter)) else None)
                  && forall later :: T.Claimable(jobs[c.job], later) <==> retrying && later >= now + T.RetryDelay(settings, c.attempt, jitter)
                else jobs[c.job] == old(jobs)[c.job]
      ensures Tables() == T.Fail(settings, old(Tables()), c, worker, retryable, now, jitter)
      ensures retrying == T.ShouldRetry(settings, c, retryable)
    {
      retrying := retryable && c.attempt < settings.maxAttempts;
      if !T.Held(Tables(), c, worker) {
        return;
      }
      var job := jobs[c.job];
      if retrying {
        job := job.(status := Retrying, nextAttemptAt := Some(now + T.RetryDelay(settings, c.attempt, jitter)));
      } else {
        job := job.(status := Failed, nextAttemptAt := None);
      }
      jobs := jobs[c.job := job.(heartbeatAt := Some(now), lockedBy := None)];
    }

    method RecoverAbandoned(now: Time) returns (count: nat)
      modifies this`jobs
      ensures jobs.Keys == old(jobs).Keys && forall j :: j in jobs ==> !T.Abandoned(settings, jobs[j], now)
      ensures forall j :: j in jobs ==>
                var job := old(jobs)[j];
                jobs[j] == if !job.status.Running? || (job.heartbeatAt.Some? && job.heartbeatAt.value >= now - settings.abandonedAfter)
                           then job
                           else if job.attempt < settings.maxAttempts
                           then job.(status := Retrying, nextAttemptAt := Some(now), lockedBy := None)
                           else job.(status := Failed, nextAttemptAt := None, lockedBy := None)
      ensures Tables() == T.RecoverAbandoned(settings, old(Tables()), now)
      ensures count == |set j | j in old(jobs) && T.Abandoned(settings, old(jobs)[j], now)|
    {
      ghost var before := jobs;
      var abandoned := set j | j in jobs && T.Abandoned(settings, jobs[j], now);
      count := |abandoned|;
      var todo := abandoned;
      while todo != {}
        invariant todo <= abandoned && jobs.Keys == before.Keys
        invariant forall j :: j in before ==>
                    jobs[j] == if j in abandoned - todo then T.Recovered(settings, before[j], now) else before[j]
        decreases |todo|
      {
        var j :| j in todo;
        var job := jobs[j];
        if job.attempt < settings.maxAttempts {
          job := job.(status := Retrying, nextAttemptAt := Some(now));
        } else {
          job := job.(status := Failed, nextAttemptAt := None);
        }
        jobs := jobs[j := job.(lockedBy := None)];
        todo := todo - {j};
      }
      ghost var recovered := T.RecoverAbandoned(settings, old(Tables()), now).jobs;
      assert jobs.Keys == recovered.Keys;
      assert forall j :: j in before ==> jobs[j] == recovered[j];
      assert jobs == recovered;
    }

    /** `due_jobs`: the oldest due jobs first, at most one hundred. */
    method DueJobs(now: Time) returns (ids: seq<JobId>)
      ensures |ids| <= 100 && forall i, k :: 0 <= i < k < |ids| ==> ids[i] != ids[k]
      ensures forall j :: j in ids || (j in jobs && |ids| < 100) ==>
                (j in ids <==> && j in jobs && (jobs[j].status.Queued? || jobs[j].status.Retrying?)
                               && (jobs[j].nextAttemptAt == None || jobs[j].nextAttemptAt.value <= now)
                               && (jobs[j].lastEnqueuedAt == None || jobs[j].lastEnqueuedAt.value < now - settings.abandonedAfter))
      ensures T.DueBatch(settings, Tables(), now, ids)
    {
      ids := [];
      var rest := set j | j in jobs && T.Due(settings, jobs[j], now);
      ghost var due := rest;
      while rest != {} && |ids| < T.DUE_LIMIT
        invariant |ids| <= T.DUE_LIMIT
        invariant rest <= due && forall j :: j in due <==> j in rest || j in ids
        invariant forall i :: 0 <= i < |ids| ==> ids[i] in jobs && ids[i] !in rest
        invariant forall i, k :: 0 <= i < k < |ids| ==> ids[i] != ids[k] && jobs[ids[i]].createdAt <= jobs[ids[k]].createdAt
        invariant forall i, j :: 0 <= i < |ids| && j in rest ==> jobs[ids[i]].createdAt <= jobs[j].createdAt
        decreases rest
      {
        var j := Oldest(rest);
        ids := ids + [j];
        rest := rest - {j};
      }
    }

    method Oldest(candidates: set<JobId>) returns (j: JobId)
      requires candidates != {} && candidates <= jobs.Keys
      ensures j in candidates && forall k :: k in candidates ==> jobs[j].createdAt <= jobs[k].createdAt
    {
      j :| j in candidates;
      var rest := candidates - {j};
      while rest != {}
        invariant j in candidates && rest <= candidates
        invariant forall k :: k in candidates - rest ==> jobs[j].createdAt <= jobs[k].createdAt
        decreases rest
      {
        var k :| k in rest;
        if jobs[k].createdAt < jobs[j].createdAt {
          j := k;
        }
        rest := rest - {k};
      }
    }

    method MarkEnqueued(j: JobId, now: Time)
      modifies this`jobs
      ensures OnlyJob(old(Tables()), Tables(), j)
      ensures j in jobs ==>
                jobs[j] == if old(jobs)[j].status.Queued? || old(jobs)[j].status.Retrying?
                           then old(jobs)[j].(lastEnqueuedAt := Some(now)) else old(jobs)[j]
      ensures forall later :: j in jobs && later <= now + settings.abandonedAfter ==> !T.Due(settings, jobs[j], later)
      ensures forall later :: j in jobs && later > now + settings.abandonedAfter ==>
                (T.Due(settings, jobs[j], later) <==> T.Claimable(old(jobs)[j], later))
      ensures Tables() == T.MarkEnqueued(old(Tables()), j, now)
    {
      if j in jobs && (jobs[j].status.Queued? || jobs[j].status.Retrying?) {
        jobs := jobs[j := jobs[j].(lastEnqueuedAt := Some(now))];
      }
    }

    method PrepareBuild(c: ClaimedJob, worker: WorkerId, commit: Commit, p: Processing) returns (error: Option<StoreError>)
      modifies this
      ensures error.Some? ==> Tables() == old(Tables())
      ensures error == Some(ProcessingMismatch) <==> p.repository != c.repository || p.commit != commit || p.version == 0
      ensures error == None || error == Some(IntegrityViolation) <==>
                && p.repository == c.repository && p.commit == commit && p.version >= 1
                && c.job in old(jobs) && old(jobs)[c.job].status.Running? && old(jobs)[c.job].lockedBy == Some(worker)
                && old(jobs)[c.job].targetVersion == Some(p.version)
                && var r := old(jobs)[c.job].repository;
                   && r in old(repositories) && p.version == old(repositories)[r].indexVersion + 1
                   && (Slot(r, p.version) in old(builds) ==>
                         old(builds)[Slot(r, p.version)].owner == None || old(builds)[Slot(r, p.version)].owner == Some(c.job))
      ensures error == Some(IntegrityViolation) ==>
                || (exists other :: other in builds && other != Slot(jobs[c.job].repository, p.version) && builds[other].owner == Some(c.job))
                || !Insertable(p)
      ensures error.None? ==>
                && jobs == old(jobs) && Insertable(p)
                && var r := jobs[c.job].repository;
                   var slot := Slot(r, p.version);
                   && repositories == old(repositories)[r := old(repositories)[r].(remoteCommit := Some(commit))]
                   && builds == old(builds)[slot := Build(Some(c.job), Building, CleanupStatus.Pending, commit, p.chunkCount, 0, 0, p.graph, false)]
                   && graphs - {slot} == old(graphs) - {slot}
                   && slot in graphs && (forall x :: x in graphs[slot].symbols <==> x in p.symbols)
                   && (forall e :: e in graphs[slot].edges <==> e in p.edges)
      ensures var r := T.PrepareBuild(old(Tables()), c, worker, commit, p);
              if r.Success? then error == None && Tables() == r.value
              else error == Some(r.error) && Tables() == old(Tables())
    {
      if p.repository != c.repository || p.commit != commit || p.version < 1 {
        return Some(ProcessingMismatch);
      }
      if !T.Held(Tables(), c, worker) || jobs[c.job].repository !in repositories {
        return Some(ActivationRace);
      }
      var job := jobs[c.job];
      var repository := repositories[job.repository];
      if job.targetVersion != Some(p.version) || p.version != repository.indexVersion + 1 {
        return Some(ActivationRace);
      }
      var slot := Slot(job.repository, p.version);
      if slot in builds && builds[slot].owner != None && builds[slot].owner != Some(c.job) {
        return Some(ActivationRace);
      }
      if T.OwnsAnotherBuild(Tables(), c.job, slot) || !T.InsertOk(p) {
        return Some(IntegrityViolation);
      }
      if slot !in builds {
        builds := builds[slot := T.FreshBuild(p, c.job)];
      } else {
        var build := builds[slot];
        build := build.(owner := Some(c.job), state := Building, cleanup := CleanupStatus.Pending, commit := commit);
        build := build.(expectedChunks := p.chunkCount, embeddedChunks := 0, vectorCount := 0);
        build := build.(graph := p.graph, graphValidated := false);
        builds := builds[slot := build];
      }
      graphs := graphs - {slot};
      graphs := graphs[slot := T.RowsOf(p)];
      repositories := repositories[job.repository := repository.(remoteCommit := Some(commit))];
      return None;
    }

    /** `rows` is what the ORDER BY query returns. */
    method ValidateGraph(c: ClaimedJob, worker: WorkerId, rows: seq<CallGraph.Edge>) returns (error: Option<StoreError>)
      requires T.ValidationRead(Tables(), c, rows)
      modifies this`builds
      ensures error.Some? ==> Tables() == old(Tables())
      ensures error != Some(ActivationRace) <==>
                && c.job in old(jobs) && old(jobs)[c.job].status.Running? && old(jobs)[c.job].lockedBy == Some(worker)
                && old(jobs)[c.job].targetVersion.Some?
      ensures error == None <==>
                && error != Some(ActivationRace)
                && var slot := Slot(c.repository, old(jobs)[c.job].targetVersion.value);
                   && slot in old(builds) && old(builds)[slot].owner == Some(c.job) && old(builds)[slot].state.Building?
                   && CallGraph.Summarize(rows) == old(builds)[slot].graph
      ensures error == None ==>
                var slot := Slot(c.repository, jobs[c.job].targetVersion.value);
                builds == old(builds)[slot := old(builds)[slot].(graphValidated := true)]
      ensures var r := T.ValidateGraph(old(Tables()), c, worker, rows);
              if r.Success? then error == None && Tables() == r.value
              else error == Some(r.error) && Tables() == old(Tables())
    {
      if !T.HeldWithTarget(Tables(), c, worker) {
        return Some(ActivationRace);
      }
      var slot := T.TargetSlot(Tables(), c);
      if !T.OwnsBuild(Tables(), slot, c.job, Building) {
        return Some(GraphValidationFailed);
      }
      var build := builds[slot];
      var recomputed := CallGraph.Summarize(rows);
      if |rows| != build.graph.callSites || recomputed.exact != build.graph.exact
         || recomputed.ambiguous != build.graph.ambiguous || recomputed.unresolved != build.graph.unresolved
         || recomputed.fingerprint != build.graph.fingerprint {
        return Some(GraphValidationFailed);
      }
      builds := builds[slot := build.(graphValidated := true)];
      return None;
    }

    method RecordVectorCounts(c: ClaimedJob, worker: WorkerId, embedded: nat, vectors: nat) returns (error: Option<StoreError>)
      modifies this`builds
      ensures error.Some? ==> Tables() == old(Tables())
      ensures error == None <==>
                && c.job in old(jobs) && old(jobs)[c.job].status.Running? && old(jobs)[c.job].lockedBy == Some(worker)
                && old(jobs)[c.job].targetVersion.Some?
                && var slot := Slot(c.repository, old(jobs)[c.job].targetVersion.value);
                   slot in old(builds) && old(builds)[slot].owner == Some(c.job) && old(builds)[slot].state.Building?
      ensures error == None ==>
                var slot := Slot(c.repository, jobs[c.job].targetVersion.value);
                builds == old(builds)[slot := old(builds)[slot].(embeddedChunks := embedded, vectorCount := vectors)]
      ensures var r := T.RecordVectorCounts(old(Tables()), c, worker, embedded, vectors);
              if r.Success? then error == None && Tables() == r.value
              else error == Some(r.error) && Tables() == old(Tables())
    {
      if !T.HeldWithTarget(Tables(), c, worker) {
        return Some(ActivationRace);
      }
      var slot := T.TargetSlot(Tables(), c);
      if !T.OwnsBuild(Tables(), slot, c.job, Building) {
        return Some(ActivationRace);
      }
      builds := builds[slot := builds[slot].(embeddedChunks := embedded)];
      builds := builds[slot := builds[slot].(vectorCount := vectors)];
      return None;
    }

    method MarkBuildReady(c: ClaimedJob, worker: WorkerId) returns (error: Option<StoreError>)
      modifies this`builds
      ensures error.Some? ==> Tables() == old(Tables())
      ensures error == None <==>
                && c.job in old(jobs) && old(jobs)[c.job].status.Running? && old(jobs)[c.job].lockedBy == Some(worker)
                && old(jobs)[c.job].targetVersion.Some?
                && var slot := Slot(c.repository, old(jobs)[c.job].targetVersion.value);
                   && slot in old(builds) && old(builds)[slot].owner == Some(c.job) && old(builds)[slot].state.Building?
                   && old(builds)[slot].expectedChunks == old(builds)[slot].embeddedChunks == old(builds)[slot].vectorCount
                   && old(builds)[slot].graphValidated
      ensures error == None ==>
                var slot := Slot(c.repository, jobs[c.job].targetVersion.value);
                builds == old(builds)[slot := old(builds)[slot].(state := Ready)]
      ensures var r := T.MarkBuildReady(old(Tables()), c, worker);
              if r.Success? then error == None && Tables() == r.value
              else error == Some(r.error) && Tables() == old(Tables())
    {
      if !T.HeldWithTarget(Tables(), c, worker) {
        return Some(ActivationRace);
      }
      var slot := T.TargetSlot(Tables(), c);
      if !T.OwnsBuild(Tables(), slot, c.job, Building)
         || builds[slot].expectedChunks != builds[slot].embeddedChunks
         || builds[slot].expectedChunks != builds[slot].vectorCount || !builds[slot].graphValidated {
        return Some(VectorCountMismatch);
      }
      builds := builds[slot := builds[slot].(state := Ready)];
      return None;
    }

    method Activate(c: ClaimedJob, worker: WorkerId, commit: Commit, now: Time) returns (r: Result<nat, StoreError>)
      modifies this
      ensures r.Failure? ==> Tables() == old(Tables()) && r.error == ActivationRace
      ensures r.Success? <==>
                && c.job in old(jobs) && old(jobs)[c.job].status.Running? && old(jobs)[c.job].lockedBy == Some(worker)
                && old(jobs)[c.job].targetVersion.Some? && old(jobs)[c.job].repository in old(repositories)
                && var job, row := old(jobs)[c.job], old(repositories)[old(jobs)[c.job].repository];
                   var slot, before := Slot(job.repository, job.targetVersion.value), Slot(job.repository, row.indexVersion);
                   && slot.version == row.indexVersion + 1 && job.generation == row.generation
                   && (job.targetBranch == None || job.targetBranch == Some(row.defaultBranch))
                   && slot in old(builds) && old(builds)[slot].owner == Some(c.job) && old(builds)[slot].state.Ready?
                   && old(builds)[slot].commit == commit && old(builds)[slot].graphValidated
                   && old(builds)[slot].expectedChunks == old(builds)[slot].embeddedChunks == old(builds)[slot].vectorCount
                   && (row.indexVersion == 0 || row.activeVectorCount == 0 || (before in old(builds) && old(builds)[before].state.Active?))
      ensures r.Success? ==> Published(old(Tables()), Tables(), c, worker, commit, now, r.value)
      ensures var t := T.Activate(old(Tables()), c, worker, commit, now);
              if t.Success? then Tables() == t.value.0 && r == Success(t.value.1)
              else r == Failure(t.error) && Tables() == old(Tables())
    {
      hide Published;
      ActivationPublishes(Tables(), c, worker, commit, now);
      if !T.Held(Tables(), c, worker) || jobs[c.job].repository !in repositories {
        return Failure(ActivationRace);
      }
      var job := jobs[c.job];
      var repository := repositories[job.repository];
      if job.targetVersion.None? || repository.indexVersion + 1 != job.targetVersion.value
         || job.generation != repository.generation
         || (job.targetBranch.Some? && job.targetBranch.value != repository.defaultBranch) {
        return Failure(ActivationRace);
      }
      var target := job.targetVersion.value;
      var slot := Slot(job.repository, target);
      if !T.OwnsBuild(Tables(), slot, c.job, Ready) || builds[slot].commit != commit || !T.Publishable(builds[slot]) {
        return Failure(ActivationRace);
      }
      var build := builds[slot];
      var previousVersion := repository.indexVersion;
      if previousVersion > 0 {
        var old' := Slot(job.repository, previousVersion);
        if !(old' in builds && builds[old'].state.Active?) {
          if repository.activeVectorCount != 0 {
            return Failure(ActivationRace);
          }
        } else {
          builds := builds[old' := builds[old'].(state := Superseded, cleanup := CleanupStatus.Pending)];
        }
      }
      builds := builds[slot := build.(state := Active, cleanup := NotRequired)];
      repository := repository.(indexVersion := target, lastIndexedCommit := Some(commit), remoteCommit := Some(commit));
      repository := repository.(indexedBranch := Some(repository.defaultBranch));
      repository := repository.(activeVectorCount := build.vectorCount);
      repositories := repositories[job.repository := repository];
      job := job.(status := JobStatus.Complete, targetCommit := Some(commit));
      jobs := jobs[c.job := job.(heartbeatAt := Some(now), lockedBy := None)];
      return Success(previousVersion);
    }

    method CanCleanupInactive(r: RepositoryId, version: nat) returns (allowed: bool)
      ensures allowed <==> r in repositories && repositories[r].indexVersion != version
      ensures allowed == T.CanCleanupInactive(Tables(), r, version)
    {
      allowed := r in repositories && repositories[r].indexVersion != version;
    }

    method RecordFailedBuildCleanup(r: RepositoryId, version: nat, cleanupComplete: bool)
      modifies this`builds, this`graphs
      ensures OnlySlot(old(Tables()), Tables(), Slot(r, version)) && builds.Keys == old(builds).Keys
      ensures var slot := Slot(r, version);
              if slot in old(builds) && !old(builds)[slot].state.Active?
              then builds[slot] == old(builds)[slot].(state := BuildFailed, cleanup := if cleanupComplete then Cleaned else CleanupStatus.Pending)
                   && graphs == if cleanupComplete then old(graphs) - {slot} else old(graphs)
              else Tables() == old(Tables())
      ensures Tables() == T.RecordFailedBuildCleanup(old(Tables()), r, version, cleanupComplete)
    {
      var slot := Slot(r, version);
      if slot !in builds || builds[slot].state.Active? {
        return;
      }
      builds := builds[slot := builds[slot].(state := BuildFailed)];
      if cleanupComplete {
        builds := builds[slot := builds[slot].(cleanup := Cleaned)];
        graphs := graphs - {slot};
      } else {
        builds := builds[slot := builds[slot].(cleanup := CleanupStatus.Pending)];
      }
    }

    method CompleteSupersededCleanup(r: RepositoryId, version: nat) returns (error: Option<StoreError>)
      modifies this`builds, this`graphs
      ensures error.Some? <==> r !in repositories || repositories[r].indexVersion == version
      ensures error.Some? ==> Tables() == old(Tables())
      ensures error.None? ==>
                && OnlySlot(old(Tables()), Tables(), Slot(r, version)) && Slot(r, version) !in graphs && builds.Keys == old(builds).Keys
                && forall slot :: slot in builds ==>
                     builds[slot] == if slot == Slot(r, version) && (old(builds)[slot].state.Superseded? || old(builds)[slot].state.BuildFailed?)
                                     then old(builds)[slot].(cleanup := Cleaned) else old(builds)[slot]
      ensures var t := T.CompleteSupersededCleanup(old(Tables()), r, version);
              if t.Success? then error == None && Tables() == t.value
              else error == Some(t.error) && Tables() == old(Tables())
    {
      if r !in repositories || repositories[r].indexVersion == version {
        return Some(ActivationRace);
      }
      var slot := Slot(r, version);
      if slot in builds && (builds[slot].state.Superseded? || builds[slot].state.BuildFailed?) {
        builds := builds[slot := builds[slot].(cleanup := Cleaned)];
      }
      graphs := graphs - {slot};
      return None;
    }

    // -------------------------------------------------------------- job creators

    method AddJob(r: RepositoryId, j: JobId, jobType: JobType, mode: Option<Mode>,
                  branch: Option<Branch>, commit: Option<Commit>, now: Time)
      requires r in repositories
      modifies this`jobs
      ensures Tables() == T.AddJob(old(Tables()), r, j, jobType, mode, branch, commit, now)
    {
      jobs := jobs[j := Job(r, jobType, mode, branch, commit, repositories[r].generation, now,
                            Queued, 0, None, None, None, None, None)];
    }

    method Reindex(r: RepositoryId, j: JobId, now: Time)
      modifies this
      ensures r !in old(repositories) ==> Tables() == old(Tables())
      ensures builds == old(builds) && graphs == old(graphs)
      ensures r in old(repositories) ==>
                var row := old(repositories)[r];
                && repositories == old(repositories)[r := row.(generation := row.generation + 1)]
                && jobs == old(jobs)[j := Job(r, ManualReindex, Some(Full), Some(row.defaultBranch), row.remoteCommit, row.generation + 1,
                                              now, Queued, 0, None, None, None, None, None)]
      ensures Tables() == T.Reindex(old(Tables()), r, j, now)
    {
      if r !in repositories {
        return;
      }
      repositories := repositories[r := repositories[r].(generation := repositories[r].generation + 1)];
      AddJob(r, j, ManualReindex, Some(Full), Some(repositories[r].defaultBranch), repositories[r].remoteCommit, now);
    }

    method SelectRepository(r: RepositoryId, j: JobId, now: Time)
      modifies this
      ensures repositories == old(repositories) && builds == old(builds) && graphs == old(graphs)
      ensures jobs == if r in repositories && !repositories[r].revoked && !repositories[r].deleted
                         && !exists k :: k in old(jobs) && old(jobs)[k].repository == r && old(jobs)[k].jobType.InitialIndex?
                      then old(jobs)[j := Job(r, InitialIndex, None, Some(repositories[r].defaultBranch), None, repositories[r].generation,
                                              now, Queued, 0, None, None, None, None, None)]
                      else old(jobs)
      ensures Tables() == T.SelectRepository(old(Tables()), r, j, now)
    {
      if !T.Visible(Tables(), r) || T.HasInitialJob(Tables(), r) {
        return;
      }
      AddJob(r, j, InitialIndex, None, Some(repositories[r].defaultBranch), None, now);
      assert jobs[j].repository == r && jobs[j].jobType.InitialIndex?;
    }

    method ApplyPush(r: RepositoryId, j: JobId, e: T.PushEvent, now: Time)
      modifies this
      ensures builds == old(builds) && graphs == old(graphs)
      ensures if r in old(repositories) && !old(repositories)[r].revoked && !old(repositories)[r].deleted
                 && e.branch == old(repositories)[r].defaultBranch && !e.deleted && e.after != seq(40, _ => '0')
                 && old(repositories)[r].lastIndexedCommit != Some(e.after)
                 && !exists k :: k in old(jobs) && old(jobs)[k].repository == r && old(jobs)[k].targetCommit == Some(e.after)
                                 && (old(jobs)[k].status.Queued? || old(jobs)[k].status.Running? || old(jobs)[k].status.Retrying?)
              then
                var row := old(repositories)[r];
                var onTop := !e.forced && row.indexVersion > 0 && row.lastIndexedCommit == Some(e.before);
                && repositories == old(repositories)[r := row.(generation := row.generation + 1, remoteCommit := Some(e.after))]
                && jobs == old(jobs)[j := Job(r, if onTop then IncrementalReindex else FullRebuild, Some(if onTop then Incremental else Full),
                                              Some(e.branch), Some(e.after), row.generation + 1,
                                              now, Queued, 0, None, None, None, None, None)]
              else Tables() == old(Tables())
      ensures Tables() == T.ApplyPush(old(Tables()), r, j, e, now)
    {
      if !T.Visible(Tables(), r) {
        return;
      }
      var repository := repositories[r];
      if e.branch != repository.defaultBranch || e.deleted || e.after == T.ZERO_COMMIT
         || repository.lastIndexedCommit == Some(e.after) || T.HasUnfinishedJobFor(Tables(), r, e.after) {
        return;
      }
      repository := repository.(generation := repository.generation + 1);
      repository := repository.(remoteCommit := Some(e.after));
      repositories := repositories[r := repository];
      var full := T.NeedsFullRebuild(repository, e);
      AddJob(r, j, if full then FullRebuild else IncrementalReindex, Some(if full then Full else Incremental),
             Some(repository.defaultBranch), Some(e.after), now);
    }

    method ApplyRepositoryMetadata(r: RepositoryId, j: JobId, branch: Branch, now: Time)
      modifies this
      ensures builds == old(builds) && graphs == old(graphs)
      ensures if r in old(repositories) && !old(repositories)[r].revoked && !old(repositories)[r].deleted
                 && old(repositories)[r].defaultBranch != branch
              then
                var row := old(repositories)[r];
                && repositories == old(repositories)[r := row.(defaultBranch := branch, generation := row.generation + 1)]
                && jobs == old(jobs)[j := Job(r, FullRebuild, Some(Full), Some(branch), None, row.generation + 1,
                                              now, Queued, 0, None, None, None, None, None)]
              else Tables() == old(Tables())
      ensures Tables() == T.ApplyRepositoryMetadata(old(Tables()), r, j, branch, now)
    {
      if !T.Visible(Tables(), r) {
        return;
      }
      var repository := repositories[r];
      var changed := repository.defaultBranch != branch;
      repository := repository.(defaultBranch := branch);
      if changed {
        repository := repository.(generation := repository.generation + 1);
      }
      repositories := repositories[r := repository];
      if changed {
        AddJob(r, j, FullRebuild, Some(Full), Some(branch), None, now);
      }
    }

    method Attach(r: RepositoryId, j: JobId, manual: bool, branch: Branch, commit: Commit, now: Time)
      modifies this
      ensures builds == old(builds) && graphs == old(graphs)
      ensures var row := if r in old(repositories) then old(repositories)[r] else Repository(branch, None, 0, 0, None, None, 0, false, false);
              var slot := Slot(r, row.indexVersion);
              var current := row.lastIndexedCommit == Some(commit)
                             && slot in builds && builds[slot].state.Active? && builds[slot].commit == commit;
              var joined := exists k :: k in old(jobs) && old(jobs)[k].repository == r
                                        && (old(jobs)[k].status.Queued? || old(jobs)[k].status.Running? || old(jobs)[k].status.Retrying?);
              var generation := row.generation + if manual && !current && !joined then 1 else 0;
              && repositories == old(repositories)[r := row.(
                   defaultBranch := branch, remoteCommit := Some(commit), revoked := false, deleted := false, generation := generation)]
              && jobs == if current || joined then old(jobs)
                         else old(jobs)[j := Job(r, if manual then ManualReindex else InitialIndex, Some(if manual then Incremental else Full),
                                                 Some(branch), Some(commit), generation, now, Queued, 0, None, None, None, None, None)]
      ensures Tables() == T.Attach(old(Tables()), r, j, manual, branch, commit, now)
    {
      if r !in repositories {
        repositories := repositories[r := T.NewRepository(branch, Some(commit))];
      }
      var repository := repositories[r];
      repository := repository.(defaultBranch := branch, remoteCommit := Some(commit));
      repository := repository.(revoked := false, deleted := false);
      repositories := repositories[r := repository];
      if T.AlreadyCurrent(Tables(), r, commit) || T.HasUnfinishedJob(Tables(), r) {
        return;
      }
      if manual {
        repositories := repositories[r := repository.(generation := repository.generation + 1)];
      }
      AddJob(r, j, if manual then ManualReindex else InitialIndex, Some(if manual then Incremental else Full),
             Some(branch), Some(commit), now);
      assert jobs[j].repository == r && T.Unfinished(jobs[j]);
    }
  }
}
