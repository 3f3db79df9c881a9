// The job store and the two services that read the operation locks, as the source writes
// them: methods over the lock table and the job files, proved equal to the machine's steps on any
// world that has this table and these files.
module CmsJobServices {
  import opened Common
  import opened CmsJobs

  // What a purge goes by: the time, how long an ended job is kept, and when a running one is
  // given up on.
  datatype PurgeRule = PurgeRule(now: int, retentionMs: int, staleMs: int)

  // The job files once those of `visited` have been looked at.
  function Purged(jobs: Jobs, visited: set<JobRef>, rule: PurgeRule): Jobs {
    map ref | ref in jobs &&
              !(ref in visited && PurgeRemoves(jobs[ref], rule.now, rule.retentionMs, rule.staleMs)) :: jobs[ref]
  }

  function UnexpiredJobs(jobs: Jobs, rule: PurgeRule): Jobs {
    map ref | ref in jobs && !PurgeRemoves(jobs[ref], rule.now, rule.retentionMs, rule.staleMs) :: jobs[ref]
  }

  function WithoutJobs(ops: Ops, ids: set<JobId>): Ops {
    map k | k in ops && ops[k].jobId !in ids :: ops[k]
  }

  function RemovedIds(before: Jobs, after: Jobs): set<JobId> {
    set ref | ref in before && ref !in after :: ref.jobId
  }

  // What a purge does to the table and the files when it looks at one file.
  function OneFilePurged(ops: Ops, jobs: Jobs, ref: JobRef, rule: PurgeRule): (Ops, Jobs)
    requires ref in jobs
  {
    if PurgeRemoves(jobs[ref], rule.now, rule.retentionMs, rule.staleMs) then
      (WithoutJob(ops, ref.jobId), jobs - {ref})
    else (ops, jobs)
  }

  lemma PurgedStep(before: Jobs, visited: set<JobRef>, ref: JobRef, rule: PurgeRule)
    requires ref in before && ref !in visited
    ensures ref in Purged(before, visited, rule)
    ensures var jobs := Purged(before, visited, rule);
      if PurgeRemoves(before[ref], rule.now, rule.retentionMs, rule.staleMs) then
        && Purged(before, visited + {ref}, rule) == jobs - {ref}
        && RemovedIds(before, jobs - {ref}) == RemovedIds(before, jobs) + {ref.jobId}
      else
        Purged(before, visited + {ref}, rule) == jobs
  {
  }

  // The world's lock table and job files are these.
  ghost predicate Shows(w: World, ops: Ops, jobs: Jobs) {
    w.ops == ops && w.jobs == jobs
  }

  lemma CreatedJob(w: World, ref: JobRef, key: OperationKey)
    requires ref.jobId !in w.created
    ensures var w' := Step(w, Action.CreateJob(ref.userKey, ref.jobId, key));
      if Refuses(w.ops, w.jobs, key) then w' == w
      else Shows(w', w.ops[key := ref], w.jobs[ref := NewJob(key, w.clock)])
  {
  }

  // A job's worker saves the outcome, then releases the lock.
  ghost function Finished(w: World, id: JobId): World {
    Step(Step(w, Work(id, Proceed)), Work(id, Proceed))
  }

  // Recovery saves the resolved record, then drops the job's lock entries.
  ghost function Finalized(w: World, ref: JobRef, outcome: JobStatus): World {
    Step(Step(w, Recover(ref, outcome)), Recover(ref, outcome))
  }

  // A purge looks at one file, unlinks it and drops the job's lock entries.
  ghost function Visited(w: World, ref: JobRef, now: int): World {
    Step(Step(Step(w, VisitForPurge(ref, now)), GoPurge(ref)), GoPurge(ref))
  }

  lemma VisitedFile(w: World, ref: JobRef, rule: PurgeRule)
    requires rule.retentionMs == RETENTION_MS && rule.staleMs == STALE_RUNNING_MS && rule.now <= w.clock
    requires ref in w.jobs && ref !in w.purges && ref.jobId in w.created && w.created[ref.jobId].0 == ref
    ensures var w' := Visited(w, ref, rule.now); (w'.ops, w'.jobs) == OneFilePurged(w.ops, w.jobs, ref, rule)
  {
    var w1 := Step(w, VisitForPurge(ref, rule.now));
    if PurgeRemoves(w.jobs[ref], rule.now, RETENTION_MS, STALE_RUNNING_MS) {
      var w2 := Step(w1, GoPurge(ref));
      assert w1.purges[ref] == Unlinking(true) && w2.purges[ref] == Unlisting;
    } else {
      assert ref !in w1.purges;
    }
  }

  // The job's worker is about to save this outcome.
  ghost predicate FinishesNow(w: World, ref: JobRef, key: OperationKey, job: JobRecord, now: int) {
    && w.clock == now && ref.jobId in w.created && w.created[ref.jobId] == (ref, key)
    && ref.jobId in w.workers && w.workers[ref.jobId] == Finishing(job)
  }

  lemma FinishedJob(w: World, id: JobId, job: JobRecord)
    requires id in w.created && id in w.workers && w.workers[id] == Finishing(job)
    ensures var (ref, key) := w.created[id];
      Shows(Finished(w, id), Released(w.ops, key, id), w.jobs[ref := job.(finishedAt := Some(w.clock))])
  {
    var w1 := Step(w, Work(id, Proceed));
    assert id in w1.workers && w1.workers[id] == Releasing;
  }

  lemma FinalizedJob(w: World, ref: JobRef, job: JobRecord, outcome: JobStatus)
    requires ref in w.recoveries && w.recoveries[ref] == Resolved(job)
    ensures Shows(Finalized(w, ref, outcome), WithoutJob(w.ops, ref.jobId), w.jobs[ref := job])
  {
    var w1 := Step(w, Recover(ref, outcome));
    assert ref in w1.recoveries && w1.recoveries[ref] == Unlocking;
  }

  class CmsJobStore {
    var ops: Ops
    var jobs: Jobs

    constructor ()
      ensures ops == map[] && jobs == map[]
    {
      ops, jobs := map[], map[];
    }

    method RemoveJobIdFromGlobalOperations(jobId: JobId)
      modifies this`ops
      ensures ops == WithoutJob(old(ops), jobId)
    {
      var kept := ops;
      var todo := ops.Keys;
      while todo != {}
        invariant todo <= ops.Keys
        invariant forall k :: k in kept <==> k in ops && (k in todo || ops[k].jobId != jobId)
        invariant forall k :: k in kept ==> kept[k] == ops[k]
        decreases todo
      {
        var k :| k in todo;
        if ops[k].jobId == jobId { kept := kept - {k}; }
        todo := todo - {k};
      }
      ops := kept;
    }

    method SaveJob(ref: JobRef, job: JobRecord)
      modifies this`jobs
      ensures jobs == old(jobs)[ref := job]
    {
      jobs := jobs[ref := job];
    }

    method GetJob(ref: JobRef) returns (job: Option<JobRecord>)
      ensures job == Lookup(jobs, ref)
    {
      if ref in jobs { return Some(jobs[ref]); }
      return None;
    }

    // The resolved outcome is saved, and no lock entry names the job any more.
    method FinalizeOrphanedJob(ref: JobRef, job: JobRecord, ghost w: World)
      modifies this
      ensures Shows(w, old(ops), old(jobs)) && ref in w.recoveries && w.recoveries[ref] == Resolved(job) ==>
        Shows(Finalized(w, ref, job.status), ops, jobs)
      ensures jobs == old(jobs)[ref := job] && ops == WithoutJob(old(ops), ref.jobId)
      ensures IsTerminal(job.status) ==> forall k :: Refuses(ops, jobs, k) ==> ops[k].jobId != ref.jobId
    {
      if ref in w.recoveries && w.recoveries[ref] == Resolved(job) { FinalizedJob(w, ref, job, job.status); }
      SaveJob(ref, job);
      RemoveJobIdFromGlobalOperations(ref.jobId);
    }

    // One file of the purge: an expired job loses its file and its lock entries.
    method PurgeFile(ref: JobRef, rule: PurgeRule, ghost before: (Jobs, Ops), ghost visited: set<JobRef>)
      returns (removed: nat)
      requires ref in before.0 && ref !in visited
      requires jobs == Purged(before.0, visited, rule) && ops == WithoutJobs(before.1, RemovedIds(before.0, jobs))
      modifies this
      ensures jobs == Purged(before.0, visited + {ref}, rule)
      ensures ops == WithoutJobs(before.1, RemovedIds(before.0, jobs))
      ensures |jobs| + removed == |old(jobs)|
      ensures old(jobs) == Purged(before.0, visited, rule) && ref in old(jobs)
      ensures (ops, jobs) == OneFilePurged(old(ops), old(jobs), ref, rule)
    {
      PurgedStep(before.0, visited, ref, rule);
      removed := 0;
      if PurgeRemoves(jobs[ref], rule.now, rule.retentionMs, rule.staleMs) {
        assert |jobs| == |jobs - {ref}| + 1 by { assert jobs.Keys == (jobs - {ref}).Keys + {ref}; }
        jobs := jobs - {ref};
        RemoveJobIdFromGlobalOperations(ref.jobId);
        removed := 1;
      }
    }

    method PurgeExpiredJobs(rule: PurgeRule) returns (removed: nat)
      modifies this
      ensures jobs == UnexpiredJobs(old(jobs), rule)
      ensures ops == WithoutJobs(old(ops), RemovedIds(old(jobs), jobs))
      ensures removed == |old(jobs)| - |jobs|
    {
      removed := 0;
      var users := set ref | ref in jobs :: ref.userKey;
      ghost var before, visited := (jobs, ops), {};
      while users != {}
        invariant jobs == Purged(before.0, visited, rule)
        invariant ops == WithoutJobs(before.1, RemovedIds(before.0, jobs))
        invariant |jobs| + removed == |before.0|
        invariant forall ref :: ref in before.0 ==> (ref in visited <==> ref.userKey !in users)
        decreases users
      {
        var user :| user in users;
        var files := set ref | ref in jobs && ref.userKey == user;
        while files != {}
          invariant forall ref :: ref in files ==> ref.userKey == user && ref in before.0
          invariant jobs == Purged(before.0, visited, rule)
          invariant ops == WithoutJobs(before.1, RemovedIds(before.0, jobs))
          invariant |jobs| + removed == |before.0|
          invariant forall ref :: ref in before.0 ==>
            (ref in visited <==> ref.userKey !in users || (ref.userKey == user && ref !in files))
          decreases files
        {
          var ref :| ref in files;
          var one := PurgeFile(ref, rule, before, visited);
          removed := removed + one;
          visited := visited + {ref};
          files := files - {ref};
        }
        users := users - {user};
      }
    }
  }

  class CmsJobService {
    const store: CmsJobStore

    constructor (store: CmsJobStore)
      ensures this.store == store
    {
      this.store := store;
    }

    // The reservation and the save of createJob; refused is OperationInProgress.
    method CreateJob(ref: JobRef, key: OperationKey, now: int, ghost w: World) returns (refused: bool)
      modifies store
      ensures Shows(w, old(store.ops), old(store.jobs)) && w.clock == now && ref.jobId !in w.created ==>
        Shows(Step(w, Action.CreateJob(ref.userKey, ref.jobId, key)), store.ops, store.jobs)
      ensures refused <==> Refuses(old(store.ops), old(store.jobs), key)
      ensures refused ==> store.ops == old(store.ops) && store.jobs == old(store.jobs)
      ensures !refused ==>
        store.ops == old(store.ops)[key := ref] && store.jobs == old(store.jobs)[ref := NewJob(key, now)]
    {
      if w.clock == now && ref.jobId !in w.created { CreatedJob(w, ref, key); }
      var ops := store.ops;
      if key in ops {
        var existing := store.GetJob(ops[key]);
        if existing.Some? && !IsTerminal(existing.value.status) { return true; }
        ops := ops - {key};
      }
      ops := ops[key := ref];
      store.ops := ops;
      store.SaveJob(ref, JobRecord(key, Queued, now, None, None));
      return false;
    }

    // The finally block of runJob: save the outcome, then drop the entry if it is still its own.
    method FinishJob(ref: JobRef, key: OperationKey, job: JobRecord, now: int, ghost w: World)
      modifies store
      ensures Shows(w, old(store.ops), old(store.jobs)) && FinishesNow(w, ref, key, job, now) ==>
        Shows(Finished(w, ref.jobId), store.ops, store.jobs)
      ensures store.jobs == old(store.jobs)[ref := job.(finishedAt := Some(now))]
      ensures store.ops == Released(old(store.ops), key, ref.jobId)
    {
      if FinishesNow(w, ref, key, job, now) { FinishedJob(w, ref.jobId, job); }
      store.SaveJob(ref, job.(finishedAt := Some(now)));
      if key in store.ops && store.ops[key].jobId == ref.jobId {
        store.ops := store.ops - {key};
      }
    }
  }

  class CmsJobLockService {
    const store: CmsJobStore

    constructor (store: CmsJobStore)
      ensures this.store == store
    {
      this.store := store;
    }

    // The two readers of the lock table agree: a host counts as busy exactly when createJob
    // would refuse some database on it, and the answer names such a database and its job.
    method HasActiveJobForHost(hostKey: string) returns (busy: Option<(JobId, string)>)
      ensures busy.Some? <==> exists dbname :: Refuses(store.ops, store.jobs, OperationKey(hostKey, dbname))
      ensures busy.Some? ==>
        var key := OperationKey(hostKey, busy.value.1);
        Refuses(store.ops, store.jobs, key) && store.ops[key].jobId == busy.value.0
    {
      var todo := store.ops.Keys;
      while todo != {}
        invariant todo <= store.ops.Keys
        invariant forall dbname :: Refuses(store.ops, store.jobs, OperationKey(hostKey, dbname)) ==>
          OperationKey(hostKey, dbname) in todo
        decreases todo
      {
        var key :| key in todo;
        todo := todo - {key};
        if key.hostKey == hostKey {
          var entry := store.ops[key];
          var job := store.GetJob(entry);
          if job.Some? && !IsTerminal(job.value.status) {
            assert key == OperationKey(hostKey, key.dbname);
            return Some((entry.jobId, key.dbname));
          }
        }
      }
      return None;
    }
  }

  // After a purge no expired job's file or lock entry is left, so none can be the reason for a
  // refusal.
  lemma PurgedJobsNeverBlock(jobs: Jobs, ops: Ops, rule: PurgeRule, key: OperationKey)
    ensures var jobs' := UnexpiredJobs(jobs, rule);
      var ops' := WithoutJobs(ops, RemovedIds(jobs, jobs'));
      Refuses(ops', jobs', key) ==>
        && Refuses(ops, jobs, key) && ops'[key] == ops[key]
        && !PurgeRemoves(jobs[ops[key]], rule.now, rule.retentionMs, rule.staleMs)
  {
  }
}
