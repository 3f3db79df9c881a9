// Runs that show what the hypotheses of OneJobPerDatabase exclude: two jobs of two users on
// one database, or two workers at it.
module CmsJobWitnesses {
  import opened Common
  import opened CmsJobs
  import opened CmsJobExclusion
  import opened CmsJobSchedules

  lemma RunFirst(w: World, a: Action, rest: seq<Action>)
    ensures Run(w, [a] + rest) == Run(Step(w, a), rest)
  {
    assert ([a] + rest)[1..] == rest;
  }

  lemma RunFive(w: World, a: Action, b: Action, c: Action, d: Action, e: Action)
    ensures Run(w, [a, b, c, d, e]) == Step(Step(Step(Step(Step(w, a), b), c), d), e)
  {
    assert [a, b, c, d, e] == [a] + ([b] + ([c] + ([d] + ([e] + []))));
    RunFirst(w, a, [b] + ([c] + ([d] + ([e] + []))));
    RunFirst(Step(w, a), b, [c] + ([d] + ([e] + [])));
    RunFirst(Step(Step(w, a), b), c, [d] + ([e] + []));
    RunFirst(Step(Step(Step(w, a), b), c), d, [e] + []);
    RunFirst(Step(Step(Step(Step(w, a), b), c), d), e, []);
  }

  ghost predicate TwoWorkers(w: World, i: JobId, j: JobId) {
    && i != j && LiveWorker(w, i) && LiveWorker(w, j)
    && i in w.created && j in w.created && w.created[i].1 == w.created[j].1
  }

  // createJob writes the lock entry before the record. In between, the entry's job is missing,
  // hence stale, and a second createJob replaces it.
  lemma SplitCreateAdmitsTwoJobs(key: OperationKey)
    ensures TwoJobs(
      Run(INIT, [Tick(1), Reserve(1, 1, key), CreateJob(2, 2, key), SaveReserved(1), Tick(1)]),
      JobRef(1, 1), JobRef(2, 2))
  {
    RunFive(INIT, Tick(1), Reserve(1, 1, key), CreateJob(2, 2, key), SaveReserved(1), Tick(1));
    var w2 := Step(Step(INIT, Tick(1)), Reserve(1, 1, key));
    assert w2.created == map[1 := (JobRef(1, 1), key)] && w2.reserved == {1} && w2.jobs == map[];
    SaveAfterCreate(w2, key);
  }

  lemma SaveAfterCreate(w: World, key: OperationKey)
    requires w.created == map[1 := (JobRef(1, 1), key)] && w.reserved == {1} && w.jobs == map[]
    ensures TwoJobs(Step(Step(Step(w, CreateJob(2, 2, key)), SaveReserved(1)), Tick(1)), JobRef(1, 1), JobRef(2, 2))
  {
    var w1 := Step(w, CreateJob(2, 2, key));
    assert w1.jobs == map[JobRef(2, 2) := NewJob(key, w.clock)] && w1.created[1] == (JobRef(1, 1), key);
  }

  // A create once the lock table no longer refuses.
  lemma SecondCreate(w: World, ref: JobRef, id: JobId, key: OperationKey)
    requires id != ref.jobId && id !in w.created && !Refuses(w.ops, w.jobs, key)
    ensures var w' := Step(w, CreateJob(2, id, key));
      && (Active(w.jobs, ref) && w.jobs[ref].key == key ==> TwoJobs(w', ref, JobRef(2, id)))
      && (LiveWorker(w, ref.jobId) && ref.jobId in w.created && w.created[ref.jobId].1 == key ==>
            TwoWorkers(w', ref.jobId, id))
  {
  }

  lemma FirstCreate(w: World, key: OperationKey)
    requires w.created == map[] && w.ops == map[]
    ensures var w' := Step(w, CreateJob(1, 1, key));
      && w'.ops == map[key := JobRef(1, 1)] && w'.jobs == w.jobs[JobRef(1, 1) := NewJob(key, w.clock)]
      && w'.created == map[1 := (JobRef(1, 1), key)] && w'.workers == w.workers[1 := Pending]
      && w'.snapshots == w.snapshots && w'.clock == w.clock && w'.purges == w.purges && w'.recoveries == w.recoveries
  {
  }

  lemma RecoveryEnds(w: World, ref: JobRef)
    requires ref in w.recoveries && w.recoveries[ref].Reconciling?
    ensures var w' := Step(Step(w, Recover(ref, Failed)), Recover(ref, Failed));
      && !Active(w'.jobs, ref) && w'.ops == w.ops && w'.workers == w.workers && w'.created == w.created
  {
    var w1 := Step(w, Recover(ref, Failed));
    assert ref in w1.recoveries && w1.recoveries[ref].Resolved?;
  }

  // Job 9 is left by a crash, and found interrupted by the recovery that follows.
  function Interrupted(key: OperationKey): seq<Action> {
    [CreateJob(1, 9, key), Crash, ListOrphans, Recover(JobRef(1, 9), Failed), Recover(JobRef(1, 9), Failed)]
  }

  lemma InterruptedRun(key: OperationKey)
    ensures var w := Run(INIT, Interrupted(key));
      w.ops == map[key := JobRef(1, 9)] && !Active(w.jobs, JobRef(1, 9)) && w.created.Keys == {9}
  {
    var ref := JobRef(1, 9);
    RunFive(INIT, CreateJob(1, 9, key), Crash, ListOrphans, Recover(ref, Failed), Recover(ref, Failed));
    var w3 := Step(Step(Step(INIT, CreateJob(1, 9, key)), Crash), ListOrphans);
    assert w3.ops == map[key := ref] && w3.created == map[9 := (ref, key)];
    assert ref in w3.recoveries && w3.recoveries[ref].Reconciling?;
    RecoveryEnds(w3, ref);
  }

  lemma SnapshotErases(w: World, key: OperationKey, other: OperationKey)
    requires w.ops == map[other := JobRef(1, 9)] && w.created.Keys == {9} && key != other
    ensures var w' := Step(Step(Step(w, SnapshotOps(9)), CreateJob(1, 1, key)), WriteSnapshot(9));
      && w'.ops == map[] && Active(w'.jobs, JobRef(1, 1)) && w'.jobs[JobRef(1, 1)].key == key
      && w'.created.Keys == {1, 9}
  {
    var w1 := Step(w, SnapshotOps(9));
    var w2 := CreateStep(w1, JobRef(1, 1), key);
    FreshCreate(w1, 1, key);
    assert other in w.ops;
    OldTableErases(w2, w.ops);
  }

  lemma FreshCreate(w: World, id: JobId, key: OperationKey)
    requires id !in w.created && key !in w.ops
    ensures Step(w, CreateJob(1, id, key)) == CreateStep(w, JobRef(1, id), key)
  {
  }

  lemma OldTableErases(w: World, ops: Ops)
    requires 9 in w.snapshots && w.snapshots[9] == ops && ops != map[] && forall k :: k in ops ==> ops[k].jobId == 9
    ensures var w' := Step(w, WriteSnapshot(9)); w'.ops == map[] && w'.jobs == w.jobs && w'.created == w.created
  {
    assert WithoutJob(ops, 9) == map[];
  }

  // A lock removal that writes back what it read earlier erases an entry made in between: here
  // recovery removes the entry of job 9 while job 1 is being created.
  lemma LostUpdateAdmitsTwoJobs(key: OperationKey, other: OperationKey)
    requires key != other
    ensures TwoJobs(
      Run(Run(INIT, Interrupted(other)),
          [SnapshotOps(9), CreateJob(1, 1, key), WriteSnapshot(9), CreateJob(2, 2, key), Tick(1)]),
      JobRef(1, 1), JobRef(2, 2))
  {
    var w := Run(INIT, Interrupted(other));
    InterruptedRun(other);
    RunFive(w, SnapshotOps(9), CreateJob(1, 1, key), WriteSnapshot(9), CreateJob(2, 2, key), Tick(1));
    SnapshotErases(w, key, other);
    SecondCreate(Step(Step(Step(w, SnapshotOps(9)), CreateJob(1, 1, key)), WriteSnapshot(9)), JobRef(1, 1), 2, key);
  }

  // Orphans listed while a new job is already running: the job is failed as interrupted, its
  // lock is removed, and a second worker starts on the same database.
  lemma LateOrphanListingAdmitsTwoWorkers(key: OperationKey)
    ensures TwoWorkers(
      Run(INIT, [CreateJob(1, 1, key), ListOrphans, Recover(JobRef(1, 1), Failed), Recover(JobRef(1, 1), Failed),
                 CreateJob(2, 2, key)]),
      1, 2)
  {
    var ref := JobRef(1, 1);
    RunFive(INIT, CreateJob(1, 1, key), ListOrphans, Recover(ref, Failed), Recover(ref, Failed), CreateJob(2, 2, key));
    FirstCreate(INIT, key);
    var w2 := Step(Step(INIT, CreateJob(1, 1, key)), ListOrphans);
    assert ref in w2.recoveries && w2.recoveries[ref].Reconciling?;
    RecoveryEnds(w2, ref);
    SecondCreate(Step(Step(w2, Recover(ref, Failed)), Recover(ref, Failed)), ref, 2, key);
  }

  lemma StalePurgeUnlinks(w: World, ref: JobRef, now: int)
    requires ref in w.jobs && !IsTerminal(w.jobs[ref].status) && now - w.jobs[ref].createdAt >= STALE_RUNNING_MS
    requires ref !in w.purges && now == w.clock && ref.jobId in w.created && w.created[ref.jobId].0 == ref
    ensures var w' := Step(Step(w, VisitForPurge(ref, now)), GoPurge(ref));
      && !Active(w'.jobs, ref) && w'.ops == w.ops && w'.workers == w.workers && w'.created == w.created
  {
    var w1 := Step(w, VisitForPurge(ref, now));
    assert ref in w1.purges && w1.purges[ref] == Unlinking(true);
  }

  // A worker older than the stale threshold loses its record to the purge, and its lock to the
  // next createJob.
  lemma StalePurgeAdmitsTwoWorkers(key: OperationKey)
    ensures TwoWorkers(
      Run(INIT, [CreateJob(1, 1, key), Tick(46800000), VisitForPurge(JobRef(1, 1), 46800000), GoPurge(JobRef(1, 1)),
                 CreateJob(2, 2, key)]),
      1, 2)
  {
    var ref := JobRef(1, 1);
    RunFive(INIT, CreateJob(1, 1, key), Tick(46800000), VisitForPurge(ref, 46800000), GoPurge(ref),
      CreateJob(2, 2, key));
    FirstCreate(INIT, key);
    var w2 := Step(Step(INIT, CreateJob(1, 1, key)), Tick(46800000));
    assert ref in w2.jobs && w2.jobs[ref] == NewJob(key, 0);
    StalePurgeUnlinks(w2, ref, 46800000);
    SecondCreate(Step(Step(w2, VisitForPurge(ref, 46800000)), GoPurge(ref)), ref, 2, key);
  }
}
