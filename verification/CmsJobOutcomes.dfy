// What becomes of a job's record: the outcome its worker or recovery reached is saved and kept for
// a day, and orphans are brought to an end.
module CmsJobOutcomes {
  import opened Common
  import opened CmsJobs
  import opened CmsJobExclusion
  import opened CmsJobServices

  // Whether a purge at `now` leaves a job: an ended one until the retention time has passed since it
  // finished, or since it was created if no finish is recorded; any other until it has gone stale.
  lemma KeptByPurgeIff(jobs: Jobs, ref: JobRef, rule: PurgeRule)
    requires ref in jobs
    ensures ref in UnexpiredJobs(jobs, rule) <==>
      match jobs[ref]
      case JobRecord(_, Succeeded, createdAt, None, _) => rule.now < createdAt + rule.retentionMs
      case JobRecord(_, Failed, createdAt, None, _) => rule.now < createdAt + rule.retentionMs
      case JobRecord(_, Succeeded, _, Some(finishedAt), _) => rule.now < finishedAt + rule.retentionMs
      case JobRecord(_, Failed, _, Some(finishedAt), _) => rule.now < finishedAt + rule.retentionMs
      case JobRecord(_, Queued, createdAt, _, _) => rule.now < createdAt + rule.staleMs
      case JobRecord(_, Running, createdAt, _, _) => rule.now < createdAt + rule.staleMs
    ensures ref in UnexpiredJobs(jobs, rule) ==> UnexpiredJobs(jobs, rule)[ref] == jobs[ref]
  {
  }

  // The outcome of job ref is saved, and nobody is at its record any more.
  ghost predicate Settled(w: World, ref: JobRef, job: JobRecord) {
    && Inv(w) && ref in w.jobs && w.jobs[ref] == job && (job.status.Succeeded? || job.status.Failed?)
    && job.finishedAt.Some? && Over(w, ref.jobId)
    && (ref in w.recoveries ==> w.recoveries[ref].Unlocking?)
    && (ref in w.purges ==> w.purges[ref].Unlisting?)
  }

  // Purges look at the record less than 24 hours after its finish.
  ghost predicate LooksInTime(a: Action, ref: JobRef, finishedAt: int) {
    a.VisitForPurge? && a.ref == ref ==> a.now < finishedAt + 24 * 60 * 60 * 1000
  }

  ghost predicate AllLookInTime(actions: seq<Action>, ref: JobRef, finishedAt: int) {
    forall a :: a in actions ==> LooksInTime(a, ref, finishedAt)
  }

  // The record is as it was, and no recovery or purge is about to change that.
  ghost predicate Kept(w: World, ref: JobRef, job: JobRecord) {
    && ref in w.jobs && w.jobs[ref] == job
    && (ref in w.recoveries ==> w.recoveries[ref].Unlocking?)
    && (ref in w.purges ==> w.purges[ref].Unlisting?)
  }

  lemma WorkKeepsRecord(w: World, id: JobId, move: WorkerMove, ref: JobRef, job: JobRecord)
    requires Settled(w, ref, job)
    ensures Kept(Step(w, Work(id, move)), ref, job)
  {
    if id in w.workers { assert WorkerSound(w, id); }
    assert w.created[ref.jobId].0 == ref;
  }

  lemma FileKeepsRecord(w: World, r: JobRef, n: FileNext, ref: JobRef, job: JobRecord)
    requires Kept(w, ref, job)
    requires r == ref ==>
      n.save.Keep? && (n.recovery.Some? ==> n.recovery.value.Unlocking?) && (n.purge.Some? ==> n.purge.value.Unlisting?)
    ensures Kept(ApplyFile(w, r, n), ref, job)
  {
  }

  lemma FilesKeepRecord(w: World, a: Action, ref: JobRef, job: JobRecord)
    requires Kept(w, ref, job) && IsTerminal(job.status) && job.finishedAt.Some?
    requires LooksInTime(a, ref, job.finishedAt.value) && (a.Recover? || a.VisitForPurge? || a.GoPurge?)
    ensures Kept(Step(w, a), ref, job)
  {
    match a
    case Recover(r, outcome) =>
      if r in w.recoveries {
        FileKeepsRecord(w, r, RecoverNext(w.recoveries[r], Lookup(w.purges, r), outcome, w.clock), ref, job);
      }
    case VisitForPurge(r, now) =>
      FileKeepsRecord(w, r, FileNext(Keep, Lookup(w.recoveries, r), VisitNext(w.jobs, r, now), false), ref, job);
    case GoPurge(r) =>
      if r in w.purges { FileKeepsRecord(w, r, PurgeNext(w.purges[r], Lookup(w.recoveries, r)), ref, job); }
  }

  lemma OthersKeepRecord(w: World, a: Action, ref: JobRef, job: JobRecord)
    requires Settled(w, ref, job) && (a.Tick? || a.Crash? || a.CreateJob? || a.ListOrphans?)
    ensures Kept(Step(w, a), ref, job)
  {
  }

  lemma StepKeepsSettled(w: World, a: Action, ref: JobRef, job: JobRecord)
    requires Settled(w, ref, job) && Scheduled(w, a) && LooksInTime(a, ref, job.finishedAt.value)
    ensures Settled(Step(w, a), ref, job)
  {
    StepKeepsInv(w, a);
    OverStays(w, a, ref.jobId);
    if a.Work? { WorkKeepsRecord(w, a.id, a.move, ref, job); }
    else if a.Recover? || a.VisitForPurge? || a.GoPurge? { FilesKeepRecord(w, a, ref, job); }
    else { OthersKeepRecord(w, a, ref, job); }
  }

  lemma {:induction false} RunKeepsSettled(w: World, actions: seq<Action>, ref: JobRef, job: JobRecord)
    requires Settled(w, ref, job) && ScheduledRun(w, actions) && AllLookInTime(actions, ref, job.finishedAt.value)
    ensures Settled(Run(w, actions), ref, job)
    decreases |actions|
  {
    if actions != [] {
      assert actions[0] in actions;
      StepKeepsSettled(w, actions[0], ref, job);
      RunKeepsSettled(Step(w, actions[0]), actions[1..], ref, job);
    }
  }

  // A worker that finishes with an outcome saves that outcome, its finish time included, and no run
  // that purges within a day of it loses or changes the record.
  lemma FinishedOutcomeStays(
    before: seq<Action>, w: World, id: JobId, status: JobStatus, w1: World, w2: World, after: seq<Action>)
    requires ScheduledRun(INIT, before) && w == Run(INIT, before) && id in w.workers && w.workers[id].Executing?
    requires status.Succeeded? || status.Failed?
    requires w1 == Step(w, Work(id, Finish(status))) && w2 == Step(w1, Work(id, Proceed))
    requires ScheduledRun(w2, after) && id in w.created && AllLookInTime(after, w.created[id].0, w.clock)
    ensures var ref, w3 := w.created[id].0, Run(w2, after);
      && ref in w3.jobs && w3.jobs[ref].status == status && w3.jobs[ref].finishedAt == Some(w.clock)
      && w3.jobs[ref].key == w.created[id].1
  {
    RunKeepsInv(INIT, before);
    FinishSettles(w, id, status, w1, w2);
    var ref := w.created[id].0;
    RunKeepsSettled(w2, after, ref, w2.jobs[ref]);
  }

  lemma FinishSettles(w: World, id: JobId, status: JobStatus, w1: World, w2: World)
    requires Inv(w) && id in w.workers && w.workers[id].Executing? && (status.Succeeded? || status.Failed?)
    requires w1 == Step(w, Work(id, Finish(status))) && w2 == Step(w1, Work(id, Proceed))
    ensures id in w.created
    ensures var (ref, key) := w.created[id];
      && ref in w2.jobs && w2.jobs[ref].status == status && w2.jobs[ref].finishedAt == Some(w.clock)
      && w2.jobs[ref].key == key && Settled(w2, ref, w2.jobs[ref])
  {
    assert WorkerSound(w, id);
    StepKeepsInv(w, Work(id, Finish(status)));
    StepKeepsInv(w1, Work(id, Proceed));
    assert WorkerSound(w1, id) && w1.workers[id].Finishing?;
    EndingSteps(w1, Work(id, Proceed));
    LeftAlone(w, id);
  }

  lemma LeftAlone(w: World, id: JobId)
    requires Inv(w) && LiveWorker(w, id)
    ensures forall ref :: ref in w.purges || ref in w.recoveries ==> ref.jobId != id
  {
    forall ref | ref in w.purges ensures ref.jobId != id { assert PurgeSound(w, ref, w.purges[ref]); }
    forall ref | ref in w.recoveries ensures ref.jobId != id { assert RecoverySound(w, ref, w.recoveries[ref]); }
  }

  // A job left queued or running by a crash is listed as an orphan, and its recovery saves the
  // outcome it reaches, with a finish time, and frees the database.
  lemma OrphanIsRecovered(w: World, ref: JobRef, status: JobStatus, w1: World, w2: World, w3: World, w4: World)
    requires Inv(w) && Active(w.jobs, ref) && (status.Succeeded? || status.Failed?)
    requires w1 == Step(Step(w, Crash), ListOrphans) && w2 == Step(w1, Recover(ref, status))
    requires w3 == Step(w2, Recover(ref, status)) && w4 == Step(w3, Recover(ref, status))
    ensures ref in w4.jobs && w4.jobs[ref].status == status && w4.jobs[ref].finishedAt.Some?
    ensures w.jobs[ref].finishedAt.None? ==> w4.jobs[ref].finishedAt == Some(w.clock)
    ensures w.jobs[ref].key !in w4.ops && !Refuses(w4.ops, w4.jobs, w.jobs[ref].key)
  {
    var job := w.jobs[ref];
    assert ref in w1.recoveries && w1.recoveries[ref] == Reconciling(job);
    assert ref in w2.recoveries && w2.recoveries[ref].Resolved?;
    assert ref in w3.recoveries && w3.recoveries[ref].Unlocking? && w3.ops == w.ops;
  }

  // The new record of a job: queued, from now, under its key; its worker then runs it.
  lemma CreatedJobRuns(w: World, user: UserKey, id: JobId, key: OperationKey, w1: World, w2: World, w3: World)
    requires id !in w.created && !(key in w.ops && Active(w.jobs, w.ops[key]))
    requires w1 == Step(w, CreateJob(user, id, key)) && w2 == Step(w1, Work(id, Proceed))
    requires w3 == Step(w2, Work(id, Proceed))
    ensures var ref := JobRef(user, id);
      && ref in w1.jobs && w1.jobs[ref] == JobRecord(key, Queued, w.clock, None, None)
      && ref in w3.jobs && w3.jobs[ref] == JobRecord(key, Running, w.clock, None, None)
      && id in w3.workers && w3.workers[id] == Executing(w3.jobs[ref])
  {
    var ref := JobRef(user, id);
    assert w1.workers[id] == Pending && w1.created[id] == (ref, key);
    assert w2.workers[id] == Loaded(w1.jobs[ref]) && w2.jobs == w1.jobs;
  }
}
