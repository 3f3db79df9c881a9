// At most one job runs per physical host and database.
module CmsJobExclusion {
  import opened Common
  import opened CmsJobs

  // A worker that has not yet saved its job's outcome.
  predicate Live(worker: Worker) {
    !worker.Releasing?
  }

  predicate HeldRecord(worker: Worker, key: OperationKey, createdAt: int) {
    match worker
    case Loaded(job) => job.key == key && job.createdAt == createdAt && !IsTerminal(job.status)
    case Executing(job) => job.key == key && job.createdAt == createdAt && !IsTerminal(job.status)
    case Finishing(job) => job.key == key && job.createdAt == createdAt && IsTerminal(job.status)
    case _ => true
  }

  ghost predicate LiveWorker(w: World, id: JobId) {
    id in w.workers && Live(w.workers[id])
  }

  // Job id is over: nothing will make its record queued or running again.
  ghost predicate Over(w: World, id: JobId) {
    && id in w.created && !LiveWorker(w, id)
    && !Active(w.jobs, w.created[id].0)
  }

  ghost predicate WorkerSound(w: World, id: JobId)
    requires id in w.workers
  {
    && id in w.created
    && var (ref, key) := w.created[id];
       if Live(w.workers[id]) then
         && Active(w.jobs, ref) && w.jobs[ref].key == key
         && HeldRecord(w.workers[id], key, w.jobs[ref].createdAt)
       else Over(w, id)
  }

  ghost predicate RecoverySound(w: World, ref: JobRef, recovery: Recovery) {
    && ref.jobId in w.created && w.created[ref.jobId].0 == ref && !LiveWorker(w, ref.jobId)
    && match recovery
       case Reconciling(job) => job.key == w.created[ref.jobId].1
       case Resolved(job) => job.key == w.created[ref.jobId].1 && IsTerminal(job.status)
       case Unlocking => Over(w, ref.jobId)
  }

  ghost predicate PurgeSound(w: World, ref: JobRef, purge: Purge) {
    && ref.jobId in w.created && w.created[ref.jobId].0 == ref && !LiveWorker(w, ref.jobId)
    && (purge.Unlisting? ==> Over(w, ref.jobId))
  }

  ghost predicate Inv(w: World) {
    && (forall id :: id in w.created ==> w.created[id].0.jobId == id)
    && (forall ref :: ref in w.jobs ==> ref.jobId in w.created && w.created[ref.jobId] == (ref, w.jobs[ref].key))
    // a queued or running job holds the lock of its database
    && (forall ref :: Active(w.jobs, ref) ==> w.jobs[ref].key in w.ops && w.ops[w.jobs[ref].key] == ref)
    && (forall id :: id in w.workers ==> WorkerSound(w, id))
    && (forall ref :: ref in w.recoveries ==> RecoverySound(w, ref, w.recoveries[ref]))
    && (forall ref :: ref in w.purges ==> PurgeSound(w, ref, w.purges[ref]))
  }

  // No worker is still at its job when the job counts as stale.
  ghost predicate Timely(w: World) {
    forall id :: LiveWorker(w, id) && id in w.created && w.created[id].0 in w.jobs ==>
      w.clock - w.jobs[w.created[id].0].createdAt < STALE_RUNNING_MS
  }

  // The schedules of the theorem: createJob's reservation and save are one step and so is each
  // lock removal; recovery lists orphans before any job is created; and purges look only while
  // no worker has outlived the stale threshold.
  ghost predicate Scheduled(w: World, a: Action) {
    && !a.Reserve? && !a.SaveReserved? && !a.SnapshotOps? && !a.WriteSnapshot?
    && (a.ListOrphans? ==> w.workers == map[])
    && (a.VisitForPurge? ==> Timely(w))
  }

  ghost predicate LocksHeld(w: World) {
    forall ref :: Active(w.jobs, ref) ==> w.jobs[ref].key in w.ops && w.ops[w.jobs[ref].key] == ref
  }

  ghost predicate HistorySound(w: World) {
    && (forall id :: id in w.created ==> w.created[id].0.jobId == id)
    && (forall ref :: ref in w.jobs ==> ref.jobId in w.created && w.created[ref.jobId] == (ref, w.jobs[ref].key))
  }

  lemma CreateKeepsLocks(w: World, ref: JobRef, key: OperationKey)
    requires Inv(w) && ref.jobId !in w.created && !Refuses(w.ops, w.jobs, key)
    ensures HistorySound(CreateStep(w, ref, key)) && LocksHeld(CreateStep(w, ref, key))
  {
  }

  // The jobs, workers and history of the others are as before.
  ghost predicate OthersSame(w: World, w': World, id: JobId) {
    && (forall i :: i != id ==>
          (i in w.created <==> i in w'.created) && (i in w.created ==> w'.created[i] == w.created[i]))
    && (forall i :: i != id ==>
          (i in w.workers <==> i in w'.workers) && (i in w.workers ==> w'.workers[i] == w.workers[i]))
    && (forall r: JobRef :: r.jobId != id ==>
          (r in w.jobs <==> r in w'.jobs) && (r in w.jobs ==> w'.jobs[r] == w.jobs[r]))
  }

  lemma OthersSound(w: World, w': World, id: JobId)
    requires Inv(w) && OthersSame(w, w', id)
    requires w'.recoveries == w.recoveries && w'.purges == w.purges
    ensures forall i :: i in w'.workers && i != id ==> WorkerSound(w', i)
    ensures forall r :: r in w'.recoveries && r.jobId != id ==> RecoverySound(w', r, w'.recoveries[r])
    ensures forall r :: r in w'.purges && r.jobId != id ==> PurgeSound(w', r, w'.purges[r])
  {
    forall i | i in w'.workers && i != id ensures WorkerSound(w', i) {
      assert WorkerSound(w, i);
    }
    forall r | r in w'.recoveries && r.jobId != id ensures RecoverySound(w', r, w'.recoveries[r]) {
      assert RecoverySound(w, r, w.recoveries[r]);
    }
    forall r | r in w'.purges && r.jobId != id ensures PurgeSound(w', r, w'.purges[r]) {
      assert PurgeSound(w, r, w.purges[r]);
    }
  }

  lemma CreateKeepsInv(w: World, w': World, ref: JobRef, key: OperationKey)
    requires Inv(w) && ref.jobId !in w.created && !Refuses(w.ops, w.jobs, key)
    requires w' == CreateStep(w, ref, key)
    ensures Inv(w')
  {
    CreateKeepsLocks(w, ref, key);
    OthersSound(w, w', ref.jobId);
    assert WorkerSound(w', ref.jobId);
    forall r | r in w'.recoveries ensures r.jobId != ref.jobId { assert RecoverySound(w, r, w.recoveries[r]); }
    forall r | r in w'.purges ensures r.jobId != ref.jobId { assert PurgeSound(w, r, w.purges[r]); }
  }

  lemma WorkKeepsOwn(w: World, w': World, id: JobId, n: WorkerNext, move: WorkerMove)
    requires Inv(w) && id in w.workers && id in w.created
    requires n == WorkNext(w.jobs, w.created[id].0, w.workers[id], move, w.clock) && w' == ApplyWork(w, id, n)
    ensures HistorySound(w') && LocksHeld(w')
    ensures id in w'.workers ==> WorkerSound(w', id)
    ensures LiveWorker(w', id) ==> LiveWorker(w, id)
    ensures Over(w, id) ==> Over(w', id)
  {
    assert WorkerSound(w, id);
    if n.release {
      forall ref | Active(w'.jobs, ref)
        ensures w'.jobs[ref].key in w'.ops && w'.ops[w'.jobs[ref].key] == ref
      {
        assert Active(w.jobs, ref);
      }
    }
  }

  lemma WorkKeepsInv(w: World, w': World, id: JobId, move: WorkerMove)
    requires Inv(w) && id in w.workers && id in w.created
    requires w' == ApplyWork(w, id, WorkNext(w.jobs, w.created[id].0, w.workers[id], move, w.clock))
    ensures Inv(w')
  {
    var n := WorkNext(w.jobs, w.created[id].0, w.workers[id], move, w.clock);
    assert WorkerSound(w, id);
    WorkKeepsOwn(w, w', id, n, move);
    OthersSound(w, w', id);
    forall r | r in w'.recoveries && r.jobId == id ensures RecoverySound(w', r, w'.recoveries[r]) {
      assert RecoverySound(w, r, w.recoveries[r]);
    }
    forall r | r in w'.purges && r.jobId == id ensures PurgeSound(w', r, w'.purges[r]) {
      assert PurgeSound(w, r, w.purges[r]);
    }
  }

  // Dropping the lock entries of a job that is over drops no lock that is held.
  lemma DropOverKeepsLocks(w: World, id: JobId)
    requires LocksHeld(w) && HistorySound(w) && Over(w, id)
    ensures LocksHeld(w.(ops := WithoutJob(w.ops, id)))
  {
    forall ref | Active(w.jobs, ref) ensures ref.jobId != id {
      assert w.created[ref.jobId].0 == ref;
    }
  }

  // A recovery or purge step keeps everything if its job has no live worker, it leaves the
  // record not queued or running unless it already was, and drops entries of jobs that are over.
  ghost predicate FileNextSound(w: World, ref: JobRef, n: FileNext) {
    && ref.jobId in w.created && w.created[ref.jobId].0 == ref && !LiveWorker(w, ref.jobId)
    && (n.save.Replace? ==> n.save.job.key == w.created[ref.jobId].1 && IsTerminal(n.save.job.status))
    && (n.unlist ==> n.save.Keep? && Over(w, ref.jobId))
    && var w' := ApplyFile(w, ref, n);
       && (n.recovery.Some? ==> RecoverySound(w', ref, n.recovery.value))
       && (n.purge.Some? ==> PurgeSound(w', ref, n.purge.value))
  }

  lemma ApplyFileKeepsLocks(w: World, ref: JobRef, n: FileNext)
    requires Inv(w) && FileNextSound(w, ref, n)
    ensures HistorySound(ApplyFile(w, ref, n)) && LocksHeld(ApplyFile(w, ref, n))
  {
    if n.unlist { DropOverKeepsLocks(w, ref.jobId); }
  }

  lemma ApplyFileKeepsInv(w: World, w': World, ref: JobRef, n: FileNext)
    requires Inv(w) && FileNextSound(w, ref, n) && w' == ApplyFile(w, ref, n)
    ensures Inv(w')
  {
    ApplyFileKeepsLocks(w, ref, n);
    forall id | id in w'.workers ensures WorkerSound(w', id) { assert WorkerSound(w, id); }
    forall r | r in w'.recoveries ensures RecoverySound(w', r, w'.recoveries[r]) {
      if r != ref { assert RecoverySound(w, r, w.recoveries[r]); }
    }
    forall r | r in w'.purges ensures PurgeSound(w', r, w'.purges[r]) {
      if r != ref { assert PurgeSound(w, r, w.purges[r]); }
    }
  }

  lemma RecoverSound(w: World, ref: JobRef, outcome: JobStatus)
    requires Inv(w) && ref in w.recoveries
    ensures FileNextSound(w, ref, RecoverNext(w.recoveries[ref], Lookup(w.purges, ref), outcome, w.clock))
  {
    assert RecoverySound(w, ref, w.recoveries[ref]);
    if ref in w.purges { assert PurgeSound(w, ref, w.purges[ref]); }
  }

  lemma PurgeStepSound(w: World, ref: JobRef)
    requires Inv(w) && ref in w.purges
    ensures FileNextSound(w, ref, PurgeNext(w.purges[ref], Lookup(w.recoveries, ref)))
  {
    assert PurgeSound(w, ref, w.purges[ref]);
    if ref in w.recoveries { assert RecoverySound(w, ref, w.recoveries[ref]); }
  }

  // While no worker has outlived the stale threshold, a purge never decides to remove the file
  // of a job whose worker is still at it.
  lemma VisitSound(w: World, ref: JobRef, now: int)
    requires Inv(w) && Timely(w) && ref !in w.purges && now <= w.clock
    requires ref.jobId in w.created && w.created[ref.jobId].0 == ref && VisitNext(w.jobs, ref, now).Some?
    ensures FileNextSound(w, ref, FileNext(Keep, Lookup(w.recoveries, ref), VisitNext(w.jobs, ref, now), false))
  {
    if ref.jobId in w.workers { assert WorkerSound(w, ref.jobId); }
    if ref in w.recoveries { assert RecoverySound(w, ref, w.recoveries[ref]); }
  }

  lemma VisitKeepsInv(w: World, w': World, ref: JobRef, now: int)
    requires Inv(w) && Timely(w) && w' == Step(w, VisitForPurge(ref, now))
    ensures Inv(w')
  {
    if w' != w {
      var n := FileNext(Keep, Lookup(w.recoveries, ref), VisitNext(w.jobs, ref, now), false);
      assert n.purge.None? ==> ApplyFile(w, ref, n) == w;
      VisitSound(w, ref, now);
      ApplyFileKeepsInv(w, w', ref, n);
    }
  }

  lemma ListKeepsInv(w: World, w': World)
    requires Inv(w) && w.workers == map[] && w' == w.(recoveries := Orphans(w.jobs))
    ensures Inv(w')
  {
    forall r | r in w'.purges ensures PurgeSound(w', r, w'.purges[r]) { assert PurgeSound(w, r, w.purges[r]); }
  }

  lemma CrashKeepsInv(w: World, w': World)
    requires Inv(w) && w' == Step(w, Crash)
    ensures Inv(w')
  {
  }

  lemma TickKeepsInv(w: World, w': World)
    requires Inv(w) && w' == w.(clock := w'.clock)
    ensures Inv(w')
  {
    forall id | id in w'.workers ensures WorkerSound(w', id) { assert WorkerSound(w, id); }
    forall r | r in w'.recoveries ensures RecoverySound(w', r, w'.recoveries[r]) {
      assert RecoverySound(w, r, w.recoveries[r]);
    }
    forall r | r in w'.purges ensures PurgeSound(w', r, w'.purges[r]) { assert PurgeSound(w, r, w.purges[r]); }
  }

  lemma StepKeepsInv(w: World, a: Action)
    requires Inv(w) && Scheduled(w, a)
    ensures Inv(Step(w, a))
  {
    var w' := Step(w, a);
    match a
    case Tick(ms) => TickKeepsInv(w, w');
    case Crash => CrashKeepsInv(w, w');
    case CreateJob(user, id, key) =>
      if id !in w.created && !Refuses(w.ops, w.jobs, key) { CreateKeepsInv(w, w', JobRef(user, id), key); }
    case Work(id, move) =>
      if id in w.workers && id in w.created { WorkKeepsInv(w, w', id, move); }
    case ListOrphans => ListKeepsInv(w, w');
    case Recover(ref, outcome) =>
      if ref in w.recoveries {
        RecoverSound(w, ref, outcome);
        ApplyFileKeepsInv(w, w', ref, RecoverNext(w.recoveries[ref], Lookup(w.purges, ref), outcome, w.clock));
      }
    case VisitForPurge(ref, now) => VisitKeepsInv(w, w', ref, now);
    case GoPurge(ref) =>
      if ref in w.purges {
        PurgeStepSound(w, ref);
        ApplyFileKeepsInv(w, w', ref, PurgeNext(w.purges[ref], Lookup(w.recoveries, ref)));
      }
  }

  ghost predicate ScheduledRun(w: World, actions: seq<Action>)
    decreases |actions|
  {
    actions == [] || (Scheduled(w, actions[0]) && ScheduledRun(Step(w, actions[0]), actions[1..]))
  }

  lemma {:induction false} RunKeepsInv(w: World, actions: seq<Action>)
    requires Inv(w) && ScheduledRun(w, actions)
    ensures Inv(Run(w, actions))
    decreases |actions|
  {
    if actions != [] {
      StepKeepsInv(w, actions[0]);
      RunKeepsInv(Step(w, actions[0]), actions[1..]);
    }
  }

  ghost predicate Exclusive(w: World) {
    && (forall r, s :: Active(w.jobs, r) && Active(w.jobs, s) && w.jobs[r].key == w.jobs[s].key ==> r == s)
    && (forall i, j ::
          LiveWorker(w, i) && LiveWorker(w, j) && i in w.created && j in w.created && w.created[i].1 == w.created[j].1
          ==> i == j)
    && (forall r :: Active(w.jobs, r) ==> Refuses(w.ops, w.jobs, w.jobs[r].key))
  }

  lemma InvExcludes(w: World)
    requires Inv(w)
    ensures Exclusive(w)
  {
    forall i | LiveWorker(w, i) && i in w.created
      ensures Active(w.jobs, w.created[i].0) && w.jobs[w.created[i].0].key == w.created[i].1
    {
      assert WorkerSound(w, i);
    }
  }

  // Over every scheduled run of creations by any users, workers, crashes, recovery and purge,
  // at most one queued or running job and one worker exist per physical host and database,
  // and createJob refuses that database for as long as the job lasts.
  lemma OneJobPerDatabase(actions: seq<Action>)
    requires ScheduledRun(INIT, actions)
    ensures Exclusive(Run(INIT, actions))
  {
    RunKeepsInv(INIT, actions);
    InvExcludes(Run(INIT, actions));
  }

  // A finishing job, a recovered one or a purged one removes no entry of another job.
  lemma RemovalSparesSuccessors(w: World, a: Action, k: OperationKey)
    requires a.Work? || a.Recover? || a.GoPurge?
    requires k in w.ops
    requires w.ops[k].jobId != (if a.Work? then a.id else a.ref.jobId)
    ensures k in Step(w, a).ops && Step(w, a).ops[k] == w.ops[k]
  {
  }

  // A job that has ended, was recovered or was purged never again is the reason for a
  // refusal: the record of an ended job is never queued or running, whatever happens next.
  lemma OverStays(w: World, a: Action, id: JobId)
    requires Inv(w) && Scheduled(w, a) && Over(w, id)
    ensures Over(Step(w, a), id)
  {
    match a
    case Work(i, move) =>
      if i in w.workers && i in w.created {
        WorkKeepsOwn(w, Step(w, a), i, WorkNext(w.jobs, w.created[i].0, w.workers[i], move, w.clock), move);
      }
    case Recover(ref, outcome) =>
      if ref in w.recoveries { RecoverSound(w, ref, outcome); }
    case _ =>
  }

  lemma {:induction false} EndedJobNeverBlocks(w: World, actions: seq<Action>, id: JobId, key: OperationKey)
    requires Inv(w) && ScheduledRun(w, actions) && Over(w, id)
    ensures var w' := Run(w, actions);
      Over(w', id) && (Refuses(w'.ops, w'.jobs, key) ==> w'.ops[key].jobId != id)
    decreases |actions|
  {
    if actions != [] {
      StepKeepsInv(w, actions[0]);
      OverStays(w, actions[0], id);
      EndedJobNeverBlocks(Step(w, actions[0]), actions[1..], id, key);
    } else if Refuses(w.ops, w.jobs, key) {
      var ref := w.ops[key];
      assert w.created[ref.jobId].0 == ref;
    }
  }

  // The steps after which a job is over: its worker saved the outcome, recovery saved it, or
  // a purge unlinked its file.
  lemma EndingSteps(w: World, a: Action)
    requires Inv(w)
    ensures a.Work? && a.id in w.workers && w.workers[a.id].Finishing? ==> Over(Step(w, a), a.id)
    ensures a.Recover? && a.ref in w.recoveries && w.recoveries[a.ref].Resolved? ==> Over(Step(w, a), a.ref.jobId)
    ensures a.GoPurge? && a.ref in w.purges && w.purges[a.ref].Unlinking? ==> Over(Step(w, a), a.ref.jobId)
  {
    if a.Work? && a.id in w.workers { assert WorkerSound(w, a.id); }
    if a.Recover? && a.ref in w.recoveries { assert RecoverySound(w, a.ref, w.recoveries[a.ref]); }
    if a.GoPurge? && a.ref in w.purges { assert PurgeSound(w, a.ref, w.purges[a.ref]); }
  }
}
