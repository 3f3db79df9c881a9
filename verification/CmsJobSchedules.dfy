// When exactly the steps that OneJobPerDatabase excludes break the invariant behind it.
module CmsJobSchedules {
  import opened Common
  import opened CmsJobs
  import opened CmsJobExclusion

  // Listing orphans is safe exactly when no queued or running job has a worker that is still at it.
  lemma ListOrphansKeepsInvIff(w: World, w': World)
    requires Inv(w) && w' == Step(w, ListOrphans)
    ensures Inv(w') <==> forall ref :: Active(w.jobs, ref) ==> !LiveWorker(w, ref.jobId)
  {
    if forall ref :: Active(w.jobs, ref) ==> !LiveWorker(w, ref.jobId) {
      ListingSound(w, w');
    } else {
      var ref :| Active(w.jobs, ref) && LiveWorker(w, ref.jobId);
      assert ref in w'.recoveries && !RecoverySound(w', ref, w'.recoveries[ref]);
    }
  }

  lemma ListingSound(w: World, w': World)
    requires Inv(w) && w' == Step(w, ListOrphans)
    requires forall ref :: Active(w.jobs, ref) ==> !LiveWorker(w, ref.jobId)
    ensures Inv(w')
  {
    forall id | id in w'.workers ensures WorkerSound(w', id) { assert WorkerSound(w, id); }
    forall r | r in w'.purges ensures PurgeSound(w', r, w'.purges[r]) { assert PurgeSound(w, r, w.purges[r]); }
  }

  // A purge that looks at a job with a live worker.
  ghost predicate VisitsLive(w: World, ref: JobRef, now: int) {
    LiveWorker(w, ref.jobId) && ref.jobId in w.created && w.created[ref.jobId].0 == ref && now <= w.clock
  }

  // Looking at a job during a purge is safe exactly when it has no live worker or is younger than
  // the stale threshold.
  lemma VisitKeepsInvIff(w: World, ref: JobRef, now: int, w': World)
    requires Inv(w) && w' == Step(w, VisitForPurge(ref, now))
    ensures Inv(w') <==>
      (VisitsLive(w, ref, now) ==> ref in w.jobs && now - w.jobs[ref].createdAt < STALE_RUNNING_MS)
  {
    if ref.jobId in w.workers { assert WorkerSound(w, ref.jobId); }
    if ref in w.purges { assert PurgeSound(w, ref, w.purges[ref]); }
    if VisitsLive(w, ref, now) && now - w.jobs[ref].createdAt >= STALE_RUNNING_MS {
      assert ref in w'.purges && !PurgeSound(w', ref, w'.purges[ref]);
    } else if w' != w {
      VisitIsSound(w, w', ref, now);
    }
  }

  lemma VisitIsSound(w: World, w': World, ref: JobRef, now: int)
    requires Inv(w) && w' == Step(w, VisitForPurge(ref, now)) && w' != w
    requires LiveWorker(w, ref.jobId) ==>
      ref in w.jobs && !PurgeRemoves(w.jobs[ref], now, RETENTION_MS, STALE_RUNNING_MS)
    ensures Inv(w')
  {
    var n := FileNext(Keep, Lookup(w.recoveries, ref), VisitNext(w.jobs, ref, now), false);
    assert n.purge.None? ==> ApplyFile(w, ref, n) == w;
    if ref in w.recoveries { assert RecoverySound(w, ref, w.recoveries[ref]); }
    ApplyFileKeepsInv(w, w', ref, n);
  }

  // The record of a live worker's job outlasts such a look and the unlink after it exactly when
  // the job is younger than the stale threshold.
  lemma PurgeSparesLiveIff(w: World, ref: JobRef, now: int, w': World)
    requires Inv(w) && VisitsLive(w, ref, now) && w' == Step(Step(w, VisitForPurge(ref, now)), GoPurge(ref))
    ensures ref in w.jobs
    ensures Active(w'.jobs, ref) <==> now - w.jobs[ref].createdAt < STALE_RUNNING_MS
  {
    assert WorkerSound(w, ref.jobId);
    LiveIsLeftAlone(w);
  }

  lemma LiveIsLeftAlone(w: World)
    requires Inv(w)
    ensures forall ref :: ref in w.purges || ref in w.recoveries ==> !LiveWorker(w, ref.jobId)
  {
    forall ref | ref in w.purges ensures !LiveWorker(w, ref.jobId) { assert PurgeSound(w, ref, w.purges[ref]); }
    forall ref | ref in w.recoveries ensures !LiveWorker(w, ref.jobId) {
      assert RecoverySound(w, ref, w.recoveries[ref]);
    }
  }

  ghost predicate EntriesKnown(w: World) {
    forall k :: k in w.ops ==> w.ops[k].jobId in w.created
  }

  lemma ScheduledStepGrows(w: World, a: Action)
    requires Scheduled(w, a)
    ensures forall id :: id in w.created ==> id in Step(w, a).created && Step(w, a).created[id] == w.created[id]
    ensures forall id :: id in Step(w, a).snapshots ==> id in w.snapshots && Step(w, a).snapshots[id] == w.snapshots[id]
  {
  }

  // What a scheduled run leaves as it was: who is known, who is over, and the snapshots.
  lemma {:induction false} RunGrows(w: World, actions: seq<Action>, id: JobId)
    requires Inv(w) && ScheduledRun(w, actions)
    ensures var w' := Run(w, actions);
      && (id in w.created ==> id in w'.created && w'.created[id] == w.created[id])
      && (id in w'.snapshots ==> id in w.snapshots && w'.snapshots[id] == w.snapshots[id])
      && (Over(w, id) ==> Over(w', id))
    decreases |actions|
  {
    if actions != [] {
      var a := actions[0];
      ScheduledStepGrows(w, a);
      StepKeepsInv(w, a);
      if Over(w, id) { OverStays(w, a, id); }
      RunGrows(Step(w, a), actions[1..], id);
    }
  }

  // A known job that is queued or running after a run was so before.
  lemma ActiveBefore(w: World, actions: seq<Action>, w': World, ref: JobRef)
    requires Inv(w) && ScheduledRun(w, actions) && w' == Run(w, actions)
    requires Active(w'.jobs, ref) && ref.jobId in w.created
    ensures Active(w.jobs, ref) && w.jobs[ref].key == w'.jobs[ref].key
  {
    RunKeepsInv(w, actions);
    RunGrows(w, actions, ref.jobId);
    if ref.jobId in w.workers { assert WorkerSound(w, ref.jobId); }
  }

  lemma StepKeepsKnown(w: World, a: Action)
    requires EntriesKnown(w) && Scheduled(w, a)
    ensures EntriesKnown(Step(w, a))
  {
  }

  lemma {:induction false} RunKeepsKnown(w: World, actions: seq<Action>)
    requires EntriesKnown(w) && ScheduledRun(w, actions)
    ensures EntriesKnown(Run(w, actions))
    decreases |actions|
  {
    if actions != [] {
      StepKeepsKnown(w, actions[0]);
      RunKeepsKnown(Step(w, actions[0]), actions[1..]);
    }
  }

  // The old table has a queued or running job's lock exactly when it knows the job.
  lemma OldTableKnows(w: World, between: seq<Action>, w1: World, id: JobId, ops: Ops)
    requires Inv(w) && EntriesKnown(w) && ScheduledRun(w, between) && w1 == Run(w, between)
    requires Over(w1, id) && ops == WithoutJob(w.ops, id)
    ensures forall ref :: Active(w1.jobs, ref) ==>
      (ref.jobId in w.created <==> w1.jobs[ref].key in ops && ops[w1.jobs[ref].key] == ref)
  {
    RunKeepsInv(w, between);
    forall ref | Active(w1.jobs, ref)
      ensures ref.jobId in w.created <==> w1.jobs[ref].key in ops && ops[w1.jobs[ref].key] == ref
    {
      assert w1.created[ref.jobId].0 == ref && ref.jobId != id;
      if ref.jobId in w.created { ActiveBefore(w, between, w1, ref); }
    }
  }

  lemma OldTableReturns(w: World, id: JobId, between: seq<Action>, w1: World, w2: World)
    requires Inv(w) && id in w.snapshots && w.snapshots[id] == w.ops && ScheduledRun(w, between)
    requires w1 == Run(w, between) && id in w1.snapshots && w2 == Step(w1, WriteSnapshot(id))
    ensures var ops := WithoutJob(w.ops, id);
      Inv(w1) && w2 == w1.(ops := if ops == w.ops then w1.ops else ops, snapshots := w2.snapshots)
  {
    RunKeepsInv(w, between);
    RunGrows(w, between, id);
  }

  lemma OldTableIff(w: World, id: JobId, between: seq<Action>, w1: World, w2: World)
    requires Inv(w) && EntriesKnown(w) && id in w.snapshots && w.snapshots[id] == w.ops && ScheduledRun(w, between)
    requires w1 == Run(w, between) && id in w1.snapshots && Over(w1, id) && w2 == Step(w1, WriteSnapshot(id))
    ensures Inv(w2) <==>
      WithoutJob(w.ops, id) == w.ops || forall ref :: Active(w1.jobs, ref) ==> ref.jobId in w.created
  {
    OldTableReturns(w, id, between, w1, w2);
    if WithoutJob(w.ops, id) == w.ops {
      OnlyOpsChange(w1, w2);
    } else {
      OldTableKnows(w, between, w1, id, w2.ops);
      LocksDecide(w1, w2);
    }
  }

  // A lock removal that reads the table, and writes it back without its own ended job after any
  // scheduled run, is safe exactly when there was no entry to remove or every job that is then
  // queued or running was created before the table was read.
  lemma WriteSnapshotKeepsInvIff(
    before: seq<Action>, w: World, id: JobId, w0: World, between: seq<Action>, w1: World, w2: World)
    requires ScheduledRun(INIT, before) && w == Run(INIT, before) && w0 == Step(w, SnapshotOps(id))
    requires ScheduledRun(w0, between) && w1 == Run(w0, between) && id in w1.snapshots && Over(w1, id)
    requires w2 == Step(w1, WriteSnapshot(id))
    ensures Inv(w2) <==>
      WithoutJob(w.ops, id) == w.ops || forall ref :: Active(w1.jobs, ref) ==> ref.jobId in w.created
  {
    SnapshotTaken(before, w, id, w0);
    OldTableIff(w0, id, between, w1, w2);
  }

  lemma SnapshotTaken(before: seq<Action>, w: World, id: JobId, w0: World)
    requires ScheduledRun(INIT, before) && w == Run(INIT, before) && w0 == Step(w, SnapshotOps(id))
    ensures Inv(w0) && EntriesKnown(w0) && id in w0.snapshots && w0.snapshots[id] == w0.ops == w.ops
    ensures w0.created == w.created
  {
    RunKeepsInv(INIT, before);
    RunKeepsKnown(INIT, before);
    OnlyOpsChange(w, w0);
  }

  // The lock table matters to the invariant only through the locks that are held.
  lemma OnlyOpsChange(w: World, w': World)
    requires Inv(w) && w' == w.(ops := w'.ops, snapshots := w'.snapshots, reserved := w'.reserved)
    ensures Inv(w') <==> LocksHeld(w')
  {
    forall id | id in w'.workers ensures WorkerSound(w', id) { assert WorkerSound(w, id); }
    forall r | r in w'.recoveries ensures RecoverySound(w', r, w'.recoveries[r]) {
      assert RecoverySound(w, r, w.recoveries[r]);
    }
    forall r | r in w'.purges ensures PurgeSound(w', r, w'.purges[r]) { assert PurgeSound(w, r, w.purges[r]); }
  }

  lemma LocksDecide(w: World, w': World)
    requires Inv(w) && w' == w.(ops := w'.ops, snapshots := w'.snapshots)
    ensures Inv(w') <==>
      forall ref :: Active(w.jobs, ref) ==> w.jobs[ref].key in w'.ops && w'.ops[w.jobs[ref].key] == ref
  {
    OnlyOpsChange(w, w');
  }

  // Two queued or running jobs on one database.
  ghost predicate TwoJobs(w: World, r: JobRef, s: JobRef) {
    r != s && Active(w.jobs, r) && Active(w.jobs, s) && w.jobs[r].key == w.jobs[s].key
  }

  lemma ReserveKeepsInv(w: World, user: UserKey, id: JobId, key: OperationKey)
    requires Inv(w) && id !in w.created && !Refuses(w.ops, w.jobs, key)
    ensures Inv(Step(w, Reserve(user, id, key))) && Over(Step(w, Reserve(user, id, key)), id)
  {
    var ref := JobRef(user, id);
    var w' := Step(w, Reserve(user, id, key));
    OthersSound(w, w', id);
    forall r | r in w'.recoveries ensures r.jobId != id { assert RecoverySound(w, r, w.recoveries[r]); }
    forall r | r in w'.purges ensures r.jobId != id { assert PurgeSound(w, r, w.purges[r]); }
    forall i | i in w.workers ensures i in w.created { assert WorkerSound(w, i); }
  }

  // A job created for the key between two states, and not over.
  ghost predicate CreatedBetween(w1: World, w2: World, key: OperationKey, s: JobRef) {
    s.jobId !in w1.created && s.jobId in w2.created && w2.created[s.jobId] == (s, key) && !Over(w2, s.jobId)
  }

  // When createJob's entry and record are written apart, with any scheduled run between them,
  // saving the record leaves two queued or running jobs on the database exactly when another
  // createJob succeeded for it in between and its job has not ended.
  lemma SplitCreateAdmitsTwoIff(
    w: World, user: UserKey, id: JobId, key: OperationKey, between: seq<Action>, w1: World, w2: World)
    requires Inv(w) && id !in w.created && !Refuses(w.ops, w.jobs, key) && w1 == Step(w, Reserve(user, id, key))
    requires ScheduledRun(w1, between) && w2 == Run(w1, between) && id in w2.reserved
    ensures (exists s :: TwoJobs(Step(w2, SaveReserved(id)), JobRef(user, id), s)) <==>
      exists s :: CreatedBetween(w1, w2, key, s)
  {
    var ref, w3 := JobRef(user, id), Step(w2, SaveReserved(id));
    ReserveKeepsInv(w, user, id, key);
    RunKeepsInv(w1, between);
    RunGrows(w1, between, id);
    SavedBesides(w2, id, ref, key, w3);
    forall s ensures s != ref && Active(w2.jobs, s) && w2.jobs[s].key == key <==> CreatedBetween(w1, w2, key, s) {
      StillActive(w1, between, w2, ref, key, s);
    }
  }

  lemma SavedBesides(w: World, id: JobId, ref: JobRef, key: OperationKey, w': World)
    requires id in w.reserved && id in w.created && w.created[id] == (ref, key) && w' == Step(w, SaveReserved(id))
    ensures forall s :: TwoJobs(w', ref, s) <==> s != ref && Active(w.jobs, s) && w.jobs[s].key == key
  {
  }

  // No job known at w1 has the key, but ref, which is over.
  lemma StillActive(w1: World, between: seq<Action>, w2: World, ref: JobRef, key: OperationKey, s: JobRef)
    requires Inv(w1) && ScheduledRun(w1, between) && w2 == Run(w1, between) && Inv(w2)
    requires key in w1.ops && w1.ops[key] == ref && ref.jobId in w1.created && Over(w2, ref.jobId)
    requires ref.jobId in w2.created && w2.created[ref.jobId] == (ref, key)
    ensures s != ref && Active(w2.jobs, s) && w2.jobs[s].key == key <==> CreatedBetween(w1, w2, key, s)
  {
    if Active(w2.jobs, s) && s.jobId in w1.created { ActiveBefore(w1, between, w2, s); }
    if CreatedBetween(w1, w2, key, s) && s.jobId in w2.workers { assert WorkerSound(w2, s.jobId); }
  }
}
