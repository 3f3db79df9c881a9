// CMS job records, the global operation locks, and the steps that touch them.
//
// Locks are keyed by physical host and database, whichever user created the job. Job ids are
// drawn fresh. Every read, write, rename and unlink of one file is one atomic step.
module CmsJobs {
  import opened Common

  type JobId = nat
  type UserKey = nat

  // JSON.stringify of the pair, which is injective.
  datatype OperationKey = OperationKey(hostKey: string, dbname: string)

  datatype JobStatus = Queued | Running | Succeeded | Failed

  predicate IsTerminal(s: JobStatus) {
    s.Succeeded? || s.Failed?
  }

  // `key` is the operation key the job was created under.
  datatype JobRecord = JobRecord(
    key: OperationKey, status: JobStatus, createdAt: int, finishedAt: Option<int>, cmsUuid: Option<string>)

  // The file of a job: one directory per user, one file per job.
  datatype JobRef = JobRef(userKey: UserKey, jobId: JobId)

  type Ops = map<OperationKey, JobRef>
  type Jobs = map<JobRef, JobRecord>

  predicate Active(jobs: Jobs, ref: JobRef) {
    ref in jobs && !IsTerminal(jobs[ref].status)
  }

  // createJob refuses exactly when the entry's job exists and is not terminal; any other
  // entry is stale and replaced.
  predicate Refuses(ops: Ops, jobs: Jobs, key: OperationKey) {
    key in ops && Active(jobs, ops[key])
  }

  function WithoutJob(ops: Ops, jobId: JobId): Ops {
    map k | k in ops && ops[k].jobId != jobId :: ops[k]
  }

  // The finally block of runJob: only its own entry.
  function Released(ops: Ops, key: OperationKey, jobId: JobId): Ops {
    if key in ops && ops[key].jobId == jobId then ops - {key} else ops
  }

  // purgeExpiredJobs: terminal jobs past retention, and queued or running ones gone stale.
  predicate PurgeRemoves(job: JobRecord, now: int, retentionMs: int, staleMs: int) {
    if IsTerminal(job.status) then
      now - (if job.finishedAt.Some? then job.finishedAt.value else job.createdAt) >= retentionMs
    else now - job.createdAt >= staleMs
  }

  // Where the in-process worker of a job stands.
  datatype Worker =
    | Pending
    | Loaded(job: JobRecord)
    | Executing(job: JobRecord)
    | Finishing(job: JobRecord)
    | Releasing

  // Orphan recovery of one job, and the purge of one file.
  datatype Recovery = Reconciling(job: JobRecord) | Resolved(job: JobRecord) | Unlocking

  datatype Purge = Unlinking(known: bool) | Unlisting

  // `created` is history: the owner and key of every job ever created. `reserved` and
  // `snapshots` are used only by schedules in which createJob or a lock removal is split.
  datatype World = World(
    clock: int,
    ops: Ops,
    jobs: Jobs,
    workers: map<JobId, Worker>,
    recoveries: map<JobRef, Recovery>,
    purges: map<JobRef, Purge>,
    created: map<JobId, (JobRef, OperationKey)>,
    reserved: set<JobId>,
    snapshots: map<JobId, Ops>)

  const INIT: World := World(0, map[], map[], map[], map[], map[], map[], {}, map[])

  datatype WorkerMove = Proceed | ReportUuid(uuid: string) | Finish(status: JobStatus)

  datatype Action =
    | Tick(ms: nat)
    | Crash
    | CreateJob(user: UserKey, id: JobId, key: OperationKey)
    | Work(id: JobId, move: WorkerMove)
    | ListOrphans
    | Recover(ref: JobRef, outcome: JobStatus)
    | VisitForPurge(ref: JobRef, now: int)
    | GoPurge(ref: JobRef)
    // the pieces of schedules the theorem excludes
    | Reserve(user: UserKey, id: JobId, key: OperationKey)
    | SaveReserved(id: JobId)
    | SnapshotOps(id: JobId)
    | WriteSnapshot(id: JobId)

  const RETENTION_MS: int := 24 * 60 * 60 * 1000
  const STALE_RUNNING_MS: int := 13 * 60 * 60 * 1000

  function NewJob(key: OperationKey, now: int): JobRecord {
    JobRecord(key, Queued, now, None, None)
  }

  // createJob once it has decided not to refuse.
  function CreateStep(w: World, ref: JobRef, key: OperationKey): World {
    w.(ops := w.ops[key := ref], jobs := w.jobs[ref := NewJob(key, w.clock)],
       created := w.created[ref.jobId := (ref, key)], workers := w.workers[ref.jobId := Pending])
  }

  // Where a worker stands next, the record it saves, and whether it drops its lock entry.
  datatype WorkerNext = WorkerNext(worker: Option<Worker>, save: Option<JobRecord>, release: bool)

  function WorkNext(jobs: Jobs, ref: JobRef, worker: Worker, move: WorkerMove, now: int): WorkerNext {
    match worker
    case Pending =>
      if ref in jobs then WorkerNext(Some(Loaded(jobs[ref])), None, false) else WorkerNext(None, None, false)
    case Loaded(job) =>
      var running := job.(status := Running);
      WorkerNext(Some(Executing(running)), Some(running), false)
    case Executing(job) =>
      (match move
       case Proceed => WorkerNext(Some(worker), None, false)
       case ReportUuid(uuid) =>
         var known := job.(cmsUuid := Some(uuid));
         WorkerNext(Some(Executing(known)), Some(known), false)
       case Finish(status) =>
         if IsTerminal(status) then WorkerNext(Some(Finishing(job.(status := status))), None, false)
         else WorkerNext(Some(worker), None, false))
    case Finishing(job) =>
      WorkerNext(Some(Releasing), Some(job.(finishedAt := Some(now))), false)
    case Releasing => WorkerNext(None, None, true)
  }

  function Saved(jobs: Jobs, ref: JobRef, save: Option<JobRecord>): Jobs {
    if save.Some? then jobs[ref := save.value] else jobs
  }

  function ApplyWork(w: World, id: JobId, n: WorkerNext): World
    requires id in w.created
  {
    var (ref, key) := w.created[id];
    w.(jobs := Saved(w.jobs, ref, n.save),
       workers := PutOrDrop(w.workers, id, n.worker),
       ops := if n.release then Released(w.ops, key, id) else w.ops)
  }

  // What one step of recovery or purge does to the job file, to its own progress and to the
  // lock entries of the job.
  datatype FileSave = Keep | Replace(job: JobRecord) | Remove

  datatype FileNext = FileNext(save: FileSave, recovery: Option<Recovery>, purge: Option<Purge>, unlist: bool)

  function InJobs(jobs: Jobs, ref: JobRef, save: FileSave): Jobs {
    match save
    case Keep => jobs
    case Replace(job) => jobs[ref := job]
    case Remove => jobs - {ref}
  }

  function ApplyFile(w: World, ref: JobRef, n: FileNext): World {
    w.(jobs := InJobs(w.jobs, ref, n.save),
       recoveries := PutOrDrop(w.recoveries, ref, n.recovery),
       purges := PutOrDrop(w.purges, ref, n.purge),
       ops := if n.unlist then WithoutJob(w.ops, ref.jobId) else w.ops)
  }

  // Orphan recovery: the outcome read from CMS, or 'interrupted', then finalizeOrphanedJob.
  function RecoverNext(recovery: Recovery, purge: Option<Purge>, outcome: JobStatus, now: int): FileNext {
    match recovery
    case Reconciling(job) =>
      if !IsTerminal(outcome) then FileNext(Keep, Some(recovery), purge, false)
      else
        var finishedAt := if job.finishedAt.Some? then job.finishedAt else Some(now);
        FileNext(Keep, Some(Resolved(job.(status := outcome, finishedAt := finishedAt))), purge, false)
    case Resolved(job) => FileNext(Replace(job), Some(Unlocking), purge, false)
    case Unlocking => FileNext(Keep, None, purge, true)
  }

  // A purge reads a file and decides; an unreadable (here: absent) file is unlinked, too, but
  // no lock entry is removed for it.
  function VisitNext(jobs: Jobs, ref: JobRef, now: int): Option<Purge> {
    if ref !in jobs then Some(Unlinking(false))
    else if PurgeRemoves(jobs[ref], now, RETENTION_MS, STALE_RUNNING_MS) then Some(Unlinking(true))
    else None
  }

  function PurgeNext(purge: Purge, recovery: Option<Recovery>): FileNext {
    match purge
    case Unlinking(known) => FileNext(Remove, recovery, if known then Some(Unlisting) else None, false)
    case Unlisting => FileNext(Keep, recovery, None, true)
  }

  function Orphans(jobs: Jobs): map<JobRef, Recovery> {
    map ref | ref in jobs && !IsTerminal(jobs[ref].status) :: Reconciling(jobs[ref])
  }

  function SplitStep(w: World, a: Action): World
    requires a.Reserve? || a.SaveReserved? || a.SnapshotOps? || a.WriteSnapshot?
  {
    match a
    case Reserve(user, id, key) =>
      if id in w.created || Refuses(w.ops, w.jobs, key) then w
      else
        var ref := JobRef(user, id);
        w.(ops := w.ops[key := ref], created := w.created[id := (ref, key)], reserved := w.reserved + {id})
    case SaveReserved(id) =>
      if id !in w.reserved || id !in w.created then w
      else
        var (ref, key) := w.created[id];
        w.(jobs := w.jobs[ref := NewJob(key, w.clock)], reserved := w.reserved - {id},
           workers := w.workers[id := Pending])
    case SnapshotOps(id) => w.(snapshots := w.snapshots[id := w.ops])
    case WriteSnapshot(id) =>
      // a table without an entry of the job is not written back
      if id !in w.snapshots then w
      else
        var ops := WithoutJob(w.snapshots[id], id);
        w.(ops := if ops == w.snapshots[id] then w.ops else ops, snapshots := w.snapshots - {id})
  }

  // A disabled action changes nothing.
  function Step(w: World, a: Action): World {
    match a
    case Tick(ms) => w.(clock := w.clock + ms)
    case Crash => w.(workers := map[], recoveries := map[], purges := map[], reserved := {}, snapshots := map[])
    case CreateJob(user, id, key) =>
      if id in w.created || Refuses(w.ops, w.jobs, key) then w else CreateStep(w, JobRef(user, id), key)
    case Work(id, move) =>
      if id !in w.workers || id !in w.created then w
      else ApplyWork(w, id, WorkNext(w.jobs, w.created[id].0, w.workers[id], move, w.clock))
    case ListOrphans => w.(recoveries := Orphans(w.jobs))
    case Recover(ref, outcome) =>
      if ref !in w.recoveries then w
      else ApplyFile(w, ref, RecoverNext(w.recoveries[ref], Lookup(w.purges, ref), outcome, w.clock))
    case VisitForPurge(ref, now) =>
      // a listing names files that were written
      if ref in w.purges || now > w.clock || ref.jobId !in w.created || w.created[ref.jobId].0 != ref then w
      else ApplyFile(w, ref, FileNext(Keep, Lookup(w.recoveries, ref), VisitNext(w.jobs, ref, now), false))
    case GoPurge(ref) =>
      if ref !in w.purges then w
      else ApplyFile(w, ref, PurgeNext(w.purges[ref], Lookup(w.recoveries, ref)))
    case Reserve(_, _, _) => SplitStep(w, a)
    case SaveReserved(_) => SplitStep(w, a)
    case SnapshotOps(_) => SplitStep(w, a)
    case WriteSnapshot(_) => SplitStep(w, a)
  }

  function Run(w: World, actions: seq<Action>): World
    decreases |actions|
  {
    if actions == [] then w else Run(Step(w, actions[0]), actions[1..])
  }
}
