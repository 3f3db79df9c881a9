# Verification of the concurrent and algorithmic core

A Dafny 4.11 model of the parts of the CUBRID web manager whose correctness rests on
interleaving, identity checks, time bounds or careful text handling, with proofs of what they
promise. `dafny verify dfyconfig.toml` checks the whole project.

Protocols are state machines: a total function `Step` on a world (a disabled action changes
nothing), `Run` on any sequence of actions, and theorems over all runs. Beside each machine a
class has the fields and methods of the service, in the source's own imperative form, and its
methods are proved equal to the machine's steps or to a specification function.

- **Refresh tokens** (`Refresh*.dfy`). The directory of token files is a map with atomic
  rename, write and unlink; calls advance one file operation at a time, any number at once,
  with crashes and purges in between. `RefreshTokens` is the machine, `RefreshInvariants` and
  `RefreshFamilies` prove rotation linear, `RefreshReuse` reuse detection and family
  revocation, `RefreshSurvival` when a family outlives its revocation, `RefreshGc` when garbage
  collection can be observed, `RefreshRestores` what brings a purged file back, `RefreshOwners`
  whose a token is, `RefreshLifetimes` how long it lasts, `RefreshTokenServices` ties the machine
  to the service's methods.
- **CMS job locks** (`CmsJob*.dfy`). Lock table, job files, workers, recovery and purge.
  `CmsJobExclusion` proves one job per database, `CmsJobSchedules` when exactly each schedule it
  excludes breaks that, `CmsJobOutcomes` what becomes of a job's record.
- **Promise queues and statdump leases** (`PromiseQueues.dfy`, `StatdumpLeases.dfy`). Both
  queues refine one FIFO mutex; leases rely on object identity, modelled as a number.
- **CMS token activity** (`TokenActivity.dfy`, `TokenActiveTime.dfy`). The evicting map
  simulated against one that never evicts, and the disconnect barrier.
- **The INI reader** (`ConfText*.dfy`, `Utf8.dfy`, `LineFolds.dfy`). One pass against two phases, a
  round trip, and what each line of a text contributes.
- **Host groups** (`HostGroup*.dfy`). The invariant of a user's hosts over all operations.
- **Smaller algorithms**: version precedence and release choice (`Versions.dfy`,
  `UpdateCheck.dfy`), the polling loop (`PollJob.dfy`), volume path keys (`VolumePaths.dfy`, `VolumePlaces.dfy`),
  the token blacklist (`TokenBlacklist.dfy`). `Common.dfy` and `Strings.dfy` are vocabulary.

## Assumptions

- SHA-256 is injective (a token stands for its file name); tokens, nonces, families and uuids
  are fresh; the clock is monotone; a file is written, read, renamed or unlinked atomically, a
  read fails only for an absent file, unlinking and renaming back succeed.
- The answer of readdir is arbitrary for revokeFamily, any of the files there are for the purge,
  and all consumed records there are. `RevokeKillsFamily` assumes that it names every file,
  `PurgeIsUnobservableUnlessRestored` that no nonce is drawn twice for a token.
- Job exclusion assumes what `Scheduled` says: createJob's lock entry and record are one step,
  each lock removal is one step, orphans are listed before any job is created, and no worker
  outlives the stale threshold while a purge looks. A run against each of these hypotheses is in
  `CmsJobWitnesses`, its exact condition in `CmsJobSchedules`.
- No request of any user in the process has named `__proto__` as a group, except where
  `HostGroupRuns` carries the names that such a request adds to Object.prototype.
- One database key of the statdump leases is a world of its own; the two maps of the service
  are proved to be one such world for each key.

## What does not hold of the code

- Rotation is not linear when the consumed record cannot be written after the new pair was
  issued: the rollback restores the old token beside the new one (`FailedCommitLeavesTwoTokens`,
  exact condition `FailedCommitLinearIff`).
- A rotation in flight while its family is revoked survives (`RotationInFlightEscapesRevocation`,
  exact condition `RevokedForGoodIff`).
- A purge that unlinks a file some time after reading it can remove a token that a rollback has
  just restored (`SplitPurgeIsObservable`, exact conditions `UnlinkUnobservedIff`, `ComesBackIff`).
- Eviction of token activity is safe only for answers within the retention time
  (`RetentionIsTheExactBound`); the comment in the source makes no such restriction.
- Updating a disconnected host's address, port, id or password, and removing another host record
  with the same token, reopen the way for requests issued before the disconnect (exact condition
  `EarlierRequestReopensIff`).
- createJob's entry and record written apart, a lock removal that writes back an old table, orphans
  listed late and a worker past the stale threshold each admit two jobs or workers on one database
  (exact conditions `SplitCreateAdmitsTwoIff`, `WriteSnapshotKeepsInvIff`,
  `ListOrphansKeepsInvIff`, `VisitKeepsInvIff`).
- The maps of a user are plain objects, so names inherited from Object.prototype are found in
  them: `constructor` is saved as a default host, takes a moved host out of the user, lets a host
  be added past the limit (`InheritedDefaultIsSaved`, `InheritedTargetLosesHost`, exact conditions
  `StepKeepsInvIff`, `MoveConservesHostsIff`). A request that names `__proto__` as a group adds
  `hosts`, `defaultHostUid` or `name` to these for the whole process (`AddedDefaultIsSaved`, exact
  condition `UpdateGroupKeepsInvIff`).
- The reserved group can be renamed, by markGroupHa (`UngroupedRenamedIff`); its comment says it
  cannot.
- A failed stop of the sweeper can leave its watcher running for good
  (`FailedSweepOrphansWatcher`, exact condition `FailedSweepOrphansIff`); the code accepts this, so
  as not to retry forever.
- The key of a UNC path is not a normal form (`IdempotentUnlessUnc`).

## Model

| member | source | states |
|---|---|---|
| RefreshInvariants.CommitsAtMostOnce | apps/api-server/src/token/refresh-token.service.ts:107-163 | over every run, whatever fails or crashes: no token's rotation commits twice, and a committed token is never an active file again |
| RefreshInvariants.StepKeepsInv | apps/api-server/src/token/refresh-token.service.ts:76-196 | every single file step of every call keeps the invariant: a token moved aside, being written or committed is held by one call only, and every copied record is the one issued |
| RefreshInvariants.RunKeepsInv | apps/api-server/src/auth/auth.service.ts:51-70 | the same over whole runs of any number of interleaved calls |
| RefreshFamilies.RotationIsLinear | apps/api-server/src/auth/auth.service.ts:63-70 | over every run in which no consumed-record write fails after the pair was issued: active tokens plus rotations still to write their successor are at most one per family |
| RefreshFamilies.StepKeepsFamilies | apps/api-server/src/token/refresh-token.service.ts:107-168 | each such step keeps it, for every family at once |
| RefreshFamilies.FailedCommitLinearIff | apps/api-server/src/token/refresh-token.service.ts:165-168 | the excluded failure keeps the family linear if and only if the moved-aside file is gone or the family has no token and no rotation left |
| RefreshReuse.ReuseIsDetected | apps/api-server/src/token/refresh-token.service.ts:116-128 | presenting a committed token, in any run: never a new pair; the answer is 'reused', or 'invalid' once it has expired |
| RefreshReuse.RunKeepsConsumed | apps/api-server/src/token/refresh-token.service.ts:198-256 | a committed token keeps its consumed record until the token has expired, purges included |
| RefreshReuse.RevokeKillsFamily | apps/api-server/src/token/refresh-token.service.ts:174-196 | when the listing is complete and no rotation of the family is in flight until the loop ends, revokeFamily leaves the family without any active token |
| RefreshReuse.RunKeepsDead | apps/api-server/src/auth/auth.service.ts:51-70 | such a family stays dead in every later run |
| RefreshReuse.DeadFamilyNeverRotates | apps/api-server/src/auth/auth.service.ts:63-66 | in no later run is a token of that family created or a refresh of it answered with a new pair |
| RefreshSurvival.RevokedForGoodIff | apps/api-server/src/token/refresh-token.service.ts:174-196 | when the loop of revokeFamily has ended, some later run creates a token of the family if and only if it survives: an unexpired active file of it is left, or a call is about to issue, has just read an unexpired record, or has its unexpired moved-aside file still there |
| RefreshSurvival.SurvivesIff | apps/api-server/src/auth/auth.service.ts:63-69 | the same at any moment of any run |
| RefreshSurvival.BarrenForGood | apps/api-server/src/auth/auth.service.ts:51-70 | a family that does not survive never does again, in any run |
| RefreshGc.PurgeIsUnobservable | apps/api-server/src/token/refresh-token.service.ts:198-256 | however purges interleave, reading and unlinking in separate steps: as long as no unlink hits a file that is there and unexpired, every call of every run is answered as in the run with all purges left out |
| RefreshGc.NothingComesBackIsHarmless | apps/api-server/src/token/refresh-token.service.ts:213-226 | it is enough that no file a purge found missing comes back before the purge unlinks it |
| RefreshGc.HarmfulDropIsObserved | apps/api-server/src/token/refresh-token.service.ts:213-226 | the converse: an unlink that hits the active file of an unexpired token makes the next find answer nothing, where without purges it answers the token |
| RefreshGc.UnlinkUnobservedIff | apps/api-server/src/token/refresh-token.service.ts:213-226 | the unlink of an active file goes unobserved in every continuation if and only if the file is gone by then or its token has expired |
| RefreshOwners.LoginOwnsItsFamily | apps/api-server/src/token/refresh-token.service.ts:76-90 | from a login of user u that draws family f, along every run: every record of f, on disk, consumed or only prepared, names u; and the login's token is u's, of f, expiring fourteen days after it |
| RefreshOwners.EveryRecordWasLoggedIn | apps/api-server/src/auth/auth.service.ts:102-110 | in every run no record is of a user and family that no login paired |
| RefreshOwners.RefreshKeepsTheUser | apps/api-server/src/auth/auth.service.ts:63-66 | a refresh answered with a new token, in any run, gives one of the user and family of the token presented |
| RefreshOwners.EveryFileLivesFourteenDays | apps/api-server/src/token/refresh-token.service.ts:79-85 | every file of every run expires fourteen days after it was made, and is not from the future |
| RefreshLifetimes.TokenLasts | apps/api-server/src/token/refresh-token.service.ts:92-105 | an unexpired active token that nobody is about to unlink keeps its file along every run, whatever crashes, is looked up, purged or revoked elsewhere, until a call presents it, logs it out or revokes its family |
| RefreshLifetimes.PresentedTokenIsSigned | apps/api-server/src/token/refresh-token.service.ts:107-152 | presented then, it is moved aside and goes on to a new pair |
| RefreshLifetimes.LogoutIsFinal | apps/api-server/src/token/refresh-token.service.ts:170-172 | logging out an active token is final: in every later run it has no active file, no call holds it, and looking it up finds nothing |
| RefreshLifetimes.VisitSparesUnexpired | apps/api-server/src/token/refresh-token.service.ts:213-247 | a purge's visit unlinks a file or a consumed record if and only if it had expired by the time the purge goes by |
| RefreshRestores.ComesBackIff | apps/api-server/src/token/refresh-token.service.ts:165-168 | a step brings back a file that a purge has listed and found missing if and only if it is the rollback of a rotation whose moved-aside file is still there, and the missing file is that token's active one |
| RefreshRestores.StepKeepsAllSettled | apps/api-server/src/token/refresh-token.service.ts:76-196 | every step keeps what this rests on: with fresh nonces no call is ever still to make a file for the first time that is there or was listed |
| RefreshRestores.PurgeIsUnobservableUnlessRestored | apps/api-server/src/token/refresh-token.service.ts:198-256 | with fresh nonces, every call of every run is answered as if no purge had run, unless a rollback restores a token between a purge's failed read of its file and the unlink |
| RefreshWitnesses.FailedCommitLeavesTwoTokens | apps/api-server/src/auth/auth.service.ts:66-69 | a reachable state with two usable tokens of one family, after the consumed-record write failed |
| RefreshWitnesses.RotationInFlightEscapesRevocation | apps/api-server/src/token/refresh-token.service.ts:174-196 | a reachable state in which a replay was caught, the family revoked, and a rotation in flight still handed out a new token of it |
| RefreshWitnesses.SplitPurgeIsObservable | apps/api-server/src/token/refresh-token.service.ts:216-230 | a run whose split purge removes a live token, so that find answers differently from the run without the purge |
| RefreshTokenServices.RefreshTokenService.Create | apps/api-server/src/token/refresh-token.service.ts:76-90 | writes exactly one file, the new token's, with that user, that family, and fourteen days from now |
| RefreshTokenServices.RefreshTokenService.FindRecord | apps/api-server/src/token/refresh-token.service.ts:92-105 | finds a token if and only if its file is there and not expired; unlinks it otherwise |
| RefreshTokenServices.RefreshTokenService.ConsumeForRotation | apps/api-server/src/token/refresh-token.service.ts:107-152 | result and directory of the four cases: moved aside, expired, reused, invalid |
| RefreshTokenServices.RefreshTokenService.CommitConsume | apps/api-server/src/token/refresh-token.service.ts:154-163 | records the consumption, then drops the moved-aside file |
| RefreshTokenServices.RefreshTokenService.RevokeFamily | apps/api-server/src/token/refresh-token.service.ts:174-196 | of the listed files, exactly those of other families are kept |
| RefreshTokenServices.RefreshTokenService.PurgeFiles | apps/api-server/src/token/refresh-token.service.ts:209-227 | of the listed files, exactly the unexpired ones are kept, and the count is the number removed |
| RefreshTokenServices.RefreshTokenService.PurgeConsumed | apps/api-server/src/token/refresh-token.service.ts:229-249 | the same for consumed records |
| RefreshTokenServices.RefreshTokenService.PurgeExpired | apps/api-server/src/token/refresh-token.service.ts:198-256 | both, with the total removed |
| RefreshTokenServices.AuthService.Refresh | apps/api-server/src/auth/auth.service.ts:51-70 | outcome and disk of one refresh; an unexpired token gives a pair of its own user and family when nothing fails, and is back when nothing was issued |
| RefreshTokenServices.SoloRefreshIsRefresh | apps/api-server/src/auth/auth.service.ts:51-70 | the state machine's call, run uninterrupted, ends with exactly that outcome and disk |
| CmsJobExclusion.OneJobPerDatabase | apps/api-server/src/cms-job/cms-job.service.ts:218-243 | over every scheduled run: at most one queued or running job and one worker per physical host and database, and createJob refuses that database for as long as the job lasts |
| CmsJobExclusion.StepKeepsInv | apps/api-server/src/cms-job/cms-job.service.ts:474-535 | create, worker, crash, recovery and purge steps each keep the lock table, the job files and the workers in agreement |
| CmsJobExclusion.VisitSound | apps/api-server/src/cms-job/cms-job.store.ts:241-314 | while no worker has outlived the stale threshold, no purge decides to remove the file of a job still being worked on |
| CmsJobExclusion.RemovalSparesSuccessors | apps/api-server/src/cms-job/cms-job.service.ts:526-533 | a finishing, recovered or purged job removes no lock entry of another job |
| CmsJobExclusion.EndedJobNeverBlocks | apps/api-server/src/cms-job/cms-job.store.ts:217-221 | once a job has ended, was recovered or was purged, no later refusal in any run is on its account |
| CmsJobExclusion.EndingSteps | apps/api-server/src/cms-job/cms-job.service.ts:524-526 | the steps that end a job: saving the outcome, saving the recovered one, unlinking its file |
| CmsJobWitnesses.SplitCreateAdmitsTwoJobs | apps/api-server/src/cms-job/cms-job.service.ts:240-254 | lock entry and record written apart let two users' jobs run on one database |
| CmsJobWitnesses.LostUpdateAdmitsTwoJobs | apps/api-server/src/cms-job/cms-job.store.ts:54-66 | a lock removal by startup recovery that reads and writes apart, with a createJob in between, lets two jobs run on one database |
| CmsJobWitnesses.LateOrphanListingAdmitsTwoWorkers | apps/api-server/src/cms-job/cms-job.service.ts:108-145 | orphans listed after a job was created let two workers run on one database |
| CmsJobWitnesses.StalePurgeAdmitsTwoWorkers | apps/api-server/src/cms-job/cms-job.store.ts:241-314 | a worker older than the stale threshold loses its record, and a second one starts |
| CmsJobSchedules.SplitCreateAdmitsTwoIff | apps/api-server/src/cms-job/cms-job.service.ts:240-254 | with any scheduled run between createJob's entry and its record, saving the record leaves two queued or running jobs on the database if and only if another createJob succeeded for it in between and its job has not ended |
| CmsJobSchedules.WriteSnapshotKeepsInvIff | apps/api-server/src/cms-job/cms-job.store.ts:54-66 | a lock removal that reads the table and writes it back after any scheduled run keeps the invariant if and only if it had no entry to remove or every job then queued or running was created before the table was read |
| CmsJobSchedules.ListOrphansKeepsInvIff | apps/api-server/src/cms-job/cms-job.service.ts:108-145 | listing orphans keeps the invariant if and only if no queued or running job has a worker still at it |
| CmsJobSchedules.VisitKeepsInvIff | apps/api-server/src/cms-job/cms-job.store.ts:241-314 | a purge's look at a job keeps the invariant if and only if the job has no live worker or is younger than the stale threshold |
| CmsJobSchedules.PurgeSparesLiveIff | apps/api-server/src/cms-job/cms-job.store.ts:241-314 | the record of a job with a live worker outlasts a purge's look and unlink if and only if the job is younger than the stale threshold |
| CmsJobOutcomes.KeptByPurgeIff | apps/api-server/src/cms-job/cms-job.store.ts:291-302 | whether a purge leaves a job, case by case: an ended one until the retention time after its finish, or after its creation if no finish is recorded; a queued or running one until it is stale |
| CmsJobOutcomes.FinishedOutcomeStays | apps/api-server/src/cms-job/cms-job.service.ts:474-535 | a worker that finishes saves that status and finish time under the job's key, and no scheduled run whose purges look less than 24 hours after it loses or changes the record |
| CmsJobOutcomes.RunKeepsSettled | apps/api-server/src/cms-job/cms-job.store.ts:291-302 | the same for any saved outcome that neither recovery nor a purge is about to change |
| CmsJobOutcomes.OrphanIsRecovered | apps/api-server/src/cms-job/cms-job.service.ts:108-145 | a job left queued or running by a crash is listed, and its recovery saves the outcome it reaches, with a finish time, and frees the database |
| CmsJobOutcomes.CreatedJobRuns | apps/api-server/src/cms-job/cms-job.service.ts:245-254 | a created job is queued from now on under its key, and its worker sets it running |
| CmsJobServices.CmsJobStore.RemoveJobIdFromGlobalOperations | apps/api-server/src/cms-job/cms-job.store.ts:54-66 | removes all entries of the job and no other |
| CmsJobServices.CmsJobStore.FinalizeOrphanedJob | apps/api-server/src/cms-job/cms-job.store.ts:217-221 | the outcome is saved, no entry names the job, and a terminal outcome blocks no database |
| CmsJobServices.CmsJobStore.PurgeFile | apps/api-server/src/cms-job/cms-job.store.ts:241-314 | one file: an expired job loses its file and all its lock entries, any other stays |
| CmsJobServices.VisitedFile | apps/api-server/src/cms-job/cms-job.store.ts:241-314 | that is the machine's visit, unlink and unlisting of the file |
| CmsJobServices.CmsJobStore.PurgeExpiredJobs | apps/api-server/src/cms-job/cms-job.store.ts:241-314 | keeps exactly the unexpired jobs, drops exactly the removed jobs' entries, and counts them |
| CmsJobServices.CmsJobService.CreateJob | apps/api-server/src/cms-job/cms-job.service.ts:218-254 | refuses if and only if the entry's job exists and is not terminal; otherwise takes the lock and saves a queued record |
| CmsJobServices.CmsJobService.FinishJob | apps/api-server/src/cms-job/cms-job.service.ts:524-534 | saves the outcome with its time and drops the entry if it is still its own |
| CmsJobServices.CmsJobLockService.HasActiveJobForHost | apps/api-server/src/cms-job/cms-job-lock.service.ts:37-60 | non-null if and only if createJob would refuse some database on the host, and then names such a database and its job |
| CmsJobServices.PurgedJobsNeverBlock | apps/api-server/src/cms-job/cms-job.store.ts:241-314 | after a purge, a refusal is never on account of an expired job, and was one before |
| PromiseQueues.OneBodyAtATimeInOrder | apps/api-server/src/cms-https-client/cms-https-client.service.ts:67-92 | over every run of either queue: one body per key at a time, started in order of arrival, each after all earlier ones were released; no map entry means no unfinished call |
| PromiseQueues.QueuesRefineFifoMutex | apps/api-server/src/cms-config/cms-config.service.ts:261-270 | key by key, every run is a run of a FIFO mutex |
| PromiseQueues.StepRefines | apps/api-server/src/cms-config/cms-config.service.ts:261-270 | step by step: arrival appends, a start takes the head of a free mutex, the end of a body frees it, and nothing else shows |
| PromiseQueues.NoTailRejects | apps/api-server/src/cms-config/cms-config.service.ts:262-264 | over every run, whatever bodies throw: no promise in the map is ever rejected, so no call's body is ever skipped |
| PromiseQueues.NoneBarredIff | apps/api-server/src/cms-config/cms-config.service.ts:261-270 | in all runs of a queue no body is skipped and no call waits for a promise that never settles, if and only if withHostQueue resolves in its finally block, respectively serializeStatdumpCall has one of its two catches |
| PromiseQueues.ThrowingNeverBlocks | apps/api-server/src/cms-https-client/cms-https-client.service.ts:81-91 | a run with any bodies throwing starts the same bodies in the same order and leaves the same promises and map entries as the run in which none throws |
| PromiseQueues.EveryCallGetsItsTurn | apps/api-server/src/cms-https-client/cms-https-client.service.ts:75-80 | from every reachable state, moves of queued calls alone release any given call |
| PromiseQueues.NothingIsLeftBehind | apps/api-server/src/cms-https-client/cms-https-client.service.ts:88-90 | once every call of a run is released and has cleaned up, the map is empty |
| PromiseQueues.HostFinallyRuns | apps/api-server/src/cms-https-client/cms-https-client.service.ts:81-91 | the finally block is the three microtasks of the other queue in one go |
| PromiseQueues.CallQueue.Chain | apps/api-server/src/cms-https-client/cms-https-client.service.ts:69-73 | chains a call behind the map entry and becomes the entry |
| PromiseQueues.CallQueue.DropTail | apps/api-server/src/cms-config/cms-config.service.ts:266-268 | drops the entry only if it is still its own |
| PromiseQueues.CallQueue.HostCallEnds | apps/api-server/src/cms-https-client/cms-https-client.service.ts:81-91 | resolve and conditional delete in one step |
| StatdumpLeases.DrainedAgreement | apps/api-server/src/cms-config/cms-config.service.ts:237-315 | any interleaving whose CMS calls succeed: once drained, the lease exists iff the last command was a start iff the watcher runs |
| StatdumpLeases.LateStopSparesNewerLease | apps/api-server/src/cms-config/cms-config.service.ts:283-288 | whatever came before a start, and however calls end, its lease lasts until a stop is issued or a sweep runs |
| StatdumpLeases.StartRenewsLease | apps/api-server/src/cms-config/cms-config.service.ts:241-242 | after any run, a start, and any run of less than 150 seconds, whatever sweeps run and however calls end: the lease is there and counts from that start or a later one, unless a stop that captured it succeeds |
| StatdumpLeases.StartedLeaseLasts | apps/api-server/src/cms-config/cms-config.service.ts:241-242 | in particular while no stop is issued |
| StatdumpLeases.NoOrphanWatcher | apps/api-server/src/cms-config/cms-config.service.ts:278-315 | starts and users' stops failing in any way: a running watcher has a lease, or a sweeper's stop queued behind every start |
| StatdumpLeases.FailedSweepOrphansWatcher | apps/api-server/src/cms-config/cms-config.service.ts:304-315 | a run in which the sweeper's own stop fails leaves a running watcher without lease or queued stop |
| StatdumpLeases.FailedSweepOrphansIff | apps/api-server/src/cms-config/cms-config.service.ts:304-315 | a failed stop of the sweeper orphans its watcher if and only if no lease was opened since, the watcher still runs or a start is queued, and no other stop of the sweeper is queued behind every start |
| StatdumpLeases.CanOrphanIff | apps/api-server/src/cms-config/cms-config.service.ts:278-315 | without a lease, the queued calls can end with the watcher running if and only if neither it is off with no start queued nor a stop of the sweeper is queued behind every start |
| StatdumpLeases.LeaseAgeIsBounded | apps/api-server/src/cms-config/cms-config.service.ts:63-64 | with sweeps at most I apart no lease reaches the age TTL + I |
| StatdumpLeases.StatdumpWatchers.StartStatDumpWatcher | apps/api-server/src/cms-config/cms-config.service.ts:237-258 | opens a lease and queues a start for its key; every other key is untouched |
| StatdumpLeases.StatdumpWatchers.StopStatDumpWatcher | apps/api-server/src/cms-config/cms-config.service.ts:283-286 | captures the lease and queues a stop for its key alone |
| StatdumpLeases.StatdumpWatchers.StopResumes | apps/api-server/src/cms-config/cms-config.service.ts:287-289 | ends the lease only if it is still the captured one |
| StatdumpLeases.StatdumpWatchers.SweepExpiredStatdumpLeases | apps/api-server/src/cms-config/cms-config.service.ts:297-305 | steps every key at once: expired leases are dropped and their stops queued, the others are untouched |
| TokenActivity.EvictionOnlyShortens | apps/api-server/src/cms-https-client/cms-token-activity.ts:7-14 | over every run with answers within 24 h: the swept expiry of any host is null or no later than the unswept one, and both maps agree on rejected tokens |
| TokenActivity.RetentionIsTheExactBound | apps/api-server/src/cms-https-client/cms-token-activity.ts:14 | eviction is safe for answers within a given limit if and only if the limit is at most the retention time |
| TokenActivity.LateAnswerReopens | apps/api-server/src/cms-https-client/cms-token-activity.ts:39-43 | for every longer limit, a run in which one late answer reopens a closed session |
| TokenActivity.SessionCountsFromLastAnswer | apps/api-server/src/cms-https-client/cms-token-activity.ts:93-102 | after a login and any unswept run that keeps it: the expiry is the active time last learnt, or 7200 seconds, after the last request CMS accepted, or after the login if it accepted none |
| TokenActivity.SessionOutlastsEviction | apps/api-server/src/cms-https-client/cms-token-activity.ts:93-102 | with eviction it is at least that long from the login and at most that long from now |
| TokenActivity.DisconnectBarrier | apps/api-server/src/cms-auth/cms-auth.service.ts:157-167 | after a disconnect the session reads null, however many earlier requests are answered, until a later request is accepted or a login comes |
| TokenActivity.BarrierIsExact | apps/api-server/src/cms-https-client/cms-token-activity.ts:58-69 | after any run that leaves the session shut, of the requests then accepted exactly those issued after it was last closed reopen it, for token_active_time from the answer |
| TokenActivity.EarlierRequestReopensIff | apps/api-server/src/host/host.service.ts:217-240 | after a disconnect and any run without a login in which only earlier requests are accepted, an earlier request reopens the session if and only if a step forgot the token's record (a changed target, or another host with the token removed) and no later one closed or rejected it; a later request does so also when issued after the last close |
| TokenActivity.RejectedStaysNull | apps/api-server/src/cms-https-client/cms-token-activity.ts:93-102 | a rejected token reads null until it is forgotten, whatever is swept, answered or logged in meanwhile |
| TokenActivity.TokenActivityTable.Sweep | apps/api-server/src/cms-https-client/cms-token-activity.ts:39-43 | drops exactly the entries that are not rejected and idle for more than the retention time |
| TokenActivity.TokenActivityTable.NoteCmsTokenUse | apps/api-server/src/cms-https-client/cms-token-activity.ts:51-70 | records one answer, and sweeps on every 256th |
| TokenActivity.TokenActivityTable.CloseCmsToken | apps/api-server/src/cms-https-client/cms-token-activity.ts:73-80 | zeroes the accepted time and marks the close |
| TokenActivity.HostSession.Login | apps/api-server/src/cms-auth/cms-auth.service.ts:105-116 | forgets the replaced token unless it is the same, and stores the issue time |
| TokenActivity.HostSession.Disconnect | apps/api-server/src/cms-auth/cms-auth.service.ts:157-167 | closes the token and deletes the issue time |
| TokenActiveTime.ParseTokenActiveTime | apps/api-server/src/cms-https-client/cms-token-activity.ts:112-125 | the last entry wins, valid or not; anything but one to ten digits of non-zero value is 7200; never zero |
| TokenActiveTime.EntryIsRead | apps/api-server/src/cms-https-client/cms-token-activity.ts:112-120 | an entry is read whatever the indentation, the case of either name, and the blanks around an '=' that may be missing |
| TokenActiveTime.OthersGiveNothing | apps/api-server/src/cms-https-client/cms-token-activity.ts:115-118 | comment lines, blank lines and other names give nothing |
| TokenActiveTime.SecondsAreRead | apps/api-server/src/cms-https-client/cms-token-activity.ts:122-124 | one to ten digits of a non-zero number are that number, anything else 7200 |
| ConfText.ParseConfText | libs/api-interfaces/src/param-schema/parse-conf-text.ts:111-176 | the one-pass loop computes the two-phase reading: join physical lines, then fold logical lines |
| ConfText.IniTrim | libs/api-interfaces/src/param-schema/parse-conf-text.ts:53-59 | both index loops together trim exactly the white space at the ends |
| ConfText.FoldLine | libs/api-interfaces/src/param-schema/parse-conf-text.ts:148-170 | one logical line, with the name map, does what the fold does |
| ConfText.TakeLine | libs/api-interfaces/src/param-schema/parse-conf-text.ts:129-147 | one physical line gives a logical line, an error, or more of the pending one |
| ConfTextLaws.FoldIsDeclared | libs/api-interfaces/src/param-schema/parse-conf-text.ts:116-125 | the fold is the naive reading: names in order of first appearance, each with exactly the entries written under it, and all errors in order |
| ConfTextLaws.ParsedAsWritten | libs/api-interfaces/src/param-schema/parse-conf-text.ts:111-176 | for every text: names distinct and in order of first header, the unnamed section only if it has entries, line numbers strictly rising within 1..n in each section |
| ConfTextLaws.LogicalLinesRise | libs/api-interfaces/src/param-schema/parse-conf-text.ts:127-147 | logical lines carry strictly rising line numbers within 1..n |
| ConfTextLines.SilentIsIgnored | libs/api-interfaces/src/param-schema/parse-conf-text.ts:151-160 | a logical line is ignored if and only if it is blank, starts with '#', or is brackets without a name; it is a header if and only if it is brackets with one |
| ConfTextLines.NotALineIff | libs/api-interfaces/src/param-schema/parse-conf-text.ts:163-167 | a line is reported as no key, header or comment if and only if it is none of these and nothing stands before its first '=' |
| ConfTextLines.TooLongIff | libs/api-interfaces/src/param-schema/parse-conf-text.ts:139-144 | a line is reported as too long if and only if it has, with what it continues, over 510 bytes |
| ConfTextComments.IgnoredLineInserted | libs/api-interfaces/src/param-schema/parse-conf-text.ts:151-152 | a blank line or comment put in wherever no continuation is open changes nothing of the result but the line numbers after it, which rise by one |
| Utf8.LengthCountsBytes | libs/api-interfaces/src/param-schema/parse-conf-text.ts:99-102 | the length is the number of bytes of the UTF-8 encoding |
| Utf8.EncodingIsInjective | libs/api-interfaces/src/param-schema/parse-conf-text.ts:99-102 | that encoding loses nothing: texts with the same bytes are the same |
| ConfTextRoundTrip.PrintParses | libs/api-interfaces/src/param-schema/parse-conf-text.ts:143-170 | printed well-formed sections are read back as the same sections, keys and values, with no syntax error |
| ConfTextRoundTrip.PrintedTextParses | libs/api-interfaces/src/param-schema/parse-conf-text.ts:111-112 | the same from one text that is split at newlines |
| ConfTextRoundTrip.PairReadsBack | libs/api-interfaces/src/param-schema/parse-conf-text.ts:76-97 | a printed pair is read as that key and value, comment characters inside the quotes included |
| ConfTextRoundTrip.BareValueReadsBack | libs/api-interfaces/src/param-schema/parse-conf-text.ts:91-97 | a bare value ends at the first ';' or '#', whatever follows it |
| ConfTextRoundTrip.QuotedReadsBack | libs/api-interfaces/src/param-schema/parse-conf-text.ts:80-86 | a value in quotes of either kind ends at the next quote of that kind, or with the line |
| ConfTextRoundTrip.EmptyQuotesReadBack | libs/api-interfaces/src/param-schema/parse-conf-text.ts:168-169 | two quotes with nothing between them are an empty value |
| ConfTextRoundTrip.PlainNameNormalizes | libs/api-interfaces/src/param-schema/parse-conf-text.ts:104-109 | section names are told apart without regard to case and surrounding space |
| ConfTextRoundTrip.MarkedNameNormalizes | libs/api-interfaces/src/param-schema/parse-conf-text.ts:104-109 | the same behind a '%', and space after the mark does not count; behind an '@' case counts |
| ConfTextRoundTrip.ContinuationJoins | libs/api-interfaces/src/param-schema/parse-conf-text.ts:135-148 | a line cut in two by a backslash reads as if it had not been, under the first line's number |
| ConfTextRoundTrip.ContinuationTooLong | libs/api-interfaces/src/param-schema/parse-conf-text.ts:139-144 | the byte limit counts the pending piece too: one line too long in two pieces is refused, at the second's number |
| ConfTextRoundTrip.HeaderReadsBack | libs/api-interfaces/src/param-schema/parse-conf-text.ts:104-109 | a printed header is read as that section name |
| HostGroupRuns.EveryUserIsSound | apps/api-server/src/host/host.service.ts:55-311 | over every sequence of the eight operations whose host uids and default hosts are no inherited names and whose group ids and targets are not `__proto__`: each host in exactly one group under its own uid, a set default is a member, connections and non-blank aliases distinct, at most 400 hosts |
| HostGroupRuns.StepKeepsInvIff | apps/api-server/src/host/host-group.util.ts:172-283 | each operation keeps that invariant if and only if it is none of three: a default host, a moved uid or an updated uid that is found only as an inherited name, each with its exact condition |
| HostGroupRuns.RunKeepsInv | apps/api-server/src/host/host.service.ts:55-311 | every sequence without such an operation keeps it, group updates included that follow a request which added names to Object.prototype |
| HostGroupRuns.UpdateGroupKeepsInvIff | apps/api-server/src/host/host-group.util.ts:191-222 | a saved update leaves a default that is no member if and only if the name is inherited, at the start or by an earlier request that named `__proto__`, and no host's |
| HostGroupRuns.MoveConservesHostsIff | apps/api-server/src/host/host-group.util.ts:235-270 | a move keeps the hosts as a multiset, the moved one then being in the target group, if and only if the target is a group or the reserved one; an inherited name loses exactly that host |
| HostGroupRuns.StrayMoveIff | apps/api-server/src/host/host-group.util.ts:235-270 | moving a uid that is only an inherited name moves nothing, and breaks the invariant if and only if the target has no default yet |
| HostGroupRuns.DeleteRemovesExactlyOne | apps/api-server/src/host/host-group.util.ts:272-283 | a removal removes that host, no other, and no host of the uid is left; of an inherited name it removes nothing |
| HostGroupRuns.AddKeepsInv | apps/api-server/src/host/host.service.ts:60-108 | a saved addition adds exactly the new host, alias trimmed, or nothing when the group id is only an inherited name |
| HostGroupRuns.AddSavedIff | apps/api-server/src/host/host.service.ts:62-82 | an addition succeeds if and only if there is room, the trimmed alias is neither blank nor over 100 characters, no host has the connection or alias, and the group is found |
| HostGroupRuns.MoveSavedIff | apps/api-server/src/host/host-group.util.ts:235-251 | a move succeeds if and only if the host and the target are found, or the target is the reserved group |
| HostGroupRuns.UpdateKeepsInv | apps/api-server/src/host/host.service.ts:180-244 | a saved update of a host replaces exactly that host |
| HostGroupRuns.StrayUpdateAddsHost | apps/api-server/src/host/host.service.ts:180-244 | an update of a uid that is only an inherited name adds a host, and breaks the invariant if and only if there were 400 or another group has the uid |
| HostGroupRuns.InheritedDefaultIsSaved | apps/api-server/src/host/host-group.util.ts:213-219 | a run that saves the default host 'constructor', which is no member |
| HostGroupRuns.AddedDefaultIsSaved | apps/api-server/src/host/host-group.util.ts:224-233 | a run in which a host added to the group '__proto__' makes 'hosts' an inherited name, which is then saved as a default host and is no member |
| HostGroupRuns.InheritedTargetLosesHost | apps/api-server/src/host/host-group.util.ts:247-263 | a run in which a host moved to 'constructor' is gone |
| HostGroupRuns.DeleteGroupRemovesItsHosts | apps/api-server/src/host/host-group.util.ts:183-189 | deleting a group deletes its hosts and no other |
| HostGroupRuns.DuplicateHostFindsAll | apps/api-server/src/host/host-group.util.ts:81-98 | the check finds nothing if and only if no host but the excluded one has the connection |
| HostGroupRuns.DuplicateAliasFindsAll | apps/api-server/src/host/host-group.util.ts:109-122 | the same for aliases that are not blank |
| HostGroupRuns.UngroupedRenamedIff | apps/api-server/src/host/host-group.util.ts:13-17 | the reserved group is never removed, and is renamed if and only if markGroupHa is asked, for a host found there, for another non-blank name |
| HostGroupInvariant.FoundOnce | apps/api-server/src/host/host-group.util.ts:52-60 | findHostRef finds the only group that has the uid, if and only if the uid is no inherited name or that group is the first |
| HostGroupChanges.UpdateTakesThePatch | apps/api-server/src/host/host.service.ts:219-241 | a saved update gives the host each field of the patch, the alias trimmed, and leaves every other field, its place, and the rest of the group as they were |
| HostGroupChanges.AddedHostIsAsked | apps/api-server/src/host/host.service.ts:84-104 | a saved addition gives the host the fields asked for, without token, in the group asked for or the reserved one, as the default of a group that has none, and changes nothing else |
| HostGroupChanges.DeletionSeesToTheDefault | apps/api-server/src/host/host-group.util.ts:272-283 | a removal changes that group alone; if the host was the default, the first host left becomes it, or none |
| HostGroupChanges.MoveSeesToTheDefaults | apps/api-server/src/host/host-group.util.ts:252-267 | so does a move for the group left; in the target the host becomes the default if there is none; all other groups stay |
| HostGroupChanges.CreatedGroupIsEmpty | apps/api-server/src/host/host.service.ts:114-127 | a group is created if and only if its trimmed name starts with a letter or digit, with that name, no host and no default |
| HostGroupChanges.UpdatedGroupIsAsked | apps/api-server/src/host/host-group.util.ts:199-219 | a saved group update sets exactly the trimmed name and the default asked for, null being none |
| HostGroupServices.UserRecord.CountAllHosts | apps/api-server/src/host/host-group.util.ts:66-71 | the number of hosts in all groups |
| HostGroupServices.UserRecord.FindDuplicateHost | apps/api-server/src/host/host-group.util.ts:81-98 | the first host, group by group, with the connection |
| HostGroupServices.UserRecord.FindDuplicateAlias | apps/api-server/src/host/host-group.util.ts:109-122 | the first host with the alias |
| HostGroupServices.UserRecord.MoveHostToGroup | apps/api-server/src/host/host-group.util.ts:235-270 | in place, the move of the specification, or false |
| HostGroupServices.UserRecord.RemoveHostFromUser | apps/api-server/src/host/host-group.util.ts:272-283 | in place, the removal, or false and nothing changed |
| HostGroupServices.UserRecord.UpdateGroup | apps/api-server/src/host/host-group.util.ts:191-222 | fails with the first error in the source's order, else has both changes; and what it leaves on Object.prototype, errors included |
| HostGroupServices.UserRecord.AddHostToGroup | apps/api-server/src/host/host-group.util.ts:224-233 | puts the host under its uid and makes it the default if there is none |
| HostGroupServices.HostService.AddHost | apps/api-server/src/host/host.service.ts:55-111 | each refusal in the source's order; refusals save nothing |
| HostGroupServices.HostService.UpdateHostGroup | apps/api-server/src/host/host.service.ts:130-160 | the same, also when the record in memory was already renamed |
| HostGroupServices.HostService.UpdateHost | apps/api-server/src/host/host.service.ts:175-247 | the same for a host |
| HostGroupServices.HostService.MoveHost | apps/api-server/src/host/host.service.ts:250-267 | the same; missing host and missing group are told apart |
| HostGroupServices.HostService.DeleteHost | apps/api-server/src/host/host.service.ts:270-280 | the same for a removal |
| Versions.CompareVersions | libs/update-check/src/version.ts:41-60 | the two index loops compute the recursive comparison |
| Versions.CompareIsPrecedence | libs/update-check/src/version.ts:28-60 | its sign is precedence by section 11 of Semantic Versioning 2.0.0, in both directions, and it is zero exactly on equal core and pairwise equal identifiers |
| Versions.CompareNegates | libs/update-check/src/version.ts:40-60 | swapping the arguments negates the result |
| Versions.CompareIsTransitive | libs/update-check/src/version.ts:41-60 | at-most is transitive: a total preorder |
| Strings.NumeralReadsBack | libs/update-check/src/version.ts:10-22 | a number written in decimal has no leading zero and is read back as that number |
| Versions.BuildMetadataIsIgnored | libs/update-check/src/version.ts:1-4 | whatever follows '+' does not change the parsed version |
| Versions.WrittenParses | libs/update-check/src/version.ts:10-22 | every version written by the grammar is parsed as what it says, with or without a leading v, with any build metadata |
| UpdateCheck.PickLatestRelease | libs/update-check/src/check-for-update.ts:30-52 | null if and only if nothing is eligible; otherwise the first of the greatest eligible releases |
| UpdateCheck.ReadReleases | libs/update-check/src/check-for-update.ts:79-118 | pages up to the first short one or the tenth; the first failed page fails everything, with its reason |
| UpdateCheck.CheckForUpdate | libs/update-check/src/check-for-update.ts:60-143 | parse error, the listing's failure, or a verdict right about every release listed |
| UpdateCheck.UpdateAvailableIff | libs/update-check/src/check-for-update.ts:120-137 | an update is available if and only if an eligible, strictly newer release was listed |
| UpdateCheck.FirstFailureIsTheReason | libs/update-check/src/check-for-update.ts:79-118 | the first failing page decides: 404 is no release, 403 and 429 rate limiting, any other status outside 200-299 or no answer the network, a body that is no list a parse error |
| UpdateCheck.StableIsOfferedStable | libs/update-check/src/check-for-update.ts:19-29 | a stable installation is offered a release that is no pre-release by flag or tag |
| UpdateCheck.ListingIsComplete | libs/update-check/src/check-for-update.ts:7-11 | ending on a short page, the list has every release of every page |
| PollJob.PollCmsAsyncJob | apps/api-server/src/common/poll-cms-async-job.ts:30-90 | it ends, within the bound on polls of the deadline; each poll asks for the latest truthy uuid; onUuid fires at most once, with the first one; a normal return is neither running nor an invalid-token answer; a poll is made only before the deadline, and a timeout reported only after it |
| PollJob.UuidIsNeverLost | apps/api-server/src/common/poll-cms-async-job.ts:41-46 | once known, a uuid stays known through answers that carry none |
| VolumePaths.CopyVolumePathKey | libs/api-interfaces/src/copy-volume-path.ts:6-35 | the push-and-pop loop computes the key |
| VolumePaths.IdempotentUnlessUnc | libs/api-interfaces/src/copy-volume-path.ts:6-22 | of the paths with a root, the key of a key is the key if and only if the path is not UNC |
| VolumePaths.KeyPartsAreClean | libs/api-interfaces/src/copy-volume-path.ts:23-33 | no part of an absolute path's key is empty, '.' or '..' |
| VolumePaths.PosixPrefixReplaced | libs/api-interfaces/src/copy-volume-path.ts:20-34 | replacing a segment-aligned prefix of a POSIX path by its key leaves the key as it was |
| VolumePaths.DrivePrefixReplaced | libs/api-interfaces/src/copy-volume-path.ts:11-13 | the same for drive paths, with either slash and in any case of letters |
| VolumePlaces.PosixKeyKeepsPlace | libs/api-interfaces/src/copy-volume-path.ts:19-34 | a POSIX path and its key lead to the same place: from the root if absolute, from every directory if relative |
| VolumePlaces.DriveKeyKeepsPlace | libs/api-interfaces/src/copy-volume-path.ts:7-34 | a drive path and its key do, up to the case of letters, whichever slashes separate |
| TokenBlacklist.BlacklistedUntilExpiry | apps/api-server/src/token/token-blacklist.service.ts:46-60 | over every run: blacklisted if and only if added and not expired, whatever was purged or unlinked late |
| TokenBlacklist.TokenBlacklistService.Add | apps/api-server/src/token/token-blacklist.service.ts:39-44 | writes that entry only; a blank id is ignored |
| TokenBlacklist.TokenBlacklistService.IsBlacklisted | apps/api-server/src/token/token-blacklist.service.ts:46-60 | true if and only if an unexpired entry exists; an expired one is removed |
| TokenBlacklist.TokenBlacklistService.PurgeExpired | apps/api-server/src/token/token-blacklist.service.ts:62-93 | keeps exactly the unexpired entries and counts the others |

## Left out

- Files, network, JWT signing, hashing, uuids, logging, decorators and error-message tables: they
  are atomic map operations, parameters or fresh values here.
- Partially written and unparsable files: writes are atomic, so an unreadable file is an absent one.
- What a rollback after a concurrent logout should do: the code promises nothing there.
- CMS job payloads, results, warnings, progress, the busyDatabase check of createJob and the
  per-user operations file: they do not enter the exclusion argument.
- The CMS outcome of a job is any terminal status; how applyCmsOutcome reads it is not modelled.
- A statdump call's own time in the host queue, and statdump keys of one host sharing it.
- The asset choice and download address of an update, and the timeout that aborts the check (an
  aborted request is a failed one).
- findHostMatchingPeer, sanitizeHostGroups and toSafeHost: lookups and projections that would only
  add easy members.
- createdAt of a group, dbProfiles and the CMS session fields of a host in HostGroups: no
  operation there decides on them.
- Unicode: lower case, the trimming of white space and the letters and digits a group name may
  start with are those of ASCII, and characters are code points, so lengths of characters beyond
  the Basic Multilingual Plane are not JavaScript's.
- JavaScript's number precision: numerals are natural numbers.
- Concurrent edits of one user record: atomicUpdateUser is taken at its word.
- What a request leaves on a built-in value it found under an inherited name: it is no part of the
  user record. Of the operations that follow one naming `__proto__` only group updates are modelled:
  Object.prototype is shared with every library of the process.
- RevokeKillsFamily: gives a sufficient condition over the whole loop; the exact one, at its end, is
  RevokedForGoodIff.
- PollCmsAsyncJob: takes CMS, the clock and the time each poll takes as functions; an exception
  thrown by onUuid is not modelled.
- PrintParses: is about the double-quoted form; values in single quotes are in QuotedReadsBack.
- IdempotentUnlessUnc: says nothing about relative paths; one like `./C:/X` has a key that reads
  as a drive path. That the key names the same place is in PosixKeyKeepsPlace and DriveKeyKeepsPlace.
- The user a statdump lease belongs to, as whom the sweeper stops the watcher.
