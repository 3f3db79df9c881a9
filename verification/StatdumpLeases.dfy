// Leases on CMS statdump watchers.
//
// The state of one (host, database) key: its lease, its queue of CMS calls (a FIFO mutex, see
// PromiseQueues), the stop continuations that have not run yet, and whether the watcher runs.
// A lease is an object; `id` is its identity. A disabled action changes nothing.
module StatdumpLeases {
  import opened Common

  const LEASE_TTL_MS: int := 150 * 1000

  type LeaseId = nat

  datatype Lease = Lease(id: LeaseId, renewedAt: int)

  // A user's stop carries the lease it found when it was issued.
  datatype CmsCall = StartCall | StopCall(captured: Option<LeaseId>) | SweepCall

  // What was asked for last; history only.
  datatype Command = NoCommand | Started | Stopped | Swept

  datatype World = World(
    clock: int,
    lastSweep: int,
    nextLease: nat,
    lease: Option<Lease>,
    queue: seq<CmsCall>,
    resuming: multiset<Option<LeaseId>>,
    running: bool,
    last: Command)

  const INIT: World := World(0, 0, 0, None, [], multiset{}, false, NoCommand)

  // `Finish` ends the CMS call at the head of the queue; one that fails may all the same have
  // had its effect (`effect`). `Resume` is stopStatDumpWatcher after its await.
  datatype Action =
    | Start
    | Stop
    | Sweep
    | Finish(ok: bool, effect: bool)
    | Resume(captured: Option<LeaseId>)
    | Tick(ms: nat)

  function LeaseIdOf(lease: Option<Lease>): Option<LeaseId> {
    if lease.Some? then Some(lease.value.id) else None
  }

  predicate Expired(lease: Option<Lease>, now: int) {
    lease.Some? && now - lease.value.renewedAt >= LEASE_TTL_MS
  }

  function AfterCall(running: bool, call: CmsCall, ok: bool, effect: bool): bool {
    if call.StartCall? then running || ok || effect else running && !ok && !effect
  }

  function Step(w: World, a: Action): World {
    match a
    case Start =>
      w.(nextLease := w.nextLease + 1, lease := Some(Lease(w.nextLease, w.clock)),
         queue := w.queue + [StartCall], last := Started)
    case Stop => w.(queue := w.queue + [StopCall(LeaseIdOf(w.lease))], last := Stopped)
    case Sweep =>
      if Expired(w.lease, w.clock) then
        w.(lease := None, queue := w.queue + [SweepCall], lastSweep := w.clock, last := Swept)
      else w.(lastSweep := w.clock)
    case Finish(ok, effect) =>
      if w.queue == [] then w
      else
        var call := w.queue[0];
        w.(queue := w.queue[1..], running := AfterCall(w.running, call, ok, effect),
           resuming := if call.StopCall? && ok then w.resuming + multiset{call.captured} else w.resuming)
    case Resume(captured) =>
      if captured !in w.resuming then w
      else
        w.(resuming := w.resuming - multiset{captured},
           lease := if LeaseIdOf(w.lease) == captured then None else w.lease)
    case Tick(ms) => w.(clock := w.clock + ms)
  }

  function Run(w: World, actions: seq<Action>): World
    decreases |actions|
  {
    if actions == [] then w else Run(Step(w, actions[0]), actions[1..])
  }

  // Some stop that captured this lease has not ended, or has not yet looked at the lease again.
  ghost predicate Captured(w: World, id: LeaseId) {
    Some(id) in w.resuming || StopCall(Some(id)) in w.queue
  }

  ghost predicate IdsSound(w: World) {
    && (w.lease.Some? ==> w.lease.value.id < w.nextLease)
    && (forall id: LeaseId :: Captured(w, id) ==> id < w.nextLease)
  }

  // What the watcher will do once every queued call has succeeded.
  function Outcome(running: bool, queue: seq<CmsCall>): bool {
    if queue == [] then running else queue[|queue| - 1].StartCall?
  }

  ghost predicate Agreement(w: World) {
    && IdsSound(w)
    && Outcome(w.running, w.queue) == w.last.Started?
    && match w.last
       case Started => w.lease.Some? && !Captured(w, w.lease.value.id)
       case Stopped => w.lease.Some? ==> Captured(w, w.lease.value.id)
       case NoCommand => w.lease.None?
       case Swept => w.lease.None?
  }

  // Appending a call and taking the head off add and lose no capture but their own.
  lemma CapturedAfter(w: World, a: Action, id: LeaseId)
    ensures Captured(Step(w, a), id) ==> Captured(w, id) || (a.Stop? && LeaseIdOf(w.lease) == Some(id))
    ensures Captured(w, id) ==>
      || Captured(Step(w, a), id)
      || (a.Resume? && a.captured == Some(id))
      || (a.Finish? && !a.ok && w.queue != [] && w.queue[0] == StopCall(Some(id)))
  {
    var w' := Step(w, a);
    if a.Finish? && w.queue != [] {
      assert w.queue == [w.queue[0]] + w'.queue;
    }
  }

  lemma StepKeepsIds(w: World, a: Action)
    requires IdsSound(w)
    ensures IdsSound(Step(w, a))
  {
    var w' := Step(w, a);
    forall id: LeaseId | Captured(w', id) ensures id < w'.nextLease { CapturedAfter(w, a, id); }
  }

  lemma StepKeepsAgreement(w: World, a: Action)
    requires Agreement(w) && (a.Finish? ==> a.ok)
    ensures Agreement(Step(w, a))
  {
    StepKeepsIds(w, a);
    var w' := Step(w, a);
    if w'.lease.Some? { CapturedAfter(w, a, w'.lease.value.id); }
    if a.Start? { assert !Captured(w, w.nextLease); }
  }

  ghost predicate AllSucceed(actions: seq<Action>) {
    forall a :: a in actions && a.Finish? ==> a.ok
  }

  lemma {:induction false} RunKeepsAgreement(w: World, actions: seq<Action>)
    requires Agreement(w) && AllSucceed(actions)
    ensures Agreement(Run(w, actions))
    decreases |actions|
  {
    if actions != [] {
      StepKeepsAgreement(w, actions[0]);
      RunKeepsAgreement(Step(w, actions[0]), actions[1..]);
    }
  }

  // In any interleaving of starts, stops and sweeps whose CMS calls succeed: once the queue is
  // drained and the stops have resumed, the lease exists exactly when the last command was a
  // start, which is exactly when the watcher runs.
  lemma DrainedAgreement(actions: seq<Action>)
    requires AllSucceed(actions)
    ensures var w := Run(INIT, actions);
      w.queue == [] && w.resuming == multiset{} ==>
        (w.lease.Some? <==> w.last.Started?) && (w.running <==> w.last.Started?)
  {
    RunKeepsAgreement(INIT, actions);
  }

  ghost predicate NeitherStopsNorSweeps(actions: seq<Action>) {
    forall a :: a in actions ==> !a.Stop? && !a.Sweep?
  }

  lemma {:induction false} RunKeepsIds(w: World, actions: seq<Action>)
    requires IdsSound(w)
    ensures IdsSound(Run(w, actions))
    decreases |actions|
  {
    if actions != [] {
      StepKeepsIds(w, actions[0]);
      RunKeepsIds(Step(w, actions[0]), actions[1..]);
    }
  }

  lemma {:induction false} UncapturedLeaseStays(w: World, actions: seq<Action>)
    requires IdsSound(w) && w.lease.Some? && !Captured(w, w.lease.value.id)
    requires NeitherStopsNorSweeps(actions)
    ensures Run(w, actions).lease.Some?
    decreases |actions|
  {
    if actions != [] {
      var w' := Step(w, actions[0]);
      assert actions[0] in actions;
      StepKeepsIds(w, actions[0]);
      assert !Captured(w, w.nextLease);
      assert w'.lease.Some?;
      CapturedAfter(w, actions[0], w'.lease.value.id);
      UncapturedLeaseStays(w', actions[1..]);
    }
  }

  // A late stop never ends a newer lease: whatever was issued before a start, and however the
  // calls end, the lease it opens lasts until a stop is issued or a sweep runs.
  lemma LateStopSparesNewerLease(before: seq<Action>, after: seq<Action>)
    requires NeitherStopsNorSweeps(after)
    ensures Run(Step(Run(INIT, before), Start), after).lease.Some?
  {
    var w := Run(INIT, before);
    RunKeepsIds(INIT, before);
    StepKeepsIds(w, Start);
    assert !Captured(w, w.nextLease);
    CapturedAfter(w, Start, w.nextLease);
    UncapturedLeaseStays(Step(w, Start), after);
  }

  // The step is the success of a stop that captured the lease there is.
  predicate EndsLease(w: World, a: Action) {
    && a.Finish? && a.ok && w.lease.Some? && w.queue != []
    && w.queue[0] == StopCall(Some(w.lease.value.id))
  }

  ghost predicate NoneEndsLease(w: World, actions: seq<Action>)
    decreases |actions|
  {
    actions == [] || (!EndsLease(w, actions[0]) && NoneEndsLease(Step(w, actions[0]), actions[1..]))
  }

  // A lease renewed at c or later that no successful stop is about to end.
  ghost predicate Renewed(w: World, c: int) {
    && IdsSound(w) && w.lease.Some? && c <= w.lease.value.renewedAt
    && Some(w.lease.value.id) !in w.resuming
  }

  lemma StepKeepsRenewed(w: World, a: Action, c: int)
    requires Renewed(w, c) && !EndsLease(w, a) && c <= w.clock < c + 150 * 1000
    ensures Renewed(Step(w, a), c)
  {
    StepKeepsIds(w, a);
    assert !Captured(w, w.nextLease);
  }

  lemma {:induction false} ClockGrows(w: World, actions: seq<Action>)
    ensures w.clock <= Run(w, actions).clock
    decreases |actions|
  {
    if actions != [] { ClockGrows(Step(w, actions[0]), actions[1..]); }
  }

  lemma {:induction false} RunKeepsRenewed(w: World, actions: seq<Action>, c: int)
    requires Renewed(w, c) && NoneEndsLease(w, actions) && c <= w.clock && Run(w, actions).clock < c + 150 * 1000
    ensures Renewed(Run(w, actions), c)
    decreases |actions|
  {
    if actions != [] {
      ClockGrows(w, actions);
      StepKeepsRenewed(w, actions[0], c);
      RunKeepsRenewed(Step(w, actions[0]), actions[1..], c);
    }
  }

  // A start renews the lease: for less than 150 seconds from the last start, whatever sweeps run and
  // however calls end, the lease is there and counts from that start or a later one, unless a stop
  // that captured it succeeds.
  lemma StartRenewsLease(before: seq<Action>, w: World, after: seq<Action>, w': World)
    requires w == Run(INIT, before) && w' == Run(Step(w, Start), after)
    requires NoneEndsLease(Step(w, Start), after) && w'.clock < w.clock + 150 * 1000
    ensures w'.lease.Some? && w.clock <= w'.lease.value.renewedAt
  {
    RunKeepsIds(INIT, before);
    StepKeepsIds(w, Start);
    assert !Captured(w, w.nextLease);
    RunKeepsRenewed(Step(w, Start), after, w.clock);
  }

  lemma {:induction false} WithoutStopsNoneEnds(w: World, actions: seq<Action>)
    requires IdsSound(w) && (w.lease.Some? ==> !Captured(w, w.lease.value.id)) && forall a :: a in actions ==> !a.Stop?
    ensures NoneEndsLease(w, actions)
    decreases |actions|
  {
    if actions != [] {
      var w' := Step(w, actions[0]);
      assert actions[0] in actions;
      StepKeepsIds(w, actions[0]);
      assert !Captured(w, w.nextLease);
      if w'.lease.Some? { CapturedAfter(w, actions[0], w'.lease.value.id); }
      WithoutStopsNoneEnds(w', actions[1..]);
    }
  }

  // In particular while no stop is issued.
  lemma StartedLeaseLasts(before: seq<Action>, w: World, after: seq<Action>, w': World)
    requires w == Run(INIT, before) && w' == Run(Step(w, Start), after)
    requires (forall a :: a in after ==> !a.Stop?) && w'.clock < w.clock + 150 * 1000
    ensures w'.lease.Some? && w.clock <= w'.lease.value.renewedAt
  {
    RunKeepsIds(INIT, before);
    StepKeepsIds(w, Start);
    assert !Captured(w, w.nextLease);
    CapturedAfter(w, Start, w.nextLease);
    WithoutStopsNoneEnds(Step(w, Start), after);
    StartRenewsLease(before, w, after, w');
  }

  // No start is left among these calls.
  predicate NoStarts(queue: seq<CmsCall>) {
    forall i :: 0 <= i < |queue| ==> !queue[i].StartCall?
  }

  // The watcher ends up off whatever becomes of the users' own calls: either a sweeper's stop
  // is queued behind every start, or there is nothing left to stop.
  ghost predicate Quenched(running: bool, queue: seq<CmsCall>) {
    || (!running && NoStarts(queue))
    || exists i :: 0 <= i < |queue| && queue[i].SweepCall? && NoStarts(queue[i..])
  }

  // Once a stop has captured the lease, no start was issued after it.
  ghost predicate StopsLast(w: World, id: LeaseId) {
    && (Some(id) in w.resuming ==> !w.running && NoStarts(w.queue))
    && (forall i :: 0 <= i < |w.queue| && w.queue[i] == StopCall(Some(id)) ==> NoStarts(w.queue[i..]))
  }

  ghost predicate NoOrphan(w: World) {
    && IdsSound(w)
    && (w.lease.None? ==> Quenched(w.running, w.queue))
    && (w.lease.Some? ==> StopsLast(w, w.lease.value.id))
  }

  lemma QuenchedByAppending(running: bool, queue: seq<CmsCall>, call: CmsCall)
    requires Quenched(running, queue) || call.SweepCall?
    requires !call.StartCall?
    ensures Quenched(running, queue + [call])
  {
    var queue' := queue + [call];
    if call.SweepCall? {
      assert queue'[|queue|..] == [call];
    } else if running || !NoStarts(queue) {
      var i :| 0 <= i < |queue| && queue[i].SweepCall? && NoStarts(queue[i..]);
      assert queue'[i..] == queue[i..] + [call];
    }
  }

  lemma QuenchedByFinishing(running: bool, queue: seq<CmsCall>, ok: bool, effect: bool)
    requires Quenched(running, queue) && queue != [] && (queue[0].SweepCall? ==> ok)
    ensures Quenched(AfterCall(running, queue[0], ok, effect), queue[1..])
  {
    if running || !NoStarts(queue) {
      var i :| 0 <= i < |queue| && queue[i].SweepCall? && NoStarts(queue[i..]);
      if i == 0 {
        assert forall j :: 0 <= j < |queue[1..]| ==> queue[1..][j] == queue[0..][j + 1];
      } else {
        assert queue[1..][i - 1..] == queue[i..];
      }
    }
  }

  lemma StopsLastByAppending(w: World, id: LeaseId, call: CmsCall, w': World)
    requires StopsLast(w, id) && !call.StartCall?
    requires w'.queue == w.queue + [call] && w'.resuming == w.resuming && w'.running == w.running
    ensures StopsLast(w', id)
  {
    forall i | 0 <= i < |w'.queue| && w'.queue[i] == StopCall(Some(id)) ensures NoStarts(w'.queue[i..]) {
      if i < |w.queue| {
        assert w'.queue[i..] == w.queue[i..] + [call];
      } else {
        assert w'.queue[i..] == [call];
      }
    }
  }

  lemma StopsLastByFinishing(w: World, id: LeaseId, ok: bool, effect: bool)
    requires StopsLast(w, id) && w.queue != []
    ensures StopsLast(Step(w, Finish(ok, effect)), id)
  {
    var w' := Step(w, Finish(ok, effect));
    assert NoStarts(w.queue) ==> NoStarts(w'.queue);
    forall i | 0 <= i < |w'.queue| && w'.queue[i] == StopCall(Some(id)) ensures NoStarts(w'.queue[i..]) {
      assert w.queue[i + 1] == w'.queue[i];
      assert w'.queue[i..] == w.queue[i + 1..];
    }
    if w.queue[0] == StopCall(Some(id)) { assert w.queue[0..] == w.queue; }
  }

  lemma StartStopsLast(w: World)
    requires IdsSound(w)
    ensures StopsLast(Step(w, Start), w.nextLease)
  {
    CapturedAfter(w, Start, w.nextLease);
    assert !Captured(w, w.nextLease);
  }

  lemma StepKeepsNoOrphan(w: World, a: Action)
    requires NoOrphan(w)
    requires a.Finish? && w.queue != [] && w.queue[0].SweepCall? ==> a.ok
    ensures NoOrphan(Step(w, a))
  {
    StepKeepsIds(w, a);
    var w' := Step(w, a);
    match a
    case Start => StartStopsLast(w);
    case Stop =>
      if w.lease.None? { QuenchedByAppending(w.running, w.queue, StopCall(None)); }
      else { StopsLastByAppending(w, w.lease.value.id, StopCall(LeaseIdOf(w.lease)), w'); }
    case Sweep =>
      if Expired(w.lease, w.clock) { QuenchedByAppending(w.running, w.queue, SweepCall); }
    case Finish(ok, effect) =>
      if w.queue != [] {
        if w.lease.None? { QuenchedByFinishing(w.running, w.queue, ok, effect); }
        else { StopsLastByFinishing(w, w.lease.value.id, ok, effect); }
      }
    case Resume(captured) =>
    case Tick(ms) =>
  }

  // Every call the sweeper itself makes succeeds; users' starts and stops may fail.
  ghost predicate SweeperSucceeds(w: World, actions: seq<Action>)
    decreases |actions|
  {
    actions == [] ||
    (&& (actions[0].Finish? && w.queue != [] && w.queue[0].SweepCall? ==> actions[0].ok)
     && SweeperSucceeds(Step(w, actions[0]), actions[1..]))
  }

  lemma {:induction false} RunKeepsNoOrphan(w: World, actions: seq<Action>)
    requires NoOrphan(w) && SweeperSucceeds(w, actions)
    ensures NoOrphan(Run(w, actions))
    decreases |actions|
  {
    if actions != [] {
      StepKeepsNoOrphan(w, actions[0]);
      RunKeepsNoOrphan(Step(w, actions[0]), actions[1..]);
    }
  }

  // Even when starts and users' stops fail in any way, a running watcher has a lease, or a stop
  // of the sweeper is still queued with no start after it.
  lemma NoOrphanWatcher(actions: seq<Action>)
    requires SweeperSucceeds(INIT, actions)
    ensures var w := Run(INIT, actions);
      w.running ==>
        w.lease.Some? || exists i :: 0 <= i < |w.queue| && w.queue[i].SweepCall? && NoStarts(w.queue[i..])
  {
    RunKeepsNoOrphan(INIT, actions);
  }

  predicate OnlyFinishes(actions: seq<Action>) {
    forall a :: a in actions ==> a.Finish?
  }

  // The calls already queued can end, the sweeper's own successfully, so that the watcher is left
  // running with no lease and nothing queued.
  ghost predicate CanOrphan(w: World) {
    exists actions ::
      OnlyFinishes(actions) && SweeperSucceeds(w, actions) && Run(w, actions).queue == []
      && Run(w, actions).running && Run(w, actions).lease.None?
  }

  // The end that keeps the watcher on where it can.
  function WorstEnd(queue: seq<CmsCall>): seq<Action> {
    if queue == [] then []
    else [if queue[0].StopCall? then Finish(false, false) else Finish(true, true)] + WorstEnd(queue[1..])
  }

  lemma {:induction false} UnquenchedEndsRunning(w: World)
    requires w.lease.None? && !Quenched(w.running, w.queue)
    ensures var actions := WorstEnd(w.queue);
      && OnlyFinishes(actions) && SweeperSucceeds(w, actions) && Run(w, actions).queue == []
      && Run(w, actions).running && Run(w, actions).lease.None?
    decreases |w.queue|
  {
    if w.queue != [] {
      var actions := WorstEnd(w.queue);
      var w' := Step(w, actions[0]);
      assert actions[1..] == WorstEnd(w.queue[1..]);
      UnquenchedStays(w, w');
      UnquenchedEndsRunning(w');
    }
  }

  lemma UnquenchedStays(w: World, w': World)
    requires w.queue != [] && !Quenched(w.running, w.queue) && w' == Step(w, WorstEnd(w.queue)[0])
    ensures !Quenched(w'.running, w'.queue)
  {
    forall i | 0 <= i < |w'.queue| && w'.queue[i].SweepCall? ensures !NoStarts(w'.queue[i..]) {
      assert w.queue[i + 1].SweepCall? && w.queue[i + 1..] == w'.queue[i..];
    }
    if NoStarts(w'.queue) && !w.queue[0].StartCall? {
      assert NoStarts(w.queue);
      assert w.queue[0..] == w.queue;
    }
  }

  lemma {:induction false} QuenchedEndsStopped(w: World, actions: seq<Action>)
    requires w.lease.None? && Quenched(w.running, w.queue) && OnlyFinishes(actions) && SweeperSucceeds(w, actions)
    ensures Run(w, actions).queue == [] ==> !Run(w, actions).running
    decreases |actions|
  {
    if actions != [] {
      var a := actions[0];
      assert a in actions;
      if w.queue != [] { QuenchedByFinishing(w.running, w.queue, a.ok, a.effect); }
      QuenchedEndsStopped(Step(w, a), actions[1..]);
    }
  }

  // A watcher without a lease can be orphaned by what is queued exactly when it is not quenched.
  lemma CanOrphanIff(w: World)
    requires w.lease.None?
    ensures CanOrphan(w) <==> !Quenched(w.running, w.queue)
  {
    if !Quenched(w.running, w.queue) {
      UnquenchedEndsRunning(w);
    } else if CanOrphan(w) {
      var actions :| OnlyFinishes(actions) && SweeperSucceeds(w, actions) && Run(w, actions).queue == []
        && Run(w, actions).running && Run(w, actions).lease.None?;
      QuenchedEndsStopped(w, actions);
    }
  }

  // A failed stop of the sweeper orphans its watcher exactly when no lease was opened since, the
  // watcher still runs or a start is queued, and no other stop of the sweeper is queued behind
  // every start.
  lemma FailedSweepOrphansIff(w: World, effect: bool, w': World)
    requires NoOrphan(w) && w.queue != [] && w.queue[0].SweepCall? && w' == Step(w, Finish(false, effect))
    ensures NoOrphan(w') <==>
      || w.lease.Some?
      || ((!w.running || effect) && NoStarts(w.queue[1..]))
      || exists i :: 0 < i < |w.queue| && w.queue[i].SweepCall? && NoStarts(w.queue[i..])
    ensures w.lease.None? ==> (CanOrphan(w') <==> !NoOrphan(w'))
  {
    StepKeepsIds(w, Finish(false, effect));
    if w.lease.Some? {
      StopsLastByFinishing(w, w.lease.value.id, false, effect);
    } else {
      CanOrphanIff(w');
      forall i | 0 < i < |w.queue| ensures w.queue[i] == w'.queue[i - 1] && w.queue[i..] == w'.queue[i - 1..] {
      }
      if Quenched(w'.running, w'.queue) && (w'.running || !NoStarts(w'.queue)) {
        var j :| 0 <= j < |w'.queue| && w'.queue[j].SweepCall? && NoStarts(w'.queue[j..]);
        assert w.queue[j + 1].SweepCall?;
      }
    }
  }

  // The hypothesis is needed: a failed stop of the sweeper is not retried.
  lemma FailedSweepOrphansWatcher() returns (actions: seq<Action>)
    ensures var w := Run(INIT, actions);
      w.running && w.lease.None? && w.queue == [] && w.resuming == multiset{}
  {
    actions := [Start, Finish(true, true), Tick(LEASE_TTL_MS), Sweep, Finish(false, false)];
    var w1 := Step(INIT, Start);
    var w2 := Step(w1, Finish(true, true));
    var w3 := Step(w2, Tick(LEASE_TTL_MS));
    var w4 := Step(w3, Sweep);
    var w5 := Step(w4, Finish(false, false));
    assert w5.running && w5.lease.None? && w5.queue == [];
    assert Run(INIT, actions) == Run(w1, actions[1..]) == Run(w2, actions[1..][1..]);
    assert actions[1..][1..] == [Tick(LEASE_TTL_MS), Sweep, Finish(false, false)];
    assert Run(w2, [Tick(LEASE_TTL_MS), Sweep, Finish(false, false)]) == Run(w3, [Sweep, Finish(false, false)])
      == Run(w4, [Finish(false, false)]) == w5;
  }

  // The clock never passes the next sweep.
  ghost predicate SweptEvery(interval: int, w: World, actions: seq<Action>)
    decreases |actions|
  {
    actions == [] ||
    (&& Step(w, actions[0]).clock - Step(w, actions[0]).lastSweep <= interval
     && SweptEvery(interval, Step(w, actions[0]), actions[1..]))
  }

  ghost predicate FreshAtSweep(interval: int, w: World) {
    && w.lastSweep <= w.clock && w.clock - w.lastSweep <= interval
    && (w.lease.Some? ==> w.lastSweep - w.lease.value.renewedAt < LEASE_TTL_MS)
  }

  lemma StepKeepsFresh(interval: int, w: World, a: Action)
    requires FreshAtSweep(interval, w) && Step(w, a).clock - Step(w, a).lastSweep <= interval
    ensures FreshAtSweep(interval, Step(w, a))
  {
  }

  lemma {:induction false} RunKeepsFresh(interval: int, w: World, actions: seq<Action>)
    requires FreshAtSweep(interval, w) && SweptEvery(interval, w, actions)
    ensures FreshAtSweep(interval, Run(w, actions))
    decreases |actions|
  {
    if actions != [] {
      StepKeepsFresh(interval, w, actions[0]);
      RunKeepsFresh(interval, Step(w, actions[0]), actions[1..]);
    }
  }

  // With sweeps at most `interval` apart, no lease is ever TTL plus that interval old.
  lemma LeaseAgeIsBounded(interval: nat, actions: seq<Action>)
    requires SweptEvery(interval, INIT, actions)
    ensures var w := Run(INIT, actions);
      w.lease.Some? ==> w.clock - w.lease.value.renewedAt < 150 * 1000 + interval
  {
    RunKeepsFresh(interval, INIT, actions);
  }

  type Key = string

  // Everything about a key but its lease.
  datatype Calls = Calls(
    nextLease: nat, queue: seq<CmsCall>, resuming: multiset<Option<LeaseId>>, running: bool, last: Command)

  const QUIET: Calls := Calls(0, [], multiset{}, false, NoCommand)

  function SweptCalls(c: Calls): Calls {
    c.(queue := c.queue + [SweepCall], last := Swept)
  }

  function CallsAt(calls: map<Key, Calls>, key: Key): Calls {
    if key in calls then calls[key] else QUIET
  }

  function StateOf(clock: int, lastSweep: int, leases: map<Key, Lease>, calls: map<Key, Calls>, key: Key): World {
    var c := CallsAt(calls, key);
    World(clock, lastSweep, c.nextLease, Lookup(leases, key), c.queue, c.resuming, c.running, c.last)
  }

  function WithSwept(calls: map<Key, Calls>, keys: set<Key>): map<Key, Calls> {
    map k | k in calls.Keys + keys :: if k in keys then SweptCalls(CallsAt(calls, k)) else calls[k]
  }

  lemma WithSweptStep(calls: map<Key, Calls>, keys: set<Key>, key: Key)
    requires key !in keys
    ensures CallsAt(WithSwept(calls, keys), key) == CallsAt(calls, key)
    ensures WithSwept(calls, keys + {key}) == WithSwept(calls, keys)[key := SweptCalls(CallsAt(calls, key))]
  {
  }

  // A lease is dropped only if it is the one captured.
  function WithoutLease(leases: map<Key, Lease>, key: Key, captured: Option<LeaseId>): map<Key, Lease> {
    if key in leases && captured == Some(leases[key].id) then leases - {key} else leases
  }

  lemma ResumeIsStep(
    clock: int, lastSweep: int, leases: map<Key, Lease>, calls: map<Key, Calls>, key: Key, captured: Option<LeaseId>)
    requires captured in CallsAt(calls, key).resuming
    ensures var c := CallsAt(calls, key);
      var calls' := calls[key := c.(resuming := c.resuming - multiset{captured})];
      forall k :: StateOf(clock, lastSweep, WithoutLease(leases, key, captured), calls', k) ==
        if k == key then Step(StateOf(clock, lastSweep, leases, calls, k), Resume(captured))
        else StateOf(clock, lastSweep, leases, calls, k)
  {
  }

  // Sweeping all expired keys at once steps each key, expired or not.
  lemma SweepIsStep(clock: int, lastSweep: int, leases: map<Key, Lease>, calls: map<Key, Calls>, expired: set<Key>)
    requires expired == set key | key in leases && clock - leases[key].renewedAt >= LEASE_TTL_MS
    ensures forall key ::
      StateOf(clock, clock, leases - expired, WithSwept(calls, expired), key)
      == Step(StateOf(clock, lastSweep, leases, calls, key), Sweep)
  {
    forall key
      ensures StateOf(clock, clock, leases - expired, WithSwept(calls, expired), key)
        == Step(StateOf(clock, lastSweep, leases, calls, key), Sweep)
    {
      assert key in expired <==> Expired(Lookup(leases, key), clock);
    }
  }

  // The two maps of CmsConfigService. A method does to its own key what the machine's step
  // does, and nothing to any other key; a sweep steps every key at once.
  class StatdumpWatchers {
    var clock: int
    var lastSweep: int
    var leases: map<Key, Lease>
    var calls: map<Key, Calls>

    constructor ()
      ensures forall key :: State(key) == INIT
    {
      clock, lastSweep, leases, calls := 0, 0, map[], map[];
    }

    function State(key: Key): World
      reads this
    {
      StateOf(clock, lastSweep, leases, calls, key)
    }

    method StartStatDumpWatcher(key: Key)
      modifies this
      ensures forall k :: State(k) == if k == key then Step(old(State(k)), Start) else old(State(k))
    {
      var c := CallsAt(calls, key);
      leases := leases[key := Lease(c.nextLease, clock)];
      calls := calls[key := Calls(c.nextLease + 1, c.queue + [StartCall], c.resuming, c.running, Started)];
    }

    method StopStatDumpWatcher(key: Key) returns (captured: Option<LeaseId>)
      modifies this
      ensures forall k :: State(k) == if k == key then Step(old(State(k)), Stop) else old(State(k))
      ensures captured == LeaseIdOf(old(State(key)).lease)
    {
      captured := if key in leases then Some(leases[key].id) else None;
      var c := CallsAt(calls, key);
      calls := calls[key := c.(queue := c.queue + [StopCall(captured)], last := Stopped)];
    }

    // After the await of stopStatDumpWatcher.
    method StopResumes(key: Key, captured: Option<LeaseId>)
      requires captured in CallsAt(calls, key).resuming
      modifies this`leases, this`calls
      ensures forall k :: State(k) == if k == key then Step(old(State(k)), Resume(captured)) else old(State(k))
    {
      ResumeIsStep(clock, lastSweep, leases, calls, key, captured);
      var c := CallsAt(calls, key);
      calls := calls[key := c.(resuming := c.resuming - multiset{captured})];
      if key in leases && captured == Some(leases[key].id) { leases := leases - {key}; }
    }

    method SweepExpiredStatdumpLeases()
      modifies this
      ensures forall k :: State(k) == Step(old(State(k)), Sweep)
    {
      lastSweep := clock;
      var expired := set key | key in leases && clock - leases[key].renewedAt >= LEASE_TTL_MS;
      var todo := expired;
      ghost var leases0, calls0, swept := leases, calls, {};
      while todo != {}
        invariant lastSweep == clock == old(clock) && swept == expired - todo && todo <= expired
        invariant leases == leases0 - swept && calls == WithSwept(calls0, swept)
        decreases todo
      {
        var key :| key in todo;
        WithSweptStep(calls0, swept, key);
        leases := leases - {key};
        calls := calls[key := SweptCalls(CallsAt(calls, key))];
        todo, swept := todo - {key}, swept + {key};
      }
      SweepIsStep(clock, old(lastSweep), leases0, calls0, expired);
    }
  }
}
