// Two ways of queueing calls on promise chains, and the FIFO mutex both refine.
//
// withHostQueue chains `await pending` and settles, releases and cleans up in one finally
// block. serializeStatdumpCall chains catch/then; its call settles, its tail resolves and its
// map entry is dropped in separate microtasks, between which anything else may run. The
// machine has those three as separate steps, so it runs either queue, or both.
module PromiseQueues {
  import opened Common

  type Key = string

  // A call is named by its position among all calls in the order they were made.
  type CallId = nat

  // A promise that has settled.
  datatype Promise = Fulfilled | Rejected

  // `p.catch(() => undefined)`.
  function Catch(p: Promise): Promise {
    Fulfilled
  }

  // Which code the call goes through: withHostQueue or serializeStatdumpCall.
  datatype Queue = HostQueue | StatdumpQueue

  // What keeps a throwing body from stopping the calls behind it: `next` is resolved in a finally
  // block; serializeStatdumpCall catches what the previous promise may reject with, and puts a
  // caught promise in the map. The source has all three.
  datatype Guards = Guards(resolvesFinally: bool, catchesPrevious: bool, catchesTail: bool)

  const SOURCE: Guards := Guards(true, true, true)

  // A settled call has a result, which its caller awaits; a released one has settled the promise
  // in the map, too. `skipped` is a call whose body was never run.
  datatype Phase =
    | Waiting
    | Running
    | Settled(skipped: bool, result: Promise)
    | Released(skipped: bool, tail: Promise)

  // `after` is the call whose promise this one waits for: the map entry found on arrival.
  datatype Call = Call(key: Key, queue: Queue, after: Option<CallId>, phase: Phase)

  // What the body is chained to: `await pending`, or `previous.catch(...).then(call)`.
  function Awaited(queue: Queue, tail: Promise, g: Guards): Promise {
    if queue.StatdumpQueue? && g.catchesPrevious then Catch(tail) else tail
  }

  // The promise in the map: `next`, which is only ever resolved, or `current.catch(...)`.
  function TailOf(queue: Queue, result: Promise, g: Guards): Promise {
    if queue.HostQueue? then Fulfilled else if g.catchesTail then Catch(result) else result
  }

  // Whether `next` is resolved at all once the body has settled.
  predicate Resolves(queue: Queue, result: Promise, g: Guards) {
    queue.HostQueue? && result.Rejected? ==> g.resolvesFinally
  }

  // A call chained to a rejected promise rejects in turn without running its body.
  function Begun(awaited: Promise): Phase {
    match awaited
    case Fulfilled => Running
    case Rejected => Settled(true, Rejected)
  }

  function Thrown(threw: bool): Promise {
    if threw then Rejected else Fulfilled
  }

  datatype World = World(calls: seq<Call>, tails: map<Key, CallId>)

  const INIT: World := World([], map[])

  datatype Action =
    | Enqueue(key: Key, queue: Queue)
    | Start(id: CallId)
    | Settle(id: CallId, threw: bool)
    | Release(id: CallId)
    | Cleanup(id: CallId)

  predicate IsReleased(calls: seq<Call>, id: CallId) {
    id < |calls| && calls[id].phase.Released?
  }

  predicate CanStart(w: World, id: CallId) {
    && id < |w.calls| && w.calls[id].phase.Waiting?
    && (w.calls[id].after.Some? ==> IsReleased(w.calls, w.calls[id].after.value))
  }

  predicate Enabled(w: World, a: Action, g: Guards := SOURCE) {
    match a
    case Enqueue(_, _) => true
    case Start(id) => CanStart(w, id)
    case Settle(id, _) => id < |w.calls| && w.calls[id].phase.Running?
    case Release(id) =>
      id < |w.calls| && w.calls[id].phase.Settled? && Resolves(w.calls[id].queue, w.calls[id].phase.result, g)
    case Cleanup(id) => IsReleased(w.calls, id)
  }

  // The promise call id is chained to; Promise.resolve() when it found no entry.
  function AwaitedBy(calls: seq<Call>, id: CallId, g: Guards): Promise
    requires id < |calls| && (calls[id].after.Some? ==> IsReleased(calls, calls[id].after.value))
  {
    Awaited(calls[id].queue, if calls[id].after.Some? then calls[calls[id].after.value].phase.tail else Fulfilled, g)
  }

  function WithPhase(calls: seq<Call>, id: CallId, phase: Phase): seq<Call>
    requires id < |calls|
  {
    calls[id := calls[id].(phase := phase)]
  }

  function ReleasedPhase(c: Call, g: Guards := SOURCE): Phase
    requires c.phase.Settled?
  {
    Released(c.phase.skipped, TailOf(c.queue, c.phase.result, g))
  }

  function Step(w: World, a: Action, g: Guards := SOURCE): World {
    if !Enabled(w, a, g) then w
    else
      match a
      case Enqueue(key, queue) =>
        World(w.calls + [Call(key, queue, Lookup(w.tails, key), Waiting)], w.tails[key := |w.calls|])
      case Start(id) => w.(calls := WithPhase(w.calls, id, Begun(AwaitedBy(w.calls, id, g))))
      case Settle(id, threw) => w.(calls := WithPhase(w.calls, id, Settled(false, Thrown(threw))))
      case Release(id) => w.(calls := WithPhase(w.calls, id, ReleasedPhase(w.calls[id], g)))
      case Cleanup(id) =>
        var key := w.calls[id].key;
        if key in w.tails && w.tails[key] == id then w.(tails := w.tails - {key}) else w
  }

  function Run(w: World, actions: seq<Action>, g: Guards := SOURCE): World
    decreases |actions|
  {
    if actions == [] then w else Run(Step(w, actions[0], g), actions[1..], g)
  }

  // The finally block of withHostQueue.
  function HostFinally(id: CallId, threw: bool): seq<Action> {
    [Settle(id, threw), Release(id), Cleanup(id)]
  }

  // Every earlier call for the same key has been released.
  ghost predicate Cleared(calls: seq<Call>, id: CallId)
    requires id <= |calls|
  {
    id < |calls| ==> forall d :: 0 <= d < id && calls[d].key == calls[id].key ==> calls[d].phase.Released?
  }

  ghost predicate LastOf(calls: seq<Call>, key: Key, id: CallId) {
    && id < |calls| && calls[id].key == key
    && forall d :: id < d < |calls| ==> calls[d].key != key
  }

  // A call waits for its immediate predecessor; one that found no entry has nothing to wait for.
  ghost predicate Chained(calls: seq<Call>, id: CallId)
    requires id < |calls|
  {
    match calls[id].after
    case None => Cleared(calls, id)
    case Some(p) =>
      && p < id && calls[p].key == calls[id].key
      && forall d :: p < d < id ==> calls[d].key != calls[id].key
  }

  // The body is run, and the promise in the map never rejects.
  predicate Undeterred(p: Phase) {
    match p
    case Settled(skipped, _) => !skipped
    case Released(skipped, tail) => !skipped && tail.Fulfilled?
    case _ => true
  }

  ghost predicate Inv(w: World) {
    && (forall id: CallId :: id < |w.calls| ==> Chained(w.calls, id))
    && (forall id: CallId :: id < |w.calls| && !w.calls[id].phase.Waiting? ==> Cleared(w.calls, id))
    && (forall key :: key in w.tails ==> LastOf(w.calls, key, w.tails[key]))
    && (forall id: CallId :: id < |w.calls| && w.calls[id].key !in w.tails ==> w.calls[id].phase.Released?)
    && (forall id: CallId :: id < |w.calls| ==> Undeterred(w.calls[id].phase))
  }

  // A phase only moves forward: what holds of the released calls stays.
  lemma PhaseKeepsInv(w: World, id: CallId, phase: Phase)
    requires Inv(w) && id < |w.calls| && !w.calls[id].phase.Released? && !phase.Waiting?
    requires Cleared(w.calls, id) && Undeterred(phase)
    ensures Inv(w.(calls := WithPhase(w.calls, id, phase)))
  {
    var calls := WithPhase(w.calls, id, phase);
    forall i: CallId | i < |calls| ensures Chained(calls, i) {
      assert Chained(w.calls, i);
    }
    forall i: CallId | i < |calls| && !calls[i].phase.Waiting? ensures Cleared(calls, i) {
      assert Cleared(w.calls, i);
    }
  }

  // A call that can start is preceded only by released calls of its key.
  lemma StartsCleared(w: World, id: CallId)
    requires Inv(w) && CanStart(w, id)
    ensures Cleared(w.calls, id)
  {
    assert Chained(w.calls, id);
    if w.calls[id].after.Some? {
      assert Cleared(w.calls, w.calls[id].after.value);
    }
  }

  // Neither queue ever chains a call to a rejected promise.
  lemma StartsRunning(w: World, id: CallId)
    requires Inv(w) && CanStart(w, id)
    ensures Step(w, Start(id)) == w.(calls := WithPhase(w.calls, id, Running))
  {
  }

  lemma EnqueueKeepsInv(w: World, key: Key, queue: Queue)
    requires Inv(w)
    ensures Inv(Step(w, Enqueue(key, queue)))
  {
    var w' := Step(w, Enqueue(key, queue));
    forall i: CallId | i < |w'.calls| ensures Chained(w'.calls, i) {
      if i < |w.calls| { assert Chained(w.calls, i); }
    }
    forall i: CallId | i < |w'.calls| && !w'.calls[i].phase.Waiting? ensures Cleared(w'.calls, i) {
      assert Cleared(w.calls, i);
    }
  }

  lemma CleanupKeepsInv(w: World, id: CallId)
    requires Inv(w)
    ensures Inv(Step(w, Cleanup(id)))
  {
    if IsReleased(w.calls, id) {
      assert Cleared(w.calls, id);
      var key := w.calls[id].key;
      if key in w.tails && w.tails[key] == id { assert LastOf(w.calls, key, id); }
    }
  }

  lemma StepKeepsInv(w: World, a: Action)
    requires Inv(w)
    ensures Inv(Step(w, a))
  {
    if Enabled(w, a) {
      match a
      case Enqueue(key, queue) => EnqueueKeepsInv(w, key, queue);
      case Start(id) => StartsCleared(w, id); StartsRunning(w, id); PhaseKeepsInv(w, id, Running);
      case Settle(id, threw) => PhaseKeepsInv(w, id, Settled(false, Thrown(threw)));
      case Release(id) => PhaseKeepsInv(w, id, ReleasedPhase(w.calls[id]));
      case Cleanup(id) => CleanupKeepsInv(w, id);
    }
  }

  lemma {:induction false} RunKeepsInv(w: World, actions: seq<Action>)
    requires Inv(w)
    ensures Inv(Run(w, actions))
    decreases |actions|
  {
    if actions != [] {
      StepKeepsInv(w, actions[0]);
      RunKeepsInv(Step(w, actions[0]), actions[1..]);
    }
  }

  ghost predicate AtMostOneRuns(calls: seq<Call>) {
    forall c: CallId, d: CallId :: c < |calls| && d < |calls| && calls[c].key == calls[d].key ==>
      calls[c].phase.Running? && calls[d].phase.Running? ==> c == d
  }

  lemma OnlyOneRuns(w: World)
    requires Inv(w)
    ensures AtMostOneRuns(w.calls)
  {
    forall c: CallId, d: CallId | d < c < |w.calls| && w.calls[c].key == w.calls[d].key && w.calls[c].phase.Running?
      ensures !w.calls[d].phase.Running?
    {
      assert Cleared(w.calls, c);
    }
  }

  // In every run: at most one body per key runs at a time; bodies start in the order of
  // arrival, each after every earlier one was released; and a key without a map entry has no
  // unfinished call, wherever an arrival falls between a call's end and its cleanup.
  lemma OneBodyAtATimeInOrder(actions: seq<Action>)
    ensures var w := Run(INIT, actions);
      && AtMostOneRuns(w.calls)
      && (forall c: CallId, d: CallId :: d < c < |w.calls| && w.calls[c].key == w.calls[d].key ==>
            w.calls[c].phase.Waiting? || w.calls[d].phase.Released?)
      && (forall c: CallId :: c < |w.calls| && w.calls[c].key !in w.tails ==> w.calls[c].phase.Released?)
  {
    RunKeepsInv(INIT, actions);
    var w := Run(INIT, actions);
    OnlyOneRuns(w);
    forall c: CallId, d: CallId | d < c < |w.calls| && w.calls[c].key == w.calls[d].key
      ensures w.calls[c].phase.Waiting? || w.calls[d].phase.Released?
    {
      assert w.calls[c].phase.Waiting? || Cleared(w.calls, c);
    }
  }

  // The FIFO mutex of one key.
  datatype Mutex = Mutex(holder: Option<CallId>, waiting: seq<CallId>)

  datatype MutexAction = Arrive(id: CallId) | Enter(id: CallId) | Leave(id: CallId) | Stutter

  const FREE: Mutex := Mutex(None, [])

  function MutexStep(m: Mutex, a: MutexAction): Mutex {
    match a
    case Arrive(id) => m.(waiting := m.waiting + [id])
    case Enter(id) =>
      if m.holder.None? && m.waiting != [] && m.waiting[0] == id then Mutex(Some(id), m.waiting[1..]) else m
    case Leave(id) => if m.holder == Some(id) then m.(holder := None) else m
    case Stutter => m
  }

  function MutexRun(m: Mutex, actions: seq<MutexAction>): Mutex
    decreases |actions|
  {
    if actions == [] then m else MutexRun(MutexStep(m, actions[0]), actions[1..])
  }

  function RunningOf(calls: seq<Call>, key: Key): Option<CallId> {
    if calls == [] then None
    else
      var last := |calls| - 1;
      if calls[last].key == key && calls[last].phase.Running? then Some(last) else RunningOf(calls[..last], key)
  }

  function WaitingOf(calls: seq<Call>, key: Key): seq<CallId> {
    if calls == [] then []
    else
      var last := |calls| - 1;
      WaitingOf(calls[..last], key) + (if calls[last].key == key && calls[last].phase.Waiting? then [last] else [])
  }

  function Abs(w: World, key: Key): Mutex {
    Mutex(RunningOf(w.calls, key), WaitingOf(w.calls, key))
  }

  // What a step means to the mutex of a key.
  function View(w: World, a: Action, key: Key): MutexAction {
    if !Enabled(w, a) then Stutter
    else
      match a
      case Enqueue(k, _) => if k == key then Arrive(|w.calls|) else Stutter
      case Start(id) => if w.calls[id].key == key then Enter(id) else Stutter
      case Settle(id, _) => if w.calls[id].key == key then Leave(id) else Stutter
      case Release(_) => Stutter
      case Cleanup(_) => Stutter
  }

  function Views(w: World, actions: seq<Action>, key: Key): seq<MutexAction>
    decreases |actions|
  {
    if actions == [] then [] else [View(w, actions[0], key)] + Views(Step(w, actions[0]), actions[1..], key)
  }

  // Changing one call changes the abstraction of its key alone, and there only as `Of` says.
  lemma {:induction false} WaitingAfter(calls: seq<Call>, key: Key, id: CallId, phase: Phase)
    requires id < |calls| && !phase.Waiting?
    ensures !(calls[id].key == key && calls[id].phase.Waiting?) ==>
      WaitingOf(WithPhase(calls, id, phase), key) == WaitingOf(calls, key)
    ensures calls[id].key == key && calls[id].phase.Waiting? && Cleared(calls, id) ==>
      WaitingOf(calls, key) == [id] + WaitingOf(WithPhase(calls, id, phase), key)
    decreases |calls|
  {
    var last := |calls| - 1;
    var calls' := WithPhase(calls, id, phase);
    if id == last {
      assert calls'[..last] == calls[..last];
      if calls[id].key == key && Cleared(calls, id) { NoneWaiting(calls[..last], key); }
    } else {
      assert calls'[..last] == WithPhase(calls[..last], id, phase);
      WaitingAfter(calls[..last], key, id, phase);
    }
  }

  lemma {:induction false} NoneWaiting(calls: seq<Call>, key: Key)
    requires forall d :: 0 <= d < |calls| && calls[d].key == key ==> calls[d].phase.Released?
    ensures WaitingOf(calls, key) == [] && RunningOf(calls, key) == None
    decreases |calls|
  {
    if calls != [] { NoneWaiting(calls[..|calls| - 1], key); }
  }

  lemma {:induction false} RunningIs(calls: seq<Call>, key: Key)
    ensures var r := RunningOf(calls, key);
      if r.Some? then
        r.value < |calls| && calls[r.value].key == key && calls[r.value].phase.Running?
      else forall d :: 0 <= d < |calls| && calls[d].key == key ==> !calls[d].phase.Running?
    decreases |calls|
  {
    if calls != [] { RunningIs(calls[..|calls| - 1], key); }
  }

  lemma RunningAfter(calls: seq<Call>, key: Key, id: CallId, phase: Phase)
    requires id < |calls| && AtMostOneRuns(calls) && AtMostOneRuns(WithPhase(calls, id, phase))
    ensures RunningOf(WithPhase(calls, id, phase), key) ==
      if calls[id].key != key then RunningOf(calls, key)
      else if phase.Running? then Some(id)
      else if calls[id].phase.Running? then None
      else RunningOf(calls, key)
  {
    var calls' := WithPhase(calls, id, phase);
    RunningIs(calls, key);
    RunningIs(calls', key);
    var r, r' := RunningOf(calls, key), RunningOf(calls', key);
    assert calls'[id] == calls[id].(phase := phase);
    assert r.Some? && r.value != id ==> calls'[r.value] == calls[r.value];
    assert r'.Some? && r'.value != id ==> calls[r'.value] == calls'[r'.value];
  }

  // At the moment a body starts, no body of its key runs.
  lemma EntersFree(w: World, id: CallId)
    requires Inv(w) && CanStart(w, id)
    ensures RunningOf(w.calls, w.calls[id].key) == None
  {
    var key := w.calls[id].key;
    StartsCleared(w, id);
    RunningIs(w.calls, key);
    var r := RunningOf(w.calls, key);
    assert r.Some? ==> Cleared(w.calls, r.value);
  }

  lemma StartRefines(w: World, w': World, id: CallId, key: Key)
    requires Inv(w) && Inv(w') && CanStart(w, id) && w' == Step(w, Start(id))
    ensures Abs(w', key) == MutexStep(Abs(w, key), View(w, Start(id), key))
  {
    StartsCleared(w, id);
    StartsRunning(w, id);
    EntersFree(w, id);
    OnlyOneRuns(w);
    OnlyOneRuns(w');
    RunningAfter(w.calls, key, id, Running);
    WaitingAfter(w.calls, key, id, Running);
  }

  lemma EndRefines(w: World, w': World, id: CallId, phase: Phase, key: Key)
    requires Inv(w) && Inv(w') && id < |w.calls| && w' == w.(calls := WithPhase(w.calls, id, phase))
    requires !w.calls[id].phase.Waiting? && !phase.Waiting? && !phase.Running?
    ensures Abs(w', key) ==
      if w.calls[id].key == key && w.calls[id].phase.Running? then Abs(w, key).(holder := None) else Abs(w, key)
    ensures w.calls[id].phase.Running? ==> Abs(w, w.calls[id].key).holder == Some(id)
  {
    OnlyOneRuns(w);
    OnlyOneRuns(w');
    RunningAfter(w.calls, key, id, phase);
    WaitingAfter(w.calls, key, id, phase);
    RunningIs(w.calls, w.calls[id].key);
  }

  lemma ArrivalRefines(w: World, k: Key, queue: Queue, key: Key)
    ensures Abs(Step(w, Enqueue(k, queue)), key) == MutexStep(Abs(w, key), View(w, Enqueue(k, queue), key))
  {
    assert Step(w, Enqueue(k, queue)).calls[..|w.calls|] == w.calls;
  }

  lemma StepRefines(w: World, a: Action, key: Key)
    requires Inv(w)
    ensures Abs(Step(w, a), key) == MutexStep(Abs(w, key), View(w, a, key))
  {
    if Enabled(w, a) {
      var w' := Step(w, a);
      StepKeepsInv(w, a);
      match a
      case Enqueue(k, queue) => ArrivalRefines(w, k, queue, key);
      case Start(id) => StartRefines(w, w', id, key);
      case Settle(id, threw) => EndRefines(w, w', id, Settled(false, Thrown(threw)), key);
      case Release(id) => EndRefines(w, w', id, ReleasedPhase(w.calls[id]), key);
      case Cleanup(id) =>
    }
  }

  // Every run of either queue is, key by key, a run of the FIFO mutex.
  lemma {:induction false} RunRefines(w: World, actions: seq<Action>, key: Key)
    requires Inv(w)
    ensures Abs(Run(w, actions), key) == MutexRun(Abs(w, key), Views(w, actions, key))
    decreases |actions|
  {
    if actions != [] {
      StepKeepsInv(w, actions[0]);
      StepRefines(w, actions[0], key);
      RunRefines(Step(w, actions[0]), actions[1..], key);
    }
  }

  lemma QueuesRefineFifoMutex(actions: seq<Action>, key: Key)
    ensures Abs(Run(INIT, actions), key) == MutexRun(FREE, Views(INIT, actions, key))
  {
    RunRefines(INIT, actions, key);
  }

  // In every run, whatever bodies throw: no promise in the map is ever rejected, so no call is
  // ever skipped.
  lemma NoTailRejects(actions: seq<Action>)
    ensures var w := Run(INIT, actions);
      forall id: CallId :: id < |w.calls| ==>
        && (w.calls[id].phase.Released? ==> w.calls[id].phase.tail.Fulfilled?)
        && (w.calls[id].phase.Settled? || w.calls[id].phase.Released? ==> !w.calls[id].phase.skipped)
  {
    RunKeepsInv(INIT, actions);
  }

  // No body has been skipped, and no call has settled whose successors wait forever.
  ghost predicate NoneBarred(w: World, g: Guards) {
    forall id: CallId :: id < |w.calls| ==>
      match w.calls[id].phase
      case Settled(skipped, result) => !skipped && Resolves(w.calls[id].queue, result, g)
      case Released(skipped, _) => !skipped
      case _ => true
  }

  ghost predicate Arrivals(actions: seq<Action>, queue: Queue) {
    forall a :: a in actions && a.Enqueue? ==> a.queue == queue
  }

  // The calls of one queue, none of which is barred; a released one lets those behind it run.
  ghost predicate Flowing(w: World, queue: Queue, g: Guards) {
    && NoneBarred(w, g)
    && forall id: CallId :: id < |w.calls| ==>
         && w.calls[id].queue == queue
         && (w.calls[id].phase.Released? ==> Awaited(queue, w.calls[id].phase.tail, g).Fulfilled?)
  }

  predicate Guarded(queue: Queue, g: Guards) {
    match queue
    case HostQueue => g.resolvesFinally
    case StatdumpQueue => g.catchesPrevious || g.catchesTail
  }

  lemma StepKeepsFlowing(w: World, a: Action, queue: Queue, g: Guards)
    requires Flowing(w, queue, g) && Guarded(queue, g) && (a.Enqueue? ==> a.queue == queue)
    ensures Flowing(Step(w, a, g), queue, g)
  {
  }

  lemma {:induction false} RunKeepsFlowing(w: World, actions: seq<Action>, queue: Queue, g: Guards)
    requires Flowing(w, queue, g) && Guarded(queue, g) && Arrivals(actions, queue)
    ensures Flowing(Run(w, actions, g), queue, g)
    decreases |actions|
  {
    if actions != [] {
      assert actions[0] in actions;
      StepKeepsFlowing(w, actions[0], queue, g);
      RunKeepsFlowing(Step(w, actions[0], g), actions[1..], queue, g);
    }
  }

  // A throwing body of withHostQueue whose `next` is not resolved in a finally block.
  lemma UnresolvedBars(key: Key, g: Guards) returns (actions: seq<Action>)
    requires !g.resolvesFinally
    ensures Arrivals(actions, HostQueue) && !NoneBarred(Run(INIT, actions, g), g)
  {
    actions := [Enqueue(key, HostQueue), Start(0), Settle(0, true)];
    var w1 := World([Call(key, HostQueue, None, Waiting)], map[key := 0]);
    assert Step(INIT, actions[0], g) == w1;
    var w3 := Step(Step(w1, Start(0), g), Settle(0, true), g);
    assert w3.calls[0] == Call(key, HostQueue, None, Settled(false, Rejected));
    assert Run(INIT, actions, g) == Run(w1, [Start(0), Settle(0, true)], g) == w3;
  }

  // Two calls of serializeStatdumpCall, the first throwing, with neither catch in place.
  lemma UncaughtBars(key: Key, g: Guards) returns (actions: seq<Action>)
    requires !g.catchesPrevious && !g.catchesTail
    ensures Arrivals(actions, StatdumpQueue) && !NoneBarred(Run(INIT, actions, g), g)
  {
    var arrive := Enqueue(key, StatdumpQueue);
    var first := Call(key, StatdumpQueue, None, Waiting);
    var w1 := World([first], map[key := 0]);
    var w2 := World([first, Call(key, StatdumpQueue, Some(0), Waiting)], map[key := 1]);
    var w5 := w2.(calls := w2.calls[0 := first.(phase := Released(false, Rejected))]);
    actions := [arrive, arrive, Start(0), Settle(0, true), Release(0), Start(1)];
    assert Step(INIT, arrive, g) == w1 && Step(w1, arrive, g) == w2;
    FirstRejects(w2, first, g);
    assert Run(INIT, actions, g) == Run(w1, actions[1..], g) == Run(w2, actions[1..][1..], g);
    assert actions[1..][1..] == [Start(0), Settle(0, true), Release(0), Start(1)];
    assert Step(w5, Start(1), g).calls[1].phase == Settled(true, Rejected);
  }

  lemma FirstRejects(w: World, first: Call, g: Guards)
    requires w.calls != [] && w.calls[0] == first && first.queue.StatdumpQueue? && !g.catchesTail
    requires first.after.None? && first.phase.Waiting?
    ensures Run(w, [Start(0), Settle(0, true), Release(0), Start(1)], g)
      == Step(w.(calls := w.calls[0 := first.(phase := Released(false, Rejected))]), Start(1), g)
  {
    var w1 := Step(w, Start(0), g);
    var w2 := Step(w1, Settle(0, true), g);
    var w3 := Step(w2, Release(0), g);
    assert w1.calls == w.calls[0 := first.(phase := Running)];
    assert w2.calls == w.calls[0 := first.(phase := Settled(false, Rejected))];
    assert w3.calls == w.calls[0 := first.(phase := Released(false, Rejected))];
    assert Run(w, [Start(0), Settle(0, true), Release(0), Start(1)], g)
      == Run(w1, [Settle(0, true), Release(0), Start(1)], g) == Run(w2, [Release(0), Start(1)], g)
      == Run(w3, [Start(1)], g) == Run(Step(w3, Start(1), g), [], g);
  }

  // What each queue owes to which of its guards: in all its runs no call is barred exactly when
  // withHostQueue resolves in the finally block, and when serializeStatdumpCall has one of its two
  // catches; it has both.
  lemma NoneBarredIff(queue: Queue, g: Guards)
    ensures (forall actions :: Arrivals(actions, queue) ==> NoneBarred(Run(INIT, actions, g), g))
      <==> Guarded(queue, g)
  {
    if Guarded(queue, g) {
      forall actions | Arrivals(actions, queue) ensures NoneBarred(Run(INIT, actions, g), g) {
        RunKeepsFlowing(INIT, actions, queue, g);
      }
    } else if queue.HostQueue? {
      var actions := UnresolvedBars("", g);
    } else {
      var actions := UncaughtBars("", g);
    }
  }

  // The worlds up to what the callers are told.
  function PhaseForgetting(p: Phase): Phase {
    match p
    case Settled(skipped, _) => Settled(skipped, Fulfilled)
    case _ => p
  }

  function CallsForgetting(calls: seq<Call>): seq<Call> {
    seq(|calls|, i requires 0 <= i < |calls| => calls[i].(phase := PhaseForgetting(calls[i].phase)))
  }

  function WorldForgetting(w: World): World {
    w.(calls := CallsForgetting(w.calls))
  }

  function ActionForgetting(a: Action): Action {
    if a.Settle? then a.(threw := false) else a
  }

  function ActionsForgetting(actions: seq<Action>): seq<Action> {
    if actions == [] then [] else [ActionForgetting(actions[0])] + ActionsForgetting(actions[1..])
  }

  lemma ForgettingKeepsInv(w: World)
    requires Inv(w)
    ensures Inv(WorldForgetting(w))
  {
    var calls := WorldForgetting(w).calls;
    forall id: CallId | id < |calls| ensures Chained(calls, id) { assert Chained(w.calls, id); }
    forall id: CallId | id < |calls| && !calls[id].phase.Waiting? ensures Cleared(calls, id) {
      assert Cleared(w.calls, id);
    }
    forall key | key in w.tails ensures LastOf(calls, key, w.tails[key]) {
      assert LastOf(w.calls, key, w.tails[key]);
    }
  }

  lemma ForgettingStart(w: World, id: CallId)
    requires Inv(w) && CanStart(w, id)
    ensures WorldForgetting(Step(w, Start(id))) == Step(WorldForgetting(w), Start(id))
  {
    ForgettingKeepsInv(w);
    StartsRunning(w, id);
    StartsRunning(WorldForgetting(w), id);
    assert CallsForgetting(WithPhase(w.calls, id, Running)) == WithPhase(CallsForgetting(w.calls), id, Running);
  }

  lemma ForgettingStep(w: World, a: Action)
    requires Inv(w)
    ensures WorldForgetting(Step(w, a)) == Step(WorldForgetting(w), ActionForgetting(a))
  {
    var u, b := WorldForgetting(w), ActionForgetting(a);
    assert Enabled(u, b) == Enabled(w, a);
    if Enabled(w, a) {
      if a.Start? { ForgettingStart(w, a.id); }
      else { assert CallsForgetting(Step(w, a).calls) == Step(u, b).calls; }
    }
  }

  // A run in which any bodies throw goes as the run in which none does: the same bodies start, in
  // the same order, and the same promises and map entries are left. Only callers see a difference.
  lemma {:induction false} ThrowingNeverBlocks(w: World, actions: seq<Action>)
    requires Inv(w)
    ensures WorldForgetting(Run(w, actions)) == Run(WorldForgetting(w), ActionsForgetting(actions))
    decreases |actions|
  {
    if actions != [] {
      ForgettingStep(w, actions[0]);
      StepKeepsInv(w, actions[0]);
      ThrowingNeverBlocks(Step(w, actions[0]), actions[1..]);
      var rest := ActionsForgetting(actions);
      assert rest[0] == ActionForgetting(actions[0]) && rest[1..] == ActionsForgetting(actions[1..]);
    }
  }

  // The moves left to a call whose turn has come; none of them is an arrival.
  function Turn(phase: Phase, id: CallId): seq<Action> {
    match phase
    case Waiting => [Start(id), Settle(id, true), Release(id)]
    case Running => [Settle(id, true), Release(id)]
    case Settled(_, _) => [Release(id)]
    case Released(_, _) => []
  }

  lemma {:induction false} RunSplits(w: World, first: seq<Action>, rest: seq<Action>)
    ensures Run(w, first + rest) == Run(Run(w, first), rest)
    decreases |first|
  {
    if first == [] {
      assert first + rest == rest;
    } else {
      assert (first + rest)[1..] == first[1..] + rest;
      RunSplits(Step(w, first[0]), first[1..], rest);
    }
  }

  lemma TurnReleases(w: World, id: CallId)
    requires Inv(w) && id < |w.calls| && (w.calls[id].phase.Waiting? ==> CanStart(w, id))
    ensures IsReleased(Run(w, Turn(w.calls[id].phase, id)).calls, id)
  {
    var phase := w.calls[id].phase;
    var moves := Turn(phase, id);
    var w1 := if phase.Waiting? then Step(w, Start(id)) else w;
    var w2 := if phase.Waiting? || phase.Running? then Step(w1, Settle(id, true)) else w;
    var w3 := if phase.Released? then w else Step(w2, Release(id));
    if phase.Waiting? {
      StartsRunning(w, id);
      assert Run(w, moves) == Run(w1, [Settle(id, true), Release(id)]) == Run(w2, [Release(id)]) == Run(w3, []);
    } else if phase.Running? {
      assert Run(w, moves) == Run(w2, [Release(id)]) == Run(w3, []);
    } else {
      assert Run(w, moves) == w3;
    }
  }

  lemma {:induction false} AfterIsFixed(w: World, actions: seq<Action>, id: CallId)
    requires id < |w.calls|
    ensures var w' := Run(w, actions);
      && id < |w'.calls| && w'.calls[id].after == w.calls[id].after
      && (w.calls[id].phase.Waiting? || !w'.calls[id].phase.Waiting?)
    decreases |actions|
  {
    if actions != [] { AfterIsFixed(Step(w, actions[0]), actions[1..], id); }
  }

  // No call is ever stuck: from any state a run can reach, and whatever threw before, moves of
  // already queued calls alone (the bodies throwing, at worst) release it.
  lemma {:induction false} EveryCallGetsItsTurn(w: World, id: CallId) returns (moves: seq<Action>)
    requires Inv(w) && id < |w.calls|
    ensures forall a :: a in moves ==> !a.Enqueue?
    ensures IsReleased(Run(w, moves).calls, id)
    decreases id
  {
    assert Chained(w.calls, id);
    moves := [];
    if w.calls[id].after.Some? { moves := EveryCallGetsItsTurn(w, w.calls[id].after.value); }
    var w' := Run(w, moves);
    RunKeepsInv(w, moves);
    AfterIsFixed(w, moves, id);
    TurnReleases(w', id);
    RunSplits(w, moves, Turn(w'.calls[id].phase, id));
    moves := moves + Turn(w'.calls[id].phase, id);
  }

  // The end of every call, in the order they were made.
  function Cleanups(n: nat): seq<Action> {
    if n == 0 then [] else Cleanups(n - 1) + [Cleanup(n - 1)]
  }

  lemma {:induction false} CleanedUp(w: World, n: nat)
    requires (forall id: CallId :: id < |w.calls| ==> w.calls[id].phase.Released?) && n <= |w.calls|
    requires forall key :: key in w.tails ==> w.tails[key] < |w.calls| && w.calls[w.tails[key]].key == key
    ensures var w' := Run(w, Cleanups(n));
      w'.calls == w.calls && forall key :: key in w'.tails ==> key in w.tails && n <= w'.tails[key] == w.tails[key]
  {
    if n > 0 {
      CleanedUp(w, n - 1);
      RunSplits(w, Cleanups(n - 1), [Cleanup(n - 1)]);
      var v := Run(w, Cleanups(n - 1));
      assert Run(v, [Cleanup(n - 1)]) == Run(Step(v, Cleanup(n - 1)), []);
    }
  }

  // No entry is left behind: once every call is released and has cleaned up, the map is empty.
  lemma NothingIsLeftBehind(actions: seq<Action>, w: World)
    requires w == Run(INIT, actions) && forall id: CallId :: id < |w.calls| ==> w.calls[id].phase.Released?
    ensures Run(w, Cleanups(|w.calls|)).tails == map[]
  {
    RunKeepsInv(INIT, actions);
    forall key | key in w.tails ensures w.tails[key] < |w.calls| && w.calls[w.tails[key]].key == key {
      assert LastOf(w.calls, key, w.tails[key]);
    }
    CleanedUp(w, |w.calls|);
    var left := Run(w, Cleanups(|w.calls|)).tails;
    assert forall key :: key !in left;
  }

  // The finally block does in one go what the other queue does in three steps.
  lemma HostFinallyRuns(w: World, id: CallId, threw: bool)
    requires id < |w.calls| && w.calls[id].phase.Running? && w.calls[id].queue.HostQueue?
    ensures Run(w, HostFinally(id, threw)) ==
      Step(World(WithPhase(w.calls, id, Released(false, Fulfilled)), w.tails), Cleanup(id))
  {
    var w1 := Step(w, Settle(id, threw));
    var w2 := Step(w1, Release(id));
    assert Run(w, HostFinally(id, threw)) == Run(w1, [Release(id), Cleanup(id)]) == Run(w2, [Cleanup(id)]);
    assert w2 == World(WithPhase(w.calls, id, Released(false, Fulfilled)), w.tails);
    assert Run(w2, [Cleanup(id)]) == Run(Step(w2, Cleanup(id)), []);
  }

  // The map of promise tails and the promises in it, as the two services change them.
  class CallQueue {
    var tails: map<Key, CallId>
    var calls: seq<Call>

    constructor ()
      ensures State() == INIT
    {
      tails, calls := map[], [];
    }

    function State(): World
      reads this
    {
      World(calls, tails)
    }

    // `map.get(key) ?? Promise.resolve()`, then `map.set(key, next)`.
    method Chain(key: Key, queue: Queue) returns (id: CallId)
      modifies this
      ensures id == old(|calls|) && State() == Step(old(State()), Enqueue(key, queue))
    {
      var previous := if key in tails then Some(tails[key]) else None;
      id := |calls|;
      calls := calls + [Call(key, queue, previous, Waiting)];
      tails := tails[key := id];
    }

    method SetPhase(id: CallId, phase: Phase)
      requires id < |calls|
      modifies this`calls
      ensures calls == WithPhase(old(calls), id, phase)
    {
      calls := calls[id := calls[id].(phase := phase)];
    }

    method DropTail(id: CallId)
      requires IsReleased(calls, id)
      modifies this`tails
      ensures State() == Step(old(State()), Cleanup(id))
    {
      var key := calls[id].key;
      if key in tails && tails[key] == id { tails := tails - {key}; }
    }

    // withHostQueue's finally block: resolve, then delete the entry if it is still its own, in
    // one go.
    method HostCallEnds(id: CallId, threw: bool)
      requires id < |calls| && calls[id].phase.Running? && calls[id].queue.HostQueue?
      modifies this
      ensures State() == Run(old(State()), HostFinally(id, threw))
    {
      HostFinallyRuns(State(), id, threw);
      SetPhase(id, Released(false, Fulfilled));
      DropTail(id);
    }
  }
}
