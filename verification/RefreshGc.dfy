// When garbage collection of expired token files can be observed by a call: only where it hits a
// live one.
module RefreshGc {
  import opened Common
  import opened RefreshTokens
  import opened RefreshInvariants
  import opened RefreshReuse

  // Token t was issued and has expired: no call will ever accept it again.
  predicate Gone(w: World, t: Token) {
    t in w.issued && Expired(w.issued[t].expiresAt, w.clock)
  }

  // Two calls that will give the same answer in the same number of steps, the expired tokens'
  // files being whatever they are.
  predicate CallsAlike(w: World, c: Call, d: Call) {
    || c == d
    || ((c.ReadLock? || c.ReadConsumed?) && (d.ReadLock? || d.ReadConsumed?) && c.token == d.token && Gone(w, c.token))
    || ((c.CheckLock? || c.CheckConsumed?) && (d.CheckLock? || d.CheckConsumed?)
        && c.token == d.token && Gone(w, c.token))
    || (AnswersInvalid(w, c) && AnswersInvalid(w, d))
    || (c.CheckFind? && d.CheckFind? && c.token == d.token && Gone(w, c.token))
    || (FindsNothing(w, c) && FindsNothing(w, d))
    || (c.DropFamily? && d.DropFamily? && c.family == d.family && c.files == d.files
        && c.files != [] && Gone(w, c.files[0].token))
  }

  predicate AnswersInvalid(w: World, c: Call) {
    c == Reply(Invalid) || (c.DropLock? && Gone(w, c.token))
  }

  predicate FindsNothing(w: World, c: Call) {
    c == Reply(Found(None)) || (c.DropFind? && Gone(w, c.token))
  }

  ghost predicate DirsAlike(w: World, d: Dir, e: Dir) {
    forall q: Path :: !Gone(w, q.token) ==> (q in d <==> q in e) && (q in d ==> d[q] == e[q])
  }

  ghost predicate ConsumedAlike(w: World, c: map<Token, ConsumedRecord>, d: map<Token, ConsumedRecord>) {
    forall t :: !Gone(w, t) ==> (t in c <==> t in d) && (t in c ==> c[t] == d[t])
  }

  // The two worlds agree but for the files of expired tokens and for purges under way.
  ghost predicate FilesAlike(w: World, v: World) {
    && w.clock == v.clock && w.issued == v.issued && w.commits == v.commits
    && DirsAlike(w, w.dir, v.dir) && ConsumedAlike(w, w.consumed, v.consumed)
  }

  ghost predicate Alike(w: World, v: World) {
    && FilesAlike(w, v) && w.calls.Keys == v.calls.Keys
    && forall p :: p in w.calls ==> CallsAlike(w, w.calls[p], v.calls[p])
  }

  // An operation that touches files of expired tokens only.
  predicate OpOnGone(w: World, op: FileOp) {
    match op
    case NoOp => true
    case Move(src, dst) => Gone(w, src.token) && Gone(w, dst.token)
    case Unlink(path) => Gone(w, path.token)
    case UnlinkConsumed(t) => Gone(w, t)
    case _ => false
  }

  predicate OpsAlike(w: World, a: FileOp, b: FileOp) {
    (a == b && (a.Move? ==> a.src.token == a.dst.token)) || (OpOnGone(w, a) && OpOnGone(w, b))
  }

  lemma GoneOpLeaves(w: World, d: Dir, c: map<Token, ConsumedRecord>, op: FileOp)
    requires OpOnGone(w, op)
    ensures DirsAlike(w, d, InDir(d, op)) && ConsumedAlike(w, c, InConsumed(c, op))
  {
  }

  lemma SameOpKeepsDirs(w: World, d: Dir, e: Dir, op: FileOp)
    requires DirsAlike(w, d, e) && (op.Move? ==> op.src.token == op.dst.token)
    ensures DirsAlike(w, InDir(d, op), InDir(e, op))
  {
  }

  lemma SameOpKeepsConsumed(w: World, c: map<Token, ConsumedRecord>, d: map<Token, ConsumedRecord>, op: FileOp)
    requires ConsumedAlike(w, c, d)
    ensures ConsumedAlike(w, InConsumed(c, op), InConsumed(d, op))
  {
  }

  lemma OpsKeepAlike(w: World, v: World, a: FileOp, b: FileOp)
    requires FilesAlike(w, v) && OpsAlike(w, a, b)
    ensures DirsAlike(w, InDir(w.dir, a), InDir(v.dir, b))
    ensures ConsumedAlike(w, InConsumed(w.consumed, a), InConsumed(v.consumed, b))
  {
    if OpOnGone(w, a) && OpOnGone(w, b) {
      GoneOpLeaves(w, w.dir, w.consumed, a);
      GoneOpLeaves(w, v.dir, v.consumed, b);
    } else {
      SameOpKeepsDirs(w, w.dir, v.dir, a);
      SameOpKeepsConsumed(w, w.consumed, v.consumed, a);
    }
  }

  // Steps of consumeForRotation prepare no new token and record no consumption.
  predicate IssuesNothing(n: Next) {
    !n.op.WriteConsumed? && !n.call.Create? && !n.call.LoginCreate?
  }

  lemma ConsumeIssuesNothing(w: World, c: Call, ok: bool)
    requires Consumes(c)
    ensures IssuesNothing(ConsumeNext(w, c, ok))
  {
  }

  lemma AnswerIssuesNothing(w: World, c: Call, ok: bool, files: seq<Path>)
    requires !Consumes(c) && !Issues(c)
    ensures IssuesNothing(AnswerNext(w, c, ok, files))
  {
  }

  lemma SameConsumeAlike(w: World, v: World, c: Call, ok: bool)
    requires Inv(w) && Inv(v) && FilesAlike(w, v) && Consumes(c) && CallRecords(w.issued, c)
    ensures var m, n := ConsumeNext(w, c, ok), ConsumeNext(v, c, ok);
      CallsAlike(w, m.call, n.call) && OpsAlike(w, m.op, n.op)
  {
    if c.Consume? {
      assert Active(c.token) in w.dir ==> Active(c.token).token in w.issued;
      assert Active(c.token) in v.dir ==> Active(c.token).token in v.issued;
    }
  }

  lemma ConsumeAlike(w: World, v: World, c: Call, d: Call, ok: bool)
    requires Inv(w) && Inv(v) && FilesAlike(w, v) && CallsAlike(w, c, d) && Consumes(c) && Consumes(d)
    requires CallRecords(w.issued, c) && CallRecords(v.issued, d)
    ensures var m, n := ConsumeNext(w, c, ok), ConsumeNext(v, d, ok);
      CallsAlike(w, m.call, n.call) && OpsAlike(w, m.op, n.op)
  {
    if c == d { SameConsumeAlike(w, v, c, ok); }
  }

  lemma InvalidAlike(w: World, v: World, c: Call, d: Call, ok: bool, next: Token, files: seq<Path>)
    requires AnswersInvalid(w, c) && AnswersInvalid(w, d) && !(Consumes(c) && Consumes(d)) && FilesAlike(w, v)
    ensures var m, n := CallNext(w, c, ok, next, files), CallNext(v, d, ok, next, files);
      && CallsAlike(w, m.call, n.call) && OpOnGone(w, m.op) && OpOnGone(w, n.op)
      && IssuesNothing(m) && IssuesNothing(n)
  {
  }

  // The pairs of different calls that are not both consuming only answer.
  lemma MixedAlike(w: World, v: World, c: Call, d: Call, ok: bool, next: Token, files: seq<Path>)
    requires CallsAlike(w, c, d) && c != d && !(Consumes(c) && Consumes(d)) && FilesAlike(w, v)
    requires CallRecords(w.issued, c) && CallRecords(v.issued, d)
    ensures var m, n := CallNext(w, c, ok, next, files), CallNext(v, d, ok, next, files);
      && CallsAlike(w, m.call, n.call) && OpOnGone(w, m.op) && OpOnGone(w, n.op)
      && IssuesNothing(m) && IssuesNothing(n)
  {
    if AnswersInvalid(w, c) && AnswersInvalid(w, d) {
      InvalidAlike(w, v, c, d, ok, next, files);
    } else {
      AnswerIssuesNothing(w, c, ok, files);
      AnswerIssuesNothing(v, d, ok, files);
    }
  }

  lemma NextAlike(w: World, v: World, c: Call, d: Call, ok: bool, next: Token, files: seq<Path>)
    requires Inv(w) && Inv(v) && FilesAlike(w, v) && CallsAlike(w, c, d)
    requires CallRecords(w.issued, c) && CallRecords(v.issued, d)
    ensures var m, n := CallNext(w, c, ok, next, files), CallNext(v, d, ok, next, files);
      && CallsAlike(w, m.call, n.call) && OpsAlike(w, m.op, n.op)
      && (m.op.WriteConsumed? || n.op.WriteConsumed? ==> m.op == n.op)
      && Prepared(w.issued, m.call) == Prepared(v.issued, n.call)
  {
    if Consumes(c) && Consumes(d) {
      ConsumeAlike(w, v, c, d, ok);
      ConsumeIssuesNothing(w, c, ok);
      ConsumeIssuesNothing(v, d, ok);
    } else if c != d {
      MixedAlike(w, v, c, d, ok, next, files);
    } else if Issues(c) {
      assert IssueNext(w, c, ok, next) == IssueNext(v, c, ok, next);
    } else {
      AnswerAlike(w, v, c, ok, files);
      AnswerIssuesNothing(w, c, ok, files);
      AnswerIssuesNothing(v, c, ok, files);
    }
  }

  lemma AnswerAlike(w: World, v: World, c: Call, ok: bool, files: seq<Path>)
    requires Inv(w) && Inv(v) && FilesAlike(w, v) && !Consumes(c) && !Issues(c)
    requires CallRecords(w.issued, c)
    ensures var m, n := AnswerNext(w, c, ok, files), AnswerNext(v, c, ok, files);
      CallsAlike(w, m.call, n.call) && OpsAlike(w, m.op, n.op)
  {
  }

  lemma ApplyKeepsAlike(w: World, v: World, p: Pid, m: Next, n: Next)
    requires Alike(w, v) && CallsAlike(w, m.call, n.call) && OpsAlike(w, m.op, n.op)
    requires m.op.WriteConsumed? || n.op.WriteConsumed? ==> m.op == n.op
    requires Prepared(w.issued, m.call) == Prepared(v.issued, n.call)
    ensures Alike(Apply(w, p, m), Apply(v, p, n))
  {
    OpsKeepAlike(w, v, m.op, n.op);
    var w', v' := Apply(w, p, m), Apply(v, p, n);
    forall t | !Gone(w', t) ensures !Gone(w, t) {}
    AlikeGrows(w, w');
  }

  // What holds while fewer tokens have expired holds when more have.
  lemma AlikeGrows(w: World, w': World)
    requires IssuedGrows(w.issued, w'.issued) && w.clock <= w'.clock
    ensures forall c, d :: CallsAlike(w, c, d) ==> CallsAlike(w', c, d)
  {
    forall t | Gone(w, t) ensures Gone(w', t) {}
  }

  predicate IsPurge(a: Action) {
    a.StartPurge? || a.Sweep?
  }

  // A purge reads a file and unlinks it in a later step. The unlink is harmless when the file is
  // not there or belongs to an expired token.
  ghost predicate HarmlessDrop(v: World, a: Action) {
    a.Sweep? && a.visit.FinishDrop? && a.q in v.purges && v.purges[a.q].DropFile? ==>
      v.purges[a.q].path !in v.dir || Gone(v, v.purges[a.q].path.token)
  }

  lemma SweepRemovesGone(v: World, q: Pid, visit: Visit)
    requires Inv(v) && ConsumedKept(v) && q in v.purges && HarmlessDrop(v, Sweep(q, visit))
    ensures var n := PurgeStep(v, v.purges[q], visit);
      && (OpOnGone(v, n.op) || InDir(v.dir, n.op) == v.dir)
      && (OpOnGone(v, n.op) || InConsumed(v.consumed, n.op) == v.consumed)
  {
    var s := v.purges[q];
    assert PurgeSound(v, s);
    if visit.VisitFile? && s.SweepFiles? && visit.path in v.dir { assert visit.path.token in v.issued; }
    if visit.VisitConsumed? && s.SweepConsumed? && visit.token in v.consumed { assert visit.token in v.issued; }
  }

  lemma PurgeKeepsAlike(w: World, v: World, a: Action)
    requires Alike(w, v) && Inv(v) && ConsumedKept(v) && IsPurge(a) && HarmlessDrop(v, a)
    ensures Alike(w, Step(v, a))
  {
    if a.Sweep? && a.q in v.purges { SweepRemovesGone(v, a.q, a.visit); }
  }

  lemma GoKeepsAlike(w: World, v: World, p: Pid, ok: bool, next: Token, files: seq<Path>)
    requires Alike(w, v) && Inv(w) && Inv(v) && p in w.calls
    ensures p in v.calls
    ensures Alike(Apply(w, p, CallNext(w, w.calls[p], ok, next, files)),
                  Apply(v, p, CallNext(v, v.calls[p], ok, next, files)))
  {
    var c, d := w.calls[p], v.calls[p];
    assert CallRecords(w.issued, c) && CallRecords(v.issued, d);
    NextAlike(w, v, c, d, ok, next, files);
    ApplyKeepsAlike(w, v, p, CallNext(w, c, ok, next, files), CallNext(v, d, ok, next, files));
  }

  lemma TimeKeepsAlike(w: World, v: World, ms: nat)
    requires Alike(w, v)
    ensures Alike(Step(w, Tick(ms)), Step(v, Tick(ms)))
  {
    var w' := Step(w, Tick(ms));
    forall t | !Gone(w', t) ensures !Gone(w, t) {}
    AlikeGrows(w, w');
  }

  lemma StartKeepsAlike(w: World, v: World, p: Pid, r: Request)
    requires Alike(w, v)
    ensures Alike(Step(w, Start(p, r)), Step(v, Start(p, r)))
  {
    if p !in w.calls && Started(w, r).Some? {
      assert Started(v, r) == Started(w, r);
      ApplyKeepsAlike(w, v, p, Next(Started(w, r).value, NoOp), Next(Started(v, r).value, NoOp));
    }
  }

  lemma GoStepKeepsAlike(w: World, v: World, p: Pid, ok: bool, next: Token, files: seq<Path>)
    requires Alike(w, v) && Inv(w) && Inv(v)
    ensures Alike(Step(w, Go(p, ok, next, files)), Step(v, Go(p, ok, next, files)))
  {
    if p in w.calls { GoKeepsAlike(w, v, p, ok, next, files); }
  }

  lemma CrashKeepsAlike(w: World, v: World)
    requires Alike(w, v)
    ensures Alike(Step(w, Crash), Step(v, Crash))
  {
  }

  lemma StepKeepsAlike(w: World, v: World, a: Action)
    requires Alike(w, v) && Inv(w) && Inv(v) && !IsPurge(a)
    ensures Alike(Step(w, a), Step(v, a))
  {
    if a.Go? { GoStepKeepsAlike(w, v, a.p, a.ok, a.next, a.files); }
    else if a.Start? { StartKeepsAlike(w, v, a.p, a.request); }
    else if a.Tick? { TimeKeepsAlike(w, v, a.ms); }
    else { CrashKeepsAlike(w, v); }
  }

  ghost predicate HarmlessDrops(v: World, actions: seq<Action>)
    decreases |actions|
  {
    actions == [] || (HarmlessDrop(v, actions[0]) && HarmlessDrops(Step(v, actions[0]), actions[1..]))
  }

  // The same run in which no purge ever happens.
  function WithoutPurges(actions: seq<Action>): seq<Action> {
    if actions == [] then []
    else (if IsPurge(actions[0]) then [] else [actions[0]]) + WithoutPurges(actions[1..])
  }

  lemma {:induction false} RunsStayAlike(w: World, v: World, actions: seq<Action>)
    requires Alike(w, v) && Inv(w) && Inv(v) && ConsumedKept(v) && HarmlessDrops(v, actions)
    ensures Alike(Run(w, WithoutPurges(actions)), Run(v, actions))
    decreases |actions|
  {
    if actions != [] {
      var a := actions[0];
      StepKeepsInv(v, a);
      StepKeepsConsumed(v, a);
      if IsPurge(a) {
        PurgeKeepsAlike(w, v, a);
        RunsStayAlike(w, Step(v, a), actions[1..]);
        assert WithoutPurges(actions) == WithoutPurges(actions[1..]);
      } else {
        StepKeepsInv(w, a);
        StepKeepsAlike(w, v, a);
        RunsStayAlike(Step(w, a), Step(v, a), actions[1..]);
        assert WithoutPurges(actions)[0] == a && WithoutPurges(actions)[1..] == WithoutPurges(actions[1..]);
      }
    }
  }

  // The answer of call p is the same in both worlds.
  ghost predicate SameAnswer(w: World, v: World, p: Pid) {
    && (p in w.calls <==> p in v.calls)
    && (p in w.calls ==> forall o :: w.calls[p] == Done(o) <==> v.calls[p] == Done(o))
  }

  lemma AlikeAnswers(w: World, v: World, p: Pid)
    requires Alike(w, v)
    ensures SameAnswer(w, v, p)
  {
  }

  lemma InitAlike()
    ensures Alike(INIT, INIT) && Inv(INIT) && ConsumedKept(INIT)
  {
  }

  // However purges interleave, reading and unlinking in separate steps: as long as no unlink hits
  // a file that is there and unexpired, every call of every run is answered exactly as if no purge
  // had ever run, also when a purge removes the moved-aside file of a rotation in flight.
  lemma PurgeIsUnobservable(actions: seq<Action>, p: Pid)
    requires HarmlessDrops(INIT, actions)
    ensures SameAnswer(Run(INIT, WithoutPurges(actions)), Run(INIT, actions), p)
  {
    InitAlike();
    RunsStayAlike(INIT, INIT, actions);
    AlikeAnswers(Run(INIT, WithoutPurges(actions)), Run(INIT, actions), p);
  }

  // Every file a purge is about to unlink is missing or belongs to an expired token.
  ghost predicate PendingHarmless(v: World) {
    forall q :: q in v.purges && v.purges[q].DropFile? ==>
      v.purges[q].path !in v.dir || Gone(v, v.purges[q].path.token)
  }

  // A file that a purge found missing, and has not unlinked yet, comes back.
  ghost predicate ComesBack(v: World, a: Action, q: Pid) {
    && q in v.purges && v.purges[q].DropFile?
    && v.purges[q].path !in v.dir && v.purges[q].path in Step(v, a).dir
  }

  ghost predicate NothingComesBack(v: World, actions: seq<Action>)
    decreases |actions|
  {
    actions == [] ||
    (&& (forall q :: !ComesBack(v, actions[0], q))
     && NothingComesBack(Step(v, actions[0]), actions[1..]))
  }

  lemma SweepKeepsPending(v: World, q: Pid, visit: Visit)
    requires Inv(v) && ConsumedKept(v) && PendingHarmless(v) && q in v.purges
    ensures PendingHarmless(Step(v, Sweep(q, visit)))
  {
    var s := v.purges[q];
    assert PurgeSound(v, s);
    PurgeRemoves(v, s, visit);
    if visit.VisitFile? && visit.path in v.dir { assert visit.path.token in v.issued; }
  }

  lemma StepKeepsPending(v: World, a: Action)
    requires Inv(v) && ConsumedKept(v) && PendingHarmless(v) && forall q :: !ComesBack(v, a, q)
    ensures PendingHarmless(Step(v, a))
  {
    if a.Sweep? {
      if a.q in v.purges { SweepKeepsPending(v, a.q, a.visit); }
    } else {
      HistoryGrows(v, a);
      var v' := Step(v, a);
      forall q | q in v'.purges && v'.purges[q].DropFile?
        ensures v'.purges[q].path !in v'.dir || Gone(v', v'.purges[q].path.token)
      {
        assert q in v.purges && v.purges[q] == v'.purges[q];
        assert !ComesBack(v, a, q);
      }
    }
  }

  // It is enough that no file a purge found missing comes back before the purge unlinks it.
  lemma {:induction false} NothingComesBackIsHarmless(v: World, actions: seq<Action>)
    requires Inv(v) && ConsumedKept(v) && PendingHarmless(v) && NothingComesBack(v, actions)
    ensures HarmlessDrops(v, actions)
    decreases |actions|
  {
    if actions != [] {
      StepKeepsInv(v, actions[0]);
      StepKeepsConsumed(v, actions[0]);
      StepKeepsPending(v, actions[0]);
      NothingComesBackIsHarmless(Step(v, actions[0]), actions[1..]);
    }
  }

  lemma {:induction false} RunAppend(w: World, a: seq<Action>, b: seq<Action>)
    ensures Run(w, a + b) == Run(Run(w, a), b)
    decreases |a|
  {
    if a == [] {
      assert a + b == b;
    } else {
      assert (a + b)[0] == a[0] && (a + b)[1..] == a[1..] + b;
      RunAppend(Step(w, a[0]), a[1..], b);
    }
  }

  lemma {:induction false} WithoutPurgesAppend(a: seq<Action>, b: seq<Action>)
    ensures WithoutPurges(a + b) == WithoutPurges(a) + WithoutPurges(b)
  {
    if a == [] {
      assert a + b == b;
    } else {
      assert (a + b)[0] == a[0] && (a + b)[1..] == a[1..] + b;
      WithoutPurgesAppend(a[1..], b);
    }
  }

  lemma {:induction false} HarmlessAppend(v: World, a: seq<Action>, b: seq<Action>)
    requires HarmlessDrops(v, a) && HarmlessDrops(Run(v, a), b)
    ensures HarmlessDrops(v, a + b)
    decreases |a|
  {
    if a == [] {
      assert a + b == b;
    } else {
      assert (a + b)[0] == a[0] && (a + b)[1..] == a[1..] + b;
      HarmlessAppend(Step(v, a[0]), a[1..], b);
    }
  }

  lemma RunFirst(w: World, a: Action, rest: seq<Action>)
    ensures Run(w, [a] + rest) == Run(Step(w, a), rest)
  {
    assert ([a] + rest)[1..] == rest;
  }

  // Looking token t up, from start to answer.
  function Look(p: Pid, t: Token): seq<Action> {
    [Start(p, FindToken(t))] + ([Go(p, true, 0, [])] + ([Go(p, true, 0, [])] + ([Go(p, true, 0, [])] + [])))
  }

  function WithCall(w: World, p: Pid, c: Call): World {
    w.(calls := w.calls[p := c])
  }

  lemma LookGoes(w: World, p: Pid, c: Call, d: Call)
    requires CallNext(WithCall(w, p, c), c, true, 0, []) == Next(d, NoOp) && !d.Create? && !d.LoginCreate?
    ensures Step(WithCall(w, p, c), Go(p, true, 0, [])) == WithCall(w, p, d)
  {
    assert WithCall(w, p, c).calls[p := d] == w.calls[p := d];
  }

  // find answers the file it reads, if that has not expired.
  lemma LookAnswers(w: World, p: Pid, t: Token, read: Option<Record>)
    requires p !in w.calls && read == Lookup(w.dir, Active(t))
    requires read.Some? ==> !Expired(read.value.expiresAt, w.clock)
    ensures Run(w, Look(p, t)) == WithCall(w, p, Done(Found(read)))
  {
    var go := Go(p, true, 0, []);
    assert Step(w, Start(p, FindToken(t))) == WithCall(w, p, Find(t));
    RunFirst(w, Start(p, FindToken(t)), [go] + ([go] + ([go] + [])));
    FindAnswers(w, p, t, read);
  }

  lemma FindAnswers(w: World, p: Pid, t: Token, read: Option<Record>)
    requires read == Lookup(w.dir, Active(t)) && (read.Some? ==> !Expired(read.value.expiresAt, w.clock))
    ensures var go := Go(p, true, 0, []);
      Run(WithCall(w, p, Find(t)), [go] + ([go] + ([go] + []))) == WithCall(w, p, Done(Found(read)))
  {
    var go := Go(p, true, 0, []);
    LookGoes(w, p, Find(t), CheckFind(t, read));
    LookGoes(w, p, CheckFind(t, read), Reply(Found(read)));
    LookGoes(w, p, Reply(Found(read)), Done(Found(read)));
    RunFirst(WithCall(w, p, Find(t)), go, [go] + ([go] + []));
    RunFirst(WithCall(w, p, CheckFind(t, read)), go, [go] + []);
    RunFirst(WithCall(w, p, Reply(Found(read))), go, []);
  }

  lemma LookHasNoPurge(p: Pid, t: Token)
    ensures WithoutPurges(Look(p, t)) == Look(p, t)
  {
    var go := Go(p, true, 0, []);
    WithoutPurgesAppend([Start(p, FindToken(t))], [go] + ([go] + ([go] + [])));
    WithoutPurgesAppend([go], [go] + ([go] + []));
    WithoutPurgesAppend([go], [go] + []);
    WithoutPurgesAppend([go], []);
    assert WithoutPurges([go]) == [go] && WithoutPurges([Start(p, FindToken(t))]) == [Start(p, FindToken(t))];
  }

  lemma LookWithDrop(before: seq<Action>, v: World, q: Pid, now: int, files: set<Path>, t: Token, p: Pid)
    requires v == Run(INIT, before) && q in v.purges && v.purges[q] == DropFile(now, files, Active(t)) && p !in v.calls
    ensures var with := Run(INIT, before + ([Sweep(q, FinishDrop)] + Look(p, t)));
      p in with.calls && with.calls[p] == Done(Found(None))
  {
    var drop := Sweep(q, FinishDrop);
    RunAppend(INIT, before, [drop] + Look(p, t));
    RunFirst(v, drop, Look(p, t));
    LookAnswers(Step(v, drop), p, t, None);
  }

  lemma LookWithoutDrop(before: seq<Action>, w: World, q: Pid, t: Token, p: Pid)
    requires w == Run(INIT, WithoutPurges(before)) && Active(t) in w.dir && p !in w.calls
    requires !Expired(w.dir[Active(t)].expiresAt, w.clock)
    ensures var without := Run(INIT, WithoutPurges(before + ([Sweep(q, FinishDrop)] + Look(p, t))));
      p in without.calls && without.calls[p] == Done(Found(Some(w.dir[Active(t)])))
  {
    var drop, look := Sweep(q, FinishDrop), Look(p, t);
    WithoutPurgesAppend(before, [drop] + look);
    WithoutPurgesAppend([drop], look);
    LookHasNoPurge(p, t);
    assert WithoutPurges([drop]) == [] && [] + look == look;
    RunAppend(INIT, WithoutPurges(before), look);
    LookAnswers(w, p, t, Some(w.dir[Active(t)]));
  }

  // The converse: an unlink that hits the active file of an unexpired token is noticed by the next
  // look-up of the token, which finds nothing, while in the run without purges it finds the token.
  lemma HarmfulDropIsObserved(before: seq<Action>, v: World, q: Pid, now: int, files: set<Path>, t: Token, p: Pid)
    requires HarmlessDrops(INIT, before) && v == Run(INIT, before)
    requires q in v.purges && v.purges[q] == DropFile(now, files, Active(t)) && Active(t) in v.dir && !Gone(v, t)
    requires p !in v.calls
    ensures var actions := before + ([Sweep(q, FinishDrop)] + Look(p, t));
      var with, without := Run(INIT, actions), Run(INIT, WithoutPurges(actions));
      && p in with.calls && with.calls[p] == Done(Found(None))
      && p in without.calls && without.calls[p] == Done(Found(Some(v.dir[Active(t)])))
  {
    var w := Run(INIT, WithoutPurges(before));
    InitAlike();
    RunsStayAlike(INIT, INIT, before);
    RunKeepsConsumed(INIT, before);
    assert Active(t).token in v.issued;
    LookWithDrop(before, v, q, now, files, t, p);
    LookWithoutDrop(before, w, q, t, p);
  }

  // Whatever follows, as long as later unlinks are harmless, nobody is answered differently.
  ghost predicate Unobserved(actions: seq<Action>) {
    forall after, p :: HarmlessDrops(Run(INIT, actions), after) ==>
      SameAnswer(Run(INIT, WithoutPurges(actions + after)), Run(INIT, actions + after), p)
  }

  // So the unlink of an active file goes unobserved exactly when the file is gone by then or its
  // token has expired.
  lemma UnlinkUnobservedIff(before: seq<Action>, v: World, q: Pid, now: int, files: set<Path>, t: Token)
    requires HarmlessDrops(INIT, before) && v == Run(INIT, before)
    requires q in v.purges && v.purges[q] == DropFile(now, files, Active(t))
    ensures Unobserved(before + [Sweep(q, FinishDrop)]) <==> Active(t) !in v.dir || Gone(v, t)
  {
    var drop := Sweep(q, FinishDrop);
    var actions := before + [drop];
    RunAppend(INIT, before, [drop]);
    if Active(t) !in v.dir || Gone(v, t) {
      assert HarmlessDrops(v, [drop]);
      HarmlessAppend(INIT, before, [drop]);
      forall after, p | HarmlessDrops(Run(INIT, actions), after)
        ensures SameAnswer(Run(INIT, WithoutPurges(actions + after)), Run(INIT, actions + after), p)
      {
        HarmlessAppend(INIT, actions, after);
        PurgeIsUnobservable(actions + after, p);
      }
    } else {
      var p := UnusedPid(v);
      HarmfulDropIsObserved(before, v, q, now, files, t, p);
      assert before + ([drop] + Look(p, t)) == actions + Look(p, t);
      LookIsHarmless(Run(INIT, actions), p, t);
      assert !SameAnswer(Run(INIT, WithoutPurges(actions + Look(p, t))), Run(INIT, actions + Look(p, t)), p);
    }
  }

  lemma LookIsHarmless(v: World, p: Pid, t: Token)
    ensures HarmlessDrops(v, Look(p, t))
  {
    NoSweepIsHarmless(v, Look(p, t));
  }

  lemma {:induction false} NoSweepIsHarmless(v: World, actions: seq<Action>)
    requires forall a :: a in actions ==> !a.Sweep?
    ensures HarmlessDrops(v, actions)
    decreases |actions|
  {
    if actions != [] { NoSweepIsHarmless(Step(v, actions[0]), actions[1..]); }
  }

  lemma UnusedPid(v: World) returns (p: Pid)
    ensures p !in v.calls
  {
    p := Unused(v.calls.Keys);
  }

  // A number greater than all of a set.
  lemma {:induction false} Unused(s: set<nat>) returns (n: nat)
    ensures forall m :: m in s ==> m < n
    decreases |s|
  {
    if s == {} {
      n := 0;
    } else {
      var m :| m in s;
      var k := Unused(s - {m});
      n := if k <= m then m + 1 else k;
      forall i | i in s ensures i < n {
        if i != m { assert i in s - {m}; }
      }
    }
  }
}
