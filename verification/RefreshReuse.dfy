// Presenting a rotated token again is detected, and revoking the family it belongs to leaves
// nothing that could ever rotate in it.
module RefreshReuse {
  import opened Common
  import opened RefreshTokens
  import opened RefreshInvariants
  import opened RefreshFamilies

  // Consumed records outlive nothing but their own expiry, whatever purges are under way.
  ghost predicate PurgeSound(w: World, s: Purge) {
    match s
    case BeginSweep(now) => now <= w.clock
    case SweepFiles(now, _) => now <= w.clock
    case DropFile(now, _, _) => now <= w.clock
    case SweepConsumed(now, listed) => now <= w.clock && forall t :: t in listed ==> t in w.commits
    case DropConsumedFile(now, listed, t) =>
      && now <= w.clock && (forall u :: u in listed ==> u in w.commits)
      && t in w.issued && Expired(w.issued[t].expiresAt, w.clock)
  }

  ghost predicate ConsumedKept(w: World) {
    && (forall t :: t in w.consumed ==> t in w.commits)
    && (forall t :: t in w.commits && t in w.issued && !Expired(w.issued[t].expiresAt, w.clock) ==> t in w.consumed)
    && (forall q :: q in w.purges ==> PurgeSound(w, w.purges[q]))
  }

  lemma ApplyKeepsConsumed(w: World, p: Pid, n: Next)
    requires Inv(w) && ConsumedKept(w) && NextAgrees(w, n) && !n.op.UnlinkConsumed?
    ensures ConsumedKept(Apply(w, p, n))
  {
    var w' := Apply(w, p, n);
    forall q | q in w'.purges ensures PurgeSound(w', w'.purges[q]) {
      assert PurgeSound(w, w.purges[q]);
    }
  }

  lemma CallKeepsConsumedDir(w: World, c: Call, ok: bool, next: Token, files: seq<Path>)
    ensures !CallNext(w, c, ok, next, files).op.UnlinkConsumed?
  {
  }

  lemma PurgeStepSound(w: World, s: Purge, v: Visit)
    requires ConsumedKept(w) && RecordsAgree(w) && PurgeSound(w, s)
    ensures var n := PurgeStep(w, s, v);
      && PurgeSound(w, n.purge)
      && (n.op.UnlinkConsumed? ==> n.op.token in w.issued && Expired(w.issued[n.op.token].expiresAt, w.clock))
      && !n.op.WriteConsumed?
  {
  }

  lemma SweepKeepsConsumed(w: World, q: Pid, n: PurgeNext)
    requires Inv(w) && ConsumedKept(w) && PurgeSound(w, n.purge) && !n.op.WriteConsumed?
    requires n.op.UnlinkConsumed? ==> n.op.token in w.issued && Expired(w.issued[n.op.token].expiresAt, w.clock)
    ensures ConsumedKept(ApplyPurge(w, q, n))
  {
    var w' := ApplyPurge(w, q, n);
    forall r | r in w'.purges ensures PurgeSound(w', w'.purges[r]) {
      if r != q { assert PurgeSound(w, w.purges[r]); }
    }
  }

  lemma StepKeepsConsumed(w: World, a: Action)
    requires Inv(w) && ConsumedKept(w)
    ensures ConsumedKept(Step(w, a))
  {
    match a
    case Go(p, ok, next, files) =>
      if p in w.calls {
        CallNextAgrees(w, p, ok, next, files);
        CallKeepsConsumedDir(w, w.calls[p], ok, next, files);
        ApplyKeepsConsumed(w, p, CallNext(w, w.calls[p], ok, next, files));
      }
    case Start(p, r) =>
      if p !in w.calls && Started(w, r).Some? { ApplyKeepsConsumed(w, p, Next(Started(w, r).value, NoOp)); }
    case Sweep(q, v) =>
      if q in w.purges {
        PurgeStepSound(w, w.purges[q], v);
        SweepKeepsConsumed(w, q, PurgeStep(w, w.purges[q], v));
      }
    case StartPurge(q) =>
      if q !in w.purges { SweepKeepsConsumed(w, q, PurgeNext(BeginSweep(w.clock), NoOp)); }
    case Crash =>
    case Tick(ms) =>
      var w' := Step(w, a);
      forall q | q in w'.purges ensures PurgeSound(w', w'.purges[q]) {
        assert PurgeSound(w, w.purges[q]);
      }
  }

  lemma {:induction false} RunKeepsConsumed(w: World, actions: seq<Action>)
    requires Inv(w) && ConsumedKept(w)
    ensures Inv(Run(w, actions)) && ConsumedKept(Run(w, actions))
    decreases |actions|
  {
    if actions != [] {
      StepKeepsInv(w, actions[0]);
      StepKeepsConsumed(w, actions[0]);
      RunKeepsConsumed(Step(w, actions[0]), actions[1..]);
    }
  }

  // How a call that presents the committed token t can stand.
  predicate Refused(issued: map<Token, Record>, clock: int, t: Token, c: Call)
    requires t in issued
  {
    match c
    case Consume(u, _) => u == t
    case ReadConsumed(u) => u == t
    case CheckConsumed(u, seen) =>
      u == t && (if seen.None? then Expired(issued[t].expiresAt, clock) else seen.value.record == issued[t])
    case ListFamily(f) => f == issued[t].familyId
    case ReadFamily(f, _) => f == issued[t].familyId
    case DropFamily(f, _, _) => f == issued[t].familyId
    case Reply(o) => o == Reused || (o == Invalid && Expired(issued[t].expiresAt, clock))
    case Done(o) => o == Reused || (o == Invalid && Expired(issued[t].expiresAt, clock))
    case _ => false
  }

  ghost predicate Presenting(w: World, p: Pid, t: Token) {
    && Inv(w) && ConsumedKept(w) && t in w.commits && t in w.issued
    && p in w.calls && Refused(w.issued, w.clock, t, w.calls[p])
  }

  // Call p's own operations succeed, and the process does not die.
  predicate Undisturbed(actions: seq<Action>, p: Pid) {
    forall i :: 0 <= i < |actions| ==> !actions[i].Crash? && (actions[i].Go? && actions[i].p == p ==> actions[i].ok)
  }

  lemma PresentingGoes(w: World, p: Pid, t: Token, next: Token, files: seq<Path>)
    requires Presenting(w, p, t)
    ensures Refused(w.issued, w.clock, t, CallNext(w, w.calls[p], true, next, files).call)
  {
    assert Active(t) !in w.dir;
  }

  lemma HistoryGrows(w: World, a: Action)
    requires Inv(w)
    ensures w.clock <= Step(w, a).clock && IssuedGrows(w.issued, Step(w, a).issued)
    ensures forall t :: t in w.commits ==> t in Step(w, a).commits
  {
  }

  lemma StepKeepsPresenting(w: World, a: Action, p: Pid, t: Token)
    requires Presenting(w, p, t) && !a.Crash? && (a.Go? && a.p == p ==> a.ok)
    ensures Presenting(Step(w, a), p, t)
  {
    StepKeepsInv(w, a);
    StepKeepsConsumed(w, a);
    HistoryGrows(w, a);
    if a.Go? && a.p == p {
      PresentingGoes(w, p, t, a.next, a.files);
    }
  }

  lemma {:induction false} RunKeepsPresenting(w: World, actions: seq<Action>, p: Pid, t: Token)
    requires Presenting(w, p, t) && Undisturbed(actions, p)
    ensures Presenting(Run(w, actions), p, t)
    decreases |actions|
  {
    if actions != [] {
      StepKeepsPresenting(w, actions[0], p, t);
      RunKeepsPresenting(Step(w, actions[0]), actions[1..], p, t);
    }
  }

  lemma StartPresents(w: World, p: Pid, t: Token, n: Nonce)
    requires Inv(w) && ConsumedKept(w) && t in w.commits && p !in w.calls
    ensures Presenting(Step(w, Start(p, Refresh(t, n))), p, t)
  {
    StepKeepsInv(w, Start(p, Refresh(t, n)));
    StepKeepsConsumed(w, Start(p, Refresh(t, n)));
  }

  ghost predicate Reachable(w: World) {
    exists actions :: w == Run(INIT, actions)
  }

  lemma ReachableSound(w: World)
    requires Reachable(w)
    ensures Inv(w) && ConsumedKept(w)
  {
    var actions :| w == Run(INIT, actions);
    RunKeepsConsumed(INIT, actions);
  }

  // The family a call is revoking.
  function RevokedFamily(c: Call): Option<Family> {
    match c
    case ListFamily(f) => Some(f)
    case ReadFamily(f, _) => Some(f)
    case DropFamily(f, _, _) => Some(f)
    case _ => None
  }

  ghost predicate RevokedAreUsed(w: World) {
    forall p :: p in w.calls && RevokedFamily(w.calls[p]).Some? ==>
      !UnusedFamily(w.issued, RevokedFamily(w.calls[p]).value)
  }

  lemma UsedStays(before: map<Token, Record>, after: map<Token, Record>, f: Family)
    requires IssuedGrows(before, after) && !UnusedFamily(before, f)
    ensures !UnusedFamily(after, f)
  {
    var t :| t in before && before[t].familyId == f;
    assert t in after && after[t].familyId == f;
  }

  lemma RevokedNextIsUsed(w: World, p: Pid, ok: bool, next: Token, files: seq<Path>)
    requires Inv(w) && RevokedAreUsed(w) && p in w.calls
    ensures var c := CallNext(w, w.calls[p], ok, next, files).call;
      RevokedFamily(c).Some? ==> !UnusedFamily(w.issued, RevokedFamily(c).value)
  {
    assert CallRecords(w.issued, w.calls[p]);
    var c := w.calls[p];
    if c.CheckConsumed? && c.seen.Some? { assert w.issued[c.token].familyId == c.seen.value.record.familyId; }
  }

  lemma StepKeepsUsed(w: World, a: Action)
    requires Inv(w) && RevokedAreUsed(w)
    ensures RevokedAreUsed(Step(w, a))
  {
    HistoryGrows(w, a);
    var w' := Step(w, a);
    forall p | p in w'.calls && RevokedFamily(w'.calls[p]).Some?
      ensures !UnusedFamily(w'.issued, RevokedFamily(w'.calls[p]).value)
    {
      if a.Go? && a.p == p && p in w.calls { RevokedNextIsUsed(w, p, a.ok, a.next, a.files); }
      UsedStays(w.issued, w'.issued, RevokedFamily(w'.calls[p]).value);
    }
  }

  lemma {:induction false} RunKeepsUsed(w: World, actions: seq<Action>)
    requires Inv(w) && RevokedAreUsed(w)
    ensures RevokedAreUsed(Run(w, actions))
    decreases |actions|
  {
    if actions != [] {
      StepKeepsInv(w, actions[0]);
      StepKeepsUsed(w, actions[0]);
      RunKeepsUsed(Step(w, actions[0]), actions[1..]);
    }
  }

  lemma ReachableUsed(w: World)
    requires Reachable(w)
    ensures RevokedAreUsed(w)
  {
    var actions :| w == Run(INIT, actions);
    RunKeepsUsed(INIT, actions);
  }

  lemma PresentedRun(w: World, p: Pid, t: Token, n: Nonce, w1: World, after: seq<Action>)
    requires Reachable(w) && t in w.commits && p !in w.calls && w1 == Step(w, Start(p, Refresh(t, n)))
    requires Undisturbed(after, p)
    ensures Presenting(Run(w1, after), p, t)
  {
    ReachableSound(w);
    StartPresents(w, p, t, n);
    RunKeepsPresenting(w1, after, p, t);
  }

  // In any run, a call that presents an already committed token is answered 'reused', or,
  // once the token has expired, 'invalid'; it is never answered with a new pair.
  lemma ReuseIsDetected(w: World, p: Pid, t: Token, n: Nonce, after: seq<Action>, w': World)
    requires Reachable(w) && t in w.commits && p !in w.calls
    requires w' == Run(Step(w, Start(p, Refresh(t, n))), after) && Undisturbed(after, p)
    ensures p in w'.calls && t in w'.issued && !Issues(w'.calls[p])
    ensures w'.calls[p].Done? ==>
      || w'.calls[p].outcome == Reused
      || (w'.calls[p].outcome == Invalid && Expired(w'.issued[t].expiresAt, w'.clock))
  {
    PresentedRun(w, p, t, n, Step(w, Start(p, Refresh(t, n))), after);
  }

  // Call c holds a token of family f somewhere between consuming it and answering, or is
  // logging in to f.
  predicate InFlight(issued: map<Token, Record>, c: Call, f: Family) {
    if c.LoginCreate? then TokenFamily(issued, c.next) == Some(f)
    else
      && (c.ReadLock? || c.CheckLock? || c.Sign? || c.Create? || c.Commit? || c.DropConsumed? || c.Rollback?)
      && TokenFamily(issued, c.token) == Some(f)
  }

  ghost predicate Quiet(w: World, f: Family) {
    forall p :: p in w.calls ==> !InFlight(w.issued, w.calls[p], f)
  }

  ghost predicate NoActive(w: World, f: Family) {
    forall t :: Active(t) in w.dir ==> w.dir[Active(t)].familyId != f
  }

  // Nothing can rotate in family f any more.
  ghost predicate Dead(w: World, f: Family) {
    Inv(w) && Quiet(w, f) && NoActive(w, f) && !UnusedFamily(w.issued, f)
  }

  // While no rotation of f is in flight, a call's step neither writes an active file of f nor
  // prepares a record of f, and starts a rotation of f only from an active file.
  lemma QuietNext(w: World, p: Pid, ok: bool, next: Token, files: seq<Path>, f: Family)
    requires Inv(w) && p in w.calls && !InFlight(w.issued, w.calls[p], f)
    ensures var n := CallNext(w, w.calls[p], ok, next, files);
      && (n.op.Write? && n.op.path.Active? ==> n.op.record.familyId != f)
      && (n.op.Move? && n.op.dst.Active? && n.op.src in w.dir ==> w.dir[n.op.src].familyId != f)
      && (n.call.Create? && n.call.next !in w.issued ==> n.call.nextRecord.familyId != f)
      && !n.call.LoginCreate?
  {
    assert CallRecords(w.issued, w.calls[p]);
    var n := CallNext(w, w.calls[p], ok, next, files);
    if n.op.Move? && n.op.src in w.dir { assert n.op.src.token in w.issued; }
  }

  lemma DeadNext(w: World, p: Pid, ok: bool, next: Token, files: seq<Path>, f: Family)
    requires Dead(w, f) && p in w.calls
    ensures !InFlight(w.issued, CallNext(w, w.calls[p], ok, next, files).call, f)
  {
    var c := w.calls[p];
    assert CallRecords(w.issued, c);
    if c.Consume? && Active(c.token) in w.dir { assert Active(c.token).token in w.issued; }
  }

  lemma StepKeepsDead(w: World, a: Action, f: Family)
    requires Dead(w, f)
    ensures Dead(Step(w, a), f)
    ensures forall t :: t in Step(w, a).issued && t !in w.issued ==> Step(w, a).issued[t].familyId != f
  {
    StepKeepsInv(w, a);
    match a
    case Go(p, ok, next, files) =>
      if p in w.calls {
        var n := CallNext(w, w.calls[p], ok, next, files);
        QuietNext(w, p, ok, next, files, f);
        DeadNext(w, p, ok, next, files, f);
        CallNextAgrees(w, p, ok, next, files);
        ApplyKeepsDead(w, p, n, f);
      }
    case Start(p, r) =>
      if p !in w.calls && Started(w, r).Some? { ApplyKeepsDead(w, p, Next(Started(w, r).value, NoOp), f); }
    case Sweep(q, v) =>
      if q in w.purges { PurgeRemoves(w, w.purges[q], v); }
    case _ =>
  }

  lemma ApplyKeepsDead(w: World, p: Pid, n: Next, f: Family)
    requires Dead(w, f) && NextAgrees(w, n)
    requires n.op.Write? && n.op.path.Active? ==> n.op.record.familyId != f
    requires n.op.Move? && n.op.dst.Active? && n.op.src in w.dir ==> w.dir[n.op.src].familyId != f
    requires (n.call.Create? || n.call.LoginCreate?) && n.call.next !in w.issued ==> n.call.nextRecord.familyId != f
    requires !InFlight(w.issued, n.call, f)
    ensures Quiet(Apply(w, p, n), f) && NoActive(Apply(w, p, n), f) && !UnusedFamily(Apply(w, p, n).issued, f)
  {
    var w' := Apply(w, p, n);
    forall q | q in w'.calls ensures !InFlight(w'.issued, w'.calls[q], f) {
      if q != p { assert CallRecords(w.issued, w.calls[q]); }
    }
    var t :| t in w.issued && w.issued[t].familyId == f;
    assert t in w'.issued && w'.issued[t].familyId == f;
  }

  // No record of family f was prepared on the way from `before` to `after`.
  ghost predicate NoneOfFamily(before: map<Token, Record>, after: map<Token, Record>, f: Family) {
    forall t :: t in after && t !in before ==> after[t].familyId != f
  }

  lemma {:induction false} RunKeepsDead(w: World, actions: seq<Action>, f: Family)
    requires Dead(w, f)
    ensures Dead(Run(w, actions), f) && NoneOfFamily(w.issued, Run(w, actions).issued, f)
    ensures IssuedGrows(w.issued, Run(w, actions).issued)
    decreases |actions|
  {
    if actions != [] {
      var w1 := Step(w, actions[0]);
      StepKeepsDead(w, actions[0], f);
      HistoryGrows(w, actions[0]);
      RunKeepsDead(w1, actions[1..], f);
      var w' := Run(w1, actions[1..]);
      forall t | t in w'.issued && t !in w.issued ensures w'.issued[t].familyId != f {
        if t in w1.issued { assert w'.issued[t] == w1.issued[t]; }
      }
    }
  }

  // Answering with a new pair is the step of a call that was holding a token.
  lemma RefreshedFrom(w: World, p: Pid, ok: bool, next: Token, files: seq<Path>)
    requires p in w.calls && !w.calls[p].Done? && !w.calls[p].Reply?
    requires var c := CallNext(w, w.calls[p], ok, next, files).call;
      (c.Done? || c.Reply?) && c.outcome.Refreshed?
    ensures w.calls[p].DropConsumed?
  {
  }

  // Once family f is dead, no later step of any run prepares a token of f, and no refresh
  // that presented a token of f is answered with a new pair.
  lemma DeadFamilyNeverRotates(w: World, actions: seq<Action>, x: World, p: Pid, ok: bool, next: Token,
                               files: seq<Path>, f: Family)
    requires Dead(w, f) && x == Run(w, actions) && p in x.calls && !x.calls[p].Done? && !x.calls[p].Reply?
    ensures NoneOfFamily(w.issued, x.issued, f)
    ensures var c := Step(x, Go(p, ok, next, files)).calls[p];
      (c.Done? || c.Reply?) && c.outcome.Refreshed? ==>
        x.calls[p].DropConsumed? && TokenFamily(x.issued, x.calls[p].token) != Some(f)
  {
    RunKeepsDead(w, actions, f);
    var c := CallNext(x, x.calls[p], ok, next, files).call;
    if (c.Done? || c.Reply?) && c.outcome.Refreshed? { RefreshedFrom(x, p, ok, next, files); }
  }

  // Every active file of family f is among `files`.
  ghost predicate ActivesAmong(w: World, f: Family, files: seq<Path>) {
    forall t :: Active(t) in w.dir && w.dir[Active(t)].familyId == f ==> Active(t) in files
  }

  // Between listing the directory and answering 'reused', call r has every active file of
  // family f still ahead of it.
  ghost predicate Revoking(w: World, c: Call, f: Family) {
    match c
    case ReadFamily(g, rest) => g == f && ActivesAmong(w, f, rest)
    case DropFamily(g, rest, drop) =>
      && g == f && rest != [] && ActivesAmong(w, f, rest)
      && (rest[0].Active? && rest[0] in w.dir && w.dir[rest[0]].familyId == f ==> drop)
    case Reply(o) => o == Reused && NoActive(w, f)
    case Done(o) => o == Reused && NoActive(w, f)
    case _ => false
  }

  // No file of f other than a moved-aside one appears from w to w'.
  ghost predicate NoNewFiles(w: World, w': World, f: Family) {
    forall q :: q in w'.dir && w'.dir[q].familyId == f && !(q in w.dir && w'.dir[q] == w.dir[q]) ==>
      q.Consuming?
  }

  ghost predicate RevokingRun(w: World, r: Pid, f: Family) {
    Inv(w) && Quiet(w, f) && !UnusedFamily(w.issued, f) && r in w.calls && Revoking(w, w.calls[r], f)
  }

  lemma QuietStepAddsNoFile(w: World, a: Action, f: Family)
    requires Inv(w) && Quiet(w, f)
    ensures NoNewFiles(w, Step(w, a), f)
  {
    match a
    case Go(p, ok, next, files) =>
      if p in w.calls {
        QuietNext(w, p, ok, next, files, f);
      }
    case Sweep(q, v) =>
      if q in w.purges { PurgeRemoves(w, w.purges[q], v); }
    case _ =>
  }

  lemma RevokingHolds(w: World, w': World, c: Call, f: Family)
    requires Revoking(w, c, f) && NoNewFiles(w, w', f)
    ensures Revoking(w', c, f)
  {
  }

  // r's own step takes it one file further.
  lemma RevokingAdvances(w: World, r: Pid, next: Token, files: seq<Path>, f: Family)
    requires RevokingRun(w, r, f)
    ensures var n := CallNext(w, w.calls[r], true, next, files); Revoking(Apply(w, r, n), n.call, f)
  {
    var c := w.calls[r];
    if c.DropFamily? {
      forall t | Active(t) in w.dir && w.dir[Active(t)].familyId == f && Active(t) != c.files[0]
        ensures Active(t) in c.files[1..]
      {
        assert Active(t) in c.files;
      }
    }
  }

  // No rotation of f is in flight in any state of the run, the process stays up, and r's own
  // operations succeed.
  ghost predicate QuietThroughout(w: World, actions: seq<Action>, r: Pid, f: Family)
    decreases |actions|
  {
    && Quiet(w, f)
    && (actions != [] ==>
          var a := actions[0];
          !a.Crash? && (a.Go? && a.p == r ==> a.ok) && QuietThroughout(Step(w, a), actions[1..], r, f))
  }

  lemma StepKeepsRevoking(w: World, a: Action, r: Pid, f: Family)
    requires RevokingRun(w, r, f) && !a.Crash? && (a.Go? && a.p == r ==> a.ok) && Quiet(Step(w, a), f)
    ensures RevokingRun(Step(w, a), r, f)
  {
    StepKeepsInv(w, a);
    HistoryGrows(w, a);
    if a.Go? && a.p == r {
      RevokingAdvances(w, r, a.next, a.files, f);
    } else {
      QuietStepAddsNoFile(w, a, f);
      RevokingHolds(w, Step(w, a), w.calls[r], f);
    }
    var t :| t in w.issued && w.issued[t].familyId == f;
    assert Step(w, a).issued[t].familyId == f;
  }

  lemma {:induction false} RunKeepsRevoking(w: World, actions: seq<Action>, r: Pid, f: Family)
    requires RevokingRun(w, r, f) && QuietThroughout(w, actions, r, f)
    ensures RevokingRun(Run(w, actions), r, f)
    decreases |actions|
  {
    if actions != [] {
      assert Quiet(Step(w, actions[0]), f);
      StepKeepsRevoking(w, actions[0], r, f);
      RunKeepsRevoking(Step(w, actions[0]), actions[1..], r, f);
    }
  }

  lemma ListingStartsRevoking(w: World, r: Pid, f: Family, next: Token, files: seq<Path>)
    requires Inv(w) && Quiet(w, f) && !UnusedFamily(w.issued, f) && r in w.calls && w.calls[r] == ListFamily(f)
    requires forall q :: q in w.dir ==> q in files
    ensures RevokingRun(Step(w, Go(r, true, next, files)), r, f)
  {
    StepKeepsInv(w, Go(r, true, next, files));
    assert CallNext(w, w.calls[r], true, next, files) == Next(ReadFamily(f, files), NoOp);
  }

  // After a reuse was detected: when readdir answered the whole directory and no rotation of
  // the family is in flight from then until the loop has answered, the family is dead.
  lemma RevokeKillsFamily(w: World, r: Pid, f: Family, next: Token, files: seq<Path>, after: seq<Action>, w': World)
    requires Reachable(w) && Quiet(w, f) && r in w.calls && w.calls[r] == ListFamily(f)
    requires forall q :: q in w.dir ==> q in files
    requires QuietThroughout(Step(w, Go(r, true, next, files)), after, r, f)
    requires w' == Run(Step(w, Go(r, true, next, files)), after) && r in w'.calls && w'.calls[r].Done?
    ensures w'.calls[r].outcome == Reused && Dead(w', f)
  {
    ReachableSound(w);
    ReachableUsed(w);
    ListingStartsRevoking(w, r, f, next, files);
    RunKeepsRevoking(Step(w, Go(r, true, next, files)), after, r, f);
  }
}
