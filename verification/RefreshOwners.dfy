// Whose a token is: every record of a family, wherever it is kept, names the user whose login drew
// the family, and expires fourteen days after it was made.
module RefreshOwners {
  import opened Common
  import opened RefreshTokens
  import opened RefreshInvariants
  import opened RefreshReuse

  // Family f is in use, and all its records name user u.
  ghost predicate OwnedBy(issued: map<Token, Record>, f: Family, u: UserId) {
    !UnusedFamily(issued, f) && forall t :: t in issued && issued[t].familyId == f ==> issued[t].userId == u
  }

  // The new records of one step: the successor of a token, or that of a login.
  lemma NewRecordsOf(w: World, a: Action, t: Token)
    requires Inv(w) && t in Step(w, a).issued && t !in w.issued
    ensures var r := Step(w, a).issued[t];
      && r.createdAt == w.clock && r.expiresAt == w.clock + 14 * 24 * 60 * 60 * 1000
      && ((exists s :: s in w.issued && w.issued[s].familyId == r.familyId && w.issued[s].userId == r.userId)
          || (a.Start? && a.request == Login(r.userId, r.familyId, t) && UnusedFamily(w.issued, r.familyId)))
  {
    if a.Go? && a.p in w.calls {
      var c := w.calls[a.p];
      assert CallRecords(w.issued, c);
      if c.Sign? { assert w.issued[c.token] == c.record; }
    }
  }

  lemma StepKeepsOwner(w: World, a: Action, f: Family, u: UserId)
    requires Inv(w) && OwnedBy(w.issued, f, u)
    ensures OwnedBy(Step(w, a).issued, f, u)
  {
    HistoryGrows(w, a);
    UsedStays(w.issued, Step(w, a).issued, f);
    forall t | t in Step(w, a).issued && t !in w.issued && Step(w, a).issued[t].familyId == f
      ensures Step(w, a).issued[t].userId == u
    {
      NewRecordsOf(w, a, t);
    }
  }

  lemma {:induction false} RunKeepsOwner(w: World, actions: seq<Action>, f: Family, u: UserId)
    requires Inv(w) && OwnedBy(w.issued, f, u)
    ensures Inv(Run(w, actions)) && OwnedBy(Run(w, actions).issued, f, u)
    decreases |actions|
  {
    if actions != [] {
      StepKeepsInv(w, actions[0]);
      StepKeepsOwner(w, actions[0], f, u);
      RunKeepsOwner(Step(w, actions[0]), actions[1..], f, u);
    }
  }

  // Every record of family f, on disk, consumed or only prepared, names user u.
  ghost predicate AllOf(w: World, f: Family, u: UserId) {
    && (forall t :: t in w.issued && w.issued[t].familyId == f ==> w.issued[t].userId == u)
    && (forall q :: q in w.dir && w.dir[q].familyId == f ==> w.dir[q].userId == u)
    && (forall t :: t in w.consumed && w.consumed[t].record.familyId == f ==> w.consumed[t].record.userId == u)
  }

  // From a login on, along every run, all records of the family it drew name the user who logged
  // in, and the token it was given is one of the family.
  lemma LoginOwnsItsFamily(
    w: World, p: Pid, u: UserId, f: Family, t: Token, w1: World, actions: seq<Action>, w2: World)
    requires Reachable(w) && p !in w.calls && t !in w.issued && UnusedFamily(w.issued, f)
    requires w1 == Step(w, Start(p, Login(u, f, t))) && w2 == Run(w1, actions)
    ensures w1.issued == w.issued[t := Record(u, f, w.clock, w.clock + 14 * 24 * 60 * 60 * 1000)]
    ensures AllOf(w2, f, u)
  {
    LoginDraws(w, p, u, f, t, w1);
    RunKeepsOwner(w1, actions, f, u);
    OwnerIsEverywhere(w2, f, u);
  }

  lemma LoginDraws(w: World, p: Pid, u: UserId, f: Family, t: Token, w1: World)
    requires Reachable(w) && p !in w.calls && t !in w.issued && UnusedFamily(w.issued, f)
    requires w1 == Step(w, Start(p, Login(u, f, t)))
    ensures w1.issued == w.issued[t := Record(u, f, w.clock, w.clock + 14 * 24 * 60 * 60 * 1000)]
    ensures Inv(w1) && OwnedBy(w1.issued, f, u)
  {
    ReachableSound(w);
    StepKeepsInv(w, Start(p, Login(u, f, t)));
    assert w1.issued[t].familyId == f;
  }

  lemma OwnerIsEverywhere(w: World, f: Family, u: UserId)
    requires Inv(w) && OwnedBy(w.issued, f, u)
    ensures AllOf(w, f, u)
  {
  }

  ghost predicate LoggedIn(actions: seq<Action>, u: UserId, f: Family) {
    exists a :: a in actions && a.Start? && a.request.Login? && a.request.user == u && a.request.family == f
  }

  lemma {:induction false} RecordHasOrigin(w: World, actions: seq<Action>, t: Token)
    requires Inv(w) && t in Run(w, actions).issued
    ensures var r := Run(w, actions).issued[t];
      || LoggedIn(actions, r.userId, r.familyId)
      || exists s :: s in w.issued && w.issued[s].familyId == r.familyId && w.issued[s].userId == r.userId
    decreases |actions|
  {
    if actions != [] {
      var a, w1, r := actions[0], Step(w, actions[0]), Run(w, actions).issued[t];
      StepKeepsInv(w, a);
      RecordHasOrigin(w1, actions[1..], t);
      HistoryGrows(w, a);
      if !LoggedIn(actions, r.userId, r.familyId) {
        assert !LoggedIn(actions[1..], r.userId, r.familyId);
        var s :| s in w1.issued && w1.issued[s].familyId == r.familyId && w1.issued[s].userId == r.userId;
        if s !in w.issued { NewRecordsOf(w, a, s); } else { assert w1.issued[s] == w.issued[s]; }
      }
    }
  }

  // No record of any run is of a user and family that no login of the run paired.
  lemma EveryRecordWasLoggedIn(actions: seq<Action>, t: Token)
    requires t in Run(INIT, actions).issued
    ensures var r := Run(INIT, actions).issued[t]; LoggedIn(actions, r.userId, r.familyId)
  {
    RecordHasOrigin(INIT, actions, t);
  }

  ghost predicate Timed(w: World) {
    forall t :: t in w.issued ==>
      w.issued[t].createdAt <= w.clock && w.issued[t].expiresAt == w.issued[t].createdAt + 14 * 24 * 60 * 60 * 1000
  }

  lemma {:induction false} RunKeepsTimed(w: World, actions: seq<Action>)
    requires Inv(w) && Timed(w)
    ensures Timed(Run(w, actions))
    decreases |actions|
  {
    if actions != [] {
      var w1 := Step(w, actions[0]);
      StepKeepsInv(w, actions[0]);
      HistoryGrows(w, actions[0]);
      forall t | t in w1.issued
        ensures w1.issued[t].createdAt <= w1.clock
          && w1.issued[t].expiresAt == w1.issued[t].createdAt + 14 * 24 * 60 * 60 * 1000
      {
        if t in w.issued { assert w1.issued[t] == w.issued[t]; } else { NewRecordsOf(w, actions[0], t); }
      }
      RunKeepsTimed(w1, actions[1..]);
    }
  }

  // Every file of every run expires fourteen days after it was made, and none is from the future.
  lemma EveryFileLivesFourteenDays(actions: seq<Action>, q: Path)
    requires q in Run(INIT, actions).dir
    ensures var w := Run(INIT, actions);
      w.dir[q].createdAt <= w.clock && w.dir[q].expiresAt == w.dir[q].createdAt + 14 * 24 * 60 * 60 * 1000
  {
    RunKeepsInv(INIT, actions);
    RunKeepsTimed(INIT, actions);
    assert q.token in Run(INIT, actions).issued;
  }

  // The same user and family.
  predicate Siblings(issued: map<Token, Record>, t: Token, next: Token) {
    && t in issued && next in issued
    && issued[next].familyId == issued[t].familyId && issued[next].userId == issued[t].userId
  }

  // How the call that presented token t can stand: what it answers is a sibling of t.
  ghost predicate Rotates(issued: map<Token, Record>, t: Token, c: Call) {
    match c
    case Consume(u, _) => u == t
    case ReadLock(u, _) => u == t
    case CheckLock(u, _, _) => u == t
    case Sign(u, _, _) => u == t
    case Create(u, _, _, next, _) => u == t && Siblings(issued, t, next)
    case Commit(u, _, _, next) => u == t && Siblings(issued, t, next)
    case DropConsumed(u, _, next) => u == t && Siblings(issued, t, next)
    case Reply(o) => !o.Refreshed? && !o.LoggedIn?
    case Done(o) => !o.LoggedIn? && (o.Refreshed? ==> Siblings(issued, t, o.next))
    case LoginCreate(_, _) => false
    case _ => true
  }

  lemma CallKeepsRotating(w: World, p: Pid, t: Token, ok: bool, next: Token, files: seq<Path>)
    requires Inv(w) && p in w.calls && Rotates(w.issued, t, w.calls[p])
    ensures var n := CallNext(w, w.calls[p], ok, next, files); Rotates(Prepared(w.issued, n.call), t, n.call)
  {
    assert CallRecords(w.issued, w.calls[p]);
  }

  lemma StepKeepsRotating(w: World, a: Action, p: Pid, t: Token)
    requires Inv(w) && p in w.calls && Rotates(w.issued, t, w.calls[p]) && !a.Crash?
    ensures p in Step(w, a).calls && Rotates(Step(w, a).issued, t, Step(w, a).calls[p])
  {
    HistoryGrows(w, a);
    if a.Go? && a.p == p { CallKeepsRotating(w, p, t, a.ok, a.next, a.files); }
  }

  lemma {:induction false} RunKeepsRotating(w: World, actions: seq<Action>, p: Pid, t: Token)
    requires Inv(w) && p in w.calls && Rotates(w.issued, t, w.calls[p])
    requires forall a :: a in actions ==> !a.Crash?
    ensures p in Run(w, actions).calls && Rotates(Run(w, actions).issued, t, Run(w, actions).calls[p])
    decreases |actions|
  {
    if actions != [] {
      assert actions[0] in actions;
      StepKeepsInv(w, actions[0]);
      StepKeepsRotating(w, actions[0], p, t);
      RunKeepsRotating(Step(w, actions[0]), actions[1..], p, t);
    }
  }

  // A refresh that is answered with a new token gives one of the user and family of the token that
  // was presented, in any run.
  lemma RefreshKeepsTheUser(w: World, p: Pid, t: Token, n: Nonce, w1: World, actions: seq<Action>, w2: World)
    requires Reachable(w) && p !in w.calls && (forall a :: a in actions ==> !a.Crash?)
    requires w1 == Step(w, Start(p, Refresh(t, n))) && w2 == Run(w1, actions)
    requires p in w2.calls && w2.calls[p].Done? && w2.calls[p].outcome.Refreshed?
    ensures var next := w2.calls[p].outcome.next;
      && t in w2.issued && next in w2.issued
      && w2.issued[next].userId == w2.issued[t].userId && w2.issued[next].familyId == w2.issued[t].familyId
  {
    ReachableSound(w);
    StepKeepsInv(w, Start(p, Refresh(t, n)));
    RunKeepsRotating(w1, actions, p, t);
  }
}
