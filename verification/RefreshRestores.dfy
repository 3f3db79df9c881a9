// What can bring back a file that a purge has listed and found missing: with fresh nonces, only
// the rollback of a rotation in flight.
module RefreshRestores {
  import opened Common
  import opened RefreshTokens
  import opened RefreshInvariants
  import opened RefreshReuse
  import opened RefreshGc

  // The names of moved-aside files that calls have drawn.
  type Locks = set<(Token, Nonce)>

  function Drawn(locks: Locks, a: Action): Locks {
    if a.Start? && a.request.Refresh? then locks + {(a.request.token, a.request.nonce)} else locks
  }

  predicate DrawsFresh(locks: Locks, a: Action) {
    a.Start? && a.request.Refresh? ==> (a.request.token, a.request.nonce) !in locks
  }

  ghost predicate FreshNonces(locks: Locks, actions: seq<Action>)
    decreases |actions|
  {
    actions == [] || (DrawsFresh(locks, actions[0]) && FreshNonces(Drawn(locks, actions[0]), actions[1..]))
  }

  predicate Writes(c: Call, t: Token) {
    (c.Create? || c.LoginCreate?) && c.next == t
  }

  // No call is still to make the file for the first time.
  ghost predicate Settled(v: World, locks: Locks, path: Path) {
    match path
    case Active(t) => t in v.issued && forall p :: p in v.calls ==> !Writes(v.calls[p], t)
    case Consuming(t, n) => (t, n) in locks && forall p :: p in v.calls ==> v.calls[p] != Consume(t, n)
  }

  function Listed(s: Purge): set<Path> {
    if s.SweepFiles? || s.DropFile? then s.files else {}
  }

  ghost predicate Locking(v: World, locks: Locks) {
    && (forall p :: p in v.calls && v.calls[p].Consume? ==> (v.calls[p].token, v.calls[p].nonce) in locks)
    && (forall p, q :: p in v.calls && q in v.calls && p != q && v.calls[p].Consume? ==> v.calls[p] != v.calls[q])
  }

  ghost predicate FilesSettled(v: World, locks: Locks) {
    forall path :: path in v.dir ==> Settled(v, locks, path)
  }

  ghost predicate ListSettled(v: World, locks: Locks, s: Purge) {
    && (forall path :: path in Listed(s) ==> Settled(v, locks, path))
    && (s.DropFile? ==> s.path in s.files)
  }

  ghost predicate AllSettled(v: World, locks: Locks) {
    && Locking(v, locks) && FilesSettled(v, locks)
    && forall q :: q in v.purges ==> ListSettled(v, locks, v.purges[q])
  }

  // A call comes to write a token only by drawing it, and never back to Consume.
  lemma NextMakesOnlyNew(v: World, c: Call, ok: bool, next: Token, files: seq<Path>)
    ensures var d := CallNext(v, c, ok, next, files).call;
      !d.Consume? && !d.LoginCreate? && (d.Create? ==> d.next !in v.issued)
  {
  }

  lemma StepKeepsLocking(v: World, locks: Locks, a: Action)
    requires Locking(v, locks) && DrawsFresh(locks, a)
    ensures Locking(Step(v, a), Drawn(locks, a))
  {
    if a.Go? && a.p in v.calls { NextMakesOnlyNew(v, v.calls[a.p], a.ok, a.next, a.files); }
  }

  // Calls change one at a time.
  lemma CallsAfter(v: World, a: Action, p: Pid)
    requires p in Step(v, a).calls
    ensures var c := Step(v, a).calls[p];
      || (p in v.calls && c == v.calls[p])
      || (a.Go? && p in v.calls && c == CallNext(v, v.calls[p], a.ok, a.next, a.files).call)
      || (a.Start? && Started(v, a.request) == Some(c))
  {
  }

  lemma StepKeepsSettled(v: World, locks: Locks, a: Action, path: Path)
    requires Inv(v) && Settled(v, locks, path) && DrawsFresh(locks, a)
    ensures Settled(Step(v, a), Drawn(locks, a), path)
  {
    HistoryGrows(v, a);
    var v' := Step(v, a);
    forall p | p in v'.calls
      ensures path.Active? ==> !Writes(v'.calls[p], path.token)
      ensures path.Consuming? ==> v'.calls[p] != Consume(path.token, path.nonce)
    {
      CallsAfter(v, a, p);
      if a.Go? && p in v.calls { NextMakesOnlyNew(v, v.calls[p], a.ok, a.next, a.files); }
    }
  }

  lemma ActiveSettled(v: World, locks: Locks, t: Token)
    requires Inv(v) && Active(t) in v.dir
    ensures Settled(v, locks, Active(t))
  {
    assert Active(t).token in v.issued;
    assert forall p :: p in v.calls && Writes(v.calls[p], t) ==> t in Claims(v.calls[p]);
  }

  // A step makes no moved-aside file but the one a call at Consume moves its token to.
  lemma NewFile(v: World, a: Action, path: Path)
    requires path !in v.dir && path in Step(v, a).dir && path.Consuming?
    ensures a.Go? && a.p in v.calls && v.calls[a.p] == Consume(path.token, path.nonce)
  {
    if a.Sweep? && a.q in v.purges { PurgeRemoves(v, v.purges[a.q], a.visit); }
  }

  lemma NewFileSettled(v: World, locks: Locks, a: Action, path: Path)
    requires Locking(v, locks) && path !in v.dir && path in Step(v, a).dir && path.Consuming?
    ensures Settled(Step(v, a), Drawn(locks, a), path)
  {
    NewFile(v, a, path);
    var v' := Step(v, a);
    forall p | p in v'.calls ensures v'.calls[p] != Consume(path.token, path.nonce) {
      if p == a.p { NextMakesOnlyNew(v, v.calls[p], a.ok, a.next, a.files); }
    }
  }

  lemma FilesStaySettled(v: World, locks: Locks, a: Action)
    requires Inv(v) && AllSettled(v, locks) && DrawsFresh(locks, a)
    ensures FilesSettled(Step(v, a), Drawn(locks, a))
  {
    StepKeepsInv(v, a);
    var v' := Step(v, a);
    forall path | path in v'.dir ensures Settled(v', Drawn(locks, a), path) {
      if path.Active? { ActiveSettled(v', Drawn(locks, a), path.token); }
      else if path in v.dir { StepKeepsSettled(v, locks, a, path); }
      else { NewFileSettled(v, locks, a, path); }
    }
  }

  lemma SweepLists(v: World, s: Purge, visit: Visit)
    ensures var s' := PurgeStep(v, s, visit).purge;
      && Listed(s') <= Listed(s) + v.dir.Keys
      && (s'.DropFile? && s' != s ==> s'.path in s'.files)
  {
  }

  lemma PurgesAfter(v: World, a: Action, q: Pid)
    requires q in Step(v, a).purges
    ensures var s := Step(v, a).purges[q];
      || (q in v.purges && s == v.purges[q])
      || s.BeginSweep?
      || (a.Sweep? && q in v.purges && s == PurgeStep(v, v.purges[q], a.visit).purge)
  {
  }

  lemma StepKeepsAllSettled(v: World, locks: Locks, a: Action)
    requires Inv(v) && AllSettled(v, locks) && DrawsFresh(locks, a)
    ensures AllSettled(Step(v, a), Drawn(locks, a))
  {
    StepKeepsLocking(v, locks, a);
    FilesStaySettled(v, locks, a);
    var v', locks' := Step(v, a), Drawn(locks, a);
    forall q | q in v'.purges ensures ListSettled(v', locks', v'.purges[q]) {
      PurgesAfter(v, a, q);
      if a.Sweep? && q in v.purges { SweepLists(v, v.purges[q], a.visit); }
      forall path | path in Listed(v'.purges[q]) ensures Settled(v', locks', path) {
        assert q in v.purges && (path in Listed(v.purges[q]) || path in v.dir);
        StepKeepsSettled(v, locks, a, path);
      }
    }
  }

  // The step is the rollback of a rotation whose active file a purge has found missing and has
  // not unlinked yet, while the moved-aside file is still there.
  ghost predicate Restores(v: World, a: Action) {
    && a.Go? && a.p in v.calls && v.calls[a.p].Rollback?
    && var c := v.calls[a.p];
       Consuming(c.token, c.nonce) in v.dir
       && exists q :: q in v.purges && v.purges[q].DropFile? && v.purges[q].path == Active(c.token)
  }

  // That is exactly when a file comes back that a purge found missing.
  lemma ComesBackIff(v: World, locks: Locks, a: Action)
    requires Inv(v) && AllSettled(v, locks)
    ensures (exists q :: ComesBack(v, a, q)) <==> Restores(v, a)
  {
    if q :| ComesBack(v, a, q) {
      var path := v.purges[q].path;
      assert ListSettled(v, locks, v.purges[q]) && path in Listed(v.purges[q]);
      if path.Consuming? { NewFile(v, a, path); } else { OnlyRollbackRestores(v, a, path.token); }
      assert Restores(v, a);
    }
    if Restores(v, a) {
      var c := v.calls[a.p];
      var q :| q in v.purges && v.purges[q].DropFile? && v.purges[q].path == Active(c.token);
      assert c.token in Claims(c);
      assert ComesBack(v, a, q);
    }
  }

  // What brings an active file back is a rollback of its token; the other steps that make one
  // appear are the first write of a token.
  lemma OnlyRollbackRestores(v: World, a: Action, t: Token)
    requires Inv(v) && Active(t) !in v.dir && Active(t) in Step(v, a).dir
    ensures a.Go? && a.p in v.calls
    ensures var c := v.calls[a.p];
      Writes(c, t) || (c.Rollback? && c.token == t && Consuming(t, c.nonce) in v.dir)
  {
    if a.Sweep? && a.q in v.purges { PurgeRemoves(v, v.purges[a.q], a.visit); }
  }

  ghost predicate NothingRestored(v: World, actions: seq<Action>)
    decreases |actions|
  {
    actions == [] || (!Restores(v, actions[0]) && NothingRestored(Step(v, actions[0]), actions[1..]))
  }

  lemma {:induction false} NothingRestoredIff(v: World, locks: Locks, actions: seq<Action>)
    requires Inv(v) && AllSettled(v, locks) && FreshNonces(locks, actions)
    ensures NothingRestored(v, actions) <==> NothingComesBack(v, actions)
    decreases |actions|
  {
    if actions != [] {
      var a := actions[0];
      ComesBackIff(v, locks, a);
      StepKeepsInv(v, a);
      StepKeepsAllSettled(v, locks, a);
      NothingRestoredIff(Step(v, a), Drawn(locks, a), actions[1..]);
    }
  }

  // Purges cannot be observed unless a rollback restores a token between a purge's failed read of
  // its file and the unlink that follows.
  lemma PurgeIsUnobservableUnlessRestored(actions: seq<Action>, p: Pid)
    requires FreshNonces({}, actions) && NothingRestored(INIT, actions)
    ensures SameAnswer(Run(INIT, WithoutPurges(actions)), Run(INIT, actions), p)
  {
    InitAlike();
    NothingRestoredIff(INIT, {}, actions);
    NothingComesBackIsHarmless(INIT, actions);
    PurgeIsUnobservable(actions, p);
  }
}
