// When a token of a family can still be created, once its revocation has ended.
module RefreshSurvival {
  import opened Common
  import opened RefreshTokens
  import opened RefreshInvariants
  import opened RefreshReuse
  import opened RefreshGc

  // An unexpired file of family f.
  predicate AliveFile(w: World, path: Path, f: Family) {
    path in w.dir && w.dir[path].familyId == f && !Expired(w.dir[path].expiresAt, w.clock)
  }

  // Call c will write a token of f itself, or can put an unexpired one back: it is about to issue
  // the pair, has just read an unexpired record, or its moved-aside file is still there. A call
  // that is to record the consumption is one of these, since that may fail.
  predicate Fertile(w: World, c: Call, f: Family) {
    match c
    case ReadLock(t, n) => AliveFile(w, Consuming(t, n), f)
    case CheckLock(_, _, read) =>
      read.Some? && read.value.familyId == f && !Expired(read.value.expiresAt, w.clock)
    case Sign(_, _, rec) => rec.familyId == f
    case Create(_, _, _, _, nextRecord) => nextRecord.familyId == f
    case Commit(t, n, _, _) => AliveFile(w, Consuming(t, n), f)
    case Rollback(t, n, _) => AliveFile(w, Consuming(t, n), f)
    case LoginCreate(_, nextRecord) => nextRecord.familyId == f
    case _ => false
  }

  ghost predicate Survives(w: World, f: Family) {
    || (exists t :: AliveFile(w, Active(t), f))
    || (exists p :: p in w.calls && Fertile(w, w.calls[p], f))
  }

  // The step writes the file of a new token of f.
  ghost predicate Creates(w: World, a: Action, f: Family) {
    && a.Go? && a.p in w.calls
    && var op := CallNext(w, w.calls[a.p], a.ok, a.next, a.files).op;
       op.Write? && op.path.Active? && op.record.familyId == f
  }

  ghost predicate CanCreate(w: World, f: Family) {
    exists actions, a :: Creates(Run(w, actions), a, f)
  }

  ghost predicate Barren(w: World, f: Family) {
    Inv(w) && !UnusedFamily(w.issued, f) && !Survives(w, f)
  }

  // Of a barren family a call's next step writes no token, puts no unexpired file back, and leaves
  // the call no more fertile than before.
  lemma BarrenCreatesNothing(w: World, p: Pid, ok: bool, next: Token, files: seq<Path>, f: Family)
    requires Barren(w, f) && p in w.calls
    ensures !Creates(w, Go(p, ok, next, files), f)
    ensures var op := CallNext(w, w.calls[p], ok, next, files).op;
      op.Move? && op.dst.Active? ==> !AliveFile(w, op.src, f)
  {
    assert CallRecords(w.issued, w.calls[p]) && !Fertile(w, w.calls[p], f);
  }

  lemma ConsumeStaysBarren(w: World, p: Pid, ok: bool, f: Family)
    requires Barren(w, f) && p in w.calls && Consumes(w.calls[p])
    ensures var n := ConsumeNext(w, w.calls[p], ok); !Fertile(Apply(w, p, n), n.call, f)
  {
    var c := w.calls[p];
    assert CallRecords(w.issued, c) && !Fertile(w, c, f);
    if c.Consume? { assert !AliveFile(w, Active(c.token), f); }
  }

  lemma BarrenNext(w: World, p: Pid, ok: bool, next: Token, files: seq<Path>, f: Family)
    requires Barren(w, f) && p in w.calls
    ensures var n := CallNext(w, w.calls[p], ok, next, files); !Fertile(Apply(w, p, n), n.call, f)
  {
    if Consumes(w.calls[p]) { ConsumeStaysBarren(w, p, ok, f); }
    else if Issues(w.calls[p]) { IssueStaysBarren(w, p, ok, next, f); }
  }

  lemma IssueStaysBarren(w: World, p: Pid, ok: bool, next: Token, f: Family)
    requires Barren(w, f) && p in w.calls && Issues(w.calls[p])
    ensures var n := IssueNext(w, w.calls[p], ok, next); !Fertile(Apply(w, p, n), n.call, f)
  {
    assert CallRecords(w.issued, w.calls[p]) && !Fertile(w, w.calls[p], f);
  }

  // A file that appears is moved or written; no other call's moved-aside file is touched.
  lemma OthersStayBarren(w: World, p: Pid, ok: bool, next: Token, files: seq<Path>, f: Family, q: Pid)
    requires Barren(w, f) && p in w.calls && q in w.calls && q != p
    ensures !Fertile(Apply(w, p, CallNext(w, w.calls[p], ok, next, files)), w.calls[q], f)
  {
    assert !Fertile(w, w.calls[q], f);
    assert Claims(w.calls[p]) !! Claims(w.calls[q]);
    var c := w.calls[q];
    if c.ReadLock? || c.Commit? || c.Rollback? {
      assert c.token in Claims(c) && Active(c.token) !in w.dir;
    }
  }

  lemma GoKeepsBarren(w: World, p: Pid, ok: bool, next: Token, files: seq<Path>, f: Family)
    requires Barren(w, f) && p in w.calls
    ensures !Survives(Apply(w, p, CallNext(w, w.calls[p], ok, next, files)), f)
  {
    var n := CallNext(w, w.calls[p], ok, next, files);
    var w' := Apply(w, p, n);
    BarrenNext(w, p, ok, next, files, f);
    BarrenCreatesNothing(w, p, ok, next, files, f);
    forall t ensures !AliveFile(w', Active(t), f) {
      assert !AliveFile(w, Active(t), f);
    }
    forall q | q in w'.calls ensures !Fertile(w', w'.calls[q], f) {
      if q != p { OthersStayBarren(w, p, ok, next, files, f, q); }
    }
  }

  lemma RemovalKeepsBarren(w: World, w': World, f: Family)
    requires Barren(w, f) && w.clock <= w'.clock
    requires forall q :: q in w'.dir ==> q in w.dir && w'.dir[q] == w.dir[q]
    requires forall p :: p in w'.calls ==> p in w.calls && w'.calls[p] == w.calls[p]
    ensures !Survives(w', f)
  {
    forall t ensures !AliveFile(w', Active(t), f) {
      assert !AliveFile(w, Active(t), f);
    }
    forall p | p in w'.calls ensures !Fertile(w', w'.calls[p], f) {
      assert !Fertile(w, w.calls[p], f);
    }
  }

  lemma StartKeepsBarren(w: World, p: Pid, r: Request, f: Family)
    requires Barren(w, f)
    ensures !Survives(Step(w, Start(p, r)), f)
  {
    if p !in w.calls && Started(w, r).Some? {
      StartedIsBarren(w, p, Next(Started(w, r).value, NoOp), f);
    }
  }

  // A new call presents a token or logs in to another family.
  lemma StartedIsBarren(w: World, p: Pid, n: Next, f: Family)
    requires Barren(w, f) && p !in w.calls && n.op.NoOp? && Claims(n.call) !! w.issued.Keys
    requires n.call.Consume? || n.call.Find? || n.call.Logout? ||
      (n.call.LoginCreate? && n.call.nextRecord.familyId != f)
    ensures !Survives(Apply(w, p, n), f)
  {
    var w' := Apply(w, p, n);
    forall t ensures !AliveFile(w', Active(t), f) {
      assert !AliveFile(w, Active(t), f);
    }
    forall q | q in w'.calls ensures !Fertile(w', w'.calls[q], f) {
      if q in w.calls { assert !Fertile(w, w.calls[q], f); }
    }
  }

  lemma StepKeepsBarren(w: World, a: Action, f: Family)
    requires Barren(w, f)
    ensures Barren(Step(w, a), f) && !Creates(w, a, f)
  {
    StepKeepsInv(w, a);
    HistoryGrows(w, a);
    UsedStays(w.issued, Step(w, a).issued, f);
    match a
    case Go(p, ok, next, files) =>
      if p in w.calls {
        BarrenCreatesNothing(w, p, ok, next, files, f);
        GoKeepsBarren(w, p, ok, next, files, f);
      }
    case Start(p, r) => StartKeepsBarren(w, p, r, f);
    case Sweep(q, v) =>
      if q in w.purges { PurgeRemoves(w, w.purges[q], v); }
      RemovalKeepsBarren(w, Step(w, a), f);
    case _ => RemovalKeepsBarren(w, Step(w, a), f);
  }

  lemma {:induction false} BarrenForGood(w: World, actions: seq<Action>, f: Family)
    requires Barren(w, f)
    ensures Barren(Run(w, actions), f)
    decreases |actions|
  {
    if actions != [] {
      StepKeepsBarren(w, actions[0], f);
      BarrenForGood(Step(w, actions[0]), actions[1..], f);
    }
  }

  lemma CanCreateBefore(w: World, a: Action, f: Family)
    requires CanCreate(Step(w, a), f)
    ensures CanCreate(w, f)
  {
    var actions, b :| Creates(Run(Step(w, a), actions), b, f);
    RunFirst(w, a, actions);
    assert Creates(Run(w, [a] + actions), b, f);
  }

  lemma WriterCreates(w: World, p: Pid, f: Family)
    requires p in w.calls && (w.calls[p].Create? || w.calls[p].LoginCreate?) && Fertile(w, w.calls[p], f)
    ensures CanCreate(w, f)
  {
    assert Creates(Run(w, []), Go(p, true, 0, []), f);
  }

  lemma SignCreates(w: World, p: Pid, f: Family)
    requires p in w.calls && w.calls[p].Sign? && Fertile(w, w.calls[p], f)
    ensures CanCreate(w, f)
  {
    var next := Unused(w.issued.Keys);
    var a := Go(p, true, next, []);
    assert next !in w.issued;
    WriterCreates(Step(w, a), p, f);
    CanCreateBefore(w, a, f);
  }

  lemma CheckCreates(w: World, p: Pid, f: Family)
    requires p in w.calls && w.calls[p].CheckLock? && Fertile(w, w.calls[p], f)
    ensures CanCreate(w, f)
  {
    var a := Go(p, true, 0, []);
    SignCreates(Step(w, a), p, f);
    CanCreateBefore(w, a, f);
  }

  lemma ReadCreates(w: World, p: Pid, f: Family)
    requires p in w.calls && w.calls[p].ReadLock? && Fertile(w, w.calls[p], f)
    ensures CanCreate(w, f)
  {
    var a := Go(p, true, 0, []);
    CheckCreates(Step(w, a), p, f);
    CanCreateBefore(w, a, f);
  }

  // Anyone may present an active token, here after a restart.
  lemma ActiveCreates(w: World, t: Token, f: Family)
    requires AliveFile(w, Active(t), f)
    ensures CanCreate(w, f)
  {
    var w1 := Step(w, Crash);
    var w2 := Step(w1, Start(0, Refresh(t, 0)));
    var w3 := Step(w2, Go(0, true, 0, []));
    assert w3.calls[0] == ReadLock(t, 0) && AliveFile(w3, Consuming(t, 0), f);
    ReadCreates(w3, 0, f);
    CanCreateBefore(w2, Go(0, true, 0, []), f);
    CanCreateBefore(w1, Start(0, Refresh(t, 0)), f);
    CanCreateBefore(w, Crash, f);
  }

  lemma RollbackCreates(w: World, p: Pid, f: Family)
    requires p in w.calls && w.calls[p].Rollback? && Fertile(w, w.calls[p], f)
    ensures CanCreate(w, f)
  {
    var a := Go(p, true, 0, []);
    assert AliveFile(Step(w, a), Active(w.calls[p].token), f);
    ActiveCreates(Step(w, a), w.calls[p].token, f);
    CanCreateBefore(w, a, f);
  }

  lemma CommitCreates(w: World, p: Pid, f: Family)
    requires p in w.calls && w.calls[p].Commit? && Fertile(w, w.calls[p], f)
    ensures CanCreate(w, f)
  {
    var a := Go(p, false, 0, []);
    RollbackCreates(Step(w, a), p, f);
    CanCreateBefore(w, a, f);
  }

  // Some later run creates a token of a family exactly when the family survives: an unexpired
  // active file of it, or a fertile call.
  lemma SurvivesIff(w: World, f: Family)
    requires Inv(w) && !UnusedFamily(w.issued, f)
    ensures CanCreate(w, f) <==> Survives(w, f)
  {
    if Survives(w, f) {
      if t :| AliveFile(w, Active(t), f) {
        ActiveCreates(w, t, f);
      } else {
        var p :| p in w.calls && Fertile(w, w.calls[p], f);
        var c := w.calls[p];
        if c.ReadLock? { ReadCreates(w, p, f); }
        else if c.CheckLock? { CheckCreates(w, p, f); }
        else if c.Sign? { SignCreates(w, p, f); }
        else if c.Commit? { CommitCreates(w, p, f); }
        else if c.Rollback? { RollbackCreates(w, p, f); }
        else { WriterCreates(w, p, f); }
      }
    } else if CanCreate(w, f) {
      var actions, a :| Creates(Run(w, actions), a, f);
      BarrenForGood(w, actions, f);
      StepKeepsBarren(Run(w, actions), a, f);
    }
  }

  // At the moment the loop of revokeFamily has ended and 'reused' is to be answered, a token of the
  // family can still be created exactly when the family survives, whatever the listing named and
  // whatever rotations were in flight.
  lemma RevokedForGoodIff(w: World, r: Pid, f: Family)
    requires Reachable(w) && r in w.calls && w.calls[r] == ReadFamily(f, [])
    ensures CanCreate(w, f) <==> Survives(w, f)
  {
    ReachableSound(w);
    ReachableUsed(w);
    assert RevokedFamily(w.calls[r]) == Some(f);
    SurvivesIff(w, f);
  }
}
