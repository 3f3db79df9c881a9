// What every interleaving of refresh, login, find, logout, purge and crash keeps.
module RefreshInvariants {
  import opened Common
  import opened RefreshTokens

  // The tokens a call alone may still turn into an active file.
  function Claims(c: Call): set<Token> {
    match c
    case ReadLock(t, _) => {t}
    case CheckLock(t, _, _) => {t}
    case Sign(t, _, _) => {t}
    case Create(t, _, _, next, _) => {t, next}
    case Commit(t, _, _, _) => {t}
    case Rollback(t, _, _) => {t}
    case LoginCreate(next, _) => {next}
    case _ => {}
  }

  // Every copy of a token's record, on disk or in a call, is the one issued for it.
  predicate CallRecords(issued: map<Token, Record>, c: Call) {
    match c
    case ReadLock(t, _) => t in issued
    case CheckLock(t, _, read) => t in issued && (read.Some? ==> read.value == issued[t])
    case Sign(t, _, rec) => t in issued && rec == issued[t]
    case Create(t, _, rec, next, nextRecord) =>
      && t in issued && rec == issued[t] && t != next
      && next in issued && nextRecord == issued[next] && nextRecord.familyId == rec.familyId
    case Commit(t, _, rec, next) => t in issued && rec == issued[t]
    case DropConsumed(t, _, _) => t in issued
    case Rollback(t, _, _) => t in issued
    case CheckConsumed(t, seen) => seen.Some? ==> t in issued && seen.value.record == issued[t]
    case CheckFind(t, read) => read.Some? ==> t in issued && read.value == issued[t]
    case LoginCreate(next, rec) => next in issued && rec == issued[next]
    case _ => true
  }

  ghost predicate RecordsAgree(w: World) {
    && (forall q :: q in w.dir ==> q.token in w.issued && w.dir[q] == w.issued[q.token])
    && (forall t :: t in w.consumed ==> t in w.issued && w.consumed[t].record == w.issued[t])
    && (forall p :: p in w.calls ==> CallRecords(w.issued, w.calls[p]))
    && (forall t :: t in w.commits ==> t in w.issued)
  }

  // A token is an active file, or claimed by exactly one call, or committed, or gone.
  ghost predicate TokensLinear(w: World) {
    && (forall p, q :: p in w.calls && q in w.calls && p != q ==> Claims(w.calls[p]) !! Claims(w.calls[q]))
    && (forall p, t :: p in w.calls && t in Claims(w.calls[p]) ==> Active(t) !in w.dir && t !in w.commits)
    && (forall t :: t in w.commits ==> Active(t) !in w.dir)
    && Distinct(w.commits)
  }

  ghost predicate Inv(w: World) {
    RecordsAgree(w) && TokensLinear(w)
  }

  ghost predicate IssuedGrows(before: map<Token, Record>, after: map<Token, Record>) {
    forall t :: t in before ==> t in after && after[t] == before[t]
  }

  // A claim of call p is shared with no other call.
  ghost predicate Unclaimed(w: World, p: Pid, t: Token) {
    forall q :: q in w.calls && q != p ==> t !in Claims(w.calls[q])
  }

  // The condition under which moving call p on keeps the invariant: the records it copies
  // agree, and each token it claims or writes is its own alone.
  ghost predicate NextAgrees(w: World, n: Next) {
    && CallRecords(Prepared(w.issued, n.call), n.call)
    && (n.op.Write? ==> n.op.path.token in w.issued && n.op.record == w.issued[n.op.path.token])
    && (n.op.WriteConsumed? ==> n.op.token in w.issued && n.op.consumed.record == w.issued[n.op.token])
    && (n.op.Move? ==> n.op.src.token == n.op.dst.token)
  }

  ghost predicate NextLinear(w: World, p: Pid, n: Next) {
    && (forall t :: t in Claims(n.call) ==>
          && Unclaimed(w, p, t) && Active(t) !in InDir(w.dir, n.op)
          && t !in w.commits && !(n.op.WriteConsumed? && n.op.token == t))
    && (n.op.Write? && n.op.path.Active? ==> Unclaimed(w, p, n.op.path.token) && n.op.path.token !in w.commits)
    && (n.op.Move? && n.op.dst.Active? ==> Unclaimed(w, p, n.op.dst.token) && n.op.dst.token !in w.commits)
    && (n.op.WriteConsumed? ==>
          Unclaimed(w, p, n.op.token) && n.op.token !in w.commits && Active(n.op.token) !in w.dir)
  }

  lemma ApplyKeepsRecords(w: World, p: Pid, n: Next)
    requires RecordsAgree(w) && NextAgrees(w, n)
    ensures RecordsAgree(Apply(w, p, n))
  {
    var w' := Apply(w, p, n);
    forall q | q in w'.calls ensures CallRecords(w'.issued, w'.calls[q]) {
      if q != p { assert CallRecords(w.issued, w.calls[q]); }
    }
  }

  lemma ApplyKeepsTokens(w: World, p: Pid, n: Next)
    requires TokensLinear(w) && NextLinear(w, p, n)
    ensures TokensLinear(Apply(w, p, n))
  {
    var w' := Apply(w, p, n);
    forall x, y | x in w'.calls && y in w'.calls && x != y
      ensures Claims(w'.calls[x]) !! Claims(w'.calls[y])
    {
      if x == p {
        assert forall t :: t in Claims(n.call) ==> t !in Claims(w.calls[y]);
      } else if y == p {
        assert forall t :: t in Claims(n.call) ==> t !in Claims(w.calls[x]);
      }
    }
  }

  lemma ApplyKeepsInv(w: World, p: Pid, n: Next)
    requires Inv(w) && NextAgrees(w, n) && NextLinear(w, p, n)
    ensures Inv(Apply(w, p, n))
  {
    ApplyKeepsRecords(w, p, n);
    ApplyKeepsTokens(w, p, n);
  }

  lemma OwnClaimUnclaimed(w: World, p: Pid, t: Token)
    requires TokensLinear(w) && p in w.calls && t in Claims(w.calls[p])
    ensures Unclaimed(w, p, t) && Active(t) !in w.dir && t !in w.commits
  {
    forall q | q in w.calls && q != p ensures t !in Claims(w.calls[q]) {
      assert Claims(w.calls[q]) !! Claims(w.calls[p]);
    }
  }

  lemma NewTokenUnclaimed(w: World, p: Pid, t: Token)
    requires RecordsAgree(w) && t !in w.issued
    ensures Unclaimed(w, p, t) && Active(t) !in w.dir && t !in w.commits
  {
    forall q | q in w.calls && q != p ensures t !in Claims(w.calls[q]) {
      assert CallRecords(w.issued, w.calls[q]);
    }
    assert Active(t) in w.dir ==> Active(t).token in w.issued;
  }

  // Steps that only read, or only remove files, and take no new claim.
  predicate Reads(c: Call, n: Next) {
    && (n.op.NoOp? || n.op.Unlink?) && Claims(n.call) <= Claims(c)
    && !n.call.Create? && !n.call.LoginCreate?
  }

  lemma ReadsKeepTokens(w: World, p: Pid, n: Next)
    requires TokensLinear(w) && p in w.calls && Reads(w.calls[p], n)
    ensures NextLinear(w, p, n)
  {
    forall t | t in Claims(n.call) ensures Unclaimed(w, p, t) && Active(t) !in w.dir && t !in w.commits {
      OwnClaimUnclaimed(w, p, t);
    }
  }

  lemma ConsumeAgrees(w: World, p: Pid, ok: bool)
    requires Inv(w) && p in w.calls && Consumes(w.calls[p])
    ensures NextAgrees(w, ConsumeNext(w, w.calls[p], ok))
  {
    assert CallRecords(w.issued, w.calls[p]);
    var t := w.calls[p].token;
    assert Active(t) in w.dir ==> Active(t).token in w.issued;
  }

  lemma ConsumeLinear(w: World, p: Pid, ok: bool)
    requires Inv(w) && p in w.calls && Consumes(w.calls[p])
    ensures NextLinear(w, p, ConsumeNext(w, w.calls[p], ok))
  {
    var n := ConsumeNext(w, w.calls[p], ok);
    if n.call.ReadLock? {
      assert Active(w.calls[p].token) in w.dir;
    } else {
      ReadsKeepTokens(w, p, n);
    }
  }

  lemma IssueAgrees(w: World, p: Pid, ok: bool, next: Token)
    requires Inv(w) && p in w.calls && Issues(w.calls[p])
    ensures NextAgrees(w, IssueNext(w, w.calls[p], ok, next))
  {
    assert CallRecords(w.issued, w.calls[p]);
  }

  lemma ClaimsAreOwn(w: World, p: Pid)
    requires TokensLinear(w) && p in w.calls
    ensures forall t :: t in Claims(w.calls[p]) ==> Unclaimed(w, p, t) && Active(t) !in w.dir && t !in w.commits
  {
    forall t | t in Claims(w.calls[p]) ensures Unclaimed(w, p, t) && Active(t) !in w.dir && t !in w.commits {
      OwnClaimUnclaimed(w, p, t);
    }
  }

  lemma SignLinear(w: World, p: Pid, ok: bool, next: Token)
    requires Inv(w) && p in w.calls && w.calls[p].Sign?
    ensures NextLinear(w, p, IssueNext(w, w.calls[p], ok, next))
  {
    ClaimsAreOwn(w, p);
    if next !in w.issued { NewTokenUnclaimed(w, p, next); }
  }

  lemma IssueLinear(w: World, p: Pid, ok: bool, next: Token)
    requires Inv(w) && p in w.calls && Issues(w.calls[p])
    ensures NextLinear(w, p, IssueNext(w, w.calls[p], ok, next))
  {
    if w.calls[p].Sign? {
      SignLinear(w, p, ok, next);
    } else {
      var n := IssueNext(w, w.calls[p], ok, next);
      assert CallRecords(w.issued, w.calls[p]);
      ClaimsAreOwn(w, p);
      assert Claims(n.call) <= Claims(w.calls[p]);
    }
  }

  lemma AnswerReads(w: World, c: Call, ok: bool, files: seq<Path>)
    requires CallRecords(w.issued, c) && RecordsAgree(w) && !Consumes(c) && !Issues(c)
    ensures var n := AnswerNext(w, c, ok, files); Reads(c, n) && NextAgrees(w, n) && Claims(n.call) == {}
  {
  }

  lemma CallNextAgrees(w: World, p: Pid, ok: bool, next: Token, files: seq<Path>)
    requires Inv(w) && p in w.calls
    ensures NextAgrees(w, CallNext(w, w.calls[p], ok, next, files))
    ensures NextLinear(w, p, CallNext(w, w.calls[p], ok, next, files))
  {
    if Consumes(w.calls[p]) {
      ConsumeAgrees(w, p, ok);
      ConsumeLinear(w, p, ok);
    } else if Issues(w.calls[p]) {
      IssueAgrees(w, p, ok, next);
      IssueLinear(w, p, ok, next);
    } else {
      AnswerReads(w, w.calls[p], ok, files);
      ReadsKeepTokens(w, p, AnswerNext(w, w.calls[p], ok, files));
    }
  }

  lemma StartKeepsInv(w: World, p: Pid, r: Request)
    requires Inv(w) && Started(w, r).Some? && p !in w.calls
    ensures Inv(Apply(w, p, Next(Started(w, r).value, NoOp)))
  {
    if r.Login? { NewTokenUnclaimed(w, p, r.next); }
    ApplyKeepsInv(w, p, Next(Started(w, r).value, NoOp));
  }

  // Removing files, forgetting calls and advancing the clock keep the invariant.
  lemma RemovalKeepsInv(w: World, w': World)
    requires Inv(w) && w'.issued == w.issued && w'.commits == w.commits
    requires w'.calls == w.calls || w'.calls == map[]
    requires forall q :: q in w'.dir ==> q in w.dir && w'.dir[q] == w.dir[q]
    requires forall t :: t in w'.consumed ==> t in w.consumed && w'.consumed[t] == w.consumed[t]
    ensures Inv(w')
  {
  }

  lemma PurgeRemoves(w: World, s: Purge, v: Visit)
    ensures var n := PurgeStep(w, s, v); n.op.NoOp? || n.op.Unlink? || n.op.UnlinkConsumed?
  {
  }

  lemma StepKeepsInv(w: World, a: Action)
    requires Inv(w)
    ensures Inv(Step(w, a))
  {
    match a
    case Go(p, ok, next, files) =>
      if p in w.calls {
        CallNextAgrees(w, p, ok, next, files);
        ApplyKeepsInv(w, p, CallNext(w, w.calls[p], ok, next, files));
      }
    case Start(p, r) =>
      if p !in w.calls && Started(w, r).Some? { StartKeepsInv(w, p, r); }
    case Sweep(q, v) =>
      if q in w.purges {
        PurgeRemoves(w, w.purges[q], v);
        RemovalKeepsInv(w, Step(w, a));
      }
    case _ => RemovalKeepsInv(w, Step(w, a));
  }

  lemma {:induction false} RunKeepsInv(w: World, actions: seq<Action>)
    requires Inv(w)
    ensures Inv(Run(w, actions))
    decreases |actions|
  {
    if actions != [] {
      StepKeepsInv(w, actions[0]);
      RunKeepsInv(Step(w, actions[0]), actions[1..]);
    }
  }

  // Under every interleaving, whatever fails, no token's rotation commits twice, and a
  // committed token never becomes an active file again.
  lemma CommitsAtMostOnce(actions: seq<Action>)
    ensures Distinct(Run(INIT, actions).commits)
    ensures forall t :: t in Run(INIT, actions).commits ==> Active(t) !in Run(INIT, actions).dir
  {
    RunKeepsInv(INIT, actions);
  }
}
