// Each family of refresh tokens has at most one token that can still be rotated.
module RefreshFamilies {
  import opened Common
  import opened RefreshTokens
  import opened RefreshInvariants

  // A call that consumed a token, or logged in, and has not yet written its successor.
  predicate BeforeSuccessor(c: Call) {
    || c.ReadLock? || c.CheckLock? || c.Sign? || c.Create?
    || (c.Rollback? && !c.issued) || c.LoginCreate?
  }

  function TokenFamily(issued: map<Token, Record>, t: Token): Option<Family> {
    if t in issued then Some(issued[t].familyId) else None
  }

  // The family a call stands for until its successor is written.
  function FamilyOf(issued: map<Token, Record>, c: Call): Option<Family> {
    if !BeforeSuccessor(c) then None
    else if c.LoginCreate? then TokenFamily(issued, c.next)
    else TokenFamily(issued, c.token)
  }

  ghost function ActiveTokens(w: World, f: Family): set<Token> {
    set q | q in w.dir && q.Active? && w.dir[q].familyId == f :: q.token
  }

  ghost function Rotations(w: World, f: Family): set<Pid> {
    set p | p in w.calls && FamilyOf(w.issued, w.calls[p]) == Some(f)
  }

  ghost predicate FamiliesLinear(w: World) {
    && (forall p, q :: p in w.calls && q in w.calls && p != q && FamilyOf(w.issued, w.calls[p]).Some? ==>
          FamilyOf(w.issued, w.calls[p]) != FamilyOf(w.issued, w.calls[q]))
    && (forall p, t :: p in w.calls && Active(t) in w.dir ==>
          FamilyOf(w.issued, w.calls[p]) != Some(w.dir[Active(t)].familyId))
    && (forall t, u :: Active(t) in w.dir && Active(u) in w.dir && t != u ==>
          w.dir[Active(t)].familyId != w.dir[Active(u)].familyId)
    // a rollback after the pair was issued never happens in a clean run
    && (forall p :: p in w.calls ==> !(w.calls[p].Rollback? && w.calls[p].issued))
  }

  // The write of the consumed record is the one failure a clean run excludes: it would put
  // the old token back beside the successor already handed out.
  predicate CommitFails(w: World, a: Action) {
    a.Go? && !a.ok && a.p in w.calls && w.calls[a.p].Commit?
  }

  predicate Clean(w: World, actions: seq<Action>)
    decreases |actions|
  {
    actions == [] || (!CommitFails(w, actions[0]) && Clean(Step(w, actions[0]), actions[1..]))
  }

  ghost predicate CleanInv(w: World) {
    Inv(w) && FamiliesLinear(w)
  }

  // No call but p stands for family f.
  ghost predicate NoOtherCall(w: World, p: Pid, f: Family) {
    forall q :: q in w.calls && q != p ==> FamilyOf(w.issued, w.calls[q]) != Some(f)
  }

  predicate WritesActive(op: FileOp, t: Token) {
    (op.Write? && op.path == Active(t)) || (op.Move? && op.dst == Active(t))
  }

  // The condition under which moving call p on keeps families linear: the family it stands for
  // next, or whose active file it writes, has nothing else.
  ghost predicate NextFamilies(w: World, p: Pid, n: Next) {
    var dir := InDir(w.dir, n.op);
    var f := FamilyOf(Prepared(w.issued, n.call), n.call);
    && !(n.call.Rollback? && n.call.issued)
    && (f.Some? ==>
          NoOtherCall(w, p, f.value) && forall t :: Active(t) in dir ==> dir[Active(t)].familyId != f.value)
    && (forall t :: Active(t) in dir && WritesActive(n.op, t) ==>
          && NoOtherCall(w, p, dir[Active(t)].familyId)
          && forall u :: Active(u) in w.dir && u != t ==> w.dir[Active(u)].familyId != dir[Active(t)].familyId)
  }

  lemma OthersStand(w: World, p: Pid, n: Next)
    requires RecordsAgree(w)
    ensures forall q :: q in w.calls && q != p ==>
      FamilyOf(Prepared(w.issued, n.call), w.calls[q]) == FamilyOf(w.issued, w.calls[q])
  {
    forall q | q in w.calls && q != p
      ensures FamilyOf(Prepared(w.issued, n.call), w.calls[q]) == FamilyOf(w.issued, w.calls[q])
    {
      assert CallRecords(w.issued, w.calls[q]);
    }
  }

  lemma OldActives(w: World, p: Pid, n: Next)
    ensures var dir := InDir(w.dir, n.op);
      forall t :: Active(t) in dir && !WritesActive(n.op, t) ==>
        Active(t) in w.dir && dir[Active(t)] == w.dir[Active(t)]
  {
  }

  lemma ApplyKeepsFamilies(w: World, p: Pid, n: Next)
    requires RecordsAgree(w) && FamiliesLinear(w) && NextFamilies(w, p, n)
    ensures FamiliesLinear(Apply(w, p, n))
  {
    OthersStand(w, p, n);
    OldActives(w, p, n);
  }

  lemma OwnFamilyFree(w: World, p: Pid)
    requires RecordsAgree(w) && FamiliesLinear(w) && p in w.calls && BeforeSuccessor(w.calls[p])
    ensures var f := FamilyOf(w.issued, w.calls[p]);
      f.Some? && NoOtherCall(w, p, f.value) && forall t :: Active(t) in w.dir ==> w.dir[Active(t)].familyId != f.value
  {
    assert CallRecords(w.issued, w.calls[p]);
  }

  // The call writes no active file, and stands for what it stood for or for nothing.
  predicate Stays(issued: map<Token, Record>, c: Call, n: Next) {
    var f := FamilyOf(Prepared(issued, n.call), n.call);
    && !n.op.Write? && !n.op.Move? && !(n.call.Rollback? && n.call.issued)
    && (f.Some? ==> BeforeSuccessor(c) && f == FamilyOf(issued, c))
  }

  lemma StayingFamilies(w: World, p: Pid, n: Next)
    requires CleanInv(w) && p in w.calls && Stays(w.issued, w.calls[p], n)
    ensures NextFamilies(w, p, n)
  {
    if BeforeSuccessor(w.calls[p]) { OwnFamilyFree(w, p); }
  }

  lemma ConsumeFamilies(w: World, p: Pid, ok: bool)
    requires CleanInv(w) && p in w.calls && Consumes(w.calls[p])
    ensures NextFamilies(w, p, ConsumeNext(w, w.calls[p], ok))
  {
    var c := w.calls[p];
    var n := ConsumeNext(w, c, ok);
    if n.op.Move? {
      // the file leaves as the call arrives
      assert Active(c.token).token in w.issued;
    } else {
      StayingFamilies(w, p, n);
    }
  }

  lemma IssueStays(w: World, c: Call, ok: bool, next: Token)
    requires CallRecords(w.issued, c) && Issues(c)
    requires c.Sign? || (c.Create? && !ok) || (c.Commit? && ok) || c.DropConsumed? || (c.LoginCreate? && !ok)
    ensures Stays(w.issued, c, IssueNext(w, c, ok, next))
  {
  }

  lemma WriteFamilies(w: World, p: Pid, n: Next, t: Token)
    requires CleanInv(w) && p in w.calls && BeforeSuccessor(w.calls[p])
    requires t in w.issued && FamilyOf(w.issued, w.calls[p]) == Some(w.issued[t].familyId)
    requires n.op == Write(Active(t), w.issued[t]) || exists m :: n.op == Move(Consuming(t, m), Active(t))
    requires !BeforeSuccessor(n.call) && !n.call.Rollback?
    ensures NextFamilies(w, p, n)
  {
    OwnFamilyFree(w, p);
    forall q | q in w.dir && q.token == t ensures w.dir[q] == w.issued[t] {
      assert q.token in w.issued;
    }
  }

  lemma IssueFamilies(w: World, p: Pid, ok: bool, next: Token)
    requires CleanInv(w) && p in w.calls && Issues(w.calls[p]) && !(w.calls[p].Commit? && !ok)
    ensures NextFamilies(w, p, IssueNext(w, w.calls[p], ok, next))
  {
    var c := w.calls[p];
    assert CallRecords(w.issued, c);
    var n := IssueNext(w, c, ok, next);
    if n.op.Write? || n.op.Move? {
      WriteFamilies(w, p, n, if c.Rollback? then c.token else c.next);
    } else {
      IssueStays(w, c, ok, next);
      StayingFamilies(w, p, n);
    }
  }

  lemma AnswerFamilies(w: World, p: Pid, ok: bool, files: seq<Path>)
    requires CleanInv(w) && p in w.calls && !Consumes(w.calls[p]) && !Issues(w.calls[p])
    ensures NextFamilies(w, p, AnswerNext(w, w.calls[p], ok, files))
  {
    StayingFamilies(w, p, AnswerNext(w, w.calls[p], ok, files));
  }

  lemma StartFamilies(w: World, p: Pid, r: Request)
    requires CleanInv(w) && p !in w.calls && Started(w, r).Some?
    ensures NextFamilies(w, p, Next(Started(w, r).value, NoOp))
  {
    if r.Login? {
      forall t | Active(t) in w.dir ensures w.dir[Active(t)].familyId != r.family {
        assert Active(t).token in w.issued;
      }
      forall q | q in w.calls ensures FamilyOf(w.issued, w.calls[q]) != Some(r.family) {
        assert CallRecords(w.issued, w.calls[q]);
      }
    }
  }

  lemma RemovalKeepsFamilies(w: World, w': World)
    requires FamiliesLinear(w) && w'.issued == w.issued
    requires w'.calls == w.calls || w'.calls == map[]
    requires forall q :: q in w'.dir ==> q in w.dir && w'.dir[q] == w.dir[q]
    ensures FamiliesLinear(w')
  {
  }

  lemma StepKeepsFamilies(w: World, a: Action)
    requires CleanInv(w) && !CommitFails(w, a)
    ensures FamiliesLinear(Step(w, a))
  {
    match a
    case Go(p, ok, next, files) =>
      if p in w.calls {
        var c := w.calls[p];
        if Consumes(c) { ConsumeFamilies(w, p, ok); }
        else if Issues(c) { IssueFamilies(w, p, ok, next); }
        else { AnswerFamilies(w, p, ok, files); }
        ApplyKeepsFamilies(w, p, CallNext(w, c, ok, next, files));
      }
    case Start(p, r) =>
      if p !in w.calls && Started(w, r).Some? {
        StartFamilies(w, p, r);
        ApplyKeepsFamilies(w, p, Next(Started(w, r).value, NoOp));
      }
    case Sweep(q, v) =>
      if q in w.purges {
        PurgeRemoves(w, w.purges[q], v);
        RemovalKeepsFamilies(w, Step(w, a));
      }
    case _ => RemovalKeepsFamilies(w, Step(w, a));
  }

  lemma {:induction false} CleanRunKeepsFamilies(w: World, actions: seq<Action>)
    requires CleanInv(w) && Clean(w, actions)
    ensures CleanInv(Run(w, actions))
    decreases |actions|
  {
    if actions != [] {
      StepKeepsInv(w, actions[0]);
      StepKeepsFamilies(w, actions[0]);
      CleanRunKeepsFamilies(Step(w, actions[0]), actions[1..]);
    }
  }

  lemma AtMostOneElement<T>(s: set<T>)
    requires forall x, y :: x in s && y in s ==> x == y
    ensures |s| <= 1
  {
    if s != {} {
      var x :| x in s;
      assert s == {x};
    }
  }

  lemma LinearCount(w: World, f: Family)
    requires CleanInv(w)
    ensures |ActiveTokens(w, f)| + |Rotations(w, f)| <= 1
  {
    var tokens, rotations := ActiveTokens(w, f), Rotations(w, f);
    forall t, u | t in tokens && u in tokens ensures t == u {
      assert Active(t) in w.dir && Active(u) in w.dir;
    }
    AtMostOneElement(tokens);
    AtMostOneElement(rotations);
    if p :| p in rotations {
      forall t ensures t !in tokens {
        assert Active(t) in w.dir ==> w.dir[Active(t)].familyId != f;
      }
      assert tokens == {};
    }
  }

  // Under every interleaving of any number of calls, purges and crashes in which the consumed
  // record is written whenever a pair was issued: the tokens of a family that are on disk,
  // together with the rotations of it that have not written their successor, are at most one.
  lemma RotationIsLinear(actions: seq<Action>, f: Family)
    requires Clean(INIT, actions)
    ensures var w := Run(INIT, actions); |ActiveTokens(w, f)| + |Rotations(w, f)| <= 1
  {
    CleanRunKeepsFamilies(INIT, actions);
    LinearCount(Run(INIT, actions), f);
  }

  // What a failed write of the consumed record leads to: the rename puts the old token back.
  ghost function AfterFailedCommit(w: World, p: Pid): World
    requires p in w.calls && w.calls[p].Commit?
  {
    var w1 := Step(w, Go(p, false, 0, []));
    Step(w1, Go(p, true, 0, []))
  }

  lemma FailedCommitShape(w: World, p: Pid)
    requires p in w.calls && w.calls[p].Commit?
    ensures var c := w.calls[p]; var w' := AfterFailedCommit(w, p);
      && w'.dir == Renamed(w.dir, Consuming(c.token, c.nonce), Active(c.token))
      && w'.calls == w.calls[p := Done(Failed)] && w'.issued == w.issued
  {
  }

  // The excluded failure breaks linearity exactly when the moved-aside file is still there
  // (nobody revoked the family meanwhile) and the family still has a token or a rotation.
  lemma FailedCommitLinearIff(w: World, w': World, p: Pid, f: Family)
    requires CleanInv(w) && p in w.calls && w.calls[p].Commit?
    requires w' == AfterFailedCommit(w, p) && f == w.calls[p].record.familyId
    ensures |ActiveTokens(w', f)| + |Rotations(w', f)| <= 1 <==>
      || Consuming(w.calls[p].token, w.calls[p].nonce) !in w.dir
      || |ActiveTokens(w, f)| + |Rotations(w, f)| == 0
  {
    var c := w.calls[p];
    assert CallRecords(w.issued, c);
    OwnClaimUnclaimed(w, p, c.token);
    LinearCount(w, f);
    FailedCommitKeepsRotations(w, p, f);
    if Consuming(c.token, c.nonce) in w.dir {
      assert Consuming(c.token, c.nonce).token in w.issued;
      RestoredActives(w, w', c.token, c.nonce, f);
    } else {
      assert ActiveTokens(w', f) == ActiveTokens(w, f);
    }
  }

  lemma FailedCommitKeepsRotations(w: World, p: Pid, f: Family)
    requires p in w.calls && w.calls[p].Commit?
    ensures var c, w' := w.calls[p], AfterFailedCommit(w, p);
      && w'.dir == Renamed(w.dir, Consuming(c.token, c.nonce), Active(c.token))
      && Rotations(w', f) == Rotations(w, f)
  {
    FailedCommitShape(w, p);
  }

  lemma RestoredActives(w: World, w': World, t: Token, n: Nonce, f: Family)
    requires Consuming(t, n) in w.dir && w.dir[Consuming(t, n)].familyId == f && Active(t) !in w.dir
    requires w'.dir == Renamed(w.dir, Consuming(t, n), Active(t))
    ensures t !in ActiveTokens(w, f) && ActiveTokens(w', f) == ActiveTokens(w, f) + {t}
  {
    forall u ensures u in ActiveTokens(w', f) <==> u in ActiveTokens(w, f) + {t} {
      assert Active(u) in w'.dir <==> Active(u) in w.dir || u == t;
    }
  }
}
