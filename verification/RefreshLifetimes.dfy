// What a token is good for: it lasts until it is presented, logged out or revoked, or has expired;
// and a logout is final.
module RefreshLifetimes {
  import opened Common
  import opened RefreshTokens
  import opened RefreshInvariants
  import opened RefreshReuse
  import opened RefreshGc

  // The call presents token t, logs it out or revokes its family f.
  predicate Ends(c: Call, t: Token, f: Family) {
    match c
    case Consume(u, _) => u == t
    case Logout(u) => u == t
    case ListFamily(g) => g == f
    case ReadFamily(g, _) => g == f
    case DropFamily(g, _, _) => g == f
    case _ => false
  }

  ghost predicate Unended(w: World, t: Token, f: Family) {
    forall p :: p in w.calls ==> !Ends(w.calls[p], t, f)
  }

  ghost predicate UnendedThroughout(w: World, actions: seq<Action>, t: Token, f: Family)
    decreases |actions|
  {
    Unended(w, t, f) && (actions != [] ==> UnendedThroughout(Step(w, actions[0]), actions[1..], t, f))
  }

  // The call has decided to unlink the active file of t.
  predicate Unlinks(c: Call, t: Token) {
    match c
    case DropFind(u) => u == t
    case DropFamily(_, files, drop) => drop && files != [] && files[0] == Active(t)
    case _ => false
  }

  ghost predicate NoneUnlinks(w: World, t: Token) {
    && (forall p :: p in w.calls ==> !Unlinks(w.calls[p], t))
    && (forall q :: q in w.purges && w.purges[q].DropFile? ==> w.purges[q].path != Active(t))
  }

  // Token t has an unexpired active file, which no one is about to unlink.
  ghost predicate Usable(w: World, t: Token, record: Record) {
    && Inv(w) && ConsumedKept(w) && NoneUnlinks(w, t)
    && Active(t) in w.dir && w.dir[Active(t)] == record && w.clock < record.expiresAt
  }

  lemma CallSparesToken(w: World, p: Pid, t: Token, record: Record, ok: bool, next: Token, files: seq<Path>)
    requires Usable(w, t, record) && Unended(w, t, record.familyId) && p in w.calls
    ensures var n := CallNext(w, w.calls[p], ok, next, files);
      Active(t) in InDir(w.dir, n.op) && !Unlinks(n.call, t)
  {
    var c := w.calls[p];
    assert CallRecords(w.issued, c) && !Ends(c, t, record.familyId) && !Unlinks(c, t);
    assert Active(t).token in w.issued && w.issued[t] == record;
    if Issues(c) { IssueSparesToken(w, c, t, ok, next); }
    else if !Consumes(c) { AnswerSparesToken(w, c, t, record, ok, files); }
  }

  lemma IssueSparesToken(w: World, c: Call, t: Token, ok: bool, next: Token)
    requires Active(t) in w.dir && Issues(c)
    ensures var n := IssueNext(w, c, ok, next); Active(t) in InDir(w.dir, n.op) && !Unlinks(n.call, t)
  {
  }

  lemma AnswerSparesToken(w: World, c: Call, t: Token, record: Record, ok: bool, files: seq<Path>)
    requires Active(t) in w.dir && w.dir[Active(t)] == record && w.clock < record.expiresAt
    requires CallRecords(w.issued, c) && t in w.issued && w.issued[t] == record
    requires !Ends(c, t, record.familyId) && !Unlinks(c, t) && !Consumes(c) && !Issues(c)
    ensures var n := AnswerNext(w, c, ok, files); Active(t) in InDir(w.dir, n.op) && !Unlinks(n.call, t)
  {
  }

  lemma PurgeSparesToken(w: World, q: Pid, visit: Visit, t: Token, record: Record)
    requires Usable(w, t, record) && q in w.purges
    ensures var n := PurgeStep(w, w.purges[q], visit);
      && Active(t) in InDir(w.dir, n.op)
      && (n.purge.DropFile? ==> n.purge.path != Active(t))
  {
    assert PurgeSound(w, w.purges[q]);
  }

  lemma NobodyUnlinks(w: World, a: Action, t: Token, record: Record)
    requires Usable(w, t, record) && Unended(w, t, record.familyId)
    ensures NoneUnlinks(Step(w, a), t) && Active(t) in Step(w, a).dir
  {
    if a.Go? {
      if a.p in w.calls { CallSparesToken(w, a.p, t, record, a.ok, a.next, a.files); }
    } else if a.Sweep? {
      if a.q in w.purges { PurgeSparesToken(w, a.q, a.visit, t, record); }
    }
  }

  lemma StepKeepsUsable(w: World, a: Action, t: Token, record: Record)
    requires Usable(w, t, record) && Unended(w, t, record.familyId) && Step(w, a).clock < record.expiresAt
    ensures Usable(Step(w, a), t, record)
  {
    StepKeepsInv(w, a);
    StepKeepsConsumed(w, a);
    HistoryGrows(w, a);
    NobodyUnlinks(w, a, t, record);
    SameRecord(w, Step(w, a), t);
  }

  lemma SameRecord(w: World, w': World, t: Token)
    requires Inv(w) && Inv(w') && IssuedGrows(w.issued, w'.issued) && Active(t) in w.dir && Active(t) in w'.dir
    ensures w'.dir[Active(t)] == w.dir[Active(t)]
  {
    assert Active(t).token in w.issued;
  }

  lemma {:induction false} ClockGrows(w: World, actions: seq<Action>)
    ensures w.clock <= Run(w, actions).clock
    decreases |actions|
  {
    if actions != [] { ClockGrows(Step(w, actions[0]), actions[1..]); }
  }

  // An unexpired active token keeps its file along every run, whatever crashes, is purged, looked
  // up or revoked elsewhere, until a call presents it, logs it out or revokes its family.
  lemma {:induction false} TokenLasts(w: World, actions: seq<Action>, t: Token, record: Record)
    requires Usable(w, t, record) && UnendedThroughout(w, actions, t, record.familyId)
    requires Run(w, actions).clock < record.expiresAt
    ensures Usable(Run(w, actions), t, record)
    decreases |actions|
  {
    if actions != [] {
      ClockGrows(Step(w, actions[0]), actions[1..]);
      StepKeepsUsable(w, actions[0], t, record);
      TokenLasts(Step(w, actions[0]), actions[1..], t, record);
    }
  }

  // Presenting such a token moves its file aside, and the call goes on to sign a new pair.
  lemma PresentedTokenIsSigned(w: World, p: Pid, t: Token, n: Nonce, record: Record, w1: World, w2: World, w3: World)
    requires Usable(w, t, record) && p in w.calls && w.calls[p] == Consume(t, n)
    requires w1 == Step(w, Go(p, true, 0, [])) && w2 == Step(w1, Go(p, true, 0, []))
    requires w3 == Step(w2, Go(p, true, 0, []))
    ensures p in w3.calls && w3.calls[p] == Sign(t, n, record)
  {
    assert w1 == Apply(w, p, Next(ReadLock(t, n), Move(Active(t), Consuming(t, n))));
    assert w2 == Apply(w1, p, Next(CheckLock(t, n, Some(record)), NoOp));
    assert w3 == Apply(w2, p, Next(Sign(t, n, record), NoOp));
  }

  // A purge's visit unlinks a file, or a consumed record, exactly when it had expired by the time the
  // purge goes by.
  lemma VisitSparesUnexpired(w: World, q: Pid, s: Purge, path: Path, t: Token, w1: World, w2: World)
    requires q in w.purges && w.purges[q] == s
    requires w1 == Step(w, Sweep(q, VisitFile(path, true))) && w2 == Step(w, Sweep(q, VisitConsumed(t, true)))
    ensures s.SweepFiles? && path in s.files && path in w.dir ==>
      (path in w1.dir <==> s.now < w.dir[path].expiresAt)
    ensures s.SweepConsumed? && t in s.listed && t in w.consumed ==>
      (t in w2.consumed <==> s.now < w.consumed[t].record.expiresAt)
  {
  }

  // Token t has no active file and no call that could give it one.
  ghost predicate LoggedOff(w: World, t: Token) {
    && Inv(w) && t in w.issued && Active(t) !in w.dir
    && forall p :: p in w.calls ==> t !in Claims(w.calls[p])
  }

  lemma StepKeepsLoggedOff(w: World, a: Action, t: Token)
    requires LoggedOff(w, t)
    ensures LoggedOff(Step(w, a), t)
  {
    StepKeepsInv(w, a);
    HistoryGrows(w, a);
    if a.Go? && a.p in w.calls { CallKeepsLoggedOff(w, a.p, t, a.ok, a.next, a.files); }
    if a.Sweep? && a.q in w.purges { PurgeRemoves(w, w.purges[a.q], a.visit); }
  }

  lemma CallKeepsLoggedOff(w: World, p: Pid, t: Token, ok: bool, next: Token, files: seq<Path>)
    requires LoggedOff(w, t) && p in w.calls
    ensures var n := CallNext(w, w.calls[p], ok, next, files);
      Active(t) !in InDir(w.dir, n.op) && t !in Claims(n.call)
  {
    var c := w.calls[p];
    assert CallRecords(w.issued, c) && t !in Claims(c);
    if Issues(c) { IssueKeepsLoggedOff(w, c, t, ok, next); }
    else if !Consumes(c) { AnswerReads(w, c, ok, files); }
  }

  lemma IssueKeepsLoggedOff(w: World, c: Call, t: Token, ok: bool, next: Token)
    requires t in w.issued && Active(t) !in w.dir && t !in Claims(c) && Issues(c)
    ensures var n := IssueNext(w, c, ok, next); Active(t) !in InDir(w.dir, n.op) && t !in Claims(n.call)
  {
  }

  lemma {:induction false} RunKeepsLoggedOff(w: World, actions: seq<Action>, t: Token)
    requires LoggedOff(w, t)
    ensures LoggedOff(Run(w, actions), t)
    decreases |actions|
  {
    if actions != [] {
      StepKeepsLoggedOff(w, actions[0], t);
      RunKeepsLoggedOff(Step(w, actions[0]), actions[1..], t);
    }
  }

  lemma LogoutLogsOff(w: World, p: Pid, t: Token, w1: World)
    requires Inv(w) && p in w.calls && w.calls[p] == Logout(t) && Active(t) in w.dir
    requires w1 == Step(w, Go(p, true, 0, []))
    ensures LoggedOff(w1, t) && w1.calls[p] == Reply(LoggedOut)
  {
    StepKeepsInv(w, Go(p, true, 0, []));
    assert Active(t).token in w.issued;
    assert w1 == Apply(w, p, Next(Reply(LoggedOut), Unlink(Active(t))));
  }

  // Logging out an active token is final: along every later run it has no active file, no call
  // holds it, and looking it up finds nothing.
  lemma LogoutIsFinal(w: World, p: Pid, t: Token, w1: World, actions: seq<Action>, w2: World, q: Pid)
    requires Reachable(w) && p in w.calls && w.calls[p] == Logout(t) && Active(t) in w.dir
    requires w1 == Step(w, Go(p, true, 0, [])) && w2 == Run(w1, actions) && q !in w2.calls
    ensures Active(t) !in w2.dir && forall r :: r in w2.calls ==> t !in Claims(w2.calls[r])
    ensures Run(w2, Look(q, t)) == WithCall(w2, q, Done(Found(None)))
  {
    ReachableSound(w);
    LogoutLogsOff(w, p, t, w1);
    RunKeepsLoggedOff(w1, actions, t);
    LookAnswers(w2, q, t, None);
  }
}
