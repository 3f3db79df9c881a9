// Runs that show what the hypotheses of the refresh-token theorems exclude.
module RefreshWitnesses {
  import opened Common
  import opened RefreshTokens
  import opened RefreshReuse
  import opened RefreshGc

  // Some run leads from w to w2, and from v to v2 when its purges are left out.
  ghost predicate Leads(w: World, w2: World, v: World, v2: World) {
    exists actions :: Run(w, actions) == w2 && Run(v, WithoutPurges(actions)) == v2
  }

  lemma LeadsOn(w: World, w1: World, w2: World, v: World, v1: World, v2: World)
    requires Leads(w, w1, v, v1) && Leads(w1, w2, v1, v2)
    ensures Leads(w, w2, v, v2)
  {
    var a :| Run(w, a) == w1 && Run(v, WithoutPurges(a)) == v1;
    var b :| Run(w1, b) == w2 && Run(v1, WithoutPurges(b)) == v2;
    RunAppend(w, a, b);
    WithoutPurgesAppend(a, b);
    RunAppend(v, WithoutPurges(a), WithoutPurges(b));
  }

  lemma {:induction false} NothingToLeaveOut(actions: seq<Action>)
    requires forall i :: 0 <= i < |actions| ==> !IsPurge(actions[i])
    ensures WithoutPurges(actions) == actions
  {
    if actions != [] { NothingToLeaveOut(actions[1..]); }
  }

  // A run without purges leads to the same world on both sides.
  lemma LeadsBoth(w: World, actions: seq<Action>, w2: World)
    requires forall i :: 0 <= i < |actions| ==> !IsPurge(actions[i])
    requires Run(w, actions) == w2
    ensures Leads(w, w2, w, w2)
  {
    NothingToLeaveOut(actions);
  }

  lemma LeadsByStep(w: World, a: Action, w2: World)
    requires !IsPurge(a) && Step(w, a) == w2
    ensures Leads(w, w2, w, w2)
  {
    RunFirst(w, a, []);
    assert [a] + [] == [a];
    LeadsBoth(w, [a], w2);
  }

  const T0: Record := NewRecord(7, 0, 0)

  // A user logs in to family 0 and receives token 1; the server restarts.
  const LOGGED_IN: World := World(0, map[Active(1) := T0], map[], map[], map[], map[1 := T0], [])

  lemma LoginRun()
    ensures Leads(INIT, LOGGED_IN, INIT, LOGGED_IN)
  {
    LeadsBoth(INIT, [Start(0, Login(7, 0, 1)), Go(0, true, 0, []), Crash], LOGGED_IN);
  }

  // Call 1 has consumed token 1, has written token 2, and fails to record the consumption.
  const CONSUMED: World :=
    World(0, map[Consuming(1, 0) := T0], map[], map[1 := Sign(1, 0, T0)], map[], map[1 := T0], [])

  const CREATED: World :=
    World(0, map[Consuming(1, 0) := T0, Active(2) := T0], map[], map[1 := Commit(1, 0, T0, 2)], map[],
      map[1 := T0, 2 := T0], [])

  const TWO_TOKENS: World :=
    World(0, map[Active(1) := T0, Active(2) := T0], map[], map[1 := Done(Failed)], map[], map[1 := T0, 2 := T0], [])

  const CONSUMING: seq<Action> := [Start(1, Refresh(1, 0)), Go(1, true, 0, []), Go(1, true, 0, []), Go(1, true, 0, [])]

  function LoggedIn(purges: map<Pid, Purge>): World {
    World(0, map[Active(1) := T0], map[], map[], purges, map[1 := T0], [])
  }

  function Consumed(purges: map<Pid, Purge>): World {
    World(0, map[Consuming(1, 0) := T0], map[], map[1 := Sign(1, 0, T0)], purges, map[1 := T0], [])
  }

  lemma ConsumingRun(purges: map<Pid, Purge>)
    ensures Run(LoggedIn(purges), CONSUMING) == Consumed(purges)
  {
  }

  // Whatever purges are under way.
  lemma ConsumingLeads(purges: map<Pid, Purge>, others: map<Pid, Purge>)
    ensures Leads(LoggedIn(purges), Consumed(purges), LoggedIn(others), Consumed(others))
  {
    ConsumingRun(purges);
    ConsumingRun(others);
    NothingToLeaveOut(CONSUMING);
  }

  lemma ConsumeRun()
    ensures Leads(LOGGED_IN, CONSUMED, LOGGED_IN, CONSUMED)
  {
    ConsumingLeads(map[], map[]);
  }

  lemma CreateRun()
    ensures Leads(CONSUMED, CREATED, CONSUMED, CREATED)
  {
    LeadsBoth(CONSUMED, [Go(1, true, 2, []), Go(1, true, 0, [])], CREATED);
  }

  lemma FailedCommitRun()
    ensures Leads(CREATED, TWO_TOKENS, CREATED, TWO_TOKENS)
  {
    LeadsBoth(CREATED, [Go(1, false, 0, []), Go(1, true, 0, [])], TWO_TOKENS);
  }

  lemma Leads3(a: World, b: World, c: World, d: World)
    requires Leads(a, b, a, b) && Leads(b, c, b, c) && Leads(c, d, c, d)
    ensures Leads(a, d, a, d)
  {
    LeadsOn(a, b, c, a, b, c);
    LeadsOn(a, c, d, a, c, d);
  }

  lemma CreatedRun()
    ensures Leads(INIT, CREATED, INIT, CREATED)
  {
    LoginRun();
    ConsumeRun();
    CreateRun();
    Leads3(INIT, LOGGED_IN, CONSUMED, CREATED);
  }

  // When the consumed record cannot be written after the pair was issued, the rollback leaves
  // two tokens of one family that can both be rotated.
  lemma FailedCommitLeavesTwoTokens()
    ensures Reachable(TWO_TOKENS)
    ensures Active(1) in TWO_TOKENS.dir && Active(2) in TWO_TOKENS.dir
      && TWO_TOKENS.dir[Active(1)].familyId == TWO_TOKENS.dir[Active(2)].familyId
  {
    CreatedRun();
    FailedCommitRun();
    LeadsOn(INIT, CREATED, TWO_TOKENS, INIT, CREATED, TWO_TOKENS);
  }

  // Call 1 commits and the server restarts; call 3 has consumed token 2; call 2 presents
  // token 1 again, is found out and revokes the family; call 3 then writes token 3.
  const C0: ConsumedRecord := ConsumedRecord(T0, 0)

  const ROTATED: World := World(0, map[Active(2) := T0], map[1 := C0], map[], map[], map[1 := T0, 2 := T0], [1])

  const SIGNING: World :=
    World(0, map[Consuming(2, 0) := T0], map[1 := C0], map[3 := Sign(2, 0, T0)], map[], map[1 := T0, 2 := T0], [1])

  const REPLAYED: World :=
    World(0, map[Consuming(2, 0) := T0], map[1 := C0], map[2 := ReadConsumed(1), 3 := Sign(2, 0, T0)], map[],
      map[1 := T0, 2 := T0], [1])

  const CAUGHT: World :=
    World(0, map[Consuming(2, 0) := T0], map[1 := C0], map[2 := ListFamily(0), 3 := Sign(2, 0, T0)], map[],
      map[1 := T0, 2 := T0], [1])

  const LISTED: World :=
    World(0, map[], map[1 := C0], map[2 := ReadFamily(0, []), 3 := Sign(2, 0, T0)], map[], map[1 := T0, 2 := T0], [1])

  const REVOKED: World :=
    World(0, map[], map[1 := C0], map[2 := Done(Reused), 3 := Sign(2, 0, T0)], map[], map[1 := T0, 2 := T0], [1])

  const WRITTEN: World :=
    World(0, map[Active(3) := T0], map[1 := C0], map[2 := Done(Reused), 3 := Commit(2, 0, T0, 3)], map[],
      map[1 := T0, 2 := T0, 3 := T0], [1])

  const ESCAPED: World :=
    World(0, map[Active(3) := T0], map[1 := C0, 2 := C0], map[2 := Done(Reused), 3 := Done(Refreshed(3))], map[],
      map[1 := T0, 2 := T0, 3 := T0], [1, 2])

  lemma CommitRun()
    ensures Leads(CREATED, ROTATED, CREATED, ROTATED)
  {
    LeadsBoth(CREATED, [Go(1, true, 0, []), Go(1, true, 0, []), Crash], ROTATED);
  }

  lemma SecondConsumeRun()
    ensures Leads(ROTATED, SIGNING, ROTATED, SIGNING)
  {
    LeadsBoth(ROTATED, [Start(3, Refresh(2, 0)), Go(3, true, 0, []), Go(3, true, 0, []), Go(3, true, 0, [])], SIGNING);
  }

  lemma ReplayRun()
    ensures Leads(SIGNING, CAUGHT, SIGNING, CAUGHT)
  {
    var w := SIGNING.(calls := SIGNING.calls[2 := Consume(1, 1)]);
    LeadsByStep(SIGNING, Start(2, Refresh(1, 1)), w);
    AnswerStep(w, ReadConsumed(1), REPLAYED);
    CaughtRun();
    Leads3(SIGNING, w, REPLAYED, CAUGHT);
  }

  lemma CaughtRun()
    ensures Leads(REPLAYED, CAUGHT, REPLAYED, CAUGHT)
  {
    LeadsBoth(REPLAYED, [Go(2, true, 0, []), Go(2, true, 0, [])], CAUGHT);
  }

  const FOUND_ONE: World :=
    World(0, map[Consuming(2, 0) := T0], map[1 := C0],
      map[2 := ReadFamily(0, [Consuming(2, 0)]), 3 := Sign(2, 0, T0)], map[], map[1 := T0, 2 := T0], [1])

  lemma DropStep(w: World)
    requires w.calls == map[2 := DropFamily(0, [Consuming(2, 0)], true), 3 := Sign(2, 0, T0)]
    requires w.dir == map[Consuming(2, 0) := T0]
    ensures Step(w, Go(2, true, 0, [])) ==
      w.(dir := map[], calls := map[2 := ReadFamily(0, []), 3 := Sign(2, 0, T0)])
  {
    assert [Consuming(2, 0)][1..] == [];
  }

  lemma SkipRun()
    ensures Leads(FOUND_ONE, LISTED, FOUND_ONE, LISTED)
  {
    var w := FOUND_ONE.(calls := FOUND_ONE.calls[2 := DropFamily(0, [Consuming(2, 0)], true)]);
    AnswerStep(FOUND_ONE, w.calls[2], w);
    DropStep(w);
    LeadsByStep(w, Go(2, true, 0, []), LISTED);
    LeadsOn(FOUND_ONE, w, LISTED, FOUND_ONE, w, LISTED);
  }

  const LISTING: Action := Go(2, true, 0, [Consuming(2, 0)])

  lemma ListStep()
    ensures Step(CAUGHT, LISTING) == FOUND_ONE
  {
  }

  lemma ListRun()
    ensures Leads(CAUGHT, LISTED, CAUGHT, LISTED)
  {
    ListStep();
    LeadsByStep(CAUGHT, LISTING, FOUND_ONE);
    SkipRun();
    LeadsOn(CAUGHT, FOUND_ONE, LISTED, CAUGHT, FOUND_ONE, LISTED);
  }

  lemma RevokeRun()
    ensures Leads(LISTED, REVOKED, LISTED, REVOKED)
  {
    var w := LISTED.(calls := LISTED.calls[2 := Reply(Reused)]);
    assert LISTED.calls[2] == ReadFamily(0, []);
    AnswerStep(LISTED, Reply(Reused), w);
    AnswerStep(w, Done(Reused), REVOKED);
    LeadsOn(LISTED, w, REVOKED, LISTED, w, REVOKED);
  }

  // Call 2 goes on without touching a file.
  lemma AnswerStep(w: World, next: Call, w': World)
    requires 2 in w.calls && CallNext(w, w.calls[2], true, 0, []) == Next(next, NoOp)
    requires !next.Create? && !next.LoginCreate? && w' == w.(calls := w.calls[2 := next])
    ensures Leads(w, w', w, w')
  {
    assert Step(w, Go(2, true, 0, [])) == w';
    LeadsByStep(w, Go(2, true, 0, []), w');
  }

  lemma WriteRun()
    ensures Leads(REVOKED, WRITTEN, REVOKED, WRITTEN)
  {
    LeadsBoth(REVOKED, [Go(3, true, 3, []), Go(3, true, 0, [])], WRITTEN);
  }

  lemma EscapeRun()
    ensures Leads(WRITTEN, ESCAPED, WRITTEN, ESCAPED)
  {
    LeadsBoth(WRITTEN, [Go(3, true, 0, []), Go(3, true, 0, [])], ESCAPED);
  }

  lemma EscapedRun()
    ensures Leads(CREATED, ESCAPED, CREATED, ESCAPED)
  {
    CommitRun();
    SecondConsumeRun();
    ReplayRun();
    Leads3(CREATED, ROTATED, SIGNING, CAUGHT);
    ListRun();
    RevokeRun();
    WriteRun();
    Leads3(CAUGHT, LISTED, REVOKED, WRITTEN);
    EscapeRun();
    Leads3(CREATED, CAUGHT, WRITTEN, ESCAPED);
  }

  lemma EscapedFromInit()
    ensures Leads(INIT, ESCAPED, INIT, ESCAPED)
  {
    CreatedRun();
    EscapedRun();
    LeadsOn(INIT, CREATED, ESCAPED, INIT, CREATED, ESCAPED);
  }

  lemma LeadsFromInit(w: World, v: World)
    requires Leads(INIT, w, INIT, v)
    ensures Reachable(w)
  {
  }

  // A rotation in flight while the family is revoked survives it: the replay was answered
  // 'reused', the whole directory was listed, and yet token 3 of the family is handed out.
  lemma RotationInFlightEscapesRevocation()
    ensures Reachable(ESCAPED)
    ensures ESCAPED.calls[2] == Done(Reused) && ESCAPED.calls[3] == Done(Refreshed(3))
    ensures ESCAPED.dir[Active(3)].familyId == ESCAPED.issued[1].familyId
  {
    EscapedFromInit();
    LeadsFromInit(ESCAPED, ESCAPED);
  }

  // A purge lists token 1 and finds it moved aside; call 1's signing fails and it puts the token
  // back; the purge then unlinks what it could not read.
  const SWEEP: Purge := SweepFiles(0, {Active(1)})

  const DROP: Purge := DropFile(0, {Active(1)}, Active(1))

  const SWEEPING: World := World(0, map[Active(1) := T0], map[], map[], map[9 := SWEEP], map[1 := T0], [])

  const MOVED: World :=
    World(0, map[Consuming(1, 0) := T0], map[], map[1 := Sign(1, 0, T0)], map[9 := SWEEP], map[1 := T0], [])

  const RACING: World :=
    World(0, map[Consuming(1, 0) := T0], map[], map[1 := Sign(1, 0, T0)], map[9 := DROP], map[1 := T0], [])

  const RESTORED: World :=
    World(0, map[Active(1) := T0], map[], map[1 := Done(Failed)], map[9 := DROP], map[1 := T0], [])

  const LOST: World := World(0, map[], map[], map[1 := Done(Failed)], map[9 := SWEEP], map[1 := T0], [])

  const KEPT: World := World(0, map[Active(1) := T0], map[], map[1 := Done(Failed)], map[], map[1 := T0], [])

  lemma SweepingRun()
    ensures Leads(LOGGED_IN, SWEEPING, LOGGED_IN, LOGGED_IN)
  {
    var actions := [StartPurge(9), Sweep(9, ListFiles({Active(1)}))];
    assert {Active(1)} * LOGGED_IN.dir.Keys == {Active(1)};
    assert Run(LOGGED_IN, actions) == SWEEPING;
    assert WithoutPurges(actions) == [];
  }

  lemma MovedRun()
    ensures Leads(SWEEPING, MOVED, LOGGED_IN, CONSUMED)
  {
    ConsumingLeads(map[9 := SWEEP], map[]);
  }

  lemma RacingRun()
    ensures Leads(MOVED, RACING, CONSUMED, CONSUMED)
  {
    var actions := [Sweep(9, VisitFile(Active(1), false))];
    assert Run(MOVED, actions) == RACING;
    assert WithoutPurges(actions) == [];
  }

  lemma RacedRun()
    ensures Leads(INIT, RACING, INIT, CONSUMED)
  {
    LoginRun();
    SweepingRun();
    LeadsOn(INIT, LOGGED_IN, SWEEPING, INIT, LOGGED_IN, LOGGED_IN);
    MovedRun();
    LeadsOn(INIT, SWEEPING, MOVED, INIT, LOGGED_IN, CONSUMED);
    RacingRun();
    LeadsOn(INIT, MOVED, RACING, INIT, CONSUMED, CONSUMED);
  }

  lemma RestoredRun()
    ensures Leads(RACING, RESTORED, CONSUMED, KEPT)
  {
    var actions := [Go(1, false, 0, []), Go(1, true, 0, [])];
    assert Run(RACING, actions) == RESTORED;
    assert Run(CONSUMED, actions) == KEPT;
    NothingToLeaveOut(actions);
  }

  lemma LostRun()
    ensures Leads(RESTORED, LOST, KEPT, KEPT)
  {
    var actions := [Sweep(9, FinishDrop)];
    assert Run(RESTORED, actions) == LOST;
    assert WithoutPurges(actions) == [];
  }

  const LOST_FOUND: World := WithCall(LOST, 2, Done(Found(None)))

  const KEPT_FOUND: World := WithCall(KEPT, 2, Done(Found(Some(T0))))

  lemma FoundRun()
    ensures Leads(LOST, LOST_FOUND, KEPT, KEPT_FOUND)
  {
    LookAnswers(LOST, 2, 1, None);
    LookAnswers(KEPT, 2, 1, Some(T0));
    LookHasNoPurge(2, 1);
  }

  // A purge whose read and unlink are two steps can remove a token that has not expired: call
  // 2 then finds nothing, and in the same run without the purge it finds the token.
  lemma SplitPurgeIsObservable()
    ensures Leads(INIT, LOST_FOUND, INIT, KEPT_FOUND)
    ensures LOST_FOUND.calls[2] == Done(Found(None)) && KEPT_FOUND.calls[2] == Done(Found(Some(T0)))
  {
    RacedRun();
    RestoredRun();
    LeadsOn(INIT, RACING, RESTORED, INIT, CONSUMED, KEPT);
    LostRun();
    LeadsOn(INIT, RESTORED, LOST, INIT, KEPT, KEPT);
    FoundRun();
    LeadsOn(INIT, LOST, LOST_FOUND, INIT, KEPT, KEPT_FOUND);
  }
}
