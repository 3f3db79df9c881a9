// What CMS did with each token, the eviction of old records, and the session expiry read from
// them. An undefined token is "".
module TokenActivity {
  import opened Common

  type Token = string

  const DEFAULT_ACTIVE_SEC: nat := 7200
  const RETENTION_MS: nat := 24 * 60 * 60 * 1000
  const SWEEP_EVERY_NOTES: nat := 256

  datatype Entry = Entry(acceptedAt: nat, rejected: bool, closedAt: Option<nat>, touchedAt: nat)

  type Activity = map<Token, Entry>

  // The fields of a host record a login and a disconnect change.
  datatype Host = Host(token: Token, issuedAt: Option<nat>, activeSec: Option<nat>)

  datatype World = World(clock: nat, activity: Activity, notes: nat, host: Host)

  const INIT: World := World(0, map[], 0, Host("", None, None))

  predicate Evicts(e: Entry, now: nat) {
    !e.rejected && e.touchedAt + RETENTION_MS < now
  }

  function SweptAt(activity: Activity, now: nat): Activity {
    map t | t in activity && !Evicts(activity[t], now) :: activity[t]
  }

  function EntryOf(activity: Activity, token: Token, now: nat): Entry {
    if token in activity then activity[token] else Entry(0, false, None, now)
  }

  // One answer of CMS, for a request issued at startedAt.
  function Noted(e: Entry, rejected: bool, startedAt: nat, now: nat): Entry {
    if rejected then e.(touchedAt := now, rejected := true)
    else if !e.rejected && (e.closedAt.None? || startedAt > e.closedAt.value) then
      e.(touchedAt := now, acceptedAt := now)
    else e.(touchedAt := now)
  }

  function NotedIn(activity: Activity, token: Token, rejected: bool, startedAt: nat, now: nat): Activity {
    activity[token := Noted(EntryOf(activity, token, now), rejected, startedAt, now)]
  }

  function ClosedIn(activity: Activity, token: Token, now: nat): Activity {
    if token == "" then activity
    else
      var e := EntryOf(activity, token, now);
      activity[token := Entry(0, e.rejected, Some(now), now)]
  }

  function CmsSessionExpiresAt(activity: Activity, host: Host): Option<nat> {
    if host.token == "" then None
    else if host.token in activity && activity[host.token].rejected then None
    else
      var accepted := if host.token in activity then activity[host.token].acceptedAt else 0;
      var since := if accepted >= OrElse(host.issuedAt, 0) then accepted else OrElse(host.issuedAt, 0);
      if since == 0 then None
      else Some(since + OrElse(host.activeSec, DEFAULT_ACTIVE_SEC) * 1000)
  }

  // `Forget` is the removal of a token by another host record; `Retarget` is an update of this
  // host that names another server or account.
  datatype Action =
    | Tick(ms: nat)
    | Note(token: Token, rejected: bool, startedAt: nat)
    | Login(token: Token)
    | LearnActiveTime(token: Token, seconds: nat)
    | Disconnect
    | Retarget
    | Close(token: Token)
    | Forget(token: Token)

  function AfterNote(w: World, token: Token, rejected: bool, startedAt: nat, sweeping: bool): World {
    var noted := NotedIn(w.activity, token, rejected, startedAt, w.clock);
    if w.notes + 1 < SWEEP_EVERY_NOTES then w.(activity := noted, notes := w.notes + 1)
    else w.(activity := if sweeping then SweptAt(noted, w.clock) else noted, notes := 0)
  }

  // `sweeping` turns eviction on or off.
  function Step(w: World, a: Action, sweeping: bool): World {
    match a
    case Tick(ms) => w.(clock := w.clock + ms)
    case Note(token, rejected, startedAt) =>
      if token == "" then w else AfterNote(w, token, rejected, startedAt, sweeping)
    case Login(token) =>
      w.(activity := if w.host.token != token then w.activity - {w.host.token} else w.activity,
         host := Host(token, Some(w.clock), None))
    case LearnActiveTime(token, seconds) =>
      if w.host.token == token then w.(host := w.host.(activeSec := Some(seconds))) else w
    case Disconnect =>
      w.(activity := ClosedIn(w.activity, w.host.token, w.clock), host := w.host.(issuedAt := None))
    case Retarget =>
      w.(activity := w.activity - {w.host.token}, host := w.host.(issuedAt := None, activeSec := None))
    case Close(token) => w.(activity := ClosedIn(w.activity, token, w.clock))
    case Forget(token) => w.(activity := w.activity - {token})
  }

  function Run(w: World, actions: seq<Action>, sweeping: bool): World
    decreases |actions|
  {
    if actions == [] then w else Run(Step(w, actions[0], sweeping), actions[1..], sweeping)
  }

  // A request is answered no later than `limit` after it was issued.
  predicate AnsweredWithin(limit: nat, w: World, a: Action) {
    a.Note? ==> a.startedAt <= w.clock <= a.startedAt + limit
  }

  ghost predicate AllAnsweredWithin(limit: nat, w: World, actions: seq<Action>)
    decreases |actions|
  {
    actions == [] ||
    (AnsweredWithin(limit, w, actions[0]) && AllAnsweredWithin(limit, Step(w, actions[0], true), actions[1..]))
  }

  // How an entry of the sweeping run, present or not, stands to the one that is never swept.
  ghost predicate EntryBelow(s: Option<Entry>, u: Option<Entry>, now: nat) {
    match u
    case None => s.None?
    case Some(e) =>
      && e.touchedAt <= now && (e.closedAt.Some? ==> e.closedAt.value <= e.touchedAt)
      && match s
         case None => Evicts(e, now)
         case Some(d) =>
           && d.acceptedAt <= e.acceptedAt && d.rejected == e.rejected && d.touchedAt == e.touchedAt
           && (d.closedAt == e.closedAt
               || (d.closedAt.None? && e.closedAt.Some? && e.closedAt.value + RETENTION_MS < now))
  }

  ghost predicate Below(s: World, u: World) {
    && s.clock == u.clock && s.host == u.host && s.notes == u.notes
    && (forall t :: EntryBelow(Lookup(s.activity, t), Lookup(u.activity, t), s.clock))
  }

  lemma NoteKeepsBelow(s: Activity, u: Activity, token: Token, rejected: bool, startedAt: nat, now: nat)
    requires EntryBelow(Lookup(s, token), Lookup(u, token), now)
    requires startedAt <= now <= startedAt + RETENTION_MS
    ensures EntryBelow(Some(Noted(EntryOf(s, token, now), rejected, startedAt, now)),
                       Some(Noted(EntryOf(u, token, now), rejected, startedAt, now)), now)
  {
  }

  lemma SweepKeepsBelow(s: Activity, u: Activity, t: Token, now: nat)
    requires EntryBelow(Lookup(s, t), Lookup(u, t), now)
    ensures EntryBelow(Lookup(SweptAt(s, now), t), Lookup(u, t), now)
  {
  }

  lemma NotesKeepBelow(s: World, u: World, token: Token, rejected: bool, startedAt: nat)
    requires Below(s, u) && startedAt <= s.clock <= startedAt + RETENTION_MS
    ensures Below(AfterNote(s, token, rejected, startedAt, true), AfterNote(u, token, rejected, startedAt, false))
  {
    var s' := NotedIn(s.activity, token, rejected, startedAt, s.clock);
    var u' := NotedIn(u.activity, token, rejected, startedAt, u.clock);
    forall t ensures EntryBelow(Lookup(s', t), Lookup(u', t), s.clock) {
      assert EntryBelow(Lookup(s.activity, t), Lookup(u.activity, t), s.clock);
      if t == token { NoteKeepsBelow(s.activity, u.activity, token, rejected, startedAt, s.clock); }
    }
    forall t ensures EntryBelow(Lookup(SweptAt(s', s.clock), t), Lookup(u', t), s.clock) {
      SweepKeepsBelow(s', u', t, s.clock);
    }
  }

  lemma ClosingKeepsBelow(s: Activity, u: Activity, token: Token, now: nat)
    requires forall t :: EntryBelow(Lookup(s, t), Lookup(u, t), now)
    ensures forall t :: EntryBelow(Lookup(ClosedIn(s, token, now), t), Lookup(ClosedIn(u, token, now), t), now)
  {
    forall t ensures EntryBelow(Lookup(ClosedIn(s, token, now), t), Lookup(ClosedIn(u, token, now), t), now) {
      assert EntryBelow(Lookup(s, t), Lookup(u, t), now);
    }
  }

  lemma DroppingKeepsBelow(s: Activity, u: Activity, token: Token, now: nat)
    requires forall t :: EntryBelow(Lookup(s, t), Lookup(u, t), now)
    ensures forall t :: EntryBelow(Lookup(s - {token}, t), Lookup(u - {token}, t), now)
  {
    forall t ensures EntryBelow(Lookup(s - {token}, t), Lookup(u - {token}, t), now) {
      assert EntryBelow(Lookup(s, t), Lookup(u, t), now);
    }
  }

  lemma StepKeepsBelow(s: World, u: World, a: Action)
    requires Below(s, u) && AnsweredWithin(RETENTION_MS, s, a)
    ensures Below(Step(s, a, true), Step(u, a, false))
  {
    match a
    case Tick(ms) =>
    case Note(token, rejected, startedAt) =>
      if token != "" { NotesKeepBelow(s, u, token, rejected, startedAt); }
    case Login(token) => DroppingKeepsBelow(s.activity, u.activity, s.host.token, s.clock);
    case LearnActiveTime(token, seconds) =>
    case Disconnect => ClosingKeepsBelow(s.activity, u.activity, s.host.token, s.clock);
    case Retarget => DroppingKeepsBelow(s.activity, u.activity, s.host.token, s.clock);
    case Close(token) => ClosingKeepsBelow(s.activity, u.activity, token, s.clock);
    case Forget(token) => DroppingKeepsBelow(s.activity, u.activity, token, s.clock);
  }

  lemma {:induction false} RunKeepsBelow(s: World, u: World, actions: seq<Action>)
    requires Below(s, u) && AllAnsweredWithin(RETENTION_MS, s, actions)
    ensures Below(Run(s, actions, true), Run(u, actions, false))
    decreases |actions|
  {
    if actions != [] {
      StepKeepsBelow(s, u, actions[0]);
      RunKeepsBelow(Step(s, actions[0], true), Step(u, actions[0], false), actions[1..]);
    }
  }

  predicate NoLater(s: Option<nat>, u: Option<nat>) {
    s.None? || (u.Some? && s.value <= u.value)
  }

  predicate Rejected(activity: Activity, token: Token) {
    token in activity && activity[token].rejected
  }

  // Whenever each request is answered within 24h of being issued, a session read from the swept
  // map is null or expires no later than it would unswept, whatever host is asked about, and
  // both maps agree on which tokens CMS rejected.
  lemma EvictionOnlyShortens(actions: seq<Action>, host: Host, token: Token)
    requires AllAnsweredWithin(RETENTION_MS, INIT, actions)
    ensures var s, u := Run(INIT, actions, true), Run(INIT, actions, false);
      && NoLater(CmsSessionExpiresAt(s.activity, host), CmsSessionExpiresAt(u.activity, host))
      && (Rejected(s.activity, token) <==> Rejected(u.activity, token))
  {
    RunKeepsBelow(INIT, INIT, actions);
    var s, u := Run(INIT, actions, true), Run(INIT, actions, false);
    assert EntryBelow(Lookup(s.activity, host.token), Lookup(u.activity, host.token), s.clock);
    assert EntryBelow(Lookup(s.activity, token), Lookup(u.activity, token), s.clock);
  }

  // The property above, for answers that may take up to `limit`.
  ghost predicate EvictionIsSafe(limit: nat) {
    forall actions: seq<Action>, host: Host :: AllAnsweredWithin(limit, INIT, actions) ==>
      NoLater(CmsSessionExpiresAt(Run(INIT, actions, true).activity, host),
              CmsSessionExpiresAt(Run(INIT, actions, false).activity, host))
  }

  lemma {:induction false} ShorterLimit(limit: nat, longer: nat, w: World, actions: seq<Action>)
    requires limit <= longer && AllAnsweredWithin(limit, w, actions)
    ensures AllAnsweredWithin(longer, w, actions)
    decreases |actions|
  {
    if actions != [] { ShorterLimit(limit, longer, Step(w, actions[0], true), actions[1..]); }
  }

  // Answers to another token, as many as it takes to trigger a sweep.
  function Fill(n: nat, startedAt: nat): seq<Action> {
    if n == 0 then [] else [Note("other", false, startedAt)] + Fill(n - 1, startedAt)
  }

  lemma {:induction false} FillSweeps(limit: nat, w: World, n: nat, rest: seq<Action>, sweeping: bool)
    returns (w': World)
    requires n > 0 && w.notes + n == SWEEP_EVERY_NOTES
    ensures Run(w, Fill(n, w.clock) + rest, sweeping) == Run(w', rest, sweeping)
    ensures sweeping && AllAnsweredWithin(limit, w', rest) ==> AllAnsweredWithin(limit, w, Fill(n, w.clock) + rest)
    ensures w'.clock == w.clock && w'.notes == 0 && w'.host == w.host
    ensures Lookup(w'.activity, "mine") == Lookup(if sweeping then SweptAt(w.activity, w.clock) else w.activity, "mine")
    decreases n
  {
    var all := Fill(n, w.clock) + rest;
    var next := Step(w, all[0], sweeping);
    assert all[1..] == Fill(n - 1, w.clock) + rest;
    if n == 1 {
      assert all[1..] == rest;
      w' := next;
    } else {
      w' := FillSweeps(limit, next, n - 1, rest, sweeping);
    }
  }

  // One answer that takes longer than the retention time reopens a closed session: the record
  // that said it was closed has been evicted.
  lemma LateAnswerReopens(limit: nat) returns (actions: seq<Action>, host: Host)
    requires limit > RETENTION_MS
    ensures AllAnsweredWithin(limit, INIT, actions)
    ensures CmsSessionExpiresAt(Run(INIT, actions, true).activity, host).Some?
    ensures CmsSessionExpiresAt(Run(INIT, actions, false).activity, host).None?
  {
    host := Host("mine", None, None);
    var late := [Note("mine", false, 1)];
    var rest := Fill(SWEEP_EVERY_NOTES, RETENTION_MS + 2) + late;
    actions := [Tick(1), Close("mine"), Tick(RETENTION_MS + 1)] + rest;
    var w := INIT.(clock := RETENTION_MS + 2, activity := map["mine" := Entry(0, false, Some(1), 1)]);
    var s := FillSweeps(limit, w, SWEEP_EVERY_NOTES, late, true);
    var u := FillSweeps(limit, w, SWEEP_EVERY_NOTES, late, false);
    assert Run(s, late, true) == Step(s, late[0], true) && Run(u, late, false) == Step(u, late[0], false);
    assert "mine" !in s.activity && "mine" in u.activity;
    Opening(limit, actions, rest, true);
    Opening(limit, actions, rest, false);
    assert AllAnsweredWithin(limit, w, rest);
  }

  lemma Opening(limit: nat, actions: seq<Action>, rest: seq<Action>, sweeping: bool)
    requires actions == [Tick(1), Close("mine"), Tick(RETENTION_MS + 1)] + rest
    ensures var w := INIT.(clock := RETENTION_MS + 2, activity := map["mine" := Entry(0, false, Some(1), 1)]);
      && Run(INIT, actions, sweeping) == Run(w, rest, sweeping)
      && (sweeping && AllAnsweredWithin(limit, w, rest) ==> AllAnsweredWithin(limit, INIT, actions))
  {
    var w1 := Step(INIT, actions[0], sweeping);
    var w2 := Step(w1, actions[1], sweeping);
    var w3 := Step(w2, actions[2], sweeping);
    var after1, after2 := actions[1..], actions[1..][1..];
    assert after1 == [Close("mine"), Tick(RETENTION_MS + 1)] + rest;
    assert after2 == [Tick(RETENTION_MS + 1)] + rest && after2[1..] == rest;
    assert w2.activity == map["mine" := Entry(0, false, Some(1), 1)];
    assert actions[0] == Tick(1) && actions[1] == Close("mine") && actions[2] == Tick(RETENTION_MS + 1);
    assert Run(INIT, actions, sweeping) == Run(w1, after1, sweeping) == Run(w2, after2, sweeping)
      == Run(w3, rest, sweeping);
    assert sweeping ==>
      (AllAnsweredWithin(limit, w2, after2) <==> AllAnsweredWithin(limit, w3, rest))
      && (AllAnsweredWithin(limit, w1, after1) <==> AllAnsweredWithin(limit, w2, after2));
  }

  // The retention time is the exact bound on answers under which eviction is safe.
  lemma RetentionIsTheExactBound(limit: nat)
    ensures EvictionIsSafe(limit) <==> limit <= RETENTION_MS
  {
    if limit <= RETENTION_MS {
      forall actions: seq<Action>, host: Host | AllAnsweredWithin(limit, INIT, actions)
        ensures NoLater(CmsSessionExpiresAt(Run(INIT, actions, true).activity, host),
                        CmsSessionExpiresAt(Run(INIT, actions, false).activity, host))
      {
        ShorterLimit(limit, RETENTION_MS, INIT, actions);
        EvictionOnlyShortens(actions, host, "");
      }
    } else {
      var actions, host := LateAnswerReopens(limit);
      assert !NoLater(CmsSessionExpiresAt(Run(INIT, actions, true).activity, host),
                      CmsSessionExpiresAt(Run(INIT, actions, false).activity, host));
    }
  }

  // The record of a token that was closed at c or later, or rejected; it may have been evicted.
  ghost predicate ClosedRecord(e: Option<Entry>, c: nat, now: nat) {
    match e
    case None => c + RETENTION_MS < now
    case Some(e) =>
      e.rejected || (e.acceptedAt == 0 && e.closedAt.Some? && c <= e.closedAt.value <= e.touchedAt <= now)
  }

  // The host's session was closed at c and nothing has reopened it.
  ghost predicate Shut(w: World, c: nat) {
    && w.host.issuedAt.None? && c <= w.clock
    && (w.host.token == "" || ClosedRecord(Lookup(w.activity, w.host.token), c, w.clock))
  }

  // No login, no update of the host's target, no removal of its token, and no request issued
  // after c is accepted; earlier ones are answered within the retention time.
  ghost predicate LeavesShut(w: World, a: Action, c: nat) {
    && !a.Login? && !a.Retarget? && !(a.Forget? && a.token == w.host.token)
    && (a.Note? && a.token == w.host.token && !a.rejected ==>
          a.startedAt <= c && AnsweredWithin(RETENTION_MS, w, a))
  }

  ghost predicate AllLeaveShut(w: World, actions: seq<Action>, c: nat)
    decreases |actions|
  {
    actions == [] ||
    (LeavesShut(w, actions[0], c) && AllLeaveShut(Step(w, actions[0], true), actions[1..], c))
  }

  lemma StepKeepsShut(w: World, a: Action, c: nat)
    requires Shut(w, c) && LeavesShut(w, a, c)
    ensures Shut(Step(w, a, true), c)
  {
  }

  lemma {:induction false} RunKeepsShut(w: World, actions: seq<Action>, c: nat)
    requires Shut(w, c) && AllLeaveShut(w, actions, c)
    ensures Shut(Run(w, actions, true), c)
    decreases |actions|
  {
    if actions != [] {
      StepKeepsShut(w, actions[0], c);
      RunKeepsShut(Step(w, actions[0], true), actions[1..], c);
    }
  }

  lemma DisconnectShuts(w: World)
    ensures Shut(Step(w, Disconnect, true), w.clock)
  {
    assert w.host.token != "" ==>
      Lookup(Step(w, Disconnect, true).activity, w.host.token)
      == Some(Entry(0, EntryOf(w.activity, w.host.token, w.clock).rejected, Some(w.clock), w.clock));
  }

  // After a disconnect the session reads as null however many earlier requests are answered,
  // whatever is swept meanwhile, until a later request is accepted or a login comes.
  lemma DisconnectBarrier(w: World, actions: seq<Action>)
    requires AllLeaveShut(Step(w, Disconnect, true), actions, w.clock)
    ensures var w' := Run(Step(w, Disconnect, true), actions, true);
      CmsSessionExpiresAt(w'.activity, w'.host).None?
  {
    DisconnectShuts(w);
    RunKeepsShut(Step(w, Disconnect, true), actions, w.clock);
  }

  // When the session was last closed; c, if the record has been evicted since.
  function LastClosed(w: World, c: nat): nat {
    if w.host.token in w.activity then OrElse(w.activity[w.host.token].closedAt, c) else c
  }

  lemma ShutReopensIff(w: World, c: nat, startedAt: nat, w': World)
    requires Shut(w, c) && w.host.token != "" && !Rejected(w.activity, w.host.token)
    requires startedAt <= w.clock <= startedAt + RETENTION_MS && w.clock > 0
    requires w' == Step(w, Note(w.host.token, false, startedAt), true)
    ensures var expiry := CmsSessionExpiresAt(w'.activity, w'.host);
      && (expiry.Some? <==> startedAt > LastClosed(w, c))
      && (expiry.Some? ==> expiry.value == w.clock + OrElse(w.host.activeSec, DEFAULT_ACTIVE_SEC) * 1000)
  {
    assert w.host.token in w'.activity && w'.activity[w.host.token].touchedAt == w'.clock;
  }

  // The barrier is exact: after any run that leaves the session shut, of the requests CMS then
  // accepts for a token it has not rejected, just those issued after the session was last closed
  // reopen it, and it lasts token_active_time from the answer.
  lemma BarrierIsExact(w: World, actions: seq<Action>, startedAt: nat, shut: World, w': World)
    requires AllLeaveShut(Step(w, Disconnect, true), actions, w.clock)
    requires shut == Run(Step(w, Disconnect, true), actions, true)
    requires shut.host.token != "" && !Rejected(shut.activity, shut.host.token)
    requires startedAt <= shut.clock <= startedAt + RETENTION_MS && shut.clock > 0
    requires w' == Step(shut, Note(shut.host.token, false, startedAt), true)
    ensures w.clock <= LastClosed(shut, w.clock)
    ensures var expiry := CmsSessionExpiresAt(w'.activity, w'.host);
      && (expiry.Some? <==> startedAt > LastClosed(shut, w.clock))
      && (expiry.Some? ==> expiry.value == shut.clock + OrElse(shut.host.activeSec, DEFAULT_ACTIVE_SEC) * 1000)
  {
    DisconnectShuts(w);
    RunKeepsShut(Step(w, Disconnect, true), actions, w.clock);
    ShutReopensIff(shut, w.clock, startedAt, w');
  }

  // No login, and no request issued after c is accepted; earlier ones are answered within the
  // retention time.
  ghost predicate Earlier(w: World, a: Action, token: Token, c: nat) {
    && !a.Login?
    && (a.Note? && a.token == token && !a.rejected ==> a.startedAt <= c && AnsweredWithin(RETENTION_MS, w, a))
  }

  ghost predicate AllEarlier(w: World, actions: seq<Action>, token: Token, c: nat)
    decreases |actions|
  {
    actions == [] ||
    (Earlier(w, actions[0], token, c) && AllEarlier(Step(w, actions[0], true), actions[1..], token, c))
  }

  // The host has the token: the record of the token is forgotten, or marked as closed or rejected.
  predicate Forgets(a: Action, token: Token) {
    a.Retarget? || (a.Forget? && a.token == token)
  }

  predicate Marks(a: Action, token: Token) {
    a.Disconnect? || (a.Close? && a.token == token) || (a.Note? && a.token == token && a.rejected)
  }

  // Some step forgets the record and no later one marks it.
  ghost predicate ForgottenLast(actions: seq<Action>, token: Token) {
    exists i :: 0 <= i < |actions| && Forgets(actions[i], token) && Unmarked(actions[i + 1..], token)
  }

  ghost predicate Unmarked(actions: seq<Action>, token: Token) {
    forall a :: a in actions ==> !Marks(a, token)
  }

  lemma ForgottenLastOfRest(actions: seq<Action>, token: Token)
    requires actions != []
    ensures ForgottenLast(actions, token) <==>
      ForgottenLast(actions[1..], token) || (Forgets(actions[0], token) && Unmarked(actions[1..], token))
    ensures Unmarked(actions, token) <==> !Marks(actions[0], token) && Unmarked(actions[1..], token)
  {
    var rest := actions[1..];
    if ForgottenLast(actions, token) {
      var i :| 0 <= i < |actions| && Forgets(actions[i], token) && Unmarked(actions[i + 1..], token);
      if i > 0 { assert rest[i - 1] == actions[i] && rest[i - 1 + 1..] == actions[i + 1..]; }
    }
    if ForgottenLast(rest, token) {
      var i :| 0 <= i < |rest| && Forgets(rest[i], token) && Unmarked(rest[i + 1..], token);
      assert rest[i] == actions[i + 1] && rest[i + 1..] == actions[i + 1 + 1..];
    }
  }

  // A session closed at c, whose record still says so or has been forgotten.
  ghost predicate Closed(w: World, token: Token, c: nat, forgotten: bool) {
    && w.host.token == token && w.host.issuedAt.None? && c <= w.clock
    && var e := Lookup(w.activity, token);
       if forgotten then e.Some? ==> !e.value.rejected && e.value.closedAt.None? else ClosedRecord(e, c, w.clock)
  }

  lemma StepKeepsClosed(w: World, a: Action, token: Token, c: nat, forgotten: bool)
    requires token != "" && Closed(w, token, c, forgotten) && Earlier(w, a, token, c)
    ensures Closed(Step(w, a, true), token, c, Forgets(a, token) || (forgotten && !Marks(a, token)))
  {
  }

  lemma {:induction false} RunKeepsClosed(w: World, actions: seq<Action>, token: Token, c: nat, forgotten: bool)
    requires token != "" && Closed(w, token, c, forgotten) && AllEarlier(w, actions, token, c)
    ensures Closed(Run(w, actions, true), token, c,
                   ForgottenLast(actions, token) || (forgotten && Unmarked(actions, token)))
    decreases |actions|
  {
    if actions != [] {
      var a := actions[0];
      StepKeepsClosed(w, a, token, c, forgotten);
      RunKeepsClosed(Step(w, a, true), actions[1..], token, c, Forgets(a, token) || (forgotten && !Marks(a, token)));
      ForgottenLastOfRest(actions, token);
    }
  }

  lemma ClosedReopensIff(w: World, token: Token, c: nat, forgotten: bool, startedAt: nat, w': World)
    requires Closed(w, token, c, forgotten) && token != "" && w.clock > 0
    requires startedAt <= w.clock <= startedAt + RETENTION_MS
    requires w' == Step(w, Note(token, false, startedAt), true)
    ensures CmsSessionExpiresAt(w'.activity, w'.host).Some? <==>
      forgotten || (!Rejected(w.activity, token) && startedAt > LastClosed(w, c))
  {
    assert token in w'.activity && w'.activity[token].touchedAt == w'.clock;
  }

  // After a disconnect and any run without a login in which only earlier requests are accepted,
  // an accepted request issued before the disconnect reopens the session exactly when some step
  // of the run forgot the record of the token, by updating the host's address or account or by
  // removing another host with the token, and no later one closed or rejected it again. A
  // request issued later reopens it also when it was issued after the last close.
  lemma EarlierRequestReopensIff(w: World, actions: seq<Action>, startedAt: nat, w1: World, w2: World)
    requires w.host.token != "" && AllEarlier(Step(w, Disconnect, true), actions, w.host.token, w.clock)
    requires w1 == Run(Step(w, Disconnect, true), actions, true) && w1.clock > 0
    requires startedAt <= w1.clock <= startedAt + RETENTION_MS
    requires w2 == Step(w1, Note(w.host.token, false, startedAt), true)
    ensures var reopened := CmsSessionExpiresAt(w2.activity, w2.host).Some?;
      && (startedAt <= w.clock ==> (reopened <==> ForgottenLast(actions, w.host.token)))
      && (reopened <==>
            ForgottenLast(actions, w.host.token)
            || (!Rejected(w1.activity, w.host.token) && startedAt > LastClosed(w1, w.clock)))
  {
    var w0 := Step(w, Disconnect, true);
    assert Lookup(w0.activity, w.host.token)
      == Some(Entry(0, EntryOf(w.activity, w.host.token, w.clock).rejected, Some(w.clock), w.clock));
    RunKeepsClosed(w0, actions, w.host.token, w.clock, false);
    ClosedReopensIff(w1, w.host.token, w.clock, ForgottenLast(actions, w.host.token), startedAt, w2);
  }

  // The host keeps its login with `token`, and CMS does not reject it.
  predicate KeepsSession(a: Action, token: Token) {
    && !a.Login? && !a.Disconnect? && !a.Retarget?
    && !((a.Close? || a.Forget?) && a.token == token)
    && !(a.Note? && a.token == token && a.rejected)
  }

  ghost predicate AllKeepSession(actions: seq<Action>, token: Token) {
    forall a :: a in actions ==> KeepsSession(a, token)
  }

  // When CMS last accepted a request for `token` that was issued after `closedAt`; `since`, if it
  // accepted none.
  function LastAccepted(clock: nat, actions: seq<Action>, token: Token, closedAt: Option<nat>, since: nat): nat
    decreases |actions|
  {
    if actions == [] then since
    else
      var a := actions[0];
      var later := if a.Tick? then clock + a.ms else clock;
      var accepted := a.Note? && a.token == token && !a.rejected && (closedAt.None? || a.startedAt > closedAt.value);
      LastAccepted(later, actions[1..], token, closedAt, if accepted then clock else since)
  }

  // The active time CMS last told for `token`, in seconds.
  function LastActiveTime(actions: seq<Action>, token: Token, seconds: nat): nat {
    if actions == [] then seconds
    else
      var a := actions[0];
      LastActiveTime(actions[1..], token, if a.LearnActiveTime? && a.token == token then a.seconds else seconds)
  }

  // The session was last confirmed at `since`, by the login or by CMS.
  ghost predicate Confirmed(w: World, token: Token, closedAt: Option<nat>, c: nat, since: nat, seconds: nat) {
    && token != "" && w.host.token == token && w.host.issuedAt == Some(c) && 0 < c <= since <= w.clock
    && OrElse(w.host.activeSec, 7200) == seconds
    && match Lookup(w.activity, token)
       case None => since == c && closedAt.None?
       case Some(e) =>
         !e.rejected && e.closedAt == closedAt && e.acceptedAt <= w.clock
         && since == if e.acceptedAt > c then e.acceptedAt else c
  }

  lemma StepKeepsConfirmed(
    w: World, a: Action, token: Token, closedAt: Option<nat>, c: nat, since: nat, seconds: nat)
    requires Confirmed(w, token, closedAt, c, since, seconds) && KeepsSession(a, token)
    ensures Confirmed(Step(w, a, false), token, closedAt, c,
                      LastAccepted(w.clock, [a], token, closedAt, since), LastActiveTime([a], token, seconds))
    ensures Step(w, a, false).clock == if a.Tick? then w.clock + a.ms else w.clock
  {
    assert [a][1..] == [];
  }

  lemma {:induction false} RunKeepsConfirmed(
    w: World, actions: seq<Action>, token: Token, closedAt: Option<nat>, c: nat, since: nat, seconds: nat)
    requires Confirmed(w, token, closedAt, c, since, seconds) && AllKeepSession(actions, token)
    ensures Confirmed(Run(w, actions, false), token, closedAt, c,
                      LastAccepted(w.clock, actions, token, closedAt, since), LastActiveTime(actions, token, seconds))
    decreases |actions|
  {
    if actions != [] {
      var a := actions[0];
      assert a in actions && [a][1..] == [];
      StepKeepsConfirmed(w, a, token, closedAt, c, since, seconds);
      RunKeepsConfirmed(Step(w, a, false), actions[1..], token, closedAt, c,
        LastAccepted(w.clock, [a], token, closedAt, since), LastActiveTime([a], token, seconds));
    }
  }

  ghost predicate NothingFromTheFuture(w: World) {
    forall t :: t in w.activity ==> w.activity[t].acceptedAt <= w.clock
  }

  lemma {:induction false} RunKeepsPast(w: World, actions: seq<Action>, sweeping: bool)
    requires NothingFromTheFuture(w)
    ensures NothingFromTheFuture(Run(w, actions, sweeping))
    decreases |actions|
  {
    if actions != [] { RunKeepsPast(Step(w, actions[0], sweeping), actions[1..], sweeping); }
  }

  // When an earlier session with the token was closed.
  function ClosedAt(activity: Activity, token: Token): Option<nat> {
    if token in activity then activity[token].closedAt else None
  }

  // A session that is logged in expires its active time, 7200 seconds unless CMS tells another,
  // after the last request CMS accepted, or after the login if there was none: in every run that
  // keeps the login and evicts nothing.
  lemma SessionCountsFromLastAnswer(before: seq<Action>, w: World, token: Token, actions: seq<Action>, w': World)
    requires w == Run(INIT, before, false) && w' == Run(Step(w, Login(token), false), actions, false)
    requires token != "" && w.clock > 0 && !Rejected(w.activity, token) && AllKeepSession(actions, token)
    ensures CmsSessionExpiresAt(w'.activity, w'.host) ==
      Some(LastAccepted(w.clock, actions, token, ClosedAt(w.activity, token), w.clock)
           + LastActiveTime(actions, token, 7200) * 1000)
  {
    RunKeepsPast(INIT, before, false);
    var w1, closedAt := Step(w, Login(token), false), ClosedAt(w.activity, token);
    RunKeepsConfirmed(w1, actions, token, closedAt, w.clock, w.clock, 7200);
  }

  ghost predicate LoggedInAt(w: World, token: Token, c: nat, seconds: nat) {
    && token != "" && w.host.token == token && w.host.issuedAt == Some(c) && 0 < c <= w.clock
    && OrElse(w.host.activeSec, 7200) == seconds && !Rejected(w.activity, token)
  }

  lemma {:induction false} RunKeepsLogin(w: World, actions: seq<Action>, token: Token, c: nat, seconds: nat)
    requires LoggedInAt(w, token, c, seconds) && AllKeepSession(actions, token)
    ensures LoggedInAt(Run(w, actions, true), token, c, LastActiveTime(actions, token, seconds))
    decreases |actions|
  {
    if actions != [] {
      var a := actions[0];
      assert a in actions && KeepsSession(a, token);
      var next := if a.LearnActiveTime? && a.token == token then a.seconds else seconds;
      RunKeepsLogin(Step(w, a, true), actions[1..], token, c, next);
    }
  }

  // With eviction, too, it lasts at least that long from the login, and no longer than that from now.
  lemma SessionOutlastsEviction(before: seq<Action>, w: World, token: Token, actions: seq<Action>, w': World)
    requires w == Run(INIT, before, true) && w' == Run(Step(w, Login(token), true), actions, true)
    requires token != "" && w.clock > 0 && !Rejected(w.activity, token) && AllKeepSession(actions, token)
    ensures var expiry := CmsSessionExpiresAt(w'.activity, w'.host);
      var active := LastActiveTime(actions, token, 7200) * 1000;
      expiry.Some? && w.clock + active <= expiry.value <= w'.clock + active
  {
    RunKeepsPast(INIT, before, true);
    RunKeepsPast(Step(w, Login(token), true), actions, true);
    RunKeepsLogin(Step(w, Login(token), true), actions, token, w.clock, 7200);
  }

  // No step lets go of the record of `token`.
  ghost predicate Keeps(w: World, a: Action, token: Token) {
    && !(a.Forget? && a.token == token) && !(a.Retarget? && w.host.token == token)
    && !(a.Login? && w.host.token == token && a.token != token)
  }

  ghost predicate AllKeep(w: World, actions: seq<Action>, token: Token)
    decreases |actions|
  {
    actions == [] || (Keeps(w, actions[0], token) && AllKeep(Step(w, actions[0], true), actions[1..], token))
  }

  // A rejected token reads as null until it is forgotten: no sweep, later answer, disconnect or
  // login with the same token brings it back.
  lemma {:induction false} RejectedStaysNull(w: World, actions: seq<Action>, token: Token, host: Host)
    requires Rejected(w.activity, token) && AllKeep(w, actions, token) && host.token == token
    ensures var w' := Run(w, actions, true);
      Rejected(w'.activity, token) && CmsSessionExpiresAt(w'.activity, host).None?
    decreases |actions|
  {
    if actions != [] { RejectedStaysNull(Step(w, actions[0], true), actions[1..], token, host); }
  }

  // The module-level map and counter.
  class TokenActivityTable {
    var activity: Activity
    var notesSinceSweep: nat

    constructor ()
      ensures activity == map[] && notesSinceSweep == 0
    {
      activity, notesSinceSweep := map[], 0;
    }

    method Sweep(now: nat)
      modifies this`activity
      ensures activity == SweptAt(old(activity), now)
    {
      var todo := activity.Keys;
      while todo != {}
        invariant todo <= activity.Keys <= old(activity).Keys
        invariant forall t :: t in old(activity) ==>
          (t in activity <==> t in todo || !Evicts(old(activity)[t], now))
        invariant forall t :: t in activity ==> activity[t] == old(activity)[t]
        decreases todo
      {
        var token :| token in todo;
        var entry := activity[token];
        if !entry.rejected && now - entry.touchedAt > RETENTION_MS { activity := activity - {token}; }
        todo := todo - {token};
      }
    }

    method NoteCmsTokenUse(token: Token, rejected: bool, startedAt: nat, at: nat, ghost host: Host)
      modifies this
      ensures var before := World(at, old(activity), old(notesSinceSweep), host);
        var w := Step(before, Note(token, rejected, startedAt), true);
        activity == w.activity && notesSinceSweep == w.notes
    {
      if token == "" { return; }
      var entry := Entry(0, false, None, at);
      if token in activity { entry := activity[token]; }
      entry := entry.(touchedAt := at);
      if rejected {
        entry := entry.(rejected := true);
      } else if !entry.rejected && (entry.closedAt.None? || startedAt > entry.closedAt.value) {
        entry := entry.(acceptedAt := at);
      }
      activity := activity[token := entry];
      notesSinceSweep := notesSinceSweep + 1;
      if notesSinceSweep >= SWEEP_EVERY_NOTES {
        notesSinceSweep := 0;
        Sweep(at);
      }
    }

    method CloseCmsToken(token: Token, at: nat)
      modifies this`activity
      ensures activity == ClosedIn(old(activity), token, at)
    {
      if token == "" { return; }
      var entry := Entry(0, false, None, at);
      if token in activity { entry := activity[token]; }
      activity := activity[token := entry.(acceptedAt := 0, closedAt := Some(at), touchedAt := at)];
    }

    method ForgetCmsToken(token: Token)
      modifies this`activity
      ensures activity == old(activity) - {token}
    {
      activity := activity - {token};
    }
  }

  // The persisted host record, as login and disconnect of CmsAuthService change it.
  class HostSession {
    const table: TokenActivityTable
    var token: Token
    var cmsTokenIssuedAt: Option<nat>
    var cmsTokenActiveTimeSec: Option<nat>

    constructor (table: TokenActivityTable)
      ensures this.table == table && State(0).host == INIT.host
    {
      this.table, token, cmsTokenIssuedAt, cmsTokenActiveTimeSec := table, "", None, None;
    }

    function State(now: nat): World
      reads this, table
    {
      World(now, table.activity, table.notesSinceSweep, Host(token, cmsTokenIssuedAt, cmsTokenActiveTimeSec))
    }

    method Login(newToken: Token, now: nat)
      modifies this, table
      ensures State(now) == Step(old(State(now)), Action.Login(newToken), true)
    {
      if token != newToken { table.ForgetCmsToken(token); }
      token := newToken;
      cmsTokenIssuedAt := Some(now);
      cmsTokenActiveTimeSec := None;
    }

    method Disconnect(now: nat)
      modifies this, table
      ensures State(now) == Step(old(State(now)), Action.Disconnect, true)
    {
      table.CloseCmsToken(token, now);
      cmsTokenIssuedAt := None;
    }
  }
}
