// The access-token blacklist: one file per revoked token id, and its garbage collection.
//
// A token id belongs to one token, so it always comes with the same expiry.
module TokenBlacklist {
  import opened Common

  type Jti = string

  // `doomed` are ids a reader has found expired and not unlinked yet.
  datatype World = World(clock: int, files: set<Jti>, doomed: set<Jti>)

  const INIT: World := World(0, {}, {})

  datatype Action =
    | Tick(ms: nat)
    | Add(jti: Jti)
    | Ask(jti: Jti)
    | Visit(jti: Jti, listedAt: int)
    | Unlink(jti: Jti)

  // isBlacklisted, and purgeExpired file by file. A purge looks with the time it began at; a
  // file found expired is unlinked in a later step, between which anything may happen.
  function Step(w: World, a: Action, expiry: Jti -> int): World {
    match a
    case Tick(ms) => w.(clock := w.clock + ms)
    case Add(jti) => if jti == "" then w else w.(files := w.files + {jti})
    case Ask(jti) =>
      if jti in w.files && w.clock >= expiry(jti) then w.(doomed := w.doomed + {jti}) else w
    case Visit(jti, listedAt) =>
      if jti in w.files && listedAt <= w.clock && listedAt >= expiry(jti) then w.(doomed := w.doomed + {jti}) else w
    case Unlink(jti) =>
      if jti in w.doomed then w.(files := w.files - {jti}, doomed := w.doomed - {jti}) else w
  }

  function Run(w: World, actions: seq<Action>, expiry: Jti -> int): World
    decreases |actions|
  {
    if actions == [] then w else Run(Step(w, actions[0], expiry), actions[1..], expiry)
  }

  predicate Blacklisted(w: World, jti: Jti, expiry: Jti -> int) {
    jti != "" && jti in w.files && w.clock < expiry(jti)
  }

  // The ids blacklisted so far.
  function Added(actions: seq<Action>): set<Jti> {
    if actions == [] then {}
    else (if actions[0].Add? && actions[0].jti != "" then {actions[0].jti} else {}) + Added(actions[1..])
  }

  ghost predicate Inv(w: World, added: set<Jti>, expiry: Jti -> int) {
    && w.files <= added && "" !in added
    && (forall jti :: jti in added && w.clock < expiry(jti) ==> jti in w.files)
    && (forall jti :: jti in w.doomed ==> expiry(jti) <= w.clock)
  }

  lemma {:induction false} RunKeepsInv(w: World, added: set<Jti>, actions: seq<Action>, expiry: Jti -> int)
    requires Inv(w, added, expiry)
    ensures Inv(Run(w, actions, expiry), added + Added(actions), expiry)
    decreases |actions|
  {
    if actions == [] {
      assert added + Added(actions) == added;
    } else {
      var now := added + (if actions[0].Add? && actions[0].jti != "" then {actions[0].jti} else {});
      RunKeepsInv(Step(w, actions[0], expiry), now, actions[1..], expiry);
      assert now + Added(actions[1..]) == added + Added(actions);
    }
  }

  // An id is blacklisted exactly while it has been added and its token has not expired: no
  // purge, and no unlink of an expired file however late, is ever noticed.
  lemma BlacklistedUntilExpiry(actions: seq<Action>, jti: Jti, expiry: Jti -> int)
    ensures var w := Run(INIT, actions, expiry);
      Blacklisted(w, jti, expiry) <==> jti in Added(actions) && w.clock < expiry(jti)
  {
    RunKeepsInv(INIT, {}, actions, expiry);
    assert {} + Added(actions) == Added(actions);
  }

  lemma {:induction false} RunAppend(w: World, actions: seq<Action>, more: seq<Action>, expiry: Jti -> int)
    ensures Run(w, actions + more, expiry) == Run(Run(w, actions, expiry), more, expiry)
    decreases |actions|
  {
    if actions == [] {
      assert actions + more == more;
    } else {
      assert (actions + more)[1..] == actions[1..] + more;
      RunAppend(Step(w, actions[0], expiry), actions[1..], more, expiry);
    }
  }

  // One file looked at, and unlinked if it has expired.
  lemma VisitRuns(w: World, jti: Jti, expiry: Jti -> int)
    requires jti in w.files && w.doomed == {}
    ensures Run(w, [Visit(jti, w.clock), Unlink(jti)], expiry) ==
      w.(files := if w.clock >= expiry(jti) then w.files - {jti} else w.files)
  {
    var w1 := Step(w, Visit(jti, w.clock), expiry);
    assert Run(w, [Visit(jti, w.clock), Unlink(jti)], expiry) == Run(w1, [Unlink(jti)], expiry)
      == Run(Step(w1, Unlink(jti), expiry), [], expiry);
  }

  // The service keeps the expiry in the file. Each method does what the machine's steps do, `expiry`
  // being what the files say.
  class TokenBlacklistService {
    var files: map<Jti, int>

    constructor ()
      ensures files == map[]
    {
      files := map[];
    }

    ghost predicate Agrees(expiry: Jti -> int)
      reads this
    {
      forall jti :: jti in files ==> files[jti] == expiry(jti)
    }

    function State(now: int): World
      reads this
    {
      World(now, files.Keys, {})
    }

    method Add(jti: Jti, expiresAt: int, ghost expiry: Jti -> int)
      modifies this
      ensures files == if jti == "" then old(files) else old(files)[jti := expiresAt]
      ensures old(Agrees(expiry)) && expiresAt == expiry(jti) ==>
        Agrees(expiry) && forall now :: State(now) == Step(old(State(now)), Action.Add(jti), expiry)
    {
      if jti == "" { return; }
      files := files[jti := expiresAt];
    }

    method IsBlacklisted(jti: Jti, now: int, ghost expiry: Jti -> int) returns (blacklisted: bool)
      modifies this
      ensures blacklisted <==> jti != "" && jti in old(files) && now < old(files)[jti]
      ensures files == if jti != "" && jti in old(files) && !blacklisted then old(files) - {jti} else old(files)
      ensures old(Agrees(expiry)) ==>
        && Agrees(expiry) && (blacklisted <==> Blacklisted(old(State(now)), jti, expiry))
        && State(now) ==
             if jti == "" then old(State(now))
             else Step(Step(old(State(now)), Ask(jti), expiry), Unlink(jti), expiry)
    {
      if jti == "" || jti !in files { return false; }
      if now >= files[jti] {
        files := files - {jti};
        return false;
      }
      return true;
    }

    method PurgeExpired(now: int, ghost expiry: Jti -> int) returns (removed: nat, ghost steps: seq<Action>)
      modifies this
      ensures files == map jti | jti in old(files) && now < old(files)[jti] :: old(files)[jti]
      ensures removed == |old(files)| - |files|
      ensures old(Agrees(expiry)) ==> Agrees(expiry) && State(now) == Run(old(State(now)), steps, expiry)
    {
      removed, steps := 0, [];
      var todo := files.Keys;
      while todo != {}
        invariant todo <= files.Keys <= old(files).Keys
        invariant forall jti :: jti in files ==> files[jti] == old(files)[jti]
        invariant forall jti :: jti in old(files) ==> (jti in files <==> jti in todo || now < old(files)[jti])
        invariant removed + |files| == |old(files)|
        invariant old(Agrees(expiry)) ==> State(now) == Run(old(State(now)), steps, expiry)
        decreases todo
      {
        var jti :| jti in todo;
        VisitRuns(State(now), jti, expiry);
        RunAppend(old(State(now)), steps, [Visit(jti, now), Unlink(jti)], expiry);
        steps := steps + [Visit(jti, now), Unlink(jti)];
        if now >= files[jti] {
          assert files.Keys == (files - {jti}).Keys + {jti};
          assert (files - {jti}).Keys == files.Keys - {jti};
          files := files - {jti};
          removed := removed + 1;
        }
        todo := todo - {jti};
      }
    }
  }
}
