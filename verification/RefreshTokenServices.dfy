// The service as the source writes it: methods over the two directories, run without
// interruption, proved equal to functions on them; and one uninterrupted call of the
// interleaved machine gives the same answer and leaves the same files.
module RefreshTokenServices {
  import opened Common
  import opened RefreshTokens

  datatype Disk = Disk(dir: Dir, consumed: map<Token, ConsumedRecord>)

  datatype ConsumeResult =
    | Ok(token: Token, nonce: Nonce, record: Record)
    | ReusedToken(family: Family)
    | InvalidToken

  // What is left of a directory when a loop has visited some of its files.
  function Kept<K(!new), V>(files: map<K, V>, visited: set<K>, drop: V -> bool): (kept: map<K, V>)
    ensures forall q :: q in kept <==> q in files && !(q in visited && drop(files[q]))
    ensures forall q :: q in kept ==> kept[q] == files[q]
  {
    map q | q in files && !(q in visited && drop(files[q])) :: files[q]
  }

  function Elements<K>(files: seq<K>): set<K> {
    set q | q in files
  }

  // Visiting one more file.
  lemma KeptStep<K(!new), V>(files: map<K, V>, listed: seq<K>, i: nat, drop: V -> bool)
    requires i < |listed|
    ensures var kept, q := Kept(files, Elements(listed[..i]), drop), listed[i];
      Kept(files, Elements(listed[..i + 1]), drop) ==
      if q in files && drop(files[q]) then kept - {q} else kept
  {
    assert listed[..i + 1] == listed[..i] + [listed[i]];
  }

  // Unlinking a file of the directory leaves one file less.
  lemma OneLess<K, V>(files: map<K, V>, q: K)
    requires q in files
    ensures |files - {q}| == |files| - 1
  {
    assert files.Keys == (files - {q}).Keys + {q};
  }

  function OfFamily(family: Family): Record -> bool {
    (r: Record) => r.familyId == family
  }

  function ExpiredAt(now: int): Record -> bool {
    (r: Record) => Expired(r.expiresAt, now)
  }

  function ConsumedExpiredAt(now: int): ConsumedRecord -> bool {
    (r: ConsumedRecord) => Expired(r.record.expiresAt, now)
  }

  // The directory after one call of consumeForRotation, and its answer.
  function ConsumeResultOf(disk: Disk, token: Token, nonce: Nonce, now: int): (ConsumeResult, Dir) {
    if Active(token) in disk.dir then
      var rec := disk.dir[Active(token)];
      if Expired(rec.expiresAt, now) then (InvalidToken, disk.dir - {Active(token), Consuming(token, nonce)})
      else (Ok(token, nonce, rec), Renamed(disk.dir, Active(token), Consuming(token, nonce)))
    else if token in disk.consumed && !Expired(disk.consumed[token].record.expiresAt, now) then
      (ReusedToken(disk.consumed[token].record.familyId), disk.dir)
    else (InvalidToken, disk.dir)
  }

  class RefreshTokenService {
    var dir: Dir
    var consumed: map<Token, ConsumedRecord>

    constructor ()
      ensures dir == map[] && consumed == map[]
    {
      dir, consumed := map[], map[];
    }

    method Create(user: UserId, family: Family, token: Token, now: int)
      modifies this`dir
      ensures dir == old(dir)[Active(token) := NewRecord(user, family, now)]
      ensures dir[Active(token)].userId == user && dir[Active(token)].familyId == family
      ensures dir[Active(token)].createdAt == now
      ensures dir[Active(token)].expiresAt == now + 14 * 24 * 60 * 60 * 1000
    {
      var record := Record(user, family, now, now + REFRESH_TOKEN_EXPIRES_MS);
      dir := dir[Active(token) := record];
    }

    method Revoke(token: Token)
      modifies this`dir
      ensures dir == old(dir) - {Active(token)}
    {
      dir := dir - {Active(token)};
    }

    method FindRecord(token: Token, now: int) returns (found: Option<Record>)
      modifies this`dir
      ensures found.Some? <==> Active(token) in old(dir) && now < old(dir)[Active(token)].expiresAt
      ensures found.Some? ==> found.value == old(dir)[Active(token)] && dir == old(dir)
      ensures found.None? ==> dir == old(dir) - {Active(token)}
    {
      if Active(token) !in dir { return None; }
      var record := dir[Active(token)];
      if now >= record.expiresAt {
        Revoke(token);
        return None;
      }
      return Some(record);
    }

    method ConsumeForRotation(token: Token, nonce: Nonce, now: int) returns (result: ConsumeResult)
      modifies this`dir
      ensures (result, dir) == ConsumeResultOf(Disk(old(dir), consumed), token, nonce, now)
    {
      if Active(token) !in dir {
        if token in consumed && now < consumed[token].record.expiresAt {
          return ReusedToken(consumed[token].record.familyId);
        }
        return InvalidToken;
      }
      dir := Renamed(dir, Active(token), Consuming(token, nonce));
      var record := dir[Consuming(token, nonce)];
      if now >= record.expiresAt {
        dir := dir - {Consuming(token, nonce)};
        assert dir == old(dir) - {Active(token), Consuming(token, nonce)};
        return InvalidToken;
      }
      return Ok(token, nonce, record);
    }

    method CommitConsume(token: Token, nonce: Nonce, record: Record, now: int)
      modifies this
      ensures consumed == old(consumed)[token := ConsumedRecord(record, now)]
      ensures dir == old(dir) - {Consuming(token, nonce)}
    {
      consumed := consumed[token := ConsumedRecord(record, now)];
      dir := dir - {Consuming(token, nonce)};
    }

    method RollbackConsume(token: Token, nonce: Nonce)
      modifies this`dir
      ensures dir == Renamed(old(dir), Consuming(token, nonce), Active(token))
    {
      dir := Renamed(dir, Consuming(token, nonce), Active(token));
    }

    method RevokeFamily(family: Family, files: seq<Path>)
      modifies this`dir
      ensures dir == Kept(old(dir), Elements(files), OfFamily(family))
      ensures forall q :: q in dir <==> q in old(dir) && !(q in files && old(dir)[q].familyId == family)
    {
      var i := 0;
      while i < |files|
        invariant 0 <= i <= |files|
        invariant dir == Kept(old(dir), Elements(files[..i]), OfFamily(family))
      {
        KeptStep(old(dir), files, i, OfFamily(family));
        if files[i] !in dir || dir[files[i]].familyId == family {
          dir := dir - {files[i]};
        }
        i := i + 1;
      }
      assert files[..i] == files;
    }

    // The two loops of purgeExpired; each listing names each file once.
    method PurgeFiles(now: int, files: seq<Path>) returns (removed: nat)
      requires Distinct(files) && Elements(files) == dir.Keys
      modifies this`dir
      ensures dir == Kept(old(dir), old(dir).Keys, ExpiredAt(now))
      ensures forall q :: q in dir <==> q in old(dir) && now < old(dir)[q].expiresAt
      ensures removed == |old(dir)| - |dir|
    {
      removed := 0;
      var i := 0;
      while i < |files|
        invariant 0 <= i <= |files|
        invariant dir == Kept(old(dir), Elements(files[..i]), ExpiredAt(now))
        invariant removed == |old(dir)| - |dir|
      {
        KeptStep(old(dir), files, i, ExpiredAt(now));
        assert files[i] in Elements(files) && files[i] !in files[..i];
        if files[i] !in dir || now >= dir[files[i]].expiresAt {
          OneLess(dir, files[i]);
          dir := dir - {files[i]};
          removed := removed + 1;
        }
        i := i + 1;
      }
      assert files[..i] == files;
    }

    method PurgeConsumed(now: int, files: seq<Token>) returns (removed: nat)
      requires Distinct(files) && Elements(files) == consumed.Keys
      modifies this`consumed
      ensures consumed == Kept(old(consumed), old(consumed).Keys, ConsumedExpiredAt(now))
      ensures forall t :: t in consumed <==> t in old(consumed) && now < old(consumed)[t].record.expiresAt
      ensures removed == |old(consumed)| - |consumed|
    {
      removed := 0;
      var i := 0;
      while i < |files|
        invariant 0 <= i <= |files|
        invariant consumed == Kept(old(consumed), Elements(files[..i]), ConsumedExpiredAt(now))
        invariant removed == |old(consumed)| - |consumed|
      {
        KeptStep(old(consumed), files, i, ConsumedExpiredAt(now));
        assert files[i] in Elements(files) && files[i] !in files[..i];
        if files[i] !in consumed || now >= consumed[files[i]].record.expiresAt {
          OneLess(consumed, files[i]);
          consumed := consumed - {files[i]};
          removed := removed + 1;
        }
        i := i + 1;
      }
      assert files[..i] == files;
    }

    method PurgeExpired(now: int, files: seq<Path>, consumedFiles: seq<Token>) returns (removed: nat)
      requires Distinct(files) && Elements(files) == dir.Keys
      requires Distinct(consumedFiles) && Elements(consumedFiles) == consumed.Keys
      modifies this
      ensures dir == Kept(old(dir), old(dir).Keys, ExpiredAt(now))
      ensures consumed == Kept(old(consumed), old(consumed).Keys, ConsumedExpiredAt(now))
      ensures removed == |old(dir)| - |dir| + |old(consumed)| - |consumed|
    {
      removed := PurgeFiles(now, files);
      var more := PurgeConsumed(now, consumedFiles);
      removed := removed + more;
    }
  }

  class AuthService {
    const tokens: RefreshTokenService

    constructor (tokens: RefreshTokenService)
      ensures this.tokens == tokens
    {
      this.tokens := tokens;
    }

    // `script` says which operations fail.
    method Refresh(token: Token, nonce: Nonce, now: int, script: Script) returns (outcome: Outcome)
      modifies tokens
      ensures (outcome, Disk(tokens.dir, tokens.consumed)) ==
        RefreshAlone(Disk(old(tokens.dir), old(tokens.consumed)), token, nonce, now, script)
      ensures Active(token) in old(tokens.dir) && now < old(tokens.dir)[Active(token)].expiresAt
              && script.signs && script.creates && script.commits && script.next != token ==>
        var was, next := old(tokens.dir)[Active(token)], Active(script.next);
        && outcome == Refreshed(script.next) && Active(token) !in tokens.dir && token in tokens.consumed
        && tokens.consumed[token] == ConsumedRecord(was, now)
        && next in tokens.dir && tokens.dir[next].userId == was.userId && tokens.dir[next].familyId == was.familyId
        && tokens.dir[next].createdAt == now && tokens.dir[next].expiresAt == now + 14 * 24 * 60 * 60 * 1000
      ensures Active(token) in old(tokens.dir) && now < old(tokens.dir)[Active(token)].expiresAt
              && !(script.signs && script.creates) ==>
        outcome == Failed && Active(token) in tokens.dir && tokens.dir[Active(token)] == old(tokens.dir)[Active(token)]
    {
      var result := tokens.ConsumeForRotation(token, nonce, now);
      match result
      case ReusedToken(family) =>
        tokens.RevokeFamily(family, script.files);
        return Reused;
      case InvalidToken => return Invalid;
      case Ok(_, _, record) =>
        if script.signs && script.creates {
          tokens.Create(record.userId, record.familyId, script.next, now);
          if script.commits {
            tokens.CommitConsume(token, nonce, record, now);
            return Refreshed(script.next);
          }
        }
        tokens.RollbackConsume(token, nonce);
        return Failed;
    }
  }

  // Which of a call's failing operations succeed, the token it draws and the listing it reads.
  datatype Script = Script(signs: bool, creates: bool, commits: bool, next: Token, files: seq<Path>)

  // The part of refresh that follows a successful consumption.
  function IssueAlone(disk: Disk, token: Token, nonce: Nonce, rec: Record, now: int, s: Script): (Outcome, Disk) {
    var lock := Consuming(token, nonce);
    if !s.signs || !s.creates then (Failed, Disk(Renamed(disk.dir, lock, Active(token)), disk.consumed))
    else
      var written := disk.dir[Active(s.next) := NewRecord(rec.userId, rec.familyId, now)];
      if s.commits
      then (Refreshed(s.next), Disk(written - {lock}, disk.consumed[token := ConsumedRecord(rec, now)]))
      else (Failed, Disk(Renamed(written, lock, Active(token)), disk.consumed))
  }

  // The files and the answer of one refresh that nothing interrupts.
  function RefreshAlone(disk: Disk, token: Token, nonce: Nonce, now: int, s: Script): (Outcome, Disk) {
    var (result, dir) := ConsumeResultOf(disk, token, nonce, now);
    match result
    case InvalidToken => (Invalid, Disk(dir, disk.consumed))
    case ReusedToken(f) => (Reused, Disk(Kept(dir, Elements(s.files), OfFamily(f)), disk.consumed))
    case Ok(_, _, rec) => IssueAlone(Disk(dir, disk.consumed), token, nonce, rec, now, s)
  }

  function Oks(c: Call, s: Script): bool {
    match c
    case Sign(_, _, _) => s.signs
    case Create(_, _, _, _, _) => s.creates
    case Commit(_, _, _, _) => s.commits
    case _ => true
  }

  function SoloStep(w: World, p: Pid, s: Script): World {
    if p in w.calls then Step(w, Go(p, Oks(w.calls[p], s), s.next, s.files)) else w
  }

  // k steps of call p with nothing in between.
  function Solo(w: World, p: Pid, s: Script, k: nat): World
    decreases k
  {
    if k == 0 then w else Solo(SoloStep(w, p, s), p, s, k - 1)
  }

  predicate Ended(w: World, p: Pid, outcome: Outcome, disk: Disk) {
    p in w.calls && w.calls[p] == Done(outcome) && w.dir == disk.dir && w.consumed == disk.consumed
  }

  // Call p, run alone from w, ends with the given answer and files.
  ghost predicate Ends(w: World, p: Pid, s: Script, outcome: Outcome, disk: Disk) {
    exists k: nat :: Ended(Solo(w, p, s, k), p, outcome, disk)
  }

  lemma EndsBack(w: World, p: Pid, s: Script, outcome: Outcome, disk: Disk)
    requires Ends(SoloStep(w, p, s), p, s, outcome, disk)
    ensures Ends(w, p, s, outcome, disk)
  {
    var k: nat :| Ended(Solo(SoloStep(w, p, s), p, s, k), p, outcome, disk);
    assert Solo(w, p, s, k + 1) == Solo(SoloStep(w, p, s), p, s, k);
  }

  lemma EndsHere(w: World, p: Pid, s: Script, outcome: Outcome)
    requires p in w.calls && w.calls[p] == Done(outcome)
    ensures Ends(w, p, s, outcome, Disk(w.dir, w.consumed))
  {
    assert Solo(w, p, s, 0) == w;
  }

  lemma RevokeOne(w: World, p: Pid, s: Script, f: Family, rest: seq<Path>)
    requires p in w.calls && w.calls[p] == ReadFamily(f, rest) && rest != []
    ensures var w2 := SoloStep(SoloStep(w, p, s), p, s);
      && p in w2.calls && w2.calls[p] == ReadFamily(f, rest[1..]) && w2.consumed == w.consumed
      && w2.dir == if rest[0] in w.dir && w.dir[rest[0]].familyId != f then w.dir else w.dir - {rest[0]}
  {
  }

  lemma KeptRest(dir: Dir, rest: seq<Path>, f: Family, dir': Dir)
    requires rest != []
    requires dir' == if rest[0] in dir && dir[rest[0]].familyId != f then dir else dir - {rest[0]}
    ensures Kept(dir, Elements(rest), OfFamily(f)) == Kept(dir', Elements(rest[1..]), OfFamily(f))
  {
    assert forall q :: q in rest <==> q == rest[0] || q in rest[1..];
  }

  lemma RevokeEnds(w: World, p: Pid, s: Script, f: Family, disk: Disk)
    requires p in w.calls && w.calls[p] == ReadFamily(f, [])
    requires disk == Disk(Kept(w.dir, {}, OfFamily(f)), w.consumed)
    ensures Ends(SoloStep(SoloStep(w, p, s), p, s), p, s, Reused, disk)
  {
    assert disk.dir == w.dir;
    EndsHere(SoloStep(SoloStep(w, p, s), p, s), p, s, Reused);
  }

  lemma {:induction false} SoloRevoke(w: World, p: Pid, s: Script, f: Family, rest: seq<Path>, disk: Disk)
    requires p in w.calls && w.calls[p] == ReadFamily(f, rest)
    requires disk == Disk(Kept(w.dir, Elements(rest), OfFamily(f)), w.consumed)
    ensures Ends(w, p, s, Reused, disk)
    decreases |rest|
  {
    var w1 := SoloStep(w, p, s);
    var w2 := SoloStep(w1, p, s);
    if rest == [] {
      RevokeEnds(w, p, s, f, disk);
    } else {
      RevokeOne(w, p, s, f, rest);
      KeptRest(w.dir, rest, f, w2.dir);
      SoloRevoke(w2, p, s, f, rest[1..], disk);
    }
    EndsBack(w1, p, s, Reused, disk);
    EndsBack(w, p, s, Reused, disk);
  }

  lemma SoloIssue(w: World, p: Pid, s: Script, token: Token, nonce: Nonce, rec: Record, written: Dir)
    requires p in w.calls && w.calls[p] == Sign(token, nonce, rec) && s.next !in w.issued
    requires written == w.dir[Active(s.next) := NewRecord(rec.userId, rec.familyId, w.clock)]
    ensures s.signs && s.creates ==>
      var w' := SoloStep(SoloStep(w, p, s), p, s);
      && p in w'.calls && w'.calls[p] == Commit(token, nonce, rec, s.next)
      && w'.dir == written && w'.consumed == w.consumed && w'.clock == w.clock
    ensures !s.signs || !s.creates ==>
      Ends(w, p, s, Failed, Disk(Renamed(w.dir, Consuming(token, nonce), Active(token)), w.consumed))
  {
    var w1 := SoloStep(w, p, s);
    var w2 := SoloStep(w1, p, s);
    if !s.signs {
      EndsHere(w2, p, s, Failed);
      EndsBack(w1, p, s, Failed, Disk(w2.dir, w2.consumed));
      EndsBack(w, p, s, Failed, Disk(w2.dir, w2.consumed));
    } else if !s.creates {
      SoloRollback(w2, p, s, token, nonce, false);
      var disk := Disk(Renamed(w.dir, Consuming(token, nonce), Active(token)), w.consumed);
      EndsBack(w1, p, s, Failed, disk);
      EndsBack(w, p, s, Failed, disk);
    }
  }

  lemma SoloRollback(w: World, p: Pid, s: Script, token: Token, nonce: Nonce, issued: bool)
    requires p in w.calls && w.calls[p] == Rollback(token, nonce, issued)
    ensures Ends(w, p, s, Failed, Disk(Renamed(w.dir, Consuming(token, nonce), Active(token)), w.consumed))
  {
    var w1 := SoloStep(w, p, s);
    EndsHere(w1, p, s, Failed);
    EndsBack(w, p, s, Failed, Disk(w1.dir, w1.consumed));
  }

  lemma SoloCommit(w: World, p: Pid, s: Script, token: Token, nonce: Nonce, rec: Record)
    requires p in w.calls && w.calls[p] == Commit(token, nonce, rec, s.next)
    ensures s.commits ==>
      Ends(w, p, s, Refreshed(s.next),
           Disk(w.dir - {Consuming(token, nonce)}, w.consumed[token := ConsumedRecord(rec, w.clock)]))
    ensures !s.commits ==>
      Ends(w, p, s, Failed, Disk(Renamed(w.dir, Consuming(token, nonce), Active(token)), w.consumed))
  {
    var w1 := SoloStep(w, p, s);
    if s.commits {
      var w2 := SoloStep(w1, p, s);
      EndsHere(w2, p, s, Refreshed(s.next));
      EndsBack(w1, p, s, Refreshed(s.next), Disk(w2.dir, w2.consumed));
      EndsBack(w, p, s, Refreshed(s.next), Disk(w2.dir, w2.consumed));
    } else {
      SoloRollback(w1, p, s, token, nonce, true);
      EndsBack(w, p, s, Failed, Disk(Renamed(w.dir, Consuming(token, nonce), Active(token)), w.consumed));
    }
  }

  lemma SoloSign(w: World, p: Pid, s: Script, token: Token, nonce: Nonce, rec: Record, outcome: Outcome, disk: Disk)
    requires p in w.calls && w.calls[p] == Sign(token, nonce, rec) && s.next !in w.issued
    requires (outcome, disk) == IssueAlone(Disk(w.dir, w.consumed), token, nonce, rec, w.clock, s)
    ensures Ends(w, p, s, outcome, disk)
  {
    var written := w.dir[Active(s.next) := NewRecord(rec.userId, rec.familyId, w.clock)];
    SoloIssue(w, p, s, token, nonce, rec, written);
    if s.signs && s.creates {
      var w1 := SoloStep(w, p, s);
      SoloCommit(SoloStep(w1, p, s), p, s, token, nonce, rec);
      EndsBack(w1, p, s, outcome, disk);
      EndsBack(w, p, s, outcome, disk);
    }
  }

  // The moved-aside file is read back and is either expired or leads to signing.
  lemma SoloLock(w: World, p: Pid, s: Script, token: Token, nonce: Nonce, rec: Record)
    requires p in w.calls && w.calls[p] == ReadLock(token, nonce)
    requires Consuming(token, nonce) in w.dir && w.dir[Consuming(token, nonce)] == rec
    ensures !Expired(rec.expiresAt, w.clock) ==>
      var w' := SoloStep(SoloStep(w, p, s), p, s);
      && p in w'.calls && w'.calls[p] == Sign(token, nonce, rec)
      && w'.dir == w.dir && w'.consumed == w.consumed && w'.issued == w.issued && w'.clock == w.clock
    ensures Expired(rec.expiresAt, w.clock) ==>
      Ends(SoloStep(SoloStep(w, p, s), p, s), p, s, Invalid, Disk(w.dir - {Consuming(token, nonce)}, w.consumed))
  {
    if Expired(rec.expiresAt, w.clock) {
      var w2 := SoloStep(SoloStep(w, p, s), p, s);
      var w3 := SoloStep(w2, p, s);
      EndsHere(w3, p, s, Invalid);
      EndsBack(w2, p, s, Invalid, Disk(w3.dir, w3.consumed));
    }
  }

  // The consumed record leads to revoking its family, or to 'invalid'.
  lemma SoloMissed(w: World, p: Pid, s: Script, token: Token, outcome: Outcome, disk: Disk)
    requires p in w.calls && w.calls[p] == ReadConsumed(token) && Active(token) !in w.dir
    requires (outcome, disk) == RefreshAlone(Disk(w.dir, w.consumed), token, 0, w.clock, s)
    ensures Ends(w, p, s, outcome, disk)
  {
    var w1 := SoloStep(w, p, s);
    var w2 := SoloStep(w1, p, s);
    var w3 := SoloStep(w2, p, s);
    if token in w.consumed && !Expired(w.consumed[token].record.expiresAt, w.clock) {
      SoloRevoke(w3, p, s, w.consumed[token].record.familyId, s.files, disk);
    } else {
      EndsHere(w3, p, s, Invalid);
    }
    EndsBack(w2, p, s, outcome, disk);
    EndsBack(w1, p, s, outcome, disk);
    EndsBack(w, p, s, outcome, disk);
  }

  // The active file has just been moved aside.
  lemma SoloTaken(w: World, p: Pid, s: Script, token: Token, nonce: Nonce, rec: Record, outcome: Outcome, disk: Disk)
    requires p in w.calls && w.calls[p] == ReadLock(token, nonce) && s.next !in w.issued
    requires Consuming(token, nonce) in w.dir && w.dir[Consuming(token, nonce)] == rec
    requires (outcome, disk) ==
      if Expired(rec.expiresAt, w.clock) then (Invalid, Disk(w.dir - {Consuming(token, nonce)}, w.consumed))
      else IssueAlone(Disk(w.dir, w.consumed), token, nonce, rec, w.clock, s)
    ensures Ends(w, p, s, outcome, disk)
  {
    var w1 := SoloStep(w, p, s);
    SoloLock(w, p, s, token, nonce, rec);
    if !Expired(rec.expiresAt, w.clock) { SoloSign(SoloStep(w1, p, s), p, s, token, nonce, rec, outcome, disk); }
    EndsBack(w1, p, s, outcome, disk);
    EndsBack(w, p, s, outcome, disk);
  }

  lemma SoloConsume(w: World, p: Pid, s: Script, token: Token, nonce: Nonce)
    requires p in w.calls && w.calls[p] == Consume(token, nonce)
    ensures var w1 := SoloStep(w, p, s);
      && p in w1.calls && w1.consumed == w.consumed && w1.issued == w.issued && w1.clock == w.clock
      && w1.calls[p] == (if Active(token) in w.dir then ReadLock(token, nonce) else ReadConsumed(token))
      && w1.dir == Renamed(w.dir, Active(token), Consuming(token, nonce))
  {
  }

  // One uninterrupted call of the machine is the method Refresh.
  lemma SoloRefreshIsRefresh(w: World, p: Pid, token: Token, nonce: Nonce, s: Script, outcome: Outcome, disk: Disk)
    requires p in w.calls && w.calls[p] == Consume(token, nonce) && s.next !in w.issued
    requires (outcome, disk) == RefreshAlone(Disk(w.dir, w.consumed), token, nonce, w.clock, s)
    ensures Ends(w, p, s, outcome, disk)
  {
    var w1 := SoloStep(w, p, s);
    SoloConsume(w, p, s, token, nonce);
    if Active(token) in w.dir {
      assert w.dir - {Active(token), Consuming(token, nonce)} == w1.dir - {Consuming(token, nonce)};
      SoloTaken(w1, p, s, token, nonce, w.dir[Active(token)], outcome, disk);
    } else {
      SoloMissed(w1, p, s, token, outcome, disk);
    }
    EndsBack(w, p, s, outcome, disk);
  }
}
