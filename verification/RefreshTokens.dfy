// The refresh-token files and the protocol steps that read and write them.
//
// The token directory is a map from file names to records. Every file operation is one
// atomic step, and any number of calls interleave their steps. SHA-256 is taken to be
// injective, so a token stands for its own file name; tokens, nonces and families that the
// service draws at random are supplied by the action and must be unused.
module RefreshTokens {
  import opened Common

  type Token = nat
  type Nonce = nat
  type Family = nat
  type UserId = nat
  type Pid = nat

  const REFRESH_TOKEN_EXPIRES_MS: int := 14 * 24 * 60 * 60 * 1000

  datatype Record = Record(userId: UserId, familyId: Family, createdAt: int, expiresAt: int)

  datatype ConsumedRecord = ConsumedRecord(record: Record, consumedAt: int)

  // <hash>.json and <hash>.consuming.<nonce>.json under refresh-tokens/.
  datatype Path = Active(token: Token) | Consuming(token: Token, nonce: Nonce)

  type Dir = map<Path, Record>

  function NewRecord(user: UserId, family: Family, now: int): Record {
    Record(user, family, now, now + REFRESH_TOKEN_EXPIRES_MS)
  }

  // fs.rename: replaces the target; a missing source changes nothing (ENOENT).
  function Renamed(dir: Dir, src: Path, dst: Path): Dir {
    if src in dir then (dir - {src})[dst := dir[src]] else dir
  }

  datatype Outcome =
    | Refreshed(next: Token)
    | Reused
    | Invalid
    | Failed
    | Found(record: Option<Record>)
    | LoggedIn(next: Token)
    | LoggedOut

  // Where one call stands: each constructor names the file operation it performs next.
  datatype Call =
    // consumeForRotation
    | Consume(token: Token, nonce: Nonce)
    | ReadLock(token: Token, nonce: Nonce)
    | CheckLock(token: Token, nonce: Nonce, read: Option<Record>)
    | DropLock(token: Token, nonce: Nonce)
    | ReadConsumed(token: Token)
    | CheckConsumed(token: Token, seen: Option<ConsumedRecord>)
    // the rest of refresh: issue the pair, then commit or roll back
    | Sign(token: Token, nonce: Nonce, record: Record)
    | Create(token: Token, nonce: Nonce, record: Record, next: Token, nextRecord: Record)
    | Commit(token: Token, nonce: Nonce, record: Record, next: Token)
    | DropConsumed(token: Token, nonce: Nonce, next: Token)
    | Rollback(token: Token, nonce: Nonce, issued: bool)
    // revokeFamily
    | ListFamily(family: Family)
    | ReadFamily(family: Family, files: seq<Path>)
    | DropFamily(family: Family, files: seq<Path>, drop: bool)
    // login, find, logout
    | LoginCreate(next: Token, nextRecord: Record)
    | Find(token: Token)
    | CheckFind(token: Token, read: Option<Record>)
    | DropFind(token: Token)
    | Logout(token: Token)
    | Reply(outcome: Outcome)
    | Done(outcome: Outcome)

  // purgeExpired: `now` is sampled once, before the first listing.
  datatype Purge =
    | BeginSweep(now: int)
    | SweepFiles(now: int, files: set<Path>)
    | DropFile(now: int, files: set<Path>, path: Path)
    | SweepConsumed(now: int, listed: set<Token>)
    | DropConsumedFile(now: int, listed: set<Token>, token: Token)

  // One operation on the two directories.
  datatype FileOp =
    | NoOp
    | Move(src: Path, dst: Path)
    | Write(path: Path, record: Record)
    | Unlink(path: Path)
    | WriteConsumed(token: Token, consumed: ConsumedRecord)
    | UnlinkConsumed(token: Token)

  function InDir(dir: Dir, op: FileOp): Dir {
    match op
    case Move(src, dst) => Renamed(dir, src, dst)
    case Write(path, record) => dir[path := record]
    case Unlink(path) => dir - {path}
    case _ => dir
  }

  function InConsumed(consumed: map<Token, ConsumedRecord>, op: FileOp): map<Token, ConsumedRecord> {
    match op
    case WriteConsumed(t, record) => consumed[t := record]
    case UnlinkConsumed(t) => consumed - {t}
    case _ => consumed
  }

  // `issued` and `commits` are history: every record a call has prepared, and the tokens
  // whose consumed record was written, in order.
  datatype World = World(
    clock: int,
    dir: Dir,
    consumed: map<Token, ConsumedRecord>,
    calls: map<Pid, Call>,
    purges: map<Pid, Purge>,
    issued: map<Token, Record>,
    commits: seq<Token>)

  const INIT: World := World(0, map[], map[], map[], map[], map[], [])

  predicate Expired(expiresAt: int, now: int) {
    now >= expiresAt
  }

  // Where a call stands after its next operation, and that operation.
  datatype Next = Next(call: Call, op: FileOp)

  // consumeForRotation: move the active file aside, then read what was moved.
  function ConsumeNext(w: World, c: Call, ok: bool): Next {
    match c
    case Consume(t, n) =>
      if !ok then Next(Reply(Failed), NoOp)
      else if Active(t) in w.dir then Next(ReadLock(t, n), Move(Active(t), Consuming(t, n)))
      else Next(ReadConsumed(t), NoOp)
    case ReadLock(t, n) => Next(CheckLock(t, n, Lookup(w.dir, Consuming(t, n))), NoOp)
    case CheckLock(t, n, read) =>
      if read.None? || Expired(read.value.expiresAt, w.clock) then Next(DropLock(t, n), NoOp)
      else Next(Sign(t, n, read.value), NoOp)
    case DropLock(t, n) => Next(Done(Invalid), Unlink(Consuming(t, n)))
    case ReadConsumed(t) => Next(CheckConsumed(t, Lookup(w.consumed, t)), NoOp)
    case CheckConsumed(t, seen) =>
      if seen.Some? && !Expired(seen.value.record.expiresAt, w.clock)
      then Next(ListFamily(seen.value.record.familyId), NoOp)
      else Next(Reply(Invalid), NoOp)
    case _ => Next(c, NoOp)
  }

  // Issuing the pair, then commitConsume or rollbackConsume; and the same write at login.
  function IssueNext(w: World, c: Call, ok: bool, next: Token): Next {
    match c
    case Sign(t, n, rec) =>
      if !ok then Next(Rollback(t, n, false), NoOp)
      else if next in w.issued then Next(c, NoOp)
      else Next(Create(t, n, rec, next, NewRecord(rec.userId, rec.familyId, w.clock)), NoOp)
    case Create(t, n, rec, nx, nextRecord) =>
      if !ok then Next(Rollback(t, n, false), NoOp)
      else Next(Commit(t, n, rec, nx), Write(Active(nx), nextRecord))
    case Commit(t, n, rec, nx) =>
      if !ok then Next(Rollback(t, n, true), NoOp)
      else Next(DropConsumed(t, n, nx), WriteConsumed(t, ConsumedRecord(rec, w.clock)))
    case DropConsumed(t, n, nx) => Next(Done(Refreshed(nx)), Unlink(Consuming(t, n)))
    case Rollback(t, n, _) => Next(Done(Failed), Move(Consuming(t, n), Active(t)))
    case LoginCreate(nx, nextRecord) =>
      if !ok then Next(Reply(Failed), NoOp)
      else Next(Reply(LoggedIn(nx)), Write(Active(nx), nextRecord))
    case _ => Next(c, NoOp)
  }

  // revokeFamily's loop over one listing of the directory: each file is read, then unlinked
  // when it could not be read or belongs to the family. Then find, logout and answering.
  function AnswerNext(w: World, c: Call, ok: bool, files: seq<Path>): Next {
    match c
    case ListFamily(f) => Next(if ok then ReadFamily(f, files) else Reply(Failed), NoOp)
    case ReadFamily(f, rest) =>
      if rest == [] then Next(Reply(Reused), NoOp)
      else Next(DropFamily(f, rest, rest[0] !in w.dir || w.dir[rest[0]].familyId == f), NoOp)
    case DropFamily(f, rest, drop) =>
      if rest == [] then Next(Reply(Reused), NoOp)
      else Next(ReadFamily(f, rest[1..]), if drop then Unlink(rest[0]) else NoOp)
    case Find(t) => Next(CheckFind(t, Lookup(w.dir, Active(t))), NoOp)
    case CheckFind(t, read) =>
      if read.Some? && Expired(read.value.expiresAt, w.clock) then Next(DropFind(t), NoOp)
      else Next(Reply(Found(read)), NoOp)
    case DropFind(t) => Next(Done(Found(None)), Unlink(Active(t)))
    case Logout(t) => Next(Reply(LoggedOut), Unlink(Active(t)))
    case Reply(o) => Next(Done(o), NoOp)
    case _ => Next(c, NoOp)
  }

  predicate Consumes(c: Call) {
    c.Consume? || c.ReadLock? || c.CheckLock? || c.DropLock? || c.ReadConsumed? || c.CheckConsumed?
  }

  predicate Issues(c: Call) {
    c.Sign? || c.Create? || c.Commit? || c.DropConsumed? || c.Rollback? || c.LoginCreate?
  }

  // `ok` is whether the operation succeeds, `next` the random token drawn by create, `files`
  // what readdir answers.
  function CallNext(w: World, c: Call, ok: bool, next: Token, files: seq<Path>): Next {
    if Consumes(c) then ConsumeNext(w, c, ok)
    else if Issues(c) then IssueNext(w, c, ok, next)
    else AnswerNext(w, c, ok, files)
  }

  // The history of records grows when a call prepares a new one.
  function Prepared(issued: map<Token, Record>, c: Call): map<Token, Record> {
    if (c.Create? || c.LoginCreate?) && c.next !in issued then issued[c.next := c.nextRecord] else issued
  }

  function Apply(w: World, p: Pid, n: Next): World {
    World(w.clock, InDir(w.dir, n.op), InConsumed(w.consumed, n.op), w.calls[p := n.call], w.purges,
      Prepared(w.issued, n.call), if n.op.WriteConsumed? then w.commits + [n.op.token] else w.commits)
  }

  // What purgeExpired decides on reading one file: an unreadable (here: absent) file and an
  // expired one are both unlinked.
  predicate PurgeDrops(dir: Dir, path: Path, now: int) {
    path !in dir || Expired(dir[path].expiresAt, now)
  }

  predicate PurgeDropsConsumed(consumed: map<Token, ConsumedRecord>, t: Token, now: int) {
    t !in consumed || Expired(consumed[t].record.expiresAt, now)
  }

  datatype Request =
    | Refresh(token: Token, nonce: Nonce)
    | Login(user: UserId, family: Family, next: Token)
    | FindToken(token: Token)
    | LogoutToken(token: Token)

  // A listing names some of the files there are. An atomic visit reads a file and unlinks it in
  // one step; otherwise FinishDrop unlinks it.
  datatype Visit =
    | ListFiles(files: set<Path>)
    | VisitFile(path: Path, atomic: bool)
    | ListConsumed
    | VisitConsumed(token: Token, atomic: bool)
    | FinishDrop

  datatype Action =
    | Tick(ms: nat)
    | Crash
    | Start(p: Pid, request: Request)
    | Go(p: Pid, ok: bool, next: Token, files: seq<Path>)
    | StartPurge(q: Pid)
    | Sweep(q: Pid, visit: Visit)

  datatype PurgeNext = PurgeNext(purge: Purge, op: FileOp)

  // One step of a purge under way.
  function PurgeStep(w: World, s: Purge, v: Visit): PurgeNext {
    match (v, s)
    case (ListFiles(files), BeginSweep(now)) => PurgeNext(SweepFiles(now, files * w.dir.Keys), NoOp)
    case (VisitFile(path, atomic), SweepFiles(now, files)) =>
      if path !in files || !PurgeDrops(w.dir, path, now) then PurgeNext(s, NoOp)
      else if atomic then PurgeNext(s, Unlink(path))
      else PurgeNext(DropFile(now, files, path), NoOp)
    case (FinishDrop, DropFile(now, files, path)) => PurgeNext(SweepFiles(now, files), Unlink(path))
    case (ListConsumed, SweepFiles(now, _)) => PurgeNext(SweepConsumed(now, w.consumed.Keys), NoOp)
    case (VisitConsumed(t, atomic), SweepConsumed(now, listed)) =>
      if t !in listed || !PurgeDropsConsumed(w.consumed, t, now) then PurgeNext(s, NoOp)
      else if atomic then PurgeNext(s, UnlinkConsumed(t))
      else PurgeNext(DropConsumedFile(now, listed, t), NoOp)
    case (FinishDrop, DropConsumedFile(now, listed, t)) =>
      PurgeNext(SweepConsumed(now, listed), UnlinkConsumed(t))
    case _ => PurgeNext(s, NoOp)
  }

  function ApplyPurge(w: World, q: Pid, n: PurgeNext): World {
    w.(dir := InDir(w.dir, n.op), consumed := InConsumed(w.consumed, n.op), purges := w.purges[q := n.purge])
  }

  predicate UnusedFamily(issued: map<Token, Record>, f: Family) {
    forall t :: t in issued ==> issued[t].familyId != f
  }

  // Where a call stands first. A login draws a token and a family nobody has.
  function Started(w: World, r: Request): Option<Call> {
    match r
    case Refresh(t, n) => Some(Consume(t, n))
    case Login(user, f, next) =>
      if next in w.issued || !UnusedFamily(w.issued, f) then None
      else Some(LoginCreate(next, NewRecord(user, f, w.clock)))
    case FindToken(t) => Some(Find(t))
    case LogoutToken(t) => Some(Logout(t))
  }

  // A disabled action changes nothing.
  function Step(w: World, a: Action): World {
    match a
    case Tick(ms) => w.(clock := w.clock + ms)
    case Crash => w.(calls := map[], purges := map[])
    case Start(p, r) =>
      var first := Started(w, r);
      if p in w.calls || first.None? then w else Apply(w, p, Next(first.value, NoOp))
    case Go(p, ok, next, files) =>
      if p in w.calls then Apply(w, p, CallNext(w, w.calls[p], ok, next, files)) else w
    case StartPurge(q) =>
      if q in w.purges then w else ApplyPurge(w, q, PurgeNext(BeginSweep(w.clock), NoOp))
    case Sweep(q, v) =>
      if q in w.purges then ApplyPurge(w, q, PurgeStep(w, w.purges[q], v)) else w
  }

  function Run(w: World, actions: seq<Action>): World
    decreases |actions|
  {
    if actions == [] then w else Run(Step(w, actions[0]), actions[1..])
  }
}
