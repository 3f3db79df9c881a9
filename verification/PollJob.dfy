// The polling of a CMS task until it has an outcome or its deadline has passed.
//
// The clock and CMS are parameters: `answer(i)` is what the i-th gettaskstatus answers, and
// `delay(i)` is how long that poll takes beyond the sleep before it.
module PollJob {
  import opened Common

  const FIRST_INTERVAL_MS: nat := 500
  const INTERVAL_MS: nat := 3000

  // A missing or falsy uuid is "". An answer may be a dropped call: the exception propagates.
  datatype Response = Response(uuid: string, running: bool, invalidToken: bool)

  datatype Answer = Got(response: Response) | Threw

  datatype Outcome = Finished(response: Response) | TimedOut | CallFailed

  predicate Unfinished(r: Response) {
    r.running || r.invalidToken
  }

  // The last uuid that was not falsy, among the initial response and the first n answers.
  function LatestUuid(initial: Response, answer: nat -> Answer, n: nat): string {
    if n == 0 then initial.uuid
    else
      var a := answer(n - 1);
      if a.Got? && a.response.uuid != "" then a.response.uuid else LatestUuid(initial, answer, n - 1)
  }

  // The first one.
  function FirstUuid(initial: Response, answer: nat -> Answer, n: nat): string {
    if n == 0 then initial.uuid
    else
      var first := FirstUuid(initial, answer, n - 1);
      if first == "" && answer(n - 1).Got? then answer(n - 1).response.uuid else first
  }

  function LastResponse(initial: Response, answer: nat -> Answer, n: nat): Response {
    if n > 0 && answer(n - 1).Got? then answer(n - 1).response else initial
  }

  // Polls that fit in before a deadline of `timeoutMs`.
  function MaxPolls(timeoutMs: int): nat {
    if timeoutMs < 0 then 0
    else if timeoutMs < FIRST_INTERVAL_MS then 1
    else (timeoutMs - FIRST_INTERVAL_MS) / INTERVAL_MS + 2
  }

  // The time spent after n polls: half a second before the first, three seconds before each other,
  // and what each poll takes.
  function Elapsed(delay: nat -> nat, n: nat): nat {
    if n == 0 then 0 else Elapsed(delay, n - 1) + (if n == 1 then 500 else 3000) + delay(n - 1)
  }

  // The time at least spent after n polls.
  function Spent(n: nat): nat {
    if n == 0 then 0 else FIRST_INTERVAL_MS + INTERVAL_MS * (n - 1)
  }

  lemma {:induction false} SpentAtLeast(delay: nat -> nat, n: nat)
    ensures Spent(n) <= Elapsed(delay, n)
  {
    if n > 0 { SpentAtLeast(delay, n - 1); }
  }

  lemma PollsFit(delay: nat -> nat, n: nat, timeoutMs: int)
    requires Elapsed(delay, n) <= timeoutMs
    ensures n + 1 <= MaxPolls(timeoutMs)
  {
    SpentAtLeast(delay, n);
  }

  // After n polls there is still something to wait for, and time to.
  predicate Due(initial: Response, timeoutMs: int, answer: nat -> Answer, delay: nat -> nat, n: nat) {
    Unfinished(LastResponse(initial, answer, n)) && Elapsed(delay, n) <= timeoutMs
  }

  // What onUuid was told by then: the first uuid, once.
  function Told(initial: Response, answer: nat -> Answer, listens: bool, n: nat): seq<string> {
    var first := FirstUuid(initial, answer, n);
    if listens && first != "" then [first] else []
  }

  // Each poll was due, and asked for the latest uuid.
  ghost predicate Asked(
    initial: Response, timeoutMs: int, answer: nat -> Answer, delay: nat -> nat, asked: seq<string>)
  {
    forall i :: 0 <= i < |asked| ==>
      asked[i] == LatestUuid(initial, answer, i) && Due(initial, timeoutMs, answer, delay, i)
  }

  // The uuid to ask for after n polls, and what onUuid was told.
  ghost predicate Tracks(
    initial: Response, answer: nat -> Answer, listens: bool, n: nat, currentUuid: string, reported: seq<string>)
  {
    && currentUuid == LatestUuid(initial, answer, n)
    && (currentUuid == "" <==> FirstUuid(initial, answer, n) == "")
    && reported == Told(initial, answer, listens, n)
  }

  lemma TracksNext(
    initial: Response, answer: nat -> Answer, listens: bool, n: nat, currentUuid: string, reported: seq<string>)
    requires Tracks(initial, answer, listens, n, currentUuid, reported) && answer(n).Got?
    ensures var uuid := if answer(n).response.uuid != "" then answer(n).response.uuid else currentUuid;
      var told := if reported == [] && uuid != "" && listens then [uuid] else reported;
      Tracks(initial, answer, listens, n + 1, uuid, told)
  {
  }

  lemma AsksNext(
    initial: Response, timeoutMs: int, answer: nat -> Answer, delay: nat -> nat, asked: seq<string>, uuid: string,
    now: int)
    requires Asked(initial, timeoutMs, answer, delay, asked) && uuid == LatestUuid(initial, answer, |asked|)
    requires now == Elapsed(delay, |asked|) <= timeoutMs && Unfinished(LastResponse(initial, answer, |asked|))
    ensures Asked(initial, timeoutMs, answer, delay, asked + [uuid]) && |asked + [uuid]| <= MaxPolls(timeoutMs)
    ensures Elapsed(delay, |asked| + 1) ==
      now + (if |asked| == 0 then FIRST_INTERVAL_MS else INTERVAL_MS) + delay(|asked|)
  {
    PollsFit(delay, |asked|, timeoutMs);
  }

  // `asked` are the uuids polled for, `reported` the uuids handed to onUuid.
  method PollCmsAsyncJob(initial: Response, timeoutMs: int, listens: bool, answer: nat -> Answer, delay: nat -> nat)
    returns (outcome: Outcome, asked: seq<string>, reported: seq<string>)
    ensures |asked| <= MaxPolls(timeoutMs) && Asked(initial, timeoutMs, answer, delay, asked)
    ensures reported ==
      Told(initial, answer, listens, if outcome.CallFailed? && asked != [] then |asked| - 1 else |asked|)
    ensures outcome.Finished? ==>
      !Unfinished(outcome.response) && outcome.response == LastResponse(initial, answer, |asked|)
    ensures outcome.TimedOut? ==>
      Unfinished(LastResponse(initial, answer, |asked|)) && Elapsed(delay, |asked|) > timeoutMs
    ensures outcome.CallFailed? <==> asked != [] && answer(|asked| - 1).Threw?
  {
    asked, reported := [], [];
    var now := 0;
    var response, currentUuid := initial, initial.uuid;
    if listens && currentUuid != "" { reported := [currentUuid]; }
    while Unfinished(response)
      invariant now == Elapsed(delay, |asked|) && |asked| <= MaxPolls(timeoutMs)
      invariant Asked(initial, timeoutMs, answer, delay, asked)
      invariant Tracks(initial, answer, listens, |asked|, currentUuid, reported)
      invariant response == LastResponse(initial, answer, |asked|)
      invariant asked != [] ==> answer(|asked| - 1).Got?
      decreases timeoutMs - now
    {
      if now > timeoutMs { return TimedOut, asked, reported; }
      AsksNext(initial, timeoutMs, answer, delay, asked, currentUuid, now);
      var polls := |asked|;
      now := now + (if polls == 0 then FIRST_INTERVAL_MS else INTERVAL_MS) + delay(polls);
      asked := asked + [currentUuid];
      var a := answer(polls);
      if a.Threw? { return CallFailed, asked, reported; }
      response := a.response;
      TracksNext(initial, answer, listens, polls, currentUuid, reported);
      if response.uuid != "" { currentUuid := response.uuid; }
      if reported == [] && currentUuid != "" && listens { reported := [currentUuid]; }
    }
    return Finished(response), asked, reported;
  }

  // The uuid is never lost: once CMS has given one, every later poll asks about one CMS gave,
  // invalid-token answers in between notwithstanding.
  lemma {:induction false} UuidIsNeverLost(initial: Response, answer: nat -> Answer, m: nat, n: nat)
    requires m <= n && LatestUuid(initial, answer, m) != ""
    ensures LatestUuid(initial, answer, n) != ""
    ensures (forall k :: m <= k < n ==> answer(k).Threw? || answer(k).response.uuid == "") ==>
      LatestUuid(initial, answer, n) == LatestUuid(initial, answer, m)
    decreases n
  {
    if m < n { UuidIsNeverLost(initial, answer, m, n - 1); }
  }
}
