// The key of a volume path names the same place as the path: from whatever directory one follows
// either, one arrives at the same one.
module VolumePlaces {
  import opened Strings
  import opened VolumePaths

  // A directory is the names on the way from the root to it. The parent of the root is the root.
  function Cd(dir: seq<string>, part: string): seq<string> {
    if part == "" || part == "." then dir
    else if part == ".." then (if dir == [] then [] else dir[..|dir| - 1])
    else dir + [part]
  }

  function Follow(dir: seq<string>, parts: seq<string>): seq<string>
    decreases |parts|
  {
    if parts == [] then dir else Follow(Cd(dir, parts[0]), parts[1..])
  }

  lemma {:induction false} FollowOn(dir: seq<string>, a: seq<string>, b: seq<string>)
    ensures Follow(dir, a + b) == Follow(Follow(dir, a), b)
    decreases |a|
  {
    if a == [] {
      assert a + b == b;
    } else {
      assert (a + b)[1..] == a[1..] + b;
      FollowOn(Cd(dir, a[0]), a[1..], b);
    }
  }

  // What the loop keeps: no empty or '.' segments, and below a root no '..' either.
  predicate Stacked(stack: seq<string>, rooted: bool) {
    forall p :: p in stack ==> p != "" && p != "." && '/' !in p && (rooted ==> p != "..")
  }

  lemma FollowOne(dir: seq<string>, front: seq<string>, last: string)
    ensures Follow(dir, front + [last]) == Cd(Follow(dir, front), last)
  {
    FollowOn(dir, front, [last]);
    assert Follow(Follow(dir, front), [last]) == Cd(Follow(dir, front), last);
  }

  // Leaving a directory just entered.
  lemma PopFollows(dir: seq<string>, stack: seq<string>)
    requires stack != [] && stack[|stack| - 1] !in {"", ".", ".."}
    ensures Follow(dir, stack[..|stack| - 1]) == Cd(Follow(dir, stack), "..")
  {
    var front, last := stack[..|stack| - 1], stack[|stack| - 1];
    assert stack == front + [last];
    FollowOne(dir, front, last);
  }

  lemma PushKeepsStack(stack: seq<string>, part: string, rooted: bool)
    requires Stacked(stack, rooted) && '/' !in part
    ensures Stacked(Pushed(stack, part, rooted), rooted)
  {
  }

  lemma PushFollows(dir: seq<string>, stack: seq<string>, part: string, rooted: bool)
    requires Stacked(stack, rooted) && (rooted ==> dir == [])
    ensures Follow(dir, Pushed(stack, part, rooted)) == Cd(Follow(dir, stack), part)
  {
    assert forall i :: 0 <= i < |stack| ==> stack[i] in stack;
    if part == ".." && stack != [] && stack[|stack| - 1] != ".." {
      PopFollows(dir, stack);
    } else if part != ".." || !rooted {
      FollowOne(dir, stack, part);
    }
  }

  lemma {:induction false} NormalFollows(dir: seq<string>, stack: seq<string>, parts: seq<string>, rooted: bool)
    requires Stacked(stack, rooted) && (forall p :: p in parts ==> '/' !in p) && (rooted ==> dir == [])
    ensures Stacked(Normal(stack, parts, rooted), rooted)
    ensures Follow(dir, Normal(stack, parts, rooted)) == Follow(Follow(dir, stack), parts)
    decreases |parts|
  {
    if parts != [] {
      PushKeepsStack(stack, parts[0], rooted);
      PushFollows(dir, stack, parts[0], rooted);
      NormalFollows(dir, Pushed(stack, parts[0], rooted), parts[1..], rooted);
    }
  }

  // Joining and splitting again may only add an empty segment.
  lemma JoinedFollows(dir: seq<string>, parts: seq<string>)
    requires forall p :: p in parts ==> '/' !in p
    ensures Follow(dir, Segments(JoinParts(parts))) == Follow(dir, parts)
  {
    SplitOfJoin(parts, '/');
    if parts == [] { assert Segments(JoinParts(parts)) == [""] && Follow(dir, [""]) == Follow(dir, []); }
  }

  lemma PartsFollow(dir: seq<string>, remainder: string, rooted: bool)
    requires rooted ==> dir == []
    ensures var parts := Normal([], Segments(remainder), rooted);
      Follow(dir, Segments(JoinParts(parts))) == Follow(dir, Segments(remainder))
  {
    var parts := Normal([], Segments(remainder), rooted);
    NormalFollows(dir, [], Segments(remainder), rooted);
    JoinedFollows(dir, parts);
  }

  predicate IsAbsolute(path: string) {
    path != "" && path[0] == '/'
  }

  lemma SlashFollows(dir: seq<string>, rest: string)
    ensures Follow(dir, Segments("/" + rest)) == Follow(dir, Segments(rest))
  {
    var whole := "/" + rest;
    assert whole[1..] == rest;
    assert Segments(whole) == [""] + Segments(rest);
  }

  // A POSIX path and its key lead to the same place, from the root if absolute, and from every
  // directory if relative.
  lemma PosixKeyKeepsPlace(path: string, dir: seq<string>)
    requires !IsWindows(path) && (IsAbsolute(path) ==> dir == [])
    ensures Follow(dir, Segments(Key(path))) == Follow(dir, Segments(path))
    ensures IsAbsolute(path) ==> IsAbsolute(Key(path))
  {
    if IsAbsolute(path) {
      var rest := path[1..];
      PartsFollow([], rest, true);
      SlashFollows([], rest);
      SlashFollows([], JoinParts(Normal([], Segments(rest), true)));
      assert path == "/" + rest;
    } else {
      PartsFollow(dir, path, false);
      assert "" + JoinParts(Normal([], Segments(path), false)) == JoinParts(Normal([], Segments(path), false));
    }
  }

  // On a drive they do so but for the case of letters; slashes of either kind separate.
  lemma DriveKeyKeepsPlace(path: string)
    requires HasDrive(path)
    ensures HasDrive(Key(path)) && Key(path)[0] == LowerChar(path[0])
    ensures Follow([], Segments(Key(path)[3..])) == LowerAll(Follow([], Segments(Slashed(path[3..]))))
  {
    var remainder := Slashed(path[3..]);
    var parts := Parts(remainder);
    DriveKey(path);
    PartsAreClean(remainder);
    LowerIsClean(parts);
    JoinedFollows([], LowerAll(parts));
    assert Key(path)[3..] == JoinParts(LowerAll(parts));
    NormalFollows([], [], Segments(remainder), true);
    CleanFollows([], parts);
    CleanFollows([], LowerAll(parts));
  }

  lemma {:induction false} CleanFollows(dir: seq<string>, parts: seq<string>)
    requires Clean(parts)
    ensures Follow(dir, parts) == dir + parts
    decreases |parts|
  {
    if parts == [] {
      assert dir + parts == dir;
    } else {
      assert CleanPart(parts[0]) && dir + [parts[0]] + parts[1..] == dir + parts;
      CleanFollows(dir + [parts[0]], parts[1..]);
    }
  }
}
