// The lexical comparison key of a volume path on the CMS host.
module VolumePaths {
  import opened Strings

  predicate IsSlash(c: char) {
    c == '/' || c == '\\'
  }

  predicate IsLetter(c: char) {
    'A' <= c <= 'Z' || 'a' <= c <= 'z'
  }

  // `C:` and a slash of either kind.
  predicate HasDrive(path: string) {
    |path| >= 3 && IsLetter(path[0]) && path[1] == ':' && IsSlash(path[2])
  }

  predicate IsWindows(path: string) {
    HasDrive(path) || (|path| >= 2 && path[0] == '\\' && path[1] == '\\')
  }

  function Slashed(s: string): string {
    seq(|s|, i requires 0 <= i < |s| => if s[i] == '\\' then '/' else s[i])
  }

  function Segments(s: string): seq<string> {
    Split(s, '/')
  }

  function JoinParts(parts: seq<string>): string {
    Join(parts, '/')
  }

  // One segment met by the loop. Below a root, `..` at the top is dropped.
  function Pushed(stack: seq<string>, part: string, rooted: bool): seq<string> {
    if part == "" || part == "." then stack
    else if part == ".." then
      if stack != [] && stack[|stack| - 1] != ".." then stack[..|stack| - 1]
      else if !rooted then stack + [part]
      else stack
    else stack + [part]
  }

  function Normal(stack: seq<string>, parts: seq<string>, rooted: bool): seq<string>
    decreases |parts|
  {
    if parts == [] then stack else Normal(Pushed(stack, parts[0], rooted), parts[1..], rooted)
  }

  predicate IsUnc(path: string) {
    !HasDrive(path) && IsWindows(path)
  }

  function NonEmpty(parts: seq<string>): seq<string> {
    if parts == [] then []
    else (if parts[0] == "" then [] else [parts[0]]) + NonEmpty(parts[1..])
  }

  // The root no `..` removes, and the rest. A UNC share is the root.
  function Rooted(path: string): (string, string) {
    if HasDrive(path) then (Slashed(path[..3]), Slashed(path[3..]))
    else if IsUnc(path) then
      var parts := NonEmpty(Segments(Slashed(path[2..])));
      var share := if |parts| <= 2 then parts else parts[..2];
      ("//" + JoinParts(share) + "/", JoinParts(parts[|share|..]))
    else if path != "" && path[0] == '/' then ("/", path[1..])
    else ("", path)
  }

  function Key(path: string): string {
    var (root, remainder) := Rooted(path);
    var key := root + JoinParts(Normal([], Segments(remainder), root != ""));
    if IsWindows(path) then ToLower(key) else key
  }

  // The loop over the segments, pushing and popping.
  method CopyVolumePathKey(path: string) returns (key: string)
    ensures key == Key(path)
  {
    var (root, remainder) := Rooted(path);
    var segments := Segments(remainder);
    var parts: seq<string> := [];
    for i := 0 to |segments|
      invariant Normal(parts, segments[i..], root != "") == Normal([], segments, root != "")
    {
      var part := segments[i];
      if part != "" && part != "." {
        if part == ".." {
          if |parts| > 0 && parts[|parts| - 1] != ".." { parts := parts[..|parts| - 1]; }
          else if root == "" { parts := parts + [part]; }
        } else {
          parts := parts + [part];
        }
      }
    }
    key := root + JoinParts(parts);
    if IsWindows(path) { key := ToLower(key); }
  }

  predicate CleanPart(p: string) {
    p != "" && p != "." && p != ".." && '/' !in p
  }

  predicate Clean(parts: seq<string>) {
    forall p :: p in parts ==> CleanPart(p)
  }

  lemma {:induction false} NormalIsClean(stack: seq<string>, parts: seq<string>)
    requires Clean(stack) && forall p :: p in parts ==> '/' !in p
    ensures Clean(Normal(stack, parts, true))
    decreases |parts|
  {
    if parts != [] { NormalIsClean(Pushed(stack, parts[0], true), parts[1..]); }
  }

  lemma {:induction false} CleanIsNormal(stack: seq<string>, parts: seq<string>, rooted: bool)
    requires Clean(parts)
    ensures Normal(stack, parts, rooted) == stack + parts
    decreases |parts|
  {
    if parts != [] {
      assert CleanPart(parts[0]);
      CleanIsNormal(stack + [parts[0]], parts[1..], rooted);
      assert stack + [parts[0]] + parts[1..] == stack + parts;
    } else {
      assert stack + parts == stack;
    }
  }

  lemma {:induction false} NormalOfConcat(stack: seq<string>, a: seq<string>, b: seq<string>, rooted: bool)
    ensures Normal(stack, a + b, rooted) == Normal(Normal(stack, a, rooted), b, rooted)
    decreases |a|
  {
    if a == [] {
      assert a + b == b;
    } else {
      assert (a + b)[1..] == a[1..] + b;
      NormalOfConcat(Pushed(stack, a[0], rooted), a[1..], b, rooted);
    }
  }

  // A rooted key reads back as the parts it was made of.
  lemma KeyReadsBack(parts: seq<string>)
    requires Clean(parts)
    ensures Normal([], Segments(JoinParts(parts)), true) == parts
  {
    SplitOfJoin(parts, '/');
    CleanIsNormal([], parts, true);
    assert [] + parts == parts;
  }

  function LowerAll(parts: seq<string>): seq<string> {
    seq(|parts|, i requires 0 <= i < |parts| => ToLower(parts[i]))
  }

  lemma LowerKeepsPart(p: string)
    ensures ToLower(p) == "" <==> p == ""
    ensures ToLower(p) == "." <==> p == "."
    ensures ToLower(p) == ".." <==> p == ".."
    ensures '/' in ToLower(p) <==> '/' in p
    ensures ToLower(ToLower(p)) == ToLower(p)
  {
    var l := ToLower(p);
    assert l == "." ==> p == "." by { if l == "." { assert l[0] == LowerChar(p[0]); } }
    assert l == ".." ==> p == ".." by { if l == ".." { assert l[0] == LowerChar(p[0]) && l[1] == LowerChar(p[1]); } }
    assert p == "." ==> l == ".";
    assert p == ".." ==> l == "..";
    assert '/' in p ==> '/' in l by { if '/' in p { var i :| 0 <= i < |p| && p[i] == '/'; assert l[i] == '/'; } }
  }

  lemma LowerCommutesWithPush(stack: seq<string>, part: string)
    ensures LowerAll(Pushed(stack, part, true)) == Pushed(LowerAll(stack), ToLower(part), true)
  {
    LowerKeepsPart(part);
    if stack != [] { LowerKeepsPart(stack[|stack| - 1]); }
  }

  lemma {:induction false} LowerCommutes(stack: seq<string>, parts: seq<string>)
    ensures LowerAll(Normal(stack, parts, true)) == Normal(LowerAll(stack), LowerAll(parts), true)
    decreases |parts|
  {
    if parts != [] {
      LowerCommutesWithPush(stack, parts[0]);
      assert LowerAll(parts)[1..] == LowerAll(parts[1..]);
      LowerCommutes(Pushed(stack, parts[0], true), parts[1..]);
    }
  }

  lemma ToLowerOfConcat(a: string, b: string)
    ensures ToLower(a + b) == ToLower(a) + ToLower(b)
  {
  }

  lemma {:induction false} ToLowerOfJoin(parts: seq<string>)
    ensures ToLower(JoinParts(parts)) == JoinParts(LowerAll(parts))
    decreases |parts|
  {
    if |parts| > 1 {
      ToLowerOfJoin(parts[1..]);
      assert LowerAll(parts)[1..] == LowerAll(parts[1..]);
      ToLowerOfConcat(parts[0] + "/", JoinParts(parts[1..]));
      ToLowerOfConcat(parts[0], "/");
    }
  }

  lemma {:induction false} ToLowerOfSegments(s: string)
    ensures Segments(ToLower(s)) == LowerAll(Segments(s))
    decreases |s|
  {
    if s != "" {
      ToLowerOfSegments(s[1..]);
      assert ToLower(s)[1..] == ToLower(s[1..]);
      if s[0] != '/' {
        var rest := Segments(s[1..]);
        assert ToLower([s[0]] + rest[0]) == [LowerChar(s[0])] + ToLower(rest[0]);
      }
    }
  }

  // The normal parts of a rooted path, and of a drive path in lower case.
  function Parts(remainder: string): seq<string> {
    Normal([], Segments(remainder), true)
  }

  lemma PartsAreClean(remainder: string)
    ensures Clean(Parts(remainder))
  {
    NormalIsClean([], Segments(remainder));
  }

  lemma PosixKey(path: string)
    requires path != "" && path[0] == '/'
    ensures !IsWindows(path) && Key(path) == "/" + JoinParts(Parts(path[1..]))
  {
  }

  lemma DriveKey(path: string)
    requires HasDrive(path)
    ensures Key(path) == [LowerChar(path[0]), ':', '/'] + JoinParts(LowerAll(Parts(Slashed(path[3..]))))
  {
    var parts := Parts(Slashed(path[3..]));
    ToLowerOfConcat(Slashed(path[..3]), JoinParts(parts));
    ToLowerOfJoin(parts);
    assert ToLower(Slashed(path[..3])) == [LowerChar(path[0]), ':', '/'];
  }

  lemma LowerIsClean(parts: seq<string>)
    requires Clean(parts)
    ensures Clean(LowerAll(parts)) && LowerAll(LowerAll(parts)) == LowerAll(parts)
  {
    forall i | 0 <= i < |parts|
      ensures CleanPart(ToLower(parts[i])) && ToLower(ToLower(parts[i])) == ToLower(parts[i])
    {
      assert CleanPart(parts[i]);
      LowerKeepsPart(parts[i]);
    }
  }

  lemma {:induction false} JoinHasNoBackslash(parts: seq<string>)
    requires forall p :: p in parts ==> '\\' !in p
    ensures '\\' !in JoinParts(parts)
    decreases |parts|
  {
    if |parts| > 1 { JoinHasNoBackslash(parts[1..]); }
  }

  lemma {:induction false} SegmentsHaveNoBackslash(s: string)
    requires '\\' !in s
    ensures forall p :: p in Segments(s) ==> '\\' !in p
    decreases |s|
  {
    if s != "" { SegmentsHaveNoBackslash(s[1..]); }
  }

  lemma {:induction false} NormalHasNoBackslash(stack: seq<string>, parts: seq<string>)
    requires forall p :: p in stack + parts ==> '\\' !in p
    ensures forall p :: p in Normal(stack, parts, true) ==> '\\' !in p
    decreases |parts|
  {
    if parts != [] {
      var next := Pushed(stack, parts[0], true);
      assert forall p :: p in next + parts[1..] ==> p in stack + parts;
      NormalHasNoBackslash(next, parts[1..]);
    }
  }

  lemma SlashedIsFixed(s: string)
    requires '\\' !in s
    ensures Slashed(s) == s
  {
    assert forall i :: 0 <= i < |s| ==> s[i] in s;
  }

  // The parts of a drive path's key, in lower case, are the parts its key is read back as.
  lemma DriveKeyReadsBack(path: string)
    requires HasDrive(path)
    ensures var low := LowerAll(Parts(Slashed(path[3..])));
      && Clean(low) && LowerAll(low) == low
      && HasDrive(Key(path)) && Slashed(Key(path)[3..]) == JoinParts(low) && Parts(JoinParts(low)) == low
  {
    var s := Slashed(path[3..]);
    var parts := Parts(s);
    var low := LowerAll(parts);
    DriveKey(path);
    PartsAreClean(s);
    LowerIsClean(parts);
    KeyReadsBack(low);
    assert '\\' !in s;
    SegmentsHaveNoBackslash(s);
    NormalHasNoBackslash([], Segments(s));
    forall p | p in low ensures '\\' !in p {
      var i :| 0 <= i < |parts| && p == ToLower(parts[i]);
      assert forall j :: 0 <= j < |p| ==> p[j] == LowerChar(parts[i][j]) && parts[i][j] in parts[i];
    }
    JoinHasNoBackslash(low);
    SlashedIsFixed(JoinParts(low));
    assert Key(path)[3..] == JoinParts(low);
  }

  lemma DriveIdempotent(path: string)
    requires HasDrive(path)
    ensures Key(Key(path)) == Key(path)
  {
    var low := LowerAll(Parts(Slashed(path[3..])));
    DriveKey(path);
    DriveKeyReadsBack(path);
    DriveKey(Key(path));
    assert LowerChar(LowerChar(path[0])) == LowerChar(path[0]) && Key(path)[0] == LowerChar(path[0]);
  }

  lemma PosixIdempotent(path: string)
    requires path != "" && path[0] == '/'
    ensures Key(Key(path)) == Key(path)
  {
    var parts := Parts(path[1..]);
    PosixKey(path);
    PosixKey(Key(path));
    PartsAreClean(path[1..]);
    KeyReadsBack(parts);
    assert Key(path)[1..] == JoinParts(parts);
  }

  predicate IsAbsolute(path: string) {
    HasDrive(path) || (path != "" && path[0] == '/')
  }

  // A UNC key is read again as a POSIX path, whose key has a single slash in front.
  lemma UncNotIdempotent(path: string)
    requires IsUnc(path)
    ensures Key(Key(path)) != Key(path)
  {
    var key := Key(path);
    var (root, remainder) := Rooted(path);
    var tail := JoinParts(Normal([], Segments(remainder), true));
    assert key == ToLower(root + tail);
    assert root[0] == '/' && root[1] == '/' && (root + tail)[0] == '/' && (root + tail)[1] == '/';
    assert key[0] == '/' && key[1] == '/';
    PosixKey(key);
    var parts := Parts(key[1..]);
    PartsAreClean(key[1..]);
    if parts == [] {
      assert |Key(key)| == 1;
    } else {
      JoinStartsClean(parts);
      assert Key(key)[1] == JoinParts(parts)[0];
    }
  }

  lemma JoinStartsClean(parts: seq<string>)
    requires Clean(parts) && parts != []
    ensures JoinParts(parts) != "" && JoinParts(parts)[0] != '/'
  {
    assert CleanPart(parts[0]);
    assert parts[0][0] in parts[0];
    assert JoinParts(parts)[0] == parts[0][0];
  }

  // Of the paths with a root, the key of a key is the key exactly for those that are not UNC.
  lemma IdempotentUnlessUnc(path: string)
    requires IsAbsolute(path) || IsUnc(path)
    ensures Key(Key(path)) == Key(path) <==> !IsUnc(path)
  {
    if IsUnc(path) { UncNotIdempotent(path); }
    else if HasDrive(path) { DriveIdempotent(path); }
    else { PosixIdempotent(path); }
  }

  function AbsoluteRoot(path: string): string
    requires IsAbsolute(path)
  {
    if HasDrive(path) then [LowerChar(path[0]), ':', '/'] else "/"
  }

  // The parts of a key of an absolute path are never empty, `.` or `..`.
  lemma KeyPartsAreClean(path: string)
    requires IsAbsolute(path)
    ensures exists parts :: Clean(parts) && Key(path) == AbsoluteRoot(path) + JoinParts(parts)
  {
    if HasDrive(path) {
      DriveKey(path);
      DriveKeyReadsBack(path);
      assert Key(path) == AbsoluteRoot(path) + JoinParts(LowerAll(Parts(Slashed(path[3..]))));
    } else {
      PosixKey(path);
      PartsAreClean(path[1..]);
      assert Key(path) == AbsoluteRoot(path) + JoinParts(Parts(path[1..]));
    }
  }

  lemma PosixRemainder(prefix: string, rest: string)
    requires prefix != "" && prefix[0] == '/'
    ensures Key(prefix + "/" + rest) == "/" + JoinParts(Parts(prefix[1..] + "/" + rest))
  {
    var whole := prefix + "/" + rest;
    PosixKey(whole);
    assert whole[1..] == prefix[1..] + "/" + rest;
  }

  // Replacing a prefix that ends at a segment by its own key leaves the key as it was.
  lemma PosixPrefixReplaced(prefix: string, rest: string)
    requires prefix != "" && prefix[0] == '/'
    ensures Key(Key(prefix) + "/" + rest) == Key(prefix + "/" + rest)
  {
    PosixKey(prefix);
    assert Key(prefix)[1..] == JoinParts(Parts(prefix[1..]));
    PosixRemainder(Key(prefix), rest);
    PosixRemainder(prefix, rest);
    PrefixParts(prefix[1..], rest);
  }

  lemma PrefixParts(a: string, rest: string)
    ensures Parts(JoinParts(Parts(a)) + "/" + rest) == Parts(a + "/" + rest)
  {
    var n := Parts(a);
    PartsAreClean(a);
    KeyReadsBack(n);
    SplitOfConcat(a, rest, '/');
    SplitOfConcat(JoinParts(n), rest, '/');
    NormalOfConcat([], Segments(a), Segments(rest), true);
    NormalOfConcat([], Segments(JoinParts(n)), Segments(rest), true);
  }

  lemma SlashedOfConcat(a: string, b: string)
    ensures Slashed(a + b) == Slashed(a) + Slashed(b)
  {
  }

  // In lower case it makes no difference which case a prefix was in.
  lemma LowerParts(s: string, t: string)
    requires ToLower(s) == ToLower(t)
    ensures LowerAll(Parts(s)) == LowerAll(Parts(t))
  {
    ToLowerOfSegments(s);
    ToLowerOfSegments(t);
    LowerCommutes([], Segments(s));
    LowerCommutes([], Segments(t));
    assert LowerAll([]) == [];
  }

  lemma DrivePrefixReplaced(prefix: string, separator: char, rest: string)
    requires HasDrive(prefix) && IsSlash(separator)
    ensures Key(Key(prefix) + [separator] + rest) == Key(prefix + [separator] + rest)
  {
    var a, b := Slashed(prefix[3..]), Slashed(rest);
    var n := Parts(a);
    var low := LowerAll(n);
    var replaced, whole := Key(prefix) + [separator] + rest, prefix + [separator] + rest;
    DriveKey(prefix);
    DriveKeyReadsBack(prefix);
    DriveKey(replaced);
    DriveKey(whole);
    DriveRemainder(Key(prefix), separator, rest);
    DriveRemainder(prefix, separator, rest);
    PrefixParts(a, b);
    ToLowerOfJoin(n);
    LowerOfPrefixed(JoinParts(low), JoinParts(n), b);
    LowerParts(JoinParts(low) + "/" + b, JoinParts(n) + "/" + b);
    assert LowerChar(replaced[0]) == LowerChar(whole[0]);
  }

  lemma DriveRemainder(prefix: string, separator: char, rest: string)
    requires HasDrive(prefix) && IsSlash(separator)
    ensures var whole := prefix + [separator] + rest;
      HasDrive(whole) && Slashed(whole[3..]) == Slashed(prefix[3..]) + "/" + Slashed(rest)
  {
    var whole := prefix + [separator] + rest;
    assert whole[3..] == prefix[3..] + [separator] + rest;
    SlashedOfConcat(prefix[3..] + [separator], rest);
    SlashedOfConcat(prefix[3..], [separator]);
  }

  lemma LowerOfPrefixed(s: string, t: string, b: string)
    requires s == ToLower(t)
    ensures ToLower(s + "/" + b) == ToLower(t + "/" + b)
  {
    assert ToLower(s) == s by { LowerKeepsPart(t); }
    ToLowerOfConcat(s + "/", b);
    ToLowerOfConcat(t + "/", b);
    ToLowerOfConcat(s, "/");
    ToLowerOfConcat(t, "/");
  }
}
