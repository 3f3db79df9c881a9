// Release versions and their precedence, against section 11 of Semantic Versioning 2.0.0.
// Numerals are natural numbers.
module Versions {
  import opened Common
  import opened Strings

  datatype Version = Version(core: seq<nat>, prerelease: seq<string>)

  predicate IsParsed(v: Version) {
    |v.core| == 3
  }

  predicate IsIdentifier(s: string) {
    s != "" && forall i :: 0 <= i < |s| ==> IsDigit(s[i]) || 'A' <= s[i] <= 'Z' || 'a' <= s[i] <= 'z' || s[i] == '-'
  }

  // No leading zero.
  predicate IsCoreNumeral(s: string) {
    IsNumeric(s) && (s[0] == '0' ==> |s| == 1)
  }

  function StripV(s: string): string {
    if s != "" && (s[0] == 'v' || s[0] == 'V') then s[1..] else s
  }

  function WithoutBuild(raw: string): string {
    var text := StripV(Trim(raw));
    text[..IndexOf(text, '+', 0)]
  }

  // The regular expression: three numerals, then identifiers after the first hyphen. It allows
  // leading zeros in numeric identifiers, which the standard does not.
  function Matched(plain: string): Option<Version> {
    var hyphen := IndexOf(plain, '-', 0);
    var core := Split(plain[..hyphen], '.');
    var prerelease := if hyphen < |plain| then Split(plain[hyphen + 1..], '.') else [];
    if |core| == 3 && (forall i :: 0 <= i < 3 ==> IsCoreNumeral(core[i]))
       && (forall i :: 0 <= i < |prerelease| ==> IsIdentifier(prerelease[i])) then
      Some(Version([Value(core[0]), Value(core[1]), Value(core[2])], prerelease))
    else None
  }

  function ParseVersion(raw: string): (v: Option<Version>)
    ensures v.Some? ==> IsParsed(v.value)
  {
    Matched(WithoutBuild(raw))
  }

  // JavaScript's order of strings.
  predicate StringLess(a: string, b: string) {
    b != "" && (a == "" || a[0] < b[0] || (a[0] == b[0] && StringLess(a[1..], b[1..])))
  }

  function CompareIdentifiers(a: string, b: string): int {
    if IsNumeric(a) && IsNumeric(b) then Value(a) - Value(b)
    else if IsNumeric(a) != IsNumeric(b) then (if IsNumeric(a) then -1 else 1)
    else if StringLess(a, b) then -1
    else if StringLess(b, a) then 1
    else 0
  }

  function ComparePrereleases(a: seq<string>, b: seq<string>): int {
    if a == [] || b == [] then |a| - |b|
    else
      var first := CompareIdentifiers(a[0], b[0]);
      if first != 0 then first else ComparePrereleases(a[1..], b[1..])
  }

  function Compare(a: Version, b: Version): int
    requires IsParsed(a) && IsParsed(b)
  {
    if a.core[0] != b.core[0] then a.core[0] - b.core[0]
    else if a.core[1] != b.core[1] then a.core[1] - b.core[1]
    else if a.core[2] != b.core[2] then a.core[2] - b.core[2]
    else if a.prerelease == [] || b.prerelease == [] then |b.prerelease| - |a.prerelease|
    else ComparePrereleases(a.prerelease, b.prerelease)
  }

  // compareVersions, with its two index loops.
  method CompareVersions(a: Version, b: Version) returns (r: int)
    requires IsParsed(a) && IsParsed(b)
    ensures r == Compare(a, b)
  {
    for i := 0 to 3
      invariant forall j :: 0 <= j < i ==> a.core[j] == b.core[j]
    {
      var x: int, y: int := a.core[i], b.core[i];
      if x != y { return x - y; }
    }
    if |a.prerelease| == 0 || |b.prerelease| == 0 { return |b.prerelease| - |a.prerelease|; }
    var length := if |a.prerelease| < |b.prerelease| then |a.prerelease| else |b.prerelease|;
    for i := 0 to length
      invariant ComparePrereleases(a.prerelease, b.prerelease)
        == ComparePrereleases(a.prerelease[i..], b.prerelease[i..])
    {
      var result := CompareIdentifiers(a.prerelease[i], b.prerelease[i]);
      if result != 0 { return result; }
    }
    return |a.prerelease| - |b.prerelease|;
  }

  // Section 11.4 of Semantic Versioning 2.0.0, rule by rule.
  predicate IdentifierLower(a: string, b: string) {
    || (IsNumeric(a) && IsNumeric(b) && Value(a) < Value(b))
    || (IsNumeric(a) && !IsNumeric(b))
    || (!IsNumeric(a) && !IsNumeric(b) && StringLess(a, b))
  }

  predicate IdentifierSame(a: string, b: string) {
    if IsNumeric(a) && IsNumeric(b) then Value(a) == Value(b) else a == b
  }

  predicate SameUpTo(a: seq<string>, b: seq<string>, k: nat)
    requires k <= |a| && k <= |b|
  {
    forall i :: 0 <= i < k ==> IdentifierSame(a[i], b[i])
  }

  // Left to right until a difference is found; a larger set wins when all before are equal.
  ghost predicate PrereleaseLower(a: seq<string>, b: seq<string>) {
    exists k :: 0 <= k <= |a| && k <= |b| && SameUpTo(a, b, k)
      && (if k == |a| then k < |b| else k < |b| && IdentifierLower(a[k], b[k]))
  }

  predicate CoreLower(a: seq<nat>, b: seq<nat>)
    requires |a| == |b| == 3
  {
    a[0] < b[0] || (a[0] == b[0] && (a[1] < b[1] || (a[1] == b[1] && a[2] < b[2])))
  }

  // Sections 11.2 to 11.4: numerically by core; a pre-release below its release; then by
  // identifiers.
  ghost predicate Lower(a: Version, b: Version)
    requires IsParsed(a) && IsParsed(b)
  {
    || CoreLower(a.core, b.core)
    || (a.core == b.core &&
        if a.prerelease == [] || b.prerelease == [] then a.prerelease != [] && b.prerelease == []
        else PrereleaseLower(a.prerelease, b.prerelease))
  }

  lemma {:induction false} StringsTrichotomy(a: string, b: string)
    ensures !(StringLess(a, b) && StringLess(b, a))
    ensures StringLess(a, b) || StringLess(b, a) || a == b
    ensures a == b ==> !StringLess(a, b)
  {
    if a != "" && b != "" && a[0] == b[0] {
      StringsTrichotomy(a[1..], b[1..]);
      assert a == [a[0]] + a[1..] && b == [b[0]] + b[1..];
    }
  }

  lemma {:induction false} StringsTransitive(a: string, b: string, c: string)
    requires StringLess(a, b) && StringLess(b, c)
    ensures StringLess(a, c)
  {
    if a != "" && b != "" && c != "" && a[0] == b[0] == c[0] { StringsTransitive(a[1..], b[1..], c[1..]); }
  }

  lemma IdentifiersCompared(a: string, b: string)
    ensures CompareIdentifiers(b, a) == -CompareIdentifiers(a, b)
    ensures CompareIdentifiers(a, b) < 0 <==> IdentifierLower(a, b)
    ensures CompareIdentifiers(a, b) == 0 <==> IdentifierSame(a, b)
  {
    StringsTrichotomy(a, b);
  }

  lemma IdentifiersTransitive(a: string, b: string, c: string)
    requires CompareIdentifiers(a, b) <= 0 && CompareIdentifiers(b, c) <= 0
    ensures CompareIdentifiers(a, c) <= 0
    ensures CompareIdentifiers(a, b) < 0 || CompareIdentifiers(b, c) < 0 ==> CompareIdentifiers(a, c) < 0
  {
    StringsTrichotomy(a, b);
    StringsTrichotomy(b, c);
    StringsTrichotomy(a, c);
    if StringLess(a, b) && StringLess(b, c) { StringsTransitive(a, b, c); }
  }

  lemma {:induction false} PrereleasesNegate(a: seq<string>, b: seq<string>)
    ensures ComparePrereleases(b, a) == -ComparePrereleases(a, b)
  {
    if a != [] && b != [] {
      IdentifiersCompared(a[0], b[0]);
      PrereleasesNegate(a[1..], b[1..]);
    }
  }

  lemma {:induction false} PrereleasesTransitive(a: seq<string>, b: seq<string>, c: seq<string>)
    requires ComparePrereleases(a, b) <= 0 && ComparePrereleases(b, c) <= 0
    ensures ComparePrereleases(a, c) <= 0
  {
    if a != [] && b != [] && c != [] {
      IdentifiersTransitive(a[0], b[0], c[0]);
      if CompareIdentifiers(a[0], b[0]) == 0 && CompareIdentifiers(b[0], c[0]) == 0 {
        PrereleasesTransitive(a[1..], b[1..], c[1..]);
      }
    }
  }

  // The first difference decides, and where none comes up the longer list.
  lemma {:induction false} FirstDifference(a: seq<string>, b: seq<string>) returns (k: nat)
    ensures k <= |a| && k <= |b| && SameUpTo(a, b, k)
    ensures k == |a| || k == |b| || !IdentifierSame(a[k], b[k])
    ensures ComparePrereleases(a, b) == if k == |a| || k == |b| then |a| - |b| else CompareIdentifiers(a[k], b[k])
  {
    if a == [] || b == [] {
      k := 0;
    } else {
      IdentifiersCompared(a[0], b[0]);
      if CompareIdentifiers(a[0], b[0]) != 0 {
        k := 0;
      } else {
        var k' := FirstDifference(a[1..], b[1..]);
        k := k' + 1;
        forall i | 0 <= i < k ensures IdentifierSame(a[i], b[i]) {
          if i > 0 { assert IdentifierSame(a[1..][i - 1], b[1..][i - 1]); }
        }
      }
    }
  }

  lemma PrereleasesCompared(a: seq<string>, b: seq<string>)
    ensures ComparePrereleases(a, b) < 0 <==> PrereleaseLower(a, b)
    ensures ComparePrereleases(a, b) == 0 <==> |a| == |b| && SameUpTo(a, b, |a|)
  {
    var k := FirstDifference(a, b);
    if k < |a| && k < |b| { IdentifiersCompared(a[k], b[k]); }
    if PrereleaseLower(a, b) {
      var m :| 0 <= m <= |a| && m <= |b| && SameUpTo(a, b, m)
        && (if m == |a| then m < |b| else m < |b| && IdentifierLower(a[m], b[m]));
      if m < |a| { IdentifiersCompared(a[m], b[m]); }
      assert m <= k;
    }
  }

  // compareVersions is a total preorder on parsed versions: swapping the arguments negates the
  // result, and it is transitive.
  lemma CompareNegates(a: Version, b: Version)
    requires IsParsed(a) && IsParsed(b)
    ensures Compare(b, a) == -Compare(a, b)
  {
    PrereleasesNegate(a.prerelease, b.prerelease);
  }

  lemma CompareIsTransitive(a: Version, b: Version, c: Version)
    requires IsParsed(a) && IsParsed(b) && IsParsed(c)
    requires Compare(a, b) <= 0 && Compare(b, c) <= 0
    ensures Compare(a, c) <= 0
  {
    if ComparePrereleases(a.prerelease, b.prerelease) <= 0 && ComparePrereleases(b.prerelease, c.prerelease) <= 0 {
      PrereleasesTransitive(a.prerelease, b.prerelease, c.prerelease);
    }
  }

  // Its sign is the precedence of the standard, and it is zero exactly on versions of equal
  // core and pairwise equal identifiers.
  lemma CompareIsPrecedence(a: Version, b: Version)
    requires IsParsed(a) && IsParsed(b)
    ensures Compare(a, b) < 0 <==> Lower(a, b)
    ensures Compare(a, b) > 0 <==> Lower(b, a)
    ensures Compare(a, b) == 0 <==>
      (a.core == b.core && |a.prerelease| == |b.prerelease| && SameUpTo(a.prerelease, b.prerelease, |a.prerelease|))
  {
    CompareNegates(a, b);
    PrereleasesCompared(a.prerelease, b.prerelease);
    PrereleasesCompared(b.prerelease, a.prerelease);
    assert a.core == b.core <==> a.core[0] == b.core[0] && a.core[1] == b.core[1] && a.core[2] == b.core[2];
  }

  // Build metadata is ignored.
  lemma BuildMetadataIsIgnored(version: string, build: string)
    requires version != "" && Trim(version) == version && '+' !in version
    ensures ParseVersion(version + "+" + build) == ParseVersion(version)
  {
    TrimmedEnds(version);
    var k := TrimOfSuffix(version, build);
    assert Trim(version + "+" + build) == version + "+" + build[..k];
    var bare, meta := StripV(version), build[..k];
    assert '+' !in bare by { assert forall j :: 0 <= j < |bare| ==> bare[j] in version; }
    assert StripV(version + "+" + meta) == bare + "+" + meta;
    PlusAt(bare, meta);
    assert (bare + "+" + meta)[..|bare|] == bare == bare[..|bare|];
    assert WithoutBuild(version + "+" + build) == bare == WithoutBuild(version);
  }

  lemma PlusAt(s: string, t: string)
    requires '+' !in s
    ensures IndexOf(s + "+" + t, '+', 0) == |s| && IndexOf(s, '+', 0) == |s|
  {
    var u := s + "+" + t;
    assert u[|s|] == '+' && forall j :: 0 <= j < |s| ==> u[j] == s[j];
  }

  lemma {:induction false} TrimOfSuffix(version: string, build: string) returns (k: nat)
    requires version != "" && !IsSpace(version[0])
    ensures k <= |build| && TrimRight(version + "+" + build) == version + "+" + build[..k]
    ensures TrimLeft(version + "+" + build) == version + "+" + build
    decreases |build|
  {
    var raw := version + "+" + build;
    if build != "" && IsSpace(build[|build| - 1]) {
      k := TrimOfSuffix(version, build[..|build| - 1]);
      assert raw[..|raw| - 1] == version + "+" + build[..|build| - 1];
      assert build[..|build| - 1][..k] == build[..k];
    } else {
      k := |build|;
      assert build[..k] == build;
      assert !IsSpace(raw[|raw| - 1]);
    }
  }

  // A version as written, without build metadata.
  function Written(core: seq<string>, prerelease: seq<string>): string {
    Join(core, '.') + (if prerelease == [] then "" else "-" + Join(prerelease, '.'))
  }

  lemma {:induction false} JoinChars(parts: seq<string>, i: nat)
    requires i < |Join(parts, '.')|
    ensures Join(parts, '.')[i] == '.' || exists p :: p in parts && Join(parts, '.')[i] in p
    decreases |parts|
  {
    if |parts| == 1 {
      assert Join(parts, '.') == parts[0] && parts[0] in parts;
    } else if i < |parts[0]| {
      assert Join(parts, '.')[i] == parts[0][i] && parts[0] in parts;
    } else if i > |parts[0]| {
      JoinChars(parts[1..], i - |parts[0]| - 1);
      assert Join(parts, '.')[i] == Join(parts[1..], '.')[i - |parts[0]| - 1];
    }
  }

  // Digits and dots.
  lemma CoreChars(core: seq<string>, i: nat)
    requires (forall p :: p in core ==> IsCoreNumeral(p)) && i < |Join(core, '.')|
    ensures var c := Join(core, '.')[i]; IsDigit(c) || c == '.'
  {
    JoinChars(core, i);
  }

  // Letters, digits, hyphens and dots.
  lemma PrereleaseChars(prerelease: seq<string>, i: nat)
    requires (forall p :: p in prerelease ==> IsIdentifier(p)) && i < |Join(prerelease, '.')|
    ensures var c := Join(prerelease, '.')[i]; c != '+' && !IsSpace(c)
  {
    JoinChars(prerelease, i);
  }

  lemma WrittenIsPlain(core: seq<string>, prerelease: seq<string>, text: string)
    requires |core| == 3 && (forall p :: p in core ==> IsCoreNumeral(p))
    requires (forall p :: p in prerelease ==> IsIdentifier(p)) && text == Written(core, prerelease)
    ensures text != "" && IsDigit(text[0]) && forall i :: 0 <= i < |text| ==> text[i] != '+' && !IsSpace(text[i])
  {
    var k := |Join(core, '.')|;
    assert IsCoreNumeral(core[0]);
    assert text[0] == core[0][0];
    forall i | 0 <= i < |text| ensures text[i] != '+' && !IsSpace(text[i]) {
      if i < k { CoreChars(core, i); }
      else if i > k { PrereleaseChars(prerelease, i - k - 1); }
    }
  }

  lemma MatchesWritten(core: seq<string>, prerelease: seq<string>)
    requires |core| == 3 && (forall p :: p in core ==> IsCoreNumeral(p))
    requires forall p :: p in prerelease ==> IsIdentifier(p)
    ensures Matched(Written(core, prerelease))
      == Some(Version([Value(core[0]), Value(core[1]), Value(core[2])], prerelease))
  {
    HyphenSplits(Join(core, '.'), Join(prerelease, '.'), prerelease != [], Written(core, prerelease), core);
    SplitOfJoin(core, '.');
    SplitOfJoin(prerelease, '.');
    assert forall i :: 0 <= i < 3 ==> core[i] in core;
  }

  lemma HyphenSplits(head: string, tail: string, hyphened: bool, text: string, core: seq<string>)
    requires head == Join(core, '.') && forall p :: p in core ==> IsCoreNumeral(p)
    requires text == head + (if hyphened then "-" + tail else "")
    ensures IndexOf(text, '-', 0) == |head| && text[..|head|] == head
    ensures hyphened <==> |head| < |text|
    ensures hyphened ==> text[|head| + 1..] == tail
  {
    forall i | 0 <= i < |head| ensures text[i] == head[i] && text[i] != '-' { CoreChars(core, i); }
    assert hyphened ==> text[|head|] == '-';
  }

  // Every version written by the grammar is parsed as what it says, with or without a leading v
  // and with any build metadata.
  lemma WrittenParses(core: seq<string>, prerelease: seq<string>, build: string)
    requires |core| == 3 && (forall p :: p in core ==> IsCoreNumeral(p))
    requires forall p :: p in prerelease ==> IsIdentifier(p)
    ensures var v := Some(Version([Value(core[0]), Value(core[1]), Value(core[2])], prerelease));
      && ParseVersion(Written(core, prerelease)) == v && ParseVersion("v" + Written(core, prerelease)) == v
      && ParseVersion("v" + Written(core, prerelease) + "+" + build) == v
  {
    var text := Written(core, prerelease);
    WrittenIsPlain(core, prerelease, text);
    MatchesWritten(core, prerelease);
    PlainIsWhole(text);
    PlainIsWhole("v" + text);
    assert StripV("v" + text) == text && StripV(text) == text;
    BuildMetadataIsIgnored("v" + text, build);
  }

  lemma PlainIsWhole(text: string)
    requires text != "" && forall i :: 0 <= i < |text| ==> text[i] != '+' && !IsSpace(text[i])
    ensures Trim(text) == text && '+' !in text && WithoutBuild(text) == StripV(text)
  {
    assert TrimLeft(text) == text && TrimRight(text) == text;
    assert forall j :: 0 <= j < |StripV(text)| ==> StripV(text)[j] in text;
    assert IndexOf(StripV(text), '+', 0) == |StripV(text)|;
  }
}
