// The token_active_time of cm.conf, read line by line the way CMS reads it.
module TokenActiveTime {
  import opened Common
  import opened Strings

  const DEFAULT_SEC: nat := 7200

  predicate IsBlank(c: char) {
    c == ' ' || c == '\t'
  }

  // The position of the first character that is not a blank.
  function SkipBlanks(s: string): (i: nat)
    ensures i <= |s| && (i < |s| ==> !IsBlank(s[i]))
  {
    if s != "" && IsBlank(s[0]) then 1 + SkipBlanks(s[1..]) else 0
  }

  function NameLength(s: string): (i: nat)
    ensures i <= |s|
  {
    if s == "" || IsBlank(s[0]) || s[0] == '=' then 0 else 1 + NameLength(s[1..])
  }

  // The value a line gives to token_active_time, if it does.
  function ValueIn(line: string): Option<string> {
    var text := Trim(line);
    if text == "" || text[0] == '#' then None
    else
      var n := NameLength(text);
      var name := ToLower(text[..n]);
      if name != "token_active_time" && name != "tokenactivetime" then None
      else
        var rest := text[n..][SkipBlanks(text[n..])..];
        var bare := if rest != "" && rest[0] == '=' then rest[1..] else rest;
        Some(Trim(bare[SkipBlanks(bare)..]))
  }

  function Seconds(raw: Option<string>): nat {
    if raw.Some? && IsNumeric(raw.value) && |raw.value| <= 10 && Value(raw.value) > 0 then Value(raw.value)
    else DEFAULT_SEC
  }

  predicate AllBlank(s: string) {
    forall c :: c in s ==> IsBlank(c)
  }

  lemma {:induction false} BlanksSkipped(gap: string, rest: string)
    requires AllBlank(gap) && (rest != "" ==> !IsBlank(rest[0]))
    ensures SkipBlanks(gap + rest) == |gap|
    decreases |gap|
  {
    if gap == "" {
      assert gap + rest == rest;
    } else {
      assert gap[0] in gap && (gap + rest)[1..] == gap[1..] + rest;
      BlanksSkipped(gap[1..], rest);
    }
  }

  lemma {:induction false} NameEnds(name: string, rest: string)
    requires (forall c :: c in name ==> !IsBlank(c) && c != '=') && rest != "" && (IsBlank(rest[0]) || rest[0] == '=')
    ensures NameLength(name + rest) == |name|
    decreases |name|
  {
    if name == "" {
      assert name + rest == rest;
    } else {
      assert name[0] in name && (name + rest)[1..] == name[1..] + rest;
      NameEnds(name[1..], rest);
    }
  }

  // The two names CMS knows, in any case.
  predicate IsOurs(name: string) {
    ToLower(name) == "token_active_time" || ToLower(name) == "tokenactivetime"
  }

  lemma OursIsPlain(name: string)
    requires IsOurs(name)
    ensures |name| > 0 && name[0] != '#'
    ensures forall c :: c in name ==> !IsBlank(c) && !IsSpace(c) && c != '='
  {
    var low := ToLower(name);
    assert low[0] == 't' && low[0] == LowerChar(name[0]);
    forall c | c in name ensures !IsBlank(c) && !IsSpace(c) && c != '=' {
      var i :| 0 <= i < |name| && name[i] == c;
      assert low[i] == LowerChar(c) && (low[i] == '_' || 'a' <= low[i] <= 'z');
    }
  }

  // What stands between the name and the value: blanks, with one '=' among them or not.
  predicate Separates(gap: string, eq: string, gap': string) {
    AllBlank(gap) && AllBlank(gap') && (eq == "=" || (eq == "" && gap != "" && gap' == ""))
  }

  lemma ValueBehind(gap: string, eq: string, gap': string, value: string, rest: string)
    requires Separates(gap, eq, gap') && value != "" && !IsBlank(value[0]) && value[0] != '='
    requires rest == gap + (eq + (gap' + value))
    ensures var bare := rest[SkipBlanks(rest)..];
      var given := if bare != "" && bare[0] == '=' then bare[1..] else bare;
      given[SkipBlanks(given)..] == value
  {
    var behind := eq + (gap' + value);
    assert eq == "" ==> behind == value;
    BlanksSkipped(gap, behind);
    assert rest[|gap|..] == behind;
    if eq == "=" { assert behind[1..] == gap' + value; }
    BlanksSkipped(gap', value);
    BlanksSkipped("", value);
    assert "" + value == value && (gap' + value)[|gap'|..] == value;
  }

  // An entry is read whatever the indentation, the case of the name, and the blanks around an '=' that
  // may be missing.
  lemma EntryIsRead(
    left: string, name: string, gap: string, eq: string, gap': string, value: string, right: string, text: string)
    requires AllSpace(left) && AllSpace(right) && IsOurs(name) && Separates(gap, eq, gap')
    requires value != "" && !IsSpace(value[0]) && !IsSpace(value[|value| - 1]) && value[0] != '='
    requires text == name + (gap + (eq + (gap' + value)))
    ensures ValueIn(left + text + right) == Some(value)
  {
    var rest := gap + (eq + (gap' + value));
    OursIsPlain(name);
    assert name[0] in name && text[0] == name[0] && text[|text| - 1] == value[|value| - 1];
    SpacedTrims(left, text, right);
    assert rest[0] == if gap != "" then gap[0] else '=';
    assert gap != "" ==> gap[0] in gap;
    SpacedTrims("", value, "");
    assert "" + value + "" == value;
    ValueBehind(gap, eq, gap', value, rest);
    NamedIsRead(left + text + right, name, rest, text, value);
  }

  lemma NamedIsRead(line: string, name: string, rest: string, text: string, value: string)
    requires Trim(line) == text == name + rest && IsOurs(name) && Trim(value) == value
    requires rest != "" && (IsBlank(rest[0]) || rest[0] == '=')
    requires var bare := rest[SkipBlanks(rest)..];
      var given := if bare != "" && bare[0] == '=' then bare[1..] else bare;
      given[SkipBlanks(given)..] == value
    ensures ValueIn(line) == Some(value)
  {
    OursIsPlain(name);
    NameEnds(name, rest);
    assert text[0] == name[0] && text[..|name|] == name && text[|name|..] == rest;
  }

  // A line that starts with '#', or with another name, gives nothing.
  lemma OthersGiveNothing(line: string)
    requires var text := Trim(line); text == "" || text[0] == '#' || !IsOurs(text[..NameLength(text)])
    ensures ValueIn(line) == None
  {
  }

  // One to ten digits of non-zero value are a number of seconds; anything else is two hours.
  lemma SecondsAreRead(n: nat)
    ensures |Numeral(n)| <= 10 && n > 0 ==> Seconds(Some(Numeral(n))) == n
    ensures Seconds(Some(Numeral(0))) == 7200 && Seconds(None) == 7200
    ensures forall raw :: |raw| > 10 || !IsNumeric(raw) ==> Seconds(Some(raw)) == 7200
  {
    NumeralReadsBack(n);
    NumeralReadsBack(0);
  }

  function Entries(lines: seq<string>): (values: seq<Option<string>>)
    ensures |values| == |lines|
  {
    seq(|lines|, i requires 0 <= i < |lines| => ValueIn(lines[i]))
  }

  // Line i holds the last entry.
  ghost predicate LastEntry(values: seq<Option<string>>, i: nat) {
    i < |values| && values[i].Some? && forall j :: i < j < |values| ==> values[j].None?
  }

  // The loop with its `raw` variable, over what the lines give.
  method LastOf(values: seq<Option<string>>) returns (raw: Option<string>)
    ensures forall i: nat :: LastEntry(values, i) ==> raw == values[i]
    ensures raw.None? <==> forall i :: 0 <= i < |values| ==> values[i].None?
  {
    raw := None;
    ghost var last := 0;
    for n := 0 to |values|
      invariant raw.None? ==> forall j :: 0 <= j < n ==> values[j].None?
      invariant raw.Some? ==> last < n && values[last] == raw && forall j :: last < j < n ==> values[j].None?
    {
      if values[n].Some? { raw, last := values[n], n; }
    }
  }

  // The last entry wins, even when an earlier one is valid and it is not; anything but one to
  // ten digits of non-zero value means the default.
  method ParseTokenActiveTime(lines: seq<string>) returns (seconds: nat)
    ensures forall i: nat :: LastEntry(Entries(lines), i) ==> seconds == Seconds(Entries(lines)[i])
    ensures (forall i :: 0 <= i < |lines| ==> Entries(lines)[i].None?) ==> seconds == DEFAULT_SEC
    ensures 0 < seconds
  {
    var raw := LastOf(Entries(lines));
    return Seconds(raw);
  }
}
