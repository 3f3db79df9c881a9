// Printing well-formed sections and reading them back gives the same sections.
module ConfTextRoundTrip {
  import opened Common
  import opened Strings
  import opened ConfText
  import opened ConfTextLaws

  datatype Group = Group(name: Name, pairs: seq<(string, string)>)

  function PrintPair(p: (string, string)): string {
    p.0 + " " + "= \"" + p.1 + "\""
  }

  function PrintHeader(name: string): string {
    "[" + name + "]"
  }

  function PrintPairs(pairs: seq<(string, string)>): seq<string> {
    if pairs == [] then [] else PrintPairs(pairs[..|pairs| - 1]) + [PrintPair(pairs[|pairs| - 1])]
  }

  function PrintGroup(g: Group): seq<string> {
    (if g.name.Some? then [PrintHeader(g.name.value)] else []) + PrintPairs(g.pairs)
  }

  function Print(groups: seq<Group>): seq<string> {
    if groups == [] then [] else Print(groups[..|groups| - 1]) + PrintGroup(groups[|groups| - 1])
  }

  predicate FitsALine(line: string) {
    Utf8Length(line) <= MAX_LINE_BYTES && '\n' !in line
  }

  predicate PairWellFormed(p: (string, string)) {
    && p.0 != "" && Trim(p.0) == p.0 && '=' !in p.0 && p.0[0] != '#'
    && p.1 != "" && Trim(p.1) == p.1 && '"' !in p.1 && p.1 != "''"
    && FitsALine(PrintPair(p))
  }

  predicate NameWellFormed(name: string) {
    name != "" && NormalizeSectionName(name) == name && ']' !in name && FitsALine(PrintHeader(name))
  }

  predicate GroupWellFormed(g: Group) {
    && (g.name.Some? ==> NameWellFormed(g.name.value))
    && (forall p :: p in g.pairs ==> PairWellFormed(p))
  }

  ghost predicate WellFormed(groups: seq<Group>) {
    && (forall i :: 0 <= i < |groups| ==> GroupWellFormed(groups[i]))
    && (forall i, j :: 0 <= i < j < |groups| ==> groups[i].name != groups[j].name)
    // keys without a section come first, and are printed only if there are any
    && (forall i :: 0 <= i < |groups| && groups[i].name.None? ==> i == 0 && groups[i].pairs != [])
  }

  function PairsOf(entries: seq<Entry>): seq<(string, string)> {
    seq(|entries|, i requires 0 <= i < |entries| => (entries[i].key, entries[i].value))
  }

  function GroupOf(s: Section): Group {
    Group(s.name, PairsOf(s.entries))
  }

  function Contents(sections: seq<Section>): (groups: seq<Group>)
    ensures |groups| == |sections|
  {
    seq(|sections|, i requires 0 <= i < |sections| => GroupOf(sections[i]))
  }

  lemma TrimFixed(s: string)
    requires s != "" && !IsSpace(s[0]) && !IsSpace(s[|s| - 1])
    ensures Trim(s) == s
  {
  }

  predicate IsQuote(c: char) {
    c == '"' || c == '\''
  }

  lemma IndexIs(s: string, c: char, from: nat, i: nat)
    requires from <= i <= |s| && (forall j :: from <= j < i ==> s[j] != c) && (i < |s| ==> s[i] == c)
    ensures IndexOf(s, c, from) == i
  {
  }

  lemma SkipIs(s: string, from: nat, i: nat)
    requires from <= i < |s| && (forall j :: from <= j < i ==> IsSpace(s[j])) && !IsSpace(s[i])
    ensures SkipSpaces(s, from) == i
  {
  }

  lemma QuotedAt(line: string, at: nat, close: nat)
    requires at + 1 < close <= |line| && IsQuote(line[at]) && forall j :: at < j < close ==> line[j] != line[at]
    requires close < |line| ==> line[close] == line[at]
    ensures ValueFrom(line, at) == line[at + 1..close]
  {
    IndexIs(line, line[at], at + 1, close);
    assert line[at..][0] == line[at];
  }

  // Where the parts of a quoted pair stand.
  lemma ParsedAt(line: string, eq: nat, at: nat, close: nat)
    requires 0 < eq < at < close <= |line| && line[eq] == '=' && (forall j :: 0 <= j < eq ==> line[j] != '=')
    requires IsQuote(line[at]) && !IsSpace(line[at]) && forall j :: eq < j < at ==> IsSpace(line[j])
    requires at + 1 < close && forall j :: at < j < close ==> line[j] != line[at]
    requires close < |line| ==> line[close] == line[at]
    ensures ParseKeyValue(line) == Some((line[..eq], line[at + 1..close]))
  {
    IndexIs(line, '=', 0, eq);
    SkipIs(line, eq + 1, at);
    QuotedAt(line, at, close);
  }

  lemma Four(a: string, b: string, c: string, d: string, s: string)
    requires s == a + b + c + d
    ensures s[..|a|] == a && s[|a| + |b|..|a| + |b| + |c|] == c
    ensures forall j :: 0 <= j < |a| ==> s[j] == a[j]
    ensures forall j :: 0 <= j < |b| ==> s[|a| + j] == b[j]
    ensures forall j :: |a| + |b| <= j < |a| + |b| + |c| ==> s[j] == c[j - |a| - |b|]
    ensures forall j :: 0 <= j < |d| ==> s[|a| + |b| + |c| + j] == d[j]
  {
  }

  lemma PairParts(k: string, v: string, line: string)
    requires k != "" && '=' !in k && v != "" && '"' !in v && line == k + " " + "= \"" + v + "\""
    ensures ParseKeyValue(line) == Some((k + " ", v))
  {
    var n, gap := |k| + 1, "= \"";
    Four(k + " ", gap, v, "\"", line);
    assert line[n] == gap[0] && line[n + 1] == gap[1] && line[n + 2] == gap[2] && line[n + 3 + |v|] == '"';
    ParsedAt(line, n, n + 2, n + 3 + |v|);
  }

  lemma PairIsParsed(p: (string, string))
    requires PairWellFormed(p)
    ensures ParseKeyValue(PrintPair(p)) == Some((p.0 + " ", p.1))
  {
    PairParts(p.0, p.1, PrintPair(p));
  }

  lemma TrimKey(k: string)
    requires k != "" && Trim(k) == k
    ensures Trim(k + " ") == k
  {
    TrimmedEnds(k);
    var s := k + " ";
    assert TrimLeft(s) == s;
    assert s[..|s| - 1] == k;
  }

  lemma PairReadsBack(p: (string, string))
    requires PairWellFormed(p)
    ensures Classify(PrintPair(p)) == KeyValue(p.0, p.1)
  {
    var line := PrintPair(p);
    TrimmedEnds(p.0);
    assert line[0] == p.0[0] && line[|line| - 1] == '"';
    TrimFixed(line);
    PairIsParsed(p);
    TrimKey(p.0);
  }

  // A bare value ends at a comment character; the comment is whatever follows.
  lemma BareValueReadsBack(key: string, value: string, comment: string)
    requires key != "" && Trim(key) == key && '=' !in key && key[0] != '#' && key[0] != '['
    requires value != "" && Trim(value) == value && ';' !in value && '#' !in value
    requires value[0] != '"' && value[0] != '\''
    requires comment == "" || comment[0] == ';' || comment[0] == '#'
    requires comment != "" ==> !IsSpace(comment[|comment| - 1])
    ensures Classify(key + "=" + value + comment) == KeyValue(key, value)
  {
    var line := key + "=" + value + comment;
    TrimmedEnds(key);
    TrimmedEnds(value);
    assert line[0] == key[0] && !IsSpace(line[|line| - 1]);
    TrimFixed(line);
    BareIsParsed(key, value, comment, line);
    assert !EndsWith(line, ']') || !StartsWith(line, '[');
  }

  lemma BareIsParsed(key: string, value: string, comment: string, line: string)
    requires key != "" && '=' !in key && line == key + "=" + value + comment
    requires value != "" && !IsSpace(value[0]) && ';' !in value && '#' !in value
    requires value[0] != '"' && value[0] != '\''
    requires comment == "" || comment[0] == ';' || comment[0] == '#'
    ensures ParseKeyValue(line) == Some((key, value))
  {
    assert forall j :: 0 <= j < |key| ==> line[j] == key[j];
    assert line[|key|] == '=';
    assert IndexOf(line, '=', 0) == |key|;
    assert line[|key| + 1] == value[0];
    assert SkipSpaces(line, |key| + 1) == |key| + 1;
    assert line[|key| + 1..] == value + comment && line[..|key|] == key;
    CommentCut(value, comment);
  }

  lemma {:induction false} CommentCut(value: string, comment: string)
    requires ';' !in value && '#' !in value
    requires comment == "" || comment[0] == ';' || comment[0] == '#'
    ensures BeforeComment(value + comment) == value
    decreases |value|
  {
    if value == "" {
      assert value + comment == comment;
    } else {
      assert (value + comment)[1..] == value[1..] + comment;
      CommentCut(value[1..], comment);
    }
  }

  predicate KeyFits(key: string) {
    key != "" && Trim(key) == key && '=' !in key && key[0] != '#' && key[0] != '['
  }

  // Where the text after the '=' starts, and what stands there.
  lemma AfterEquals(key: string, tail: string, line: string)
    requires KeyFits(key) && tail != "" && !IsSpace(tail[0]) && line == key + "=" + tail
    ensures IndexOf(line, '=', 0) == |key| && SkipSpaces(line, |key| + 1) == |key| + 1
    ensures line[|key| + 1..] == tail && line[..|key|] == key
  {
    assert forall j :: 0 <= j < |key| ==> line[j] == key[j];
    assert line[|key|] == '=' && line[|key| + 1] == tail[0];
  }

  lemma KeyStarts(key: string, tail: string, line: string)
    requires KeyFits(key) && tail != "" && !IsSpace(tail[|tail| - 1]) && line == key + "=" + tail
    ensures Trim(line) == line && line[0] == key[0]
  {
    TrimmedEnds(key);
    assert line[0] == key[0] && line[|line| - 1] == tail[|tail| - 1];
    TrimFixed(line);
  }

  lemma QuotedIsParsed(key: string, quote: char, value: string, rest: string, line: string)
    requires KeyFits(key) && IsQuote(quote) && value != "" && quote !in value
    requires (rest == "" || rest[0] == quote) && line == key + ['=', quote] + value + rest
    ensures ParseKeyValue(line) == Some((key, value))
  {
    var gap := ['=', quote];
    Four(key, gap, value, rest, line);
    assert line[|key|] == gap[0] && line[|key| + 1] == gap[1];
    assert rest != "" ==> line[|key| + 2 + |value|] == rest[0];
    ParsedAt(line, |key|, |key| + 1, |key| + 2 + |value|);
  }

  // A value in either kind of quotes ends at the next such quote, comment characters and the other
  // kind of quote inside it included; what follows is dropped. Without a closing quote it is the
  // rest of the line.
  lemma QuotedReadsBack(key: string, quote: char, value: string, rest: string, tail: string)
    requires KeyFits(key) && IsQuote(quote) && value != "" && quote !in value
    requires (rest == "" || rest[0] == quote) && tail == [quote] + value + rest && !IsSpace(tail[|tail| - 1])
    ensures Classify(key + "=" + tail) ==
      KeyValue(key, if Trim(value) == "\"\"" || Trim(value) == "''" then "" else Trim(value))
  {
    var line := key + "=" + tail;
    KeyStarts(key, tail, line);
    assert line == key + ['=', quote] + value + rest;
    QuotedIsParsed(key, quote, value, rest, line);
  }

  // Two quotes and nothing between them are an empty value.
  lemma EmptyQuotesReadBack(key: string, quote: char)
    requires KeyFits(key) && IsQuote(quote)
    ensures Classify(key + "=" + [quote, quote]) == KeyValue(key, "")
  {
    var tail := [quote, quote];
    var line := key + "=" + tail;
    KeyStarts(key, tail, line);
    AfterEquals(key, tail, line);
    assert line[|key| + 1] == quote && line[|key| + 2] == quote;
    assert IndexOf(line, quote, |key| + 2) == |key| + 2;
    assert BeforeComment(tail) == tail by { CommentCut(tail, ""); assert tail + "" == tail; }
    TrimFixed(tail);
  }

  lemma HeaderIsRead(inner: string)
    requires inner != "" && ']' !in inner
    ensures Classify("[" + inner + "]") == Header(NormalizeSectionName(inner))
  {
    var line := "[" + inner + "]";
    assert line[0] == '[' && line[|line| - 1] == ']';
    TrimFixed(line);
    assert forall j :: 1 <= j < |line| - 1 ==> line[j] == inner[j - 1];
    assert IndexOf(line, ']', 1) == |line| - 1;
    assert line[1..|line| - 1] == inner;
  }

  predicate NameFits(name: string) {
    name != "" && !IsSpace(name[0]) && !IsSpace(name[|name| - 1])
  }

  // Without a mark a name is told apart without regard to case and to the space around it.
  lemma PlainNameNormalizes(left: string, name: string, right: string)
    requires AllSpace(left) && AllSpace(right) && NameFits(name) && name[0] != '@' && name[0] != '%'
    ensures NormalizeSectionName(left + name + right) == ToLower(name)
  {
    SpacedTrims(left, name, right);
  }

  // The same behind a '%'; behind an '@', which marks the name of a host, case counts.
  lemma MarkedNameNormalizes(left: string, mark: char, gap: string, name: string, right: string)
    requires AllSpace(left) && AllSpace(gap) && AllSpace(right) && NameFits(name) && (mark == '@' || mark == '%')
    ensures NormalizeSectionName(left + ([mark] + gap + name) + right) ==
      if mark == '@' then "@" + name else "%" + ToLower(name)
  {
    var core := [mark] + gap + name;
    assert core[0] == mark && core[|core| - 1] == name[|name| - 1] && core[1..] == gap + name + "";
    SpacedTrims(left, core, right);
    SpacedTrims(gap, name, "");
    assert ToLower([mark] + name) == [LowerChar(mark)] + ToLower(name);
  }

  // A line cut in two by a backslash is read as if it had not been: the pieces are joined with
  // nothing in between, under the number of the first.
  lemma ContinuationJoins(lines: seq<string>, i: nat, a: string, b: string)
    requires i + 1 < |lines| && lines[i] == a + "\\" && lines[i + 1] == b
    requires a != "" && b != "" && !IsSpace(b[|b| - 1]) && b[|b| - 1] != '\\'
    requires Utf8Length(a + "\\") <= MAX_LINE_BYTES && Utf8Length(a) + Utf8Length(b) <= MAX_LINE_BYTES
    ensures ReadLogical(lines, i, "", i + 1) == ([Line(i + 1, a + b)], i + 2)
  {
    var cut := a + "\\";
    assert WithoutCr(cut) == cut && TrimRight(cut) == cut && "" + cut == cut && cut[..|cut| - 1] == a;
    assert WithoutCr(b) == b && TrimRight(b) == b;
    assert ReadLogical(lines, i + 1, a, i + 1) == ([Line(i + 1, a + b)], i + 2);
  }

  // The limit counts bytes, continuation lines included: one more and the line is refused.
  lemma ContinuationTooLong(lines: seq<string>, i: nat, a: string, b: string)
    requires i + 1 < |lines| && lines[i] == a + "\\" && lines[i + 1] == b && a != ""
    requires b != "" && b[|b| - 1] != '\r' && Utf8Length(a + "\\") <= MAX_LINE_BYTES
    requires Utf8Length(a) + Utf8Length(b) > MAX_LINE_BYTES
    ensures ReadLogical(lines, i, "", i + 1) == ([Overlong(i + 2)], i + 2)
  {
    var cut := a + "\\";
    assert WithoutCr(cut) == cut && TrimRight(cut) == cut && "" + cut == cut && cut[..|cut| - 1] == a;
    assert ReadLogical(lines, i + 1, a, i + 1) == ([Overlong(i + 2)], i + 2);
  }

  lemma HeaderReadsBack(name: string)
    requires NameWellFormed(name)
    ensures Classify(PrintHeader(name)) == Header(name)
  {
    var line := PrintHeader(name);
    assert line[0] == '[' && line[|line| - 1] == ']';
    TrimFixed(line);
    assert forall j :: 1 <= j < |line| - 1 ==> line[j] == name[j - 1];
    assert IndexOf(line, ']', 1) == |line| - 1;
    assert line[1..|line| - 1] == name;
  }

  // A line the reader takes as it is.
  predicate Plain(line: string) {
    FitsALine(line) && (EndsWith(line, '"') || EndsWith(line, ']'))
  }

  ghost predicate AllPlain(lines: seq<string>) {
    forall line :: line in lines ==> Plain(line)
  }

  function Numbered(lines: seq<string>): (r: seq<Logical>)
    ensures |r| == |lines|
  {
    seq(|lines|, i requires 0 <= i < |lines| => Line(i + 1, lines[i]))
  }

  lemma PlainLineIsRead(lines: seq<string>, i: nat)
    requires i < |lines| && Plain(lines[i])
    ensures ReadLogical(lines, i, "", i + 1) == ([Line(i + 1, lines[i])], i + 1)
  {
    var raw := lines[i];
    assert WithoutCr(raw) == raw && TrimRight(raw) == raw && "" + raw == raw;
    assert !EndsWith(raw, '\\');
  }

  lemma NumberedFrom(lines: seq<string>, i: nat)
    requires i < |lines|
    ensures Numbered(lines)[i..] == [Line(i + 1, lines[i])] + Numbered(lines)[i + 1..]
  {
  }

  lemma {:induction false} PlainLinesStand(lines: seq<string>, i: nat)
    requires i <= |lines| && AllPlain(lines)
    ensures LogicalLines(lines, i) == Numbered(lines)[i..]
    decreases |lines| - i
  {
    if i < |lines| {
      PlainLinesStand(lines, i + 1);
      PlainLineIsRead(lines, i);
      NumberedFrom(lines, i);
    }
  }

  lemma FoldNext(lines: seq<string>, line: string)
    ensures FoldAll(Numbered(lines + [line])) == Folded(FoldAll(Numbered(lines)), Line(|lines| + 1, line))
  {
    assert Numbered(lines + [line]) == Numbered(lines) + [Line(|lines| + 1, line)];
    FoldOneMore(Numbered(lines), Line(|lines| + 1, line));
  }

  // The reader holds these groups, the last of them current.
  ghost predicate Holds(d: Doc, held: seq<Group>) {
    d.errors == [] && Contents(d.order) == held && held != [] && d.current == |held| - 1
  }

  lemma HeaderAppends(d: Doc, held: seq<Group>, name: string, lineNo: nat)
    requires Holds(d, held) && forall i :: 0 <= i < |held| ==> held[i].name != Some(name)
    ensures Holds(InSection(d, Some(name), lineNo), held + [Group(Some(name), [])])
  {
    forall k | 0 <= k < |d.order| ensures d.order[k].name != Some(name) {
      assert Contents(d.order)[k] == held[k];
    }
    var section := Section(Some(name), Some(lineNo), []);
    assert IndexOfSection(d.order, Some(name)) == |d.order|;
    assert GroupOf(section) == Group(Some(name), []);
    assert Contents(d.order + [section]) == Contents(d.order) + [GroupOf(section)];
  }

  lemma PairAppends(d: Doc, front: seq<Group>, g: Group, e: Entry)
    requires Holds(d, front + [g])
    ensures Holds(WithEntry(d, e), front + [g.(pairs := g.pairs + [(e.key, e.value)])])
  {
    var s := d.order[d.current];
    var s' := s.(entries := s.entries + [e]);
    assert Contents(d.order)[d.current] == GroupOf(s) == g;
    assert GroupOf(s') == g.(pairs := g.pairs + [(e.key, e.value)]);
    assert Contents(d.order[d.current := s']) == Contents(d.order)[d.current := GroupOf(s')];
  }

  ghost predicate HeldAfter(lines: seq<string>, held: seq<Group>) {
    exists d :: Holds(d, held) && d == FoldAll(Numbered(lines))
  }

  lemma HeaderLine(lines: seq<string>, held: seq<Group>, name: string)
    requires HeldAfter(lines, held) && NameWellFormed(name)
    requires forall i :: 0 <= i < |held| ==> held[i].name != Some(name)
    ensures HeldAfter(lines + [PrintHeader(name)], held + [Group(Some(name), [])])
  {
    var d :| Holds(d, held) && d == FoldAll(Numbered(lines));
    FoldNext(lines, PrintHeader(name));
    HeaderReadsBack(name);
    HeaderAppends(d, held, name, |lines| + 1);
  }

  lemma PairLine(lines: seq<string>, front: seq<Group>, g: Group, p: (string, string))
    requires HeldAfter(lines, front + [g]) && PairWellFormed(p)
    ensures HeldAfter(lines + [PrintPair(p)], front + [g.(pairs := g.pairs + [p])])
  {
    var d :| Holds(d, front + [g]) && d == FoldAll(Numbered(lines));
    FoldNext(lines, PrintPair(p));
    PairReadsBack(p);
    PairAppends(d, front, g, Entry(p.0, p.1, |lines| + 1));
  }

  lemma {:induction false} PairLines(lines: seq<string>, front: seq<Group>, name: Name, pairs: seq<(string, string)>)
    requires HeldAfter(lines, front + [Group(name, [])])
    requires forall p :: p in pairs ==> PairWellFormed(p)
    ensures HeldAfter(lines + PrintPairs(pairs), front + [Group(name, pairs)])
    decreases |pairs|
  {
    if pairs == [] {
      assert lines + PrintPairs(pairs) == lines;
    } else {
      var some, last := pairs[..|pairs| - 1], pairs[|pairs| - 1];
      PairLines(lines, front, name, some);
      var printed, g, g' := lines + PrintPairs(some), Group(name, some), Group(name, pairs);
      PairLine(printed, front, g, last);
      assert some + [last] == pairs;
      assert g' == g.(pairs := some + [last]);
      PrintedLast(lines, pairs);
    }
  }

  lemma PrintedLast(lines: seq<string>, pairs: seq<(string, string)>)
    requires pairs != []
    ensures lines + PrintPairs(pairs) ==
      lines + PrintPairs(pairs[..|pairs| - 1]) + [PrintPair(pairs[|pairs| - 1])]
  {
    Regroup(lines, PrintPairs(pairs[..|pairs| - 1]), [PrintPair(pairs[|pairs| - 1])]);
  }

  lemma Regroup(a: seq<string>, b: seq<string>, c: seq<string>)
    ensures a + (b + c) == a + b + c
  {
  }

  // What is held after some groups: the unnamed section, printed or not, then the rest.
  function Held(groups: seq<Group>): seq<Group> {
    if groups != [] && groups[0].name.None? then groups else [Group(None, [])] + groups
  }

  lemma GroupLines(lines: seq<string>, g: Group)
    requires g.name.Some?
    ensures lines + PrintGroup(g) == (lines + [PrintHeader(g.name.value)]) + PrintPairs(g.pairs)
  {
  }

  lemma NamedGroupHolds(lines: seq<string>, held: seq<Group>, g: Group)
    requires HeldAfter(lines, held) && GroupWellFormed(g) && g.name.Some?
    requires forall i :: 0 <= i < |held| ==> held[i].name != g.name
    ensures HeldAfter(lines + PrintGroup(g), held + [g])
  {
    var name := g.name.value;
    var printed := lines + [PrintHeader(name)];
    HeaderLine(lines, held, name);
    assert g.name == Some(name) && g == Group(g.name, g.pairs);
    PairLines(printed, held, g.name, g.pairs);
    GroupLines(lines, g);
  }

  lemma NothingHolds()
    ensures HeldAfter([], [Group(None, [])])
  {
    assert Contents(EMPTY.order)[0] == Group(None, []);
    assert Numbered([]) == [];
    assert Holds(EMPTY, [Group(None, [])]);
  }

  lemma PreludeHolds(g: Group)
    requires GroupWellFormed(g) && g.name.None?
    ensures HeldAfter(PrintGroup(g), [g])
  {
    NothingHolds();
    assert [] + [Group(None, [])] == [Group(None, [])];
    PairLines([], [], None, g.pairs);
    assert PrintGroup(g) == [] + PrintPairs(g.pairs) && [] + [g] == [g];
  }

  lemma HeldGrows(front: seq<Group>, last: Group)
    requires WellFormed(front + [last]) && last.name.Some?
    ensures Held(front + [last]) == Held(front) + [last]
    ensures WellFormed(front) && GroupWellFormed(last)
    ensures forall i :: 0 <= i < |Held(front)| ==> Held(front)[i].name != last.name
  {
    var groups := front + [last];
    assert forall i :: 0 <= i < |front| ==> front[i] == groups[i];
    assert groups[|front|] == last;
  }

  lemma {:induction false} PrintIsHeld(groups: seq<Group>)
    requires WellFormed(groups)
    ensures HeldAfter(Print(groups), Held(groups))
    decreases |groups|
  {
    if groups == [] {
      NothingHolds();
      assert Print(groups) == [] && Held(groups) == [Group(None, [])];
    } else {
      var front, last := groups[..|groups| - 1], groups[|groups| - 1];
      if last.name.Some? {
        assert groups == front + [last];
        HeldGrows(front, last);
        PrintIsHeld(front);
        NamedGroupHolds(Print(front), Held(front), last);
      } else {
        PreludeHolds(last);
        assert front == [] && Print(groups) == PrintGroup(last);
        assert Held(groups) == [last];
      }
    }
  }

  lemma {:induction false} PairsArePlain(pairs: seq<(string, string)>)
    requires forall p :: p in pairs ==> PairWellFormed(p)
    ensures AllPlain(PrintPairs(pairs))
    decreases |pairs|
  {
    if pairs != [] {
      PairsArePlain(pairs[..|pairs| - 1]);
      assert PairWellFormed(pairs[|pairs| - 1]) && EndsWith(PrintPair(pairs[|pairs| - 1]), '"');
    }
  }

  lemma {:induction false} PrintIsPlain(groups: seq<Group>)
    requires forall g :: g in groups ==> GroupWellFormed(g)
    ensures AllPlain(Print(groups))
    decreases |groups|
  {
    if groups != [] {
      var last := groups[|groups| - 1];
      PrintIsPlain(groups[..|groups| - 1]);
      assert last in groups;
      PairsArePlain(last.pairs);
      assert last.name.Some? ==> EndsWith(PrintHeader(last.name.value), ']');
    }
  }

  // Parsing the printed lines of well-formed sections returns the same sections, keys and
  // values, and no syntax error.
  lemma PrintParses(groups: seq<Group>)
    requires WellFormed(groups)
    ensures ParsedOf(Print(groups)).syntaxErrors == []
    ensures Contents(ParsedOf(Print(groups)).sections) == groups
  {
    var lines := Print(groups);
    PrintIsPlain(groups);
    PlainLinesStand(lines, 0);
    PrintIsHeld(groups);
    var d :| Holds(d, Held(groups)) && d == FoldAll(Numbered(lines));
    assert Numbered(lines)[0..] == Numbered(lines);
    HeldReports(d.order, groups);
  }

  lemma HeldShape(order: seq<Section>, groups: seq<Group>)
    requires WellFormed(groups) && Contents(order) == Held(groups)
    ensures order != [] && order[0].name == None && forall k :: 0 < k < |order| ==> order[k].name.Some?
    ensures order[0].entries == [] <==> Held(groups)[0].pairs == []
  {
    var held := Held(groups);
    forall k | 0 <= k < |order| ensures GroupOf(order[k]) == held[k] {
      assert Contents(order)[k] == held[k];
    }
    assert forall k :: 0 < k < |held| ==> held[k].name.Some?;
    assert |PairsOf(order[0].entries)| == |order[0].entries|;
  }

  lemma HeldReports(order: seq<Section>, groups: seq<Group>)
    requires WellFormed(groups) && Contents(order) == Held(groups)
    ensures Contents(ReportedOf(order)) == groups
  {
    HeldShape(order, groups);
    ReportedIs(order);
    assert Contents(order[1..]) == Contents(order)[1..];
  }

  lemma PrintIsLines(groups: seq<Group>)
    requires WellFormed(groups) && groups != []
    ensures Print(groups) != [] && forall k :: 0 <= k < |Print(groups)| ==> '\n' !in Print(groups)[k]
  {
    var last := groups[|groups| - 1];
    PrintIsPlain(groups);
    assert PrintGroup(last) != [];
    forall k | 0 <= k < |Print(groups)| ensures '\n' !in Print(groups)[k] {
      assert Plain(Print(groups)[k]);
    }
  }

  // The same of the printed text, which the reader splits at newlines itself.
  lemma PrintedTextParses(groups: seq<Group>)
    requires WellFormed(groups) && groups != []
    ensures Print(groups) != []
    ensures var p := ParsedOf(Split(Join(Print(groups), '\n'), '\n'));
      p.syntaxErrors == [] && Contents(p.sections) == groups
  {
    PrintIsLines(groups);
    PrintParses(groups);
    SplitOfJoin(Print(groups), '\n');
  }
}
