// The reader of cubrid.conf files: one pass over the physical lines, against a specification in
// two phases that first joins physical lines into logical lines and then folds each of them in.
module ConfText {
  import opened Common
  import opened Strings

  const MAX_LINE_BYTES: nat := 510

  datatype Entry = Entry(key: string, value: string, lineNo: nat)

  // The section of keys before any header has no name.
  type Name = Option<string>

  datatype Section = Section(name: Name, lineNo: Option<nat>, entries: seq<Entry>)

  datatype Problem = LineTooLong | NotALine

  datatype SyntaxError = SyntaxError(lineNo: nat, problem: Problem)

  datatype Parsed = Parsed(sections: seq<Section>, syntaxErrors: seq<SyntaxError>)

  function SkipSpaces(s: string, from: nat): (i: nat)
    requires from <= |s|
    ensures from <= i <= |s|
    ensures forall j :: from <= j < i ==> IsSpace(s[j])
    ensures i < |s| ==> !IsSpace(s[i])
    decreases |s| - from
  {
    if from < |s| && IsSpace(s[from]) then SkipSpaces(s, from + 1) else from
  }

  // Bytes of the UTF-8 encoding.
  function Utf8Length(s: string): nat {
    if s == "" then 0
    else
      var c := s[0] as int;
      (if c < 0x80 then 1 else if c < 0x800 then 2 else if c < 0x10000 then 3 else 4) + Utf8Length(s[1..])
  }

  predicate EndsWith(s: string, c: char) {
    s != "" && s[|s| - 1] == c
  }

  predicate StartsWith(s: string, c: char) {
    s != "" && s[0] == c
  }

  function WithoutCr(s: string): string {
    if EndsWith(s, '\r') then s[..|s| - 1] else s
  }

  function NormalizeSectionName(raw: string): string {
    var trimmed := Trim(raw);
    var name :=
      if StartsWith(trimmed, '@') || StartsWith(trimmed, '%') then [trimmed[0]] + Trim(trimmed[1..]) else trimmed;
    if StartsWith(trimmed, '@') then name else ToLower(name)
  }

  function BeforeComment(s: string): string {
    if s == "" || s[0] == ';' || s[0] == '#' then "" else [s[0]] + BeforeComment(s[1..])
  }

  function ValueFrom(line: string, at: nat): string
    requires at <= |line|
  {
    var rest := line[at..];
    var quoted :=
      if StartsWith(rest, '"') || StartsWith(rest, '\'') then line[at + 1..IndexOf(line, rest[0], at + 1)] else "";
    if quoted != "" then quoted else BeforeComment(rest)
  }

  function ParseKeyValue(line: string): Option<(string, string)> {
    var eq := IndexOf(line, '=', 0);
    if eq == 0 || eq == |line| then None
    else Some((line[..eq], ValueFrom(line, SkipSpaces(line, eq + 1))))
  }

  // What a logical line says. `[]` names no section and leaves the current one.
  datatype Item = Ignored | Header(name: string) | KeyValue(key: string, value: string) | Bad

  function Classify(text: string): Item {
    var line := Trim(text);
    if line == "" || StartsWith(line, '#') then Ignored
    else if StartsWith(line, '[') && EndsWith(line, ']') then
      var inner := line[1..IndexOf(line, ']', 1)];
      if inner == "" then Ignored else Header(NormalizeSectionName(inner))
    else
      match ParseKeyValue(line)
      case None => Bad
      case Some((key, raw)) =>
        var value := Trim(raw);
        KeyValue(Trim(key), if value == "\"\"" || value == "''" then "" else value)
  }

  // Phase one: a logical line and the physical line it starts on, or a line that is too long.
  datatype Logical = Line(lineNo: nat, text: string) | Overlong(lineNo: nat)

  // Reads on from physical line i, `pending` being what continuation lines gave so far; also
  // the first physical line not read. A backslash at the very end of the file drops the line.
  function ReadLogical(physical: seq<string>, i: nat, pending: string, start: nat): (r: (seq<Logical>, nat))
    requires i <= |physical|
    ensures i <= r.1 <= |physical| && (i < |physical| ==> i < r.1)
    decreases |physical| - i
  {
    if i == |physical| then ([], i)
    else
      var raw := WithoutCr(physical[i]);
      if Utf8Length(pending) + Utf8Length(raw) > MAX_LINE_BYTES then ([Overlong(i + 1)], i + 1)
      else
        var text := pending + TrimRight(raw);
        if !EndsWith(text, '\\') then ([Line(start, text)], i + 1)
        else if |text| == 1 then ([], i + 1)
        else ReadLogical(physical, i + 1, text[..|text| - 1], start)
  }

  function LogicalLines(physical: seq<string>, i: nat): seq<Logical>
    requires i <= |physical|
    decreases |physical| - i
  {
    if i == |physical| then []
    else
      var (line, next) := ReadLogical(physical, i, "", i + 1);
      line + LogicalLines(physical, next)
  }

  // Phase two: the sections in order, the index of the current one, and the errors.
  datatype Doc = Doc(order: seq<Section>, current: nat, errors: seq<SyntaxError>)

  const EMPTY: Doc := Doc([Section(None, None, [])], 0, [])

  function IndexOfSection(order: seq<Section>, name: Name): (i: nat)
    ensures i <= |order|
    ensures i < |order| ==> order[i].name == name
    ensures forall j :: 0 <= j < i ==> order[j].name != name
  {
    if order == [] || order[0].name == name then 0 else 1 + IndexOfSection(order[1..], name)
  }

  function InSection(d: Doc, name: Name, lineNo: nat): (r: Doc)
    ensures r.current < |r.order| && |d.order| <= |r.order|
  {
    var i := IndexOfSection(d.order, name);
    if i < |d.order| then d.(current := i)
    else d.(order := d.order + [Section(name, Some(lineNo), [])], current := |d.order|)
  }

  function WithEntry(d: Doc, e: Entry): Doc
    requires d.current < |d.order|
  {
    var section := d.order[d.current];
    d.(order := d.order[d.current := section.(entries := section.entries + [e])])
  }

  function WithError(d: Doc, lineNo: nat, problem: Problem): Doc {
    d.(errors := d.errors + [SyntaxError(lineNo, problem)])
  }

  function Folded(d: Doc, l: Logical): (r: Doc)
    requires d.current < |d.order|
    ensures r.current < |r.order|
  {
    match l
    case Overlong(lineNo) => WithError(d, lineNo, LineTooLong)
    case Line(lineNo, text) =>
      (match Classify(text)
       case Ignored => d
       case Header(name) => InSection(d, Some(name), lineNo)
       case KeyValue(key, value) => WithEntry(d, Entry(key, value, lineNo))
       case Bad => WithError(d, lineNo, NotALine))
  }

  function FoldAll(lines: seq<Logical>): (d: Doc)
    ensures d.current < |d.order|
  {
    if lines == [] then EMPTY else Folded(FoldAll(lines[..|lines| - 1]), lines[|lines| - 1])
  }

  // The prelude is reported only when it has entries.
  predicate Reported(s: Section) {
    s.name.Some? || s.entries != []
  }

  function ReportedOf(order: seq<Section>): seq<Section> {
    if order == [] then []
    else
      var last := order[|order| - 1];
      ReportedOf(order[..|order| - 1]) + (if Reported(last) then [last] else [])
  }

  function ParsedOf(physical: seq<string>): Parsed {
    var d := FoldAll(LogicalLines(physical, 0));
    Parsed(ReportedOf(d.order), d.errors)
  }

  // The part of the logical lines still to come, mid-line when something is pending.
  function LinesToCome(physical: seq<string>, i: nat, pending: string, start: nat): seq<Logical>
    requires i <= |physical|
  {
    if pending == "" then LogicalLines(physical, i)
    else
      var (line, next) := ReadLogical(physical, i, pending, start);
      line + LogicalLines(physical, next)
  }

  method IniTrim(s: string) returns (r: string)
    ensures r == Trim(s)
  {
    var start, end := 0, |s|;
    while start < end && IsSpace(s[start])
      invariant start <= end == |s|
      invariant forall j :: 0 <= j < start ==> IsSpace(s[j])
    {
      start := start + 1;
    }
    TrimLeftAt(s, start);
    while end > start && IsSpace(s[end - 1])
      invariant start <= end <= |s|
      invariant forall j :: end <= j < |s| ==> IsSpace(s[j])
    {
      end := end - 1;
    }
    TrimRightAt(s[start..], end - start);
    r := s[start..end];
    assert r == s[start..][..end - start];
  }

  method StripTrailing(raw: string) returns (stripped: string)
    ensures stripped == TrimRight(raw)
  {
    stripped := raw;
    while |stripped| > 0 && IsSpace(stripped[|stripped| - 1])
      invariant TrimRight(stripped) == TrimRight(raw)
    {
      stripped := stripped[..|stripped| - 1];
    }
  }

  // sectionFor: the map finds the section by name; a new one goes last.
  predicate Indexed(order: seq<Section>, byName: map<Name, nat>) {
    && (forall i :: 0 <= i < |order| ==> order[i].name in byName && byName[order[i].name] == i)
    && (forall n :: n in byName ==> byName[n] < |order| && order[byName[n]].name == n)
  }

  lemma IndexedFinds(order: seq<Section>, byName: map<Name, nat>, name: Name)
    requires Indexed(order, byName)
    ensures IndexOfSection(order, name) == if name in byName then byName[name] else |order|
  {
    var i := IndexOfSection(order, name);
  }

  // One logical line, as the body of the loop folds it in.
  method FoldLine(d: Doc, byName: map<Name, nat>, lineNo: nat, text: string) returns (d': Doc, byName': map<Name, nat>)
    requires d.current < |d.order| && Indexed(d.order, byName)
    ensures d' == Folded(d, Line(lineNo, text)) && Indexed(d'.order, byName')
  {
    d', byName' := d, byName;
    var line := IniTrim(text);
    if line == "" || StartsWith(line, '#') { return; }
    if StartsWith(line, '[') && EndsWith(line, ']') {
      var inner := line[1..IndexOf(line, ']', 1)];
      if inner == "" { return; }
      var name := Some(NormalizeSectionName(inner));
      IndexedFinds(d.order, byName, name);
      if name !in byName {
        d' := d.(order := d.order + [Section(name, Some(lineNo), [])]);
        byName' := byName[name := |d.order|];
      }
      d' := d'.(current := byName'[name]);
      return;
    }
    var kv := ParseKeyValue(line);
    if kv.None? {
      d' := WithError(d, lineNo, NotALine);
      return;
    }
    var key := IniTrim(kv.value.0);
    var value := IniTrim(kv.value.1);
    if value == "\"\"" || value == "''" { value := ""; }
    d' := WithEntry(d, Entry(key, value, lineNo));
  }

  lemma FoldOneMore(lines: seq<Logical>, l: Logical)
    ensures FoldAll(lines + [l]) == Folded(FoldAll(lines), l)
  {
    assert (lines + [l])[..|lines|] == lines;
  }

  // The filter at the end.
  method KeepReported(order: seq<Section>) returns (kept: seq<Section>)
    ensures kept == ReportedOf(order)
  {
    kept := [];
    var k := 0;
    while k < |order|
      invariant k <= |order| && kept == ReportedOf(order[..k])
    {
      assert order[..k + 1][..k] == order[..k];
      if Reported(order[k]) { kept := kept + [order[k]]; }
      k := k + 1;
    }
    assert order[..k] == order;
  }

  // What one physical line gives: a logical line, or more of the pending one.
  function Taken(line: string, i: nat, pending: string, start: nat): (seq<Logical>, string) {
    var raw := WithoutCr(line);
    var text := pending + TrimRight(raw);
    if Utf8Length(pending) + Utf8Length(raw) > MAX_LINE_BYTES then ([Overlong(i + 1)], "")
    else if EndsWith(text, '\\') then ([], text[..|text| - 1])
    else ([Line(start, text)], "")
  }

  lemma NextPhysicalLine(physical: seq<string>, i: nat, pending: string, start: nat)
    requires i < |physical| && (pending == "" ==> start == i + 1)
    ensures var (line, pending') := Taken(physical[i], i, pending, start);
      LinesToCome(physical, i, pending, start) == line + LinesToCome(physical, i + 1, pending', start)
  {
    var (line, next) := ReadLogical(physical, i, pending, start);
    assert LinesToCome(physical, i, pending, start) == line + LogicalLines(physical, next);
    var (taken, pending') := Taken(physical[i], i, pending, start);
    assert if pending' == "" then line == taken && next == i + 1
           else taken == [] && (line, next) == ReadLogical(physical, i + 1, pending', start);
  }

  lemma FoldTaken(done: seq<Logical>, taken: seq<Logical>, rest: seq<Logical>, all: seq<Logical>)
    requires |taken| <= 1 && done + (taken + rest) == all
    ensures (done + taken) + rest == all
    ensures FoldAll(done + taken) == if taken == [] then FoldAll(done) else Folded(FoldAll(done), taken[0])
  {
    if taken == [] {
      assert done + taken == done;
    } else {
      assert taken == [taken[0]];
      FoldOneMore(done, taken[0]);
    }
  }

  // The body of the loop: one physical line.
  method TakeLine(physical: seq<string>, i: nat, pending: string, start: nat, d: Doc, byName: map<Name, nat>)
    returns (pending': string, d': Doc, byName': map<Name, nat>)
    requires i < |physical| && d.current < |d.order| && Indexed(d.order, byName)
    ensures pending' == Taken(physical[i], i, pending, start).1
    ensures d' == var taken := Taken(physical[i], i, pending, start).0; if taken == [] then d else Folded(d, taken[0])
    ensures d'.current < |d'.order| && Indexed(d'.order, byName')
  {
    pending', d', byName' := "", d, byName;
    var raw := WithoutCr(physical[i]);
    var stripped := StripTrailing(raw);
    var accumulated := pending + stripped;
    if Utf8Length(pending) + Utf8Length(raw) > MAX_LINE_BYTES {
      d' := WithError(d, i + 1, LineTooLong);
    } else if EndsWith(accumulated, '\\') {
      pending' := accumulated[..|accumulated| - 1];
    } else {
      d', byName' := FoldLine(d, byName, start, accumulated);
    }
  }

  // After i physical lines: the logical lines so far are folded in, the others are to come.
  ghost predicate At(physical: seq<string>, i: nat, pending: string, start: nat, d: Doc) {
    i <= |physical| && exists done ::
      d == FoldAll(done) && done + LinesToCome(physical, i, pending, start) == LogicalLines(physical, 0)
  }

  lemma Advances(physical: seq<string>, i: nat, pending: string, start: nat, d: Doc)
    requires i < |physical| && At(physical, i, pending, start, d) && (pending == "" ==> start == i + 1)
    ensures d.current < |d.order|
    ensures var (taken, rest) := Taken(physical[i], i, pending, start);
      At(physical, i + 1, rest, start, if taken == [] then d else Folded(d, taken[0]))
  {
    var (taken, rest) := Taken(physical[i], i, pending, start);
    NextPhysicalLine(physical, i, pending, start);
    AdvancesBy(physical, i, pending, start, d, taken, rest);
  }

  lemma AdvancesBy(
    physical: seq<string>, i: nat, pending: string, start: nat, d: Doc, taken: seq<Logical>, rest: string)
    requires i < |physical| && At(physical, i, pending, start, d) && |taken| <= 1
    requires LinesToCome(physical, i, pending, start) == taken + LinesToCome(physical, i + 1, rest, start)
    ensures d.current < |d.order|
    ensures At(physical, i + 1, rest, start, if taken == [] then d else Folded(d, taken[0]))
  {
    var done :| d == FoldAll(done) && done + LinesToCome(physical, i, pending, start) == LogicalLines(physical, 0);
    FoldTaken(done, taken, LinesToCome(physical, i + 1, rest, start), LogicalLines(physical, 0));
    Stands(physical, i + 1, rest, start, FoldAll(done + taken), done + taken);
  }

  lemma Stands(physical: seq<string>, i: nat, pending: string, start: nat, d: Doc, done: seq<Logical>)
    requires i <= |physical| && d == FoldAll(done)
    requires done + LinesToCome(physical, i, pending, start) == LogicalLines(physical, 0)
    ensures At(physical, i, pending, start, d)
  {
  }

  lemma Begins(physical: seq<string>)
    ensures At(physical, 0, "", 0, EMPTY)
  {
    assert [] + LinesToCome(physical, 0, "", 0) == LogicalLines(physical, 0);
    assert EMPTY == FoldAll([]);
  }

  lemma Restarts(physical: seq<string>, i: nat, start: nat, start': nat, d: Doc)
    requires At(physical, i, "", start, d)
    ensures At(physical, i, "", start', d)
  {
    assert LinesToCome(physical, i, "", start) == LinesToCome(physical, i, "", start');
  }

  lemma Ends(physical: seq<string>, pending: string, start: nat, d: Doc)
    requires At(physical, |physical|, pending, start, d)
    ensures d == FoldAll(LogicalLines(physical, 0))
  {
    var done :| d == FoldAll(done)
      && done + LinesToCome(physical, |physical|, pending, start) == LogicalLines(physical, 0);
    assert done == LogicalLines(physical, 0);
  }

  // The one pass computes what the two phases say.
  method ParseConfText(physical: seq<string>) returns (r: Parsed)
    ensures r == ParsedOf(physical)
  {
    var d, byName := EMPTY, map[None := 0];
    var pending, pendingStart := "", 0;
    Begins(physical);
    for i := 0 to |physical|
      invariant At(physical, i, pending, pendingStart, d) && d.current < |d.order| && Indexed(d.order, byName)
    {
      if pending == "" {
        Restarts(physical, i, pendingStart, i + 1, d);
        pendingStart := i + 1;
      }
      Advances(physical, i, pending, pendingStart, d);
      pending, d, byName := TakeLine(physical, i, pending, pendingStart, d, byName);
    }
    Ends(physical, pending, pendingStart, d);
    var kept := KeepReported(d.order);
    r := Parsed(kept, d.errors);
  }
}
