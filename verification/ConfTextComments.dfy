// A comment or blank line put anywhere between two logical lines only raises the line numbers
// after it.
module ConfTextComments {
  import opened Common
  import opened Strings
  import opened ConfText
  import opened ConfTextLaws
  import opened ConfTextLines
  import opened LineFolds

  // The numbers after n, raised by one.
  function Raised(lineNo: nat, n: nat): nat {
    if lineNo > n then lineNo + 1 else lineNo
  }

  function RaisedLine(l: Logical, n: nat): Logical {
    match l
    case Line(lineNo, text) => Line(Raised(lineNo, n), text)
    case Overlong(lineNo) => Overlong(Raised(lineNo, n))
  }

  function RaisedLines(lines: seq<Logical>, n: nat): (r: seq<Logical>)
    ensures |r| == |lines|
  {
    seq(|lines|, i requires 0 <= i < |lines| => RaisedLine(lines[i], n))
  }

  function RaisedEntries(entries: seq<Entry>, n: nat): (r: seq<Entry>)
    ensures |r| == |entries|
  {
    seq(|entries|, i requires 0 <= i < |entries| => entries[i].(lineNo := Raised(entries[i].lineNo, n)))
  }

  function RaisedSection(s: Section, n: nat): Section {
    Section(s.name, if s.lineNo.Some? then Some(Raised(s.lineNo.value, n)) else None, RaisedEntries(s.entries, n))
  }

  function RaisedSections(order: seq<Section>, n: nat): (r: seq<Section>)
    ensures |r| == |order|
  {
    seq(|order|, i requires 0 <= i < |order| => RaisedSection(order[i], n))
  }

  function RaisedErrors(errors: seq<SyntaxError>, n: nat): (r: seq<SyntaxError>)
    ensures |r| == |errors|
  {
    seq(|errors|, i requires 0 <= i < |errors| => errors[i].(lineNo := Raised(errors[i].lineNo, n)))
  }

  function RaisedDoc(d: Doc, n: nat): Doc {
    Doc(RaisedSections(d.order, n), d.current, RaisedErrors(d.errors, n))
  }

  function RaisedParsed(p: Parsed, n: nat): Parsed {
    Parsed(RaisedSections(p.sections, n), RaisedErrors(p.syntaxErrors, n))
  }

  lemma SameIndex(order: seq<Section>, name: Name, n: nat)
    ensures IndexOfSection(RaisedSections(order, n), name) == IndexOfSection(order, name)
  {
    var order' := RaisedSections(order, n);
    assert forall k :: 0 <= k < |order| ==> order'[k].name == order[k].name;
  }

  lemma RaisedHeader(d: Doc, name: Name, lineNo: nat, n: nat)
    ensures InSection(RaisedDoc(d, n), name, Raised(lineNo, n)) == RaisedDoc(InSection(d, name, lineNo), n)
  {
    SameIndex(d.order, name, n);
    var order := d.order + [Section(name, Some(lineNo), [])];
    assert RaisedSections(order, n) == RaisedSections(d.order, n) + [Section(name, Some(Raised(lineNo, n)), [])];
  }

  lemma RaisedEntry(d: Doc, e: Entry, n: nat)
    requires d.current < |d.order|
    ensures WithEntry(RaisedDoc(d, n), e.(lineNo := Raised(e.lineNo, n))) == RaisedDoc(WithEntry(d, e), n)
  {
    var s := d.order[d.current];
    var s' := s.(entries := s.entries + [e]);
    assert RaisedEntries(s'.entries, n) == RaisedEntries(s.entries, n) + [e.(lineNo := Raised(e.lineNo, n))];
    assert RaisedSections(d.order[d.current := s'], n) == RaisedSections(d.order, n)[d.current := RaisedSection(s', n)];
  }

  lemma RaisedFold(d: Doc, l: Logical, n: nat)
    requires d.current < |d.order|
    ensures Folded(RaisedDoc(d, n), RaisedLine(l, n)) == RaisedDoc(Folded(d, l), n)
  {
    match l
    case Overlong(lineNo) =>
    case Line(lineNo, text) =>
      match Classify(text)
      case Ignored =>
      case Header(name) => RaisedHeader(d, Some(name), lineNo, n);
      case KeyValue(key, value) => RaisedEntry(d, Entry(key, value, lineNo), n);
      case Bad =>
  }

  lemma {:induction false} RaisedFoldAll(lines: seq<Logical>, n: nat)
    ensures FoldAll(RaisedLines(lines, n)) == RaisedDoc(FoldAll(lines), n)
  {
    if lines != [] {
      var before, last := lines[..|lines| - 1], lines[|lines| - 1];
      RaisedFoldAll(before, n);
      assert RaisedLines(lines, n)[..|lines| - 1] == RaisedLines(before, n);
      RaisedFold(FoldAll(before), last, n);
    } else {
      assert RaisedSections(EMPTY.order, n) == EMPTY.order;
    }
  }

  lemma {:induction false} RaisedReported(order: seq<Section>, n: nat)
    ensures ReportedOf(RaisedSections(order, n)) == RaisedSections(ReportedOf(order), n)
  {
    if order != [] {
      var before, last := order[..|order| - 1], order[|order| - 1];
      RaisedReported(before, n);
      assert RaisedSections(order, n)[..|order| - 1] == RaisedSections(before, n);
      assert RaisedSections(ReportedOf(before) + [last], n) ==
        RaisedSections(ReportedOf(before), n) + [RaisedSection(last, n)];
    }
  }

  lemma FoldLast(a: seq<Logical>, b: seq<Logical>)
    requires b != []
    ensures FoldAll(a + b) == Folded(FoldAll(a + b[..|b| - 1]), b[|b| - 1])
  {
    FoldOneMore(a + b[..|b| - 1], b[|b| - 1]);
    assert a + b == a + b[..|b| - 1] + [b[|b| - 1]];
  }

  // A line that is ignored may as well not be there.
  lemma {:induction false} IgnoredLineFolds(a: seq<Logical>, l: Logical, b: seq<Logical>)
    requires l.Line? && Silent(l.text)
    ensures FoldAll(a + [l] + b) == FoldAll(a + b)
    decreases |b|
  {
    if b == [] {
      SilentIsIgnored(l.text);
      FoldOneMore(a, l);
      assert a + [l] + b == a + [l] && a + b == a;
    } else {
      var front, last := b[..|b| - 1], b[|b| - 1];
      IgnoredLineFolds(a, l, front);
      FoldLast(a + [l], b);
      FoldLast(a, b);
    }
  }

  function Down(l: Logical): Logical {
    match l
    case Line(lineNo, text) => Line(lineNo + 1, text)
    case Overlong(lineNo) => Overlong(lineNo + 1)
  }

  function OpenDown(o: Open): Open {
    if o.pending == "" then NOTHING else Open(o.pending, o.start + 1)
  }

  // What is open started after line n.
  predicate StartsAfter(o: Open, n: nat) {
    if o.pending == "" then o == NOTHING else o.start > n
  }

  lemma ReadDown(o: Open, line: string, k: nat, n: nat)
    requires StartsAfter(o, n) && k >= n
    ensures StartsAfter(NextOpen(o, line, k), n)
    ensures NextOpen(OpenDown(o), line, k + 1) == OpenDown(NextOpen(o, line, k))
    ensures GivenLine(OpenDown(o), line, k + 1) == Mapped(Down, GivenLine(o, line, k))
    ensures forall l :: l in GivenLine(o, line, k) ==> l.lineNo > n
  {
  }

  // The lines below n are read as they were, each numbered one more.
  lemma RestGoesDown(p: seq<string>, q: seq<string>, n: nat)
    requires n <= |p| && |q| == |p| + 1 && (forall k :: n <= k < |p| ==> q[k + 1] == p[k])
    requires After(p, n) == NOTHING && After(q, n + 1) == NOTHING
    ensures LinesOf(q, n + 1, |q|) == Mapped(Down, LinesOf(p, n, |p|))
  {
    var ok := (o: Open) => StartsAfter(o, n);
    forall o, x, k | ok(o) && k >= n
      ensures ok(NextOpen(o, x, k)) && NextOpen(OpenDown(o), x, k + 1) == OpenDown(NextOpen(o, x, k))
      ensures GivenLine(OpenDown(o), x, k + 1) == Mapped(Down, GivenLine(o, x, k))
    {
      ReadDown(o, x, k, n);
    }
    FurtherDown(NextOpen, GivenLine, NOTHING, p, q, n, |p|, OpenDown, Down, ok);
  }

  // The lines before n are numbered by lines that have been read, those from n on by later ones.
  lemma {:induction false} NumberedInTime(physical: seq<string>, i: nat)
    requires i <= |physical|
    ensures var o := After(physical, i); o.pending != "" ==> o.start <= i
  {
    if i > 0 { NumberedInTime(physical, i - 1); }
  }

  lemma {:induction false} StartedAfter(physical: seq<string>, n: nat, i: nat)
    requires n <= i <= |physical| && After(physical, n) == NOTHING
    ensures StartsAfter(After(physical, i), n)
  {
    if i > n {
      StartedAfter(physical, n, i - 1);
      ReadDown(After(physical, i - 1), physical[i - 1], i - 1, n);
    }
  }

  lemma NumbersBefore(physical: seq<string>, n: nat)
    requires n <= |physical|
    ensures forall l :: l in LinesOf(physical, 0, n) ==> l.lineNo <= n
  {
    forall k, l | 0 <= k < n && l in GivenAt(NextOpen, GivenLine, NOTHING, physical, k) ensures l.lineNo <= n {
      NumberedInTime(physical, k);
    }
    GivenHolds(NextOpen, GivenLine, NOTHING, physical, 0, n, (l: Logical) => l.lineNo <= n);
  }

  lemma NumbersFrom(physical: seq<string>, n: nat)
    requires n <= |physical| && After(physical, n) == NOTHING
    ensures forall l :: l in LinesOf(physical, n, |physical|) ==> l.lineNo > n
  {
    forall k, l | n <= k < |physical| && l in GivenAt(NextOpen, GivenLine, NOTHING, physical, k) ensures l.lineNo > n {
      StartedAfter(physical, n, k);
      ReadDown(After(physical, k), physical[k], k, n);
    }
    GivenHolds(NextOpen, GivenLine, NOTHING, physical, n, |physical|, (l: Logical) => l.lineNo > n);
  }

  // The text a line contributes when nothing is open before it.
  function TextOf(x: string): string {
    TrimRight(WithoutCr(x))
  }

  // An ignored line by itself: it fits, and opens no continuation.
  predicate IgnoredAlone(x: string) {
    Silent(TextOf(x)) && !EndsWith(TextOf(x), '\\') && Utf8Length(WithoutCr(x)) <= 510
  }

  lemma AloneIsRead(x: string, n: nat)
    requires IgnoredAlone(x)
    ensures NextOpen(NOTHING, x, n) == NOTHING && GivenLine(NOTHING, x, n) == [Line(n + 1, TextOf(x))]
  {
    assert "" + TextOf(x) == TextOf(x);
  }

  // Both texts agree up to line n, and after the inserted line.
  lemma InsertedLines(p: seq<string>, q: seq<string>, x: string, n: nat)
    requires n <= |p| && |q| == |p| + 1 && p[..n] == q[..n] && q[n] == x
    requires (forall k :: n <= k < |p| ==> q[k + 1] == p[k]) && After(p, n) == NOTHING && IgnoredAlone(x)
    ensures LogicalLines(p, 0) == LinesOf(p, 0, n) + LinesOf(p, n, |p|)
    ensures LogicalLines(q, 0) ==
      LinesOf(p, 0, n) + ([Line(n + 1, TextOf(x))] + Mapped(Down, LinesOf(p, n, |p|)))
  {
    AllLines(p);
    AllLines(q);
    GivenSplits(NextOpen, GivenLine, NOTHING, p, n, |p|);
    GivenSplits(NextOpen, GivenLine, NOTHING, q, n, |q|);
    PrefixDecides(NextOpen, GivenLine, NOTHING, p[..n], p, n);
    PrefixDecides(NextOpen, GivenLine, NOTHING, q[..n], q, n);
    AloneIsRead(x, n);
    InsertedOne(q, x, n);
    RestGoesDown(p, q, n);
  }

  lemma InsertedOne(q: seq<string>, x: string, n: nat)
    requires n < |q| && q[n] == x && After(q, n) == NOTHING && NextOpen(NOTHING, x, n) == NOTHING
    ensures After(q, n + 1) == NOTHING
    ensures LinesOf(q, n, |q|) == GivenLine(NOTHING, x, n) + LinesOf(q, n + 1, |q|)
  {
    GivenFirst(NextOpen, GivenLine, NOTHING, q, n, |q|);
  }

  lemma RaisedIs(p: seq<string>, n: nat)
    requires n <= |p| && After(p, n) == NOTHING
    ensures RaisedLines(LinesOf(p, 0, n), n) == LinesOf(p, 0, n)
    ensures RaisedLines(LinesOf(p, n, |p|), n) == Mapped(Down, LinesOf(p, n, |p|))
  {
    NumbersBefore(p, n);
    NumbersFrom(p, n);
  }

  lemma RaisedConcat(a: seq<Logical>, b: seq<Logical>, n: nat)
    ensures RaisedLines(a + b, n) == RaisedLines(a, n) + RaisedLines(b, n)
  {
  }

  lemma InsertedFold(a: seq<Logical>, l: Logical, b: seq<Logical>, n: nat)
    requires l.Line? && Silent(l.text)
    ensures FoldAll(RaisedLines(a, n) + ([l] + RaisedLines(b, n))) == RaisedDoc(FoldAll(a + b), n)
  {
    var a', b' := RaisedLines(a, n), RaisedLines(b, n);
    IgnoredLineFolds(a', l, b');
    assert a' + ([l] + b') == a' + [l] + b';
    RaisedConcat(a, b, n);
    RaisedFoldAll(a + b, n);
  }

  // Wherever no continuation is open, putting in a blank line or a comment changes nothing but the
  // numbers of the lines after it; taking one out likewise.
  lemma IgnoredLineInserted(before: seq<string>, x: string, after: seq<string>)
    requires After(before, |before|).pending == "" && IgnoredAlone(x)
    ensures ParsedOf(before + [x] + after) == RaisedParsed(ParsedOf(before + after), |before|)
  {
    var n, p, q := |before|, before + after, before + [x] + after;
    OpenIsNormal(before, n);
    PrefixDecides(NextOpen, GivenLine, NOTHING, before, p, n);
    assert p[..n] == before == q[..n];
    InsertedParses(p, q, x, n);
  }

  lemma InsertedParses(p: seq<string>, q: seq<string>, x: string, n: nat)
    requires n <= |p| && |q| == |p| + 1 && p[..n] == q[..n] && q[n] == x
    requires (forall k :: n <= k < |p| ==> q[k + 1] == p[k]) && After(p, n) == NOTHING && IgnoredAlone(x)
    ensures ParsedOf(q) == RaisedParsed(ParsedOf(p), n)
  {
    InsertedLines(p, q, x, n);
    RaisedIs(p, n);
    InsertedFold(LinesOf(p, 0, n), Line(n + 1, TextOf(x)), LinesOf(p, n, |p|), n);
    RaisedReported(FoldAll(LogicalLines(p, 0)).order, n);
  }

  lemma OpenIsNormal(physical: seq<string>, i: nat)
    requires i <= |physical| && After(physical, i).pending == ""
    ensures After(physical, i) == NOTHING
  {
  }
}
