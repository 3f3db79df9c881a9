// What single lines do to the result: comments and blank lines change nothing but line numbers, and
// each syntax error stands at the line that deserves it.
module ConfTextLines {
  import opened Common
  import opened Strings
  import opened ConfText
  import opened ConfTextLaws
  import opened LineFolds

  // Blank, a comment, or a header without a name.
  predicate Silent(text: string) {
    var line := Trim(text);
    line == "" || line[0] == '#' || (|line| > 1 && line[0] == '[' && line[1] == ']' && line[|line| - 1] == ']')
  }

  // In brackets, but not without a name.
  predicate IsHeader(text: string) {
    var line := Trim(text);
    !Silent(text) && line[0] == '[' && line[|line| - 1] == ']'
  }

  lemma SilentIsIgnored(text: string)
    ensures Silent(text) <==> Classify(text).Ignored?
    ensures IsHeader(text) <==> Classify(text).Header?
  {
    var line := Trim(text);
    if StartsWith(line, '[') && EndsWith(line, ']') {
      assert |line| > 1;
      var close := IndexOf(line, ']', 1);
      assert line[1] == ']' <==> close == 1;
    }
  }

  // A line is refused exactly when it is none of these and nothing stands before its first '='.
  lemma BadIff(text: string)
    ensures Classify(text).Bad? <==>
      var line := Trim(text); !Silent(text) && !IsHeader(text) && ('=' !in line || line[0] == '=')
  {
    SilentIsIgnored(text);
    var line := Trim(text);
    var eq := IndexOf(line, '=', 0);
    assert eq < |line| <==> '=' in line;
  }

  // What the lines read so far leave open, and on which line that started.
  datatype Open = Open(pending: string, start: nat)

  const NOTHING: Open := Open("", 0)

  // The line i is about to be read.
  function StartOf(o: Open, i: nat): nat {
    if o.pending == "" then i + 1 else o.start
  }

  function NextOpen(o: Open, line: string, i: nat): Open {
    var pending := Taken(line, i, o.pending, StartOf(o, i)).1;
    if pending == "" then NOTHING else Open(pending, StartOf(o, i))
  }

  function GivenLine(o: Open, line: string, i: nat): seq<Logical> {
    Taken(line, i, o.pending, StartOf(o, i)).0
  }

  function After(physical: seq<string>, i: nat): Open
    requires i <= |physical|
  {
    StateAfter(NextOpen, NOTHING, physical, i)
  }

  // The logical lines completed by the physical lines from a on, up to line i.
  function LinesOf(physical: seq<string>, a: nat, i: nat): seq<Logical>
    requires a <= i <= |physical|
  {
    Given(NextOpen, GivenLine, NOTHING, physical, a, i)
  }

  function ToCome(physical: seq<string>, i: nat): seq<Logical> {
    if i <= |physical| then LinesToCome(physical, i, After(physical, i).pending, After(physical, i).start) else []
  }

  lemma ToComeNext(physical: seq<string>, i: nat)
    requires i < |physical|
    ensures ToCome(physical, i) == GivenAt(NextOpen, GivenLine, NOTHING, physical, i) + ToCome(physical, i + 1)
  {
    var o := After(physical, i);
    NextPhysicalLine(physical, i, o.pending, StartOf(o, i));
    assert After(physical, i + 1) == NextOpen(o, physical[i], i);
  }

  lemma AllLines(physical: seq<string>)
    ensures LinesOf(physical, 0, |physical|) == LogicalLines(physical, 0)
  {
    forall k | 0 <= k < |physical|
      ensures ToCome(physical, k) == GivenAt(NextOpen, GivenLine, NOTHING, physical, k) + ToCome(physical, k + 1)
    {
      ToComeNext(physical, k);
    }
    GivesAll(NextOpen, GivenLine, NOTHING, physical, |physical|, i => ToCome(physical, i));
    assert ToCome(physical, |physical|) == [] && ToCome(physical, 0) == LogicalLines(physical, 0);
  }

  lemma {:induction false} ErrorStands(lines: seq<Logical>, e: SyntaxError)
    ensures e in ErrorsOf(lines) <==> exists l :: l in lines && ErrorOf(l) == Some(e)
  {
    if lines != [] {
      var before, last := lines[..|lines| - 1], lines[|lines| - 1];
      ErrorStands(before, e);
      assert lines == before + [last];
    }
  }

  // The line is too long in UTF-8, with what the lines before it left open.
  predicate TooLong(physical: seq<string>, i: nat)
    requires i < |physical|
  {
    Utf8Length(After(physical, i).pending) + Utf8Length(WithoutCr(physical[i])) > 510
  }

  lemma ErrorsAre(physical: seq<string>)
    ensures ParsedOf(physical).syntaxErrors == ErrorsOf(LogicalLines(physical, 0))
  {
    FoldIsDeclared(LogicalLines(physical, 0));
  }

  // A line is reported as too long exactly when it is, with what it continues, over 510 bytes.
  lemma TooLongIff(physical: seq<string>, lineNo: nat)
    ensures SyntaxError(lineNo, LineTooLong) in ParsedOf(physical).syntaxErrors <==>
      0 < lineNo <= |physical| && TooLong(physical, lineNo - 1)
  {
    ErrorsAre(physical);
    OverlongReported(LogicalLines(physical, 0), lineNo);
    OverlongStands(physical, LogicalLines(physical, 0), lineNo);
  }

  lemma OverlongStands(physical: seq<string>, lines: seq<Logical>, lineNo: nat)
    requires lines == LogicalLines(physical, 0)
    ensures Overlong(lineNo) in lines <==> 0 < lineNo <= |physical| && TooLong(physical, lineNo - 1)
  {
    AllLines(physical);
    GivenStands(NextOpen, GivenLine, NOTHING, physical, 0, |physical|, Overlong(lineNo));
    forall k | 0 <= k < |physical|
      ensures Overlong(lineNo) in GivenAt(NextOpen, GivenLine, NOTHING, physical, k)
        <==> k == lineNo - 1 && TooLong(physical, k)
    {
      OverlongAt(physical[k], k, After(physical, k), lineNo);
    }
  }

  lemma OverlongReported(lines: seq<Logical>, lineNo: nat)
    ensures SyntaxError(lineNo, LineTooLong) in ErrorsOf(lines) <==> Overlong(lineNo) in lines
  {
    ErrorStands(lines, SyntaxError(lineNo, LineTooLong));
    assert ErrorOf(Overlong(lineNo)) == Some(SyntaxError(lineNo, LineTooLong));
  }

  lemma OverlongAt(line: string, k: nat, o: Open, lineNo: nat)
    ensures Overlong(lineNo) in GivenLine(o, line, k) <==>
      k == lineNo - 1 && Utf8Length(o.pending) + Utf8Length(WithoutCr(line)) > 510
  {
  }

  // A line is reported as no key, header or comment exactly when it is none: it is not silent, no
  // header, and nothing stands before its first '='.
  lemma NotALineIff(physical: seq<string>, lineNo: nat)
    ensures SyntaxError(lineNo, NotALine) in ParsedOf(physical).syntaxErrors <==>
      exists text :: Line(lineNo, text) in LogicalLines(physical, 0)
        && !Silent(text) && !IsHeader(text) && ('=' !in Trim(text) || Trim(text)[0] == '=')
  {
    var lines, e := LogicalLines(physical, 0), SyntaxError(lineNo, NotALine);
    ErrorsAre(physical);
    ErrorStands(lines, e);
    if e in ErrorsOf(lines) {
      var l :| l in lines && ErrorOf(l) == Some(e);
      BadIff(l.text);
      assert l == Line(lineNo, l.text);
    }
    forall text | Line(lineNo, text) in lines ensures ErrorOf(Line(lineNo, text)) == Some(e) <==> Classify(text).Bad? {
    }
    forall text ensures Classify(text).Bad? <==>
      !Silent(text) && !IsHeader(text) && ('=' !in Trim(text) || Trim(text)[0] == '=')
    {
      BadIff(text);
    }
  }
}
