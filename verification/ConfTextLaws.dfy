// What the reader's result is, said without running it: sections are the names in order of
// first appearance, and each holds exactly the entries written under its name.
module ConfTextLaws {
  import opened Common
  import opened Strings
  import opened ConfText

  function HeaderOf(l: Logical): Name {
    if l.Line? && Classify(l.text).Header? then Some(Classify(l.text).name) else None
  }

  function EntryOf(l: Logical): Option<Entry> {
    if l.Line? && Classify(l.text).KeyValue? then
      Some(Entry(Classify(l.text).key, Classify(l.text).value, l.lineNo))
    else None
  }

  function ErrorOf(l: Logical): Option<SyntaxError> {
    if l.Overlong? then Some(SyntaxError(l.lineNo, LineTooLong))
    else if Classify(l.text).Bad? then Some(SyntaxError(l.lineNo, NotALine))
    else None
  }

  function OptionToSeq<T>(o: Option<T>): seq<T> {
    if o.Some? then [o.value] else []
  }

  function ErrorsOf(lines: seq<Logical>): seq<SyntaxError> {
    if lines == [] then [] else ErrorsOf(lines[..|lines| - 1]) + OptionToSeq(ErrorOf(lines[|lines| - 1]))
  }

  // The name the last header gave.
  function NameAfter(lines: seq<Logical>): Name {
    if lines == [] then None
    else
      var name := HeaderOf(lines[|lines| - 1]);
      if name.Some? then name else NameAfter(lines[..|lines| - 1])
  }

  // The entries written under a name, wherever they stand, in order.
  function EntriesUnder(lines: seq<Logical>, name: Name): seq<Entry> {
    if lines == [] then []
    else
      var before := lines[..|lines| - 1];
      EntriesUnder(before, name)
      + if NameAfter(before) == name then OptionToSeq(EntryOf(lines[|lines| - 1])) else []
  }

  // No name, then the names of the headers in order of first appearance.
  function Names(lines: seq<Logical>): (names: seq<Name>)
    ensures names != []
  {
    if lines == [] then [None]
    else
      var names, name := Names(lines[..|lines| - 1]), HeaderOf(lines[|lines| - 1]);
      if name in names then names else names + [name]
  }

  function FirstHeader(lines: seq<Logical>, name: Name): Option<nat> {
    if lines == [] then None
    else
      var first, last := FirstHeader(lines[..|lines| - 1], name), lines[|lines| - 1];
      if first.Some? then first
      else if name.Some? && HeaderOf(last) == name then Some(last.lineNo)
      else None
  }

  function SectionNamed(lines: seq<Logical>, name: Name): Section {
    Section(name, FirstHeader(lines, name), EntriesUnder(lines, name))
  }

  function SectionsOf(lines: seq<Logical>): (s: seq<Section>)
    ensures |s| == |Names(lines)| > 0
    ensures forall i :: 0 <= i < |s| ==> s[i].name == Names(lines)[i]
  {
    seq(|Names(lines)|, i requires 0 <= i < |Names(lines)| => SectionNamed(lines, Names(lines)[i]))
  }

  lemma {:induction false} NamesAreDistinct(lines: seq<Logical>)
    ensures Distinct(Names(lines)) && |Names(lines)| > 0 && Names(lines)[0] == None
    ensures NameAfter(lines) in Names(lines)
  {
    if lines != [] { NamesAreDistinct(lines[..|lines| - 1]); }
  }

  lemma {:induction false} UnnamedHasNothing(lines: seq<Logical>, name: Name)
    requires name !in Names(lines)
    ensures FirstHeader(lines, name) == None && EntriesUnder(lines, name) == []
  {
    if lines != [] {
      NamesAreDistinct(lines[..|lines| - 1]);
      UnnamedHasNothing(lines[..|lines| - 1], name);
    }
  }

  lemma {:induction false} NamedHasHeader(lines: seq<Logical>, name: Name)
    requires name in Names(lines)
    ensures FirstHeader(lines, name).Some? <==> name.Some?
  {
    if lines != [] {
      var before := lines[..|lines| - 1];
      if name in Names(before) { NamedHasHeader(before, name); } else { UnnamedHasNothing(before, name); }
    }
  }

  ghost predicate Declared(lines: seq<Logical>, d: Doc) {
    && d.order == SectionsOf(lines) && d.errors == ErrorsOf(lines)
    && d.current < |d.order| && Names(lines)[d.current] == NameAfter(lines)
  }

  lemma HeaderDeclares(before: seq<Logical>, l: Logical, d: Doc)
    requires Declared(before, d) && HeaderOf(l).Some?
    ensures Declared(before + [l], Folded(d, l))
  {
    var lines, name := before + [l], HeaderOf(l);
    assert lines[..|before|] == before;
    assert Folded(d, l) == InSection(d, name, l.lineNo);
    var i := IndexOfSection(d.order, name);
    if i < |d.order| {
      NamedHasHeader(before, name);
      assert name == Names(before)[i];
      SameSections(before, l);
    } else {
      assert forall k :: 0 <= k < |Names(before)| ==> d.order[k].name == Names(before)[k];
      UnnamedHasNothing(before, name);
      SameSections(before, l);
      assert SectionNamed(lines, name) == Section(name, Some(l.lineNo), []);
    }
  }

  // A line that is no entry changes no section named before.
  lemma SameSections(before: seq<Logical>, l: Logical)
    requires EntryOf(l).None?
    ensures forall k :: 0 <= k < |Names(before)| ==>
      SectionNamed(before + [l], Names(before)[k]) == SectionNamed(before, Names(before)[k])
  {
    assert (before + [l])[..|before|] == before;
    forall k | 0 <= k < |Names(before)|
      ensures SectionNamed(before + [l], Names(before)[k]) == SectionNamed(before, Names(before)[k])
    {
      NamedHasHeader(before, Names(before)[k]);
    }
  }

  lemma EntryChanges(before: seq<Logical>, l: Logical, name: Name)
    requires EntryOf(l).Some?
    ensures SectionNamed(before + [l], name) ==
      var s := SectionNamed(before, name);
      if name == NameAfter(before) then s.(entries := s.entries + [EntryOf(l).value]) else s
  {
    assert (before + [l])[..|before|] == before;
  }

  lemma NoHeaderKeepsNames(before: seq<Logical>, l: Logical)
    requires HeaderOf(l).None?
    ensures Names(before + [l]) == Names(before) && NameAfter(before + [l]) == NameAfter(before)
    ensures ErrorsOf(before + [l]) == ErrorsOf(before) + OptionToSeq(ErrorOf(l))
  {
    assert (before + [l])[..|before|] == before;
    NamesAreDistinct(before);
    assert Names(before)[0] == None;
  }

  lemma EntryDeclares(before: seq<Logical>, l: Logical, d: Doc)
    requires Declared(before, d) && EntryOf(l).Some?
    ensures Declared(before + [l], Folded(d, l))
  {
    NoHeaderKeepsNames(before, l);
    EntrySections(before, l, d, WithEntry(d, EntryOf(l).value).order);
  }

  lemma EntrySections(before: seq<Logical>, l: Logical, d: Doc, order: seq<Section>)
    requires Declared(before, d) && EntryOf(l).Some? && Names(before + [l]) == Names(before)
    requires order == WithEntry(d, EntryOf(l).value).order
    ensures SectionsOf(before + [l]) == order
  {
    NamesAreDistinct(before);
    forall k | 0 <= k < |order| ensures SectionsOf(before + [l])[k] == order[k] {
      EntryChanges(before, l, Names(before)[k]);
    }
  }

  lemma OtherDeclares(before: seq<Logical>, l: Logical, d: Doc)
    requires Declared(before, d) && EntryOf(l).None? && HeaderOf(l).None?
    ensures Declared(before + [l], Folded(d, l))
  {
    NoHeaderKeepsNames(before, l);
    SameSections(before, l);
    assert SectionsOf(before + [l]) == SectionsOf(before);
  }

  // The fold over the logical lines is the naive reading: one pass per section.
  lemma {:induction false} FoldIsDeclared(lines: seq<Logical>)
    ensures Declared(lines, FoldAll(lines))
  {
    if lines != [] {
      var before, l := lines[..|lines| - 1], lines[|lines| - 1];
      FoldIsDeclared(before);
      assert lines == before + [l];
      if HeaderOf(l).Some? { HeaderDeclares(before, l, FoldAll(before)); }
      else if EntryOf(l).Some? { EntryDeclares(before, l, FoldAll(before)); }
      else { OtherDeclares(before, l, FoldAll(before)); }
    }
  }

  // Line numbers of logical lines go strictly up, between lo and hi.
  ghost predicate Rising(lines: seq<Logical>, lo: nat, hi: nat) {
    && (forall k :: 0 <= k < |lines| ==> lo <= lines[k].lineNo <= hi)
    && (forall j, k :: 0 <= j < k < |lines| ==> lines[j].lineNo < lines[k].lineNo)
  }

  lemma {:induction false} ReadLogicalRises(physical: seq<string>, i: nat, pending: string, start: nat)
    requires i <= |physical| && start <= i + 1
    ensures var (line, next) := ReadLogical(physical, i, pending, start);
      |line| <= 1 && (line != [] ==> start <= line[0].lineNo <= next && (line[0].Line? ==> line[0].lineNo == start))
    decreases |physical| - i
  {
    if i < |physical| {
      var text := pending + TrimRight(WithoutCr(physical[i]));
      if EndsWith(text, '\\') { ReadLogicalRises(physical, i + 1, text[..|text| - 1], start); }
    }
  }

  lemma RisesInFront(line: seq<Logical>, rest: seq<Logical>, lo: nat, next: nat, hi: nat)
    requires |line| <= 1 && (line != [] ==> lo <= line[0].lineNo <= next)
    requires Rising(rest, next + 1, hi) && lo <= next <= hi
    ensures Rising(line + rest, lo, hi)
  {
  }

  lemma {:induction false} LogicalLinesRise(physical: seq<string>, i: nat)
    requires i <= |physical|
    ensures Rising(LogicalLines(physical, i), i + 1, |physical|)
    decreases |physical| - i
  {
    if i < |physical| {
      var (line, next) := ReadLogical(physical, i, "", i + 1);
      ReadLogicalRises(physical, i, "", i + 1);
      LogicalLinesRise(physical, next);
      RisesInFront(line, LogicalLines(physical, next), i + 1, next, |physical|);
    }
  }

  ghost predicate RisingEntries(entries: seq<Entry>, lo: nat, hi: nat) {
    && (forall k :: 0 <= k < |entries| ==> lo <= entries[k].lineNo <= hi)
    && (forall j, k :: 0 <= j < k < |entries| ==> entries[j].lineNo < entries[k].lineNo)
  }

  lemma {:induction false} EntriesRise(lines: seq<Logical>, name: Name, lo: nat, hi: nat)
    requires Rising(lines, lo, hi)
    ensures RisingEntries(EntriesUnder(lines, name), lo, hi)
    ensures forall e :: e in EntriesUnder(lines, name) ==> lines != [] && e.lineNo <= lines[|lines| - 1].lineNo
  {
    if lines != [] {
      var before, last := lines[..|lines| - 1], lines[|lines| - 1];
      EntriesRise(before, name, lo, hi);
      var entries := EntriesUnder(before, name);
      assert forall e :: e in entries ==> before != [] && e.lineNo <= before[|before| - 1].lineNo < last.lineNo;
      if EntryOf(last).Some? { EntryRises(entries, EntryOf(last).value, lo, hi); }
    }
  }

  lemma EntryRises(entries: seq<Entry>, e: Entry, lo: nat, hi: nat)
    requires RisingEntries(entries, lo, hi) && lo <= e.lineNo <= hi && forall d :: d in entries ==> d.lineNo < e.lineNo
    ensures RisingEntries(entries + [e], lo, hi)
  {
  }

  lemma {:induction false} HeaderWithin(lines: seq<Logical>, name: Name, lo: nat, hi: nat)
    requires Rising(lines, lo, hi) && FirstHeader(lines, name).Some?
    ensures lines != [] && lo <= FirstHeader(lines, name).value <= lines[|lines| - 1].lineNo
  {
    var before := lines[..|lines| - 1];
    if FirstHeader(before, name).Some? { HeaderWithin(before, name, lo, hi); }
  }

  // Headers are met in the order the names are in.
  lemma {:induction false} HeadersRise(lines: seq<Logical>, lo: nat, hi: nat, i: nat, j: nat)
    requires Rising(lines, lo, hi) && 0 < i < j < |Names(lines)|
    ensures var a, b := FirstHeader(lines, Names(lines)[i]), FirstHeader(lines, Names(lines)[j]);
      a.Some? && b.Some? && a.value < b.value
  {
    NamesAreDistinct(lines);
    NamedHasHeader(lines, Names(lines)[i]);
    NamedHasHeader(lines, Names(lines)[j]);
    var before := lines[..|lines| - 1];
    NamesAreDistinct(before);
    NamedHasHeader(before, Names(lines)[i]);
    if j < |Names(before)| {
      HeadersRise(before, lo, hi, i, j);
    } else {
      UnnamedHasNothing(before, Names(lines)[j]);
      HeaderWithin(before, Names(lines)[i], lo, hi);
    }
  }

  lemma {:induction false} ReportedIs(order: seq<Section>)
    requires order != [] && order[0].name == None
    requires forall k :: 0 < k < |order| ==> order[k].name.Some?
    ensures ReportedOf(order) == if order[0].entries == [] then order[1..] else order
  {
    var front := order[..|order| - 1];
    if front != [] {
      ReportedIs(front);
      assert order == front + [order[|order| - 1]];
    } else {
      assert ReportedOf(front) == [];
      assert order == [order[0]];
    }
  }

  // Distinct names in the order of their headers, only the first possibly unnamed, and line
  // numbers going strictly up within 1..n in each section.
  ghost predicate InOrder(sections: seq<Section>, n: nat) {
    && (forall i, j :: 0 <= i < j < |sections| ==>
          && sections[i].name != sections[j].name && sections[j].lineNo.Some?
          && (sections[i].lineNo.Some? ==> sections[i].lineNo.value < sections[j].lineNo.value))
    && (forall i :: 0 <= i < |sections| ==>
          && (sections[i].name.Some? <==> sections[i].lineNo.Some?)
          && RisingEntries(sections[i].entries, 1, n))
  }

  lemma SectionsInOrder(lines: seq<Logical>, n: nat)
    requires Rising(lines, 1, n)
    ensures InOrder(SectionsOf(lines), n)
  {
    var order := SectionsOf(lines);
    NamesAreDistinct(lines);
    forall k | 0 <= k < |order|
      ensures (order[k].name.Some? <==> order[k].lineNo.Some?) && RisingEntries(order[k].entries, 1, n)
    {
      NamedHasHeader(lines, Names(lines)[k]);
      EntriesRise(lines, order[k].name, 1, n);
    }
    forall i, j | 0 <= i < j < |order|
      ensures order[j].lineNo.Some? && (order[i].lineNo.Some? ==> order[i].lineNo.value < order[j].lineNo.value)
    {
      if i > 0 { HeadersRise(lines, 1, n, i, j); }
    }
  }

  lemma ReportedSections(lines: seq<Logical>)
    ensures ReportedOf(SectionsOf(lines)) ==
      if EntriesUnder(lines, None) == [] then SectionsOf(lines)[1..] else SectionsOf(lines)
  {
    NamesAreDistinct(lines);
    ReportedIs(SectionsOf(lines));
  }

  lemma TailInOrder(sections: seq<Section>, n: nat)
    requires sections != [] && InOrder(sections, n)
    ensures InOrder(sections[1..], n)
  {
    var tail := sections[1..];
    assert forall k :: 0 <= k < |tail| ==> tail[k] == sections[k + 1];
  }

  // For every text: section names come out distinct, in the order their headers first appear,
  // the unnamed section first and only if something stands in it; each section holds exactly
  // the entries under its name, in order; their line numbers go strictly up within 1..n; and
  // each name met has its section.
  lemma ParsedAsWritten(physical: seq<string>, lines: seq<Logical>, p: Parsed)
    requires lines == LogicalLines(physical, 0) && p == ParsedOf(physical)
    ensures Rising(lines, 1, |physical|)
    ensures p.syntaxErrors == ErrorsOf(lines)
    ensures p.sections == if EntriesUnder(lines, None) == [] then SectionsOf(lines)[1..] else SectionsOf(lines)
    ensures InOrder(p.sections, |physical|)
  {
    LogicalLinesRise(physical, 0);
    FoldIsDeclared(lines);
    ReportedSections(lines);
    SectionsInOrder(lines, |physical|);
    TailInOrder(SectionsOf(lines), |physical|);
  }
}
