// Strings: trimming, lower case, numerals, searching, splitting and joining.
module Strings {
  // ' ', \t, \n, \v, \f and \r.
  predicate IsSpace(c: char) {
    c == ' ' || '\t' <= c <= '\r'
  }

  function TrimRight(s: string): string {
    if s != "" && IsSpace(s[|s| - 1]) then TrimRight(s[..|s| - 1]) else s
  }

  function TrimLeft(s: string): string {
    if s != "" && IsSpace(s[0]) then TrimLeft(s[1..]) else s
  }

  function Trim(s: string): string {
    TrimRight(TrimLeft(s))
  }

  lemma {:induction false} TrimShrinks(s: string)
    ensures |TrimLeft(s)| <= |s| && |TrimRight(s)| <= |s|
    decreases |s|
  {
    if s != "" {
      TrimShrinks(s[1..]);
      TrimShrinks(s[..|s| - 1]);
    }
  }

  lemma TrimmedEnds(s: string)
    requires s != "" && Trim(s) == s
    ensures !IsSpace(s[0]) && !IsSpace(s[|s| - 1])
  {
    TrimShrinks(s);
    TrimShrinks(TrimLeft(s));
    TrimShrinks(s[1..]);
    TrimShrinks(s[..|s| - 1]);
  }

  lemma TrimRightAt(s: string, end: nat)
    requires end <= |s| && forall j :: end <= j < |s| ==> IsSpace(s[j])
    requires end > 0 ==> !IsSpace(s[end - 1])
    ensures TrimRight(s) == s[..end]
    decreases |s|
  {
    if end < |s| {
      TrimRightAt(s[..|s| - 1], end);
      assert s[..|s| - 1][..end] == s[..end];
    } else {
      assert s[..end] == s;
    }
  }

  lemma TrimLeftAt(s: string, start: nat)
    requires start <= |s| && forall j :: 0 <= j < start ==> IsSpace(s[j])
    requires start < |s| ==> !IsSpace(s[start])
    ensures TrimLeft(s) == s[start..]
    decreases |s|
  {
    if start > 0 {
      TrimLeftAt(s[1..], start - 1);
      assert s[1..][start - 1..] == s[start..];
    }
  }

  predicate AllSpace(s: string) {
    forall c :: c in s ==> IsSpace(c)
  }

  // Trimming takes off the white space around a text.
  lemma SpacedTrims(left: string, s: string, right: string)
    requires AllSpace(left) && AllSpace(right)
    requires s != "" && !IsSpace(s[0]) && !IsSpace(s[|s| - 1])
    ensures Trim(left + s + right) == s
  {
    var whole := left + s + right;
    TrimLeftAt(whole, |left|);
    assert whole[|left|..] == s + right;
    assert forall j :: |s| <= j < |s + right| ==> (s + right)[j] == right[j - |s|];
    TrimRightAt(s + right, |s|);
    assert (s + right)[..|s|] == s;
  }

  function LowerChar(c: char): char {
    if 'A' <= c <= 'Z' then (c as int + 32) as char else c
  }

  function ToLower(s: string): string {
    seq(|s|, i requires 0 <= i < |s| => LowerChar(s[i]))
  }

  predicate IsDigit(c: char) {
    '0' <= c <= '9'
  }

  predicate IsNumeric(s: string) {
    s != "" && forall i :: 0 <= i < |s| ==> IsDigit(s[i])
  }

  function Value(s: string): nat {
    if s == "" then 0
    else
      var last := s[|s| - 1];
      10 * Value(s[..|s| - 1]) + (if IsDigit(last) then last as int - '0' as int else 0)
  }

  function Digit(d: nat): (c: char)
    requires d < 10
    ensures IsDigit(c)
  {
    "0123456789"[d]
  }

  // A number in decimal.
  function Numeral(n: nat): (s: string)
    ensures s != ""
  {
    if n < 10 then [Digit(n)] else Numeral(n / 10) + [Digit(n % 10)]
  }

  // A number is read back as it is written, without a leading zero.
  lemma {:induction false} NumeralReadsBack(n: nat)
    ensures IsNumeric(Numeral(n)) && Value(Numeral(n)) == n
    ensures Numeral(n)[0] == '0' <==> n == 0
  {
    var s := Numeral(n);
    if n >= 10 {
      NumeralReadsBack(n / 10);
      assert s[..|s| - 1] == Numeral(n / 10);
    } else {
      assert s[..0] == "";
    }
  }

  // What is trimmed off is white space, and no more is left to trim.
  lemma TrimSplits(s: string) returns (left: string, right: string)
    ensures s == left + Trim(s) + right
    ensures forall c :: c in left + right ==> c in {' ', '\t', '\n', '\U{000B}', '\U{000C}', '\r'}
    ensures Trim(s) != "" ==> !IsSpace(Trim(s)[0]) && !IsSpace(Trim(s)[|Trim(s)| - 1])
  {
    left := LeftSplits(s);
    right := RightSplits(TrimLeft(s));
  }

  lemma {:induction false} LeftSplits(s: string) returns (left: string)
    ensures s == left + TrimLeft(s) && forall c :: c in left ==> IsSpace(c)
    ensures TrimLeft(s) != "" ==> !IsSpace(TrimLeft(s)[0])
    decreases |s|
  {
    left := "";
    if s != "" && IsSpace(s[0]) {
      left := LeftSplits(s[1..]);
      left := [s[0]] + left;
    }
  }

  lemma {:induction false} RightSplits(s: string) returns (right: string)
    ensures s == TrimRight(s) + right && forall c :: c in right ==> IsSpace(c)
    ensures TrimRight(s) != "" ==> TrimRight(s)[0] == s[0] && !IsSpace(TrimRight(s)[|TrimRight(s)| - 1])
    decreases |s|
  {
    right := "";
    if s != "" && IsSpace(s[|s| - 1]) {
      right := RightSplits(s[..|s| - 1]);
      right := right + [s[|s| - 1]];
    }
  }

  // The position of c at or after `from`, or the length of s.
  function IndexOf(s: string, c: char, from: nat): (i: nat)
    requires from <= |s|
    ensures from <= i <= |s|
    ensures forall j :: from <= j < i ==> s[j] != c
    ensures i < |s| ==> s[i] == c
    decreases |s| - from
  {
    if from == |s| || s[from] == c then from else IndexOf(s, c, from + 1)
  }

  // The pieces between occurrences of c, empty ones included.
  function Split(s: string, c: char): (parts: seq<string>)
    ensures parts != []
    ensures forall p :: p in parts ==> c !in p
  {
    if s == "" then [""]
    else
      var rest := Split(s[1..], c);
      if s[0] == c then [""] + rest else [[s[0]] + rest[0]] + rest[1..]
  }

  function Join(parts: seq<string>, c: char): string {
    if parts == [] then "" else if |parts| == 1 then parts[0] else parts[0] + [c] + Join(parts[1..], c)
  }

  lemma {:induction false} SplitOfConcat(a: string, b: string, c: char)
    ensures Split(a + [c] + b, c) == Split(a, c) + Split(b, c)
    decreases |a|
  {
    var whole := a + [c] + b;
    if a == "" {
      assert whole[1..] == b;
    } else {
      assert whole[1..] == a[1..] + [c] + b;
      SplitOfConcat(a[1..], b, c);
    }
  }

  lemma {:induction false} SplitOfPlain(a: string, c: char)
    requires c !in a
    ensures Split(a, c) == [a]
    decreases |a|
  {
    if a != "" {
      SplitOfPlain(a[1..], c);
      assert a == [a[0]] + a[1..];
    }
  }

  lemma {:induction false} SplitOfJoin(parts: seq<string>, c: char)
    requires forall p :: p in parts ==> c !in p
    ensures Split(Join(parts, c), c) == if parts == [] then [""] else parts
    decreases |parts|
  {
    if parts != [] {
      SplitOfPlain(parts[0], c);
      if |parts| > 1 {
        SplitOfConcat(parts[0], Join(parts[1..], c), c);
        SplitOfJoin(parts[1..], c);
        assert parts == [parts[0]] + parts[1..];
      }
    }
  }
}
