// The bytes of a text, as RFC 3629 encodes it: no text loses any, and they are as many as the
// reader of cubrid.conf files counts.
module Utf8 {
  import opened Strings
  import opened ConfText

  // Section 3 of RFC 3629: six bits to a byte, the lead byte telling how many there are.
  function Encode(c: char): (bytes: seq<int>)
    ensures 1 <= |bytes| <= 4 && forall b :: b in bytes ==> 0 <= b < 256
  {
    var n := c as int;
    var (n1, n2, n3) := (n / 0x40, n / 0x40 / 0x40, n / 0x40 / 0x40 / 0x40);
    if n < 0x80 then [n]
    else if n < 0x800 then [0xC0 + n1, 0x80 + n % 0x40]
    else if n < 0x10000 then [0xE0 + n2, 0x80 + n1 % 0x40, 0x80 + n % 0x40]
    else [0xF0 + n3, 0x80 + n2 % 0x40, 0x80 + n1 % 0x40, 0x80 + n % 0x40]
  }

  function Encoded(s: string): seq<int> {
    if s == "" then [] else Encode(s[0]) + Encoded(s[1..])
  }

  // How many bytes the character has that starts with this one.
  function Width(lead: int): int {
    if lead < 0x80 then 1 else if lead < 0xE0 then 2 else if lead < 0xF0 then 3 else 4
  }

  // The number the first bytes encode.
  function Decode(bytes: seq<int>): int
    requires bytes != [] && Width(bytes[0]) <= |bytes|
  {
    var w := Width(bytes[0]);
    if w == 1 then bytes[0]
    else if w == 2 then (bytes[0] - 0xC0) * 0x40 + (bytes[1] - 0x80)
    else if w == 3 then ((bytes[0] - 0xE0) * 0x40 + (bytes[1] - 0x80)) * 0x40 + (bytes[2] - 0x80)
    else (((bytes[0] - 0xF0) * 0x40 + (bytes[1] - 0x80)) * 0x40 + (bytes[2] - 0x80)) * 0x40 + (bytes[3] - 0x80)
  }

  // Every character can be read back from its bytes, whatever follows them.
  lemma EncodingDecodes(c: char, rest: seq<int>)
    ensures var bytes := Encode(c) + rest;
      Width(bytes[0]) == |Encode(c)| && Decode(bytes) == c as int
  {
  }

  lemma {:induction false} EncodingIsInjective(s: string, t: string)
    requires Encoded(s) == Encoded(t)
    ensures s == t
    decreases |s|
  {
    if s != "" && t != "" {
      var more, less := Encoded(s[1..]), Encoded(t[1..]);
      EncodingDecodes(s[0], more);
      EncodingDecodes(t[0], less);
      assert s[0] as int == t[0] as int && |Encode(s[0])| == |Encode(t[0])|;
      assert more == (Encode(s[0]) + more)[|Encode(s[0])|..] && less == (Encode(t[0]) + less)[|Encode(t[0])|..];
      EncodingIsInjective(s[1..], t[1..]);
    }
  }

  lemma {:induction false} LengthCountsBytes(s: string)
    ensures Utf8Length(s) == |Encoded(s)|
  {
    if s != "" { LengthCountsBytes(s[1..]); }
  }
}
