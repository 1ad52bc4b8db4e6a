/** JSON strings read back: the escapes that the canonical text uses mean what section 7 of RFC 8259
    says. */
module JsonStrings {
  import opened WorkflowTypes
  import opened Utf8Truncation
  import opened CanonicalJson

  predicate IsHex(u: CodeUnit) {
    0x30 <= u <= 0x39 || 0x61 <= u <= 0x66
  }

  function HexValue(u: CodeUnit): (value: nat)
    requires IsHex(u)
    ensures value < 16
  {
    if u <= 0x39 then u - 0x30 else u - 0x61 + 10
  }

  /** What a letter after a backslash stands for. */
  function LetterValue(letter: CodeUnit): Option<CodeUnit> {
    if letter in {0x22, 0x5C, 0x2F} then Some(letter)  // " \ /
    else if letter == 0x62 then Some(0x08)             // b
    else if letter == 0x66 then Some(0x0C)             // f
    else if letter == 0x6E then Some(0x0A)             // n
    else if letter == 0x72 then Some(0x0D)             // r
    else if letter == 0x74 then Some(0x09)             // t
    else None
  }

  /** The four digits after `\u`. */
  function HexUnit(text: Text): Option<CodeUnit>
    requires |text| == 4
  {
    if IsHex(text[0]) && IsHex(text[1]) && IsHex(text[2]) && IsHex(text[3]) then
      Some(HexValue(text[0]) * 0x1000 + HexValue(text[1]) * 0x100 + HexValue(text[2]) * 0x10 + HexValue(text[3]))
    else None
  }

  function Joined(front: Text, rest: Option<Text>): Option<Text> {
    if rest.Some? then Some(front + rest.value) else None
  }

  /** The units that the inside of a string literal stands for; `None` when it is no well-formed one:
      no bare quote, control character or half of a surrogate pair. */
  function Unescape(text: Text): Option<Text> {
    if text == [] then Some([])
    else if StartsWithPair(text) then Joined(text[..2], Unescape(text[2..]))
    else if text[0] == 0x5C then
      if |text| >= 6 && text[1] == 0x75 then
        if HexUnit(text[2..6]).Some? then Joined([HexUnit(text[2..6]).value], Unescape(text[6..])) else None
      else if |text| >= 2 && LetterValue(text[1]).Some? then
        Joined([LetterValue(text[1]).value], Unescape(text[2..]))
      else None
    else if text[0] < 0x20 || text[0] == 0x22 || 0xD800 <= text[0] <= 0xDFFF then None
    else Joined([text[0]], Unescape(text[1..]))
  }

  lemma HexRoundTrip(u: CodeUnit)
    ensures HexUnit(UnicodeEscape(u)[2..6]) == Some(u)
  {
    Nibbles(u);
    var text := UnicodeEscape(u);
    HexDigitRoundTrip(u / 0x1000);
    HexDigitRoundTrip(u / 0x100 % 0x10);
    HexDigitRoundTrip(u / 0x10 % 0x10);
    HexDigitRoundTrip(u % 0x10);
    assert text[2..6][0] == text[2] && text[2..6][1] == text[3] && text[2..6][2] == text[4] && text[2..6][3] == text[5];
  }

  lemma HexDigitRoundTrip(n: nat)
    requires n < 16
    ensures IsHex(HexDigit(n)) && HexValue(HexDigit(n)) == n
  {}

  /** One escaped unit is read back, whatever follows it. */
  lemma UnitRoundTrip(u: CodeUnit, rest: Text)
    ensures Unescape(EscapeUnit(u) + rest) == Joined([u], Unescape(rest))
  {
    var p := EscapeUnit(u);
    HexRoundTrip(u);
    if |p| == 1 {
      assert p == [u];
    }
    hide Unescape, HexUnit;
    UnescapeStep(p, rest);
  }

  lemma UnescapeStep(p: Text, rest: Text)
    requires |p| in {1, 2, 6}
    requires |p| == 1 ==> p[0] >= 0x20 && p[0] != 0x22 && p[0] != 0x5C && !(0xD800 <= p[0] <= 0xDFFF)
    requires |p| == 2 ==> p[0] == 0x5C && LetterValue(p[1]).Some?
    requires |p| == 6 ==> p[0] == 0x5C && p[1] == 0x75 && HexUnit(p[2..6]).Some?
    ensures Unescape(p + rest) == Joined(
      if |p| == 1 then p else if |p| == 2 then [LetterValue(p[1]).value] else [HexUnit(p[2..6]).value],
      Unescape(rest))
  {
    hide HexUnit;
    var text := p + rest;
    assert text[|p|..] == rest && forall i :: 0 <= i < |p| ==> text[i] == p[i];
    if |p| == 1 {
      assert p == [text[0]];
    }
    if |p| == 6 {
      assert text[2..6] == p[2..6];
    }
  }

  /** Every string survives being written and read. */
  lemma {:induction false} EscapeRoundTrip(s: Text)
    ensures Unescape(Escape(s)) == Some(s)
    decreases |s|
  {
    if s == [] {
    } else if StartsWithPair(s) {
      EscapeRoundTrip(s[2..]);
      var text := [s[0], s[1]] + Escape(s[2..]);
      assert text[..2] == [s[0], s[1]] && text[2..] == Escape(s[2..]);
      assert s == [s[0], s[1]] + s[2..];
    } else {
      EscapeRoundTrip(s[1..]);
      UnitRoundTrip(s[0], Escape(s[1..]));
      assert s == [s[0]] + s[1..];
    }
  }

  /** The other literals. */
  lemma LiteralsInFull(text: Text)
    ensures Print(Null) == Ascii("null") && Print(Bool(true)) == Ascii("true") && Print(Bool(false)) == Ascii("false")
    ensures Print(Number(text)) == text && Print(String(text)) == [0x22] + Escape(text) + [0x22]
  {}

  /** Arrays: items between brackets, with commas between them. */
  lemma ArraysInFull(v: Json, tail: Items)
    ensures Print(Array(NoItems)) == [0x5B, 0x5D]
    ensures Print(Array(Item(v, NoItems))) == [0x5B] + Print(v) + [0x5D]
    ensures tail.Item? ==> Print(Array(Item(v, tail))) == [0x5B] + Print(v) + [0x2C] + Print(Array(tail))[1..]
  {
    hide Ascii;
    assert PrintItems(Item(v, NoItems)) == Print(v) + [];
    assert Print(Array(tail))[1..] == PrintItems(tail) + [0x5D];
  }

  /** Objects: members between braces, each a string, a colon and a value, with commas between them. */
  lemma ObjectsInFull(key: Text, v: Json, rest: Members)
    ensures Print(Object(NoMembers)) == [0x7B, 0x7D]
    ensures var member := Print(String(key)) + [0x3A] + Print(v);
      && Print(Object(Member(key, v, NoMembers))) == [0x7B] + member + [0x7D]
      && (rest.Member? ==>
            Print(Object(Member(key, v, rest))) == [0x7B] + member + [0x2C] + Print(Object(rest))[1..])
  {
    hide Ascii, Escape;
    var member := Print(String(key)) + [0x3A] + Print(v);
    assert PrintMembers(Member(key, v, NoMembers)) == member + [];
    assert PrintMembers(Member(key, v, rest)) ==
      member + (if rest == NoMembers then [] else [0x2C] + PrintMembers(rest));
    assert Print(Object(rest))[1..] == PrintMembers(rest) + [0x7D];
  }
}
