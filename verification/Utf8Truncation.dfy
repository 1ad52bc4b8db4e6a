/** Cutting a string to a number of UTF-8 bytes. A string is a sequence of UTF-16 code units,
    and may hold surrogates without a partner. */
module Utf8Truncation {
  import opened WorkflowTypes

  type CodeUnit = n: nat | n < 0x1_0000
  type Byte = n: nat | n < 0x100
  type CodePoint = n: nat | n < 0x11_0000 && !(0xD800 <= n < 0xE000) witness 0

  type Text = seq<CodeUnit>

  const REPLACEMENT: CodePoint := 0xFFFD
  const MAX_SAFE_INTEGER := 0x1F_FFFF_FFFF_FFFF

  predicate IsHigh(u: CodeUnit) {
    0xD800 <= u <= 0xDBFF
  }

  predicate IsLow(u: CodeUnit) {
    0xDC00 <= u <= 0xDFFF
  }

  predicate StartsWithPair(s: Text) {
    |s| >= 2 && IsHigh(s[0]) && IsLow(s[1])
  }

  function PairPoint(high: CodeUnit, low: CodeUnit): CodePoint
    requires IsHigh(high) && IsLow(low)
  {
    0x1_0000 + (high - 0xD800) * 0x400 + (low - 0xDC00)
  }

  /** The code point of a unit that is no part of a pair: a lone surrogate is replaced. */
  function UnitPoint(u: CodeUnit): CodePoint {
    if IsHigh(u) || IsLow(u) then REPLACEMENT else u
  }

  /** Section 3 of RFC 3629. */
  function EncodePoint(p: CodePoint): (bytes: seq<Byte>)
    ensures |bytes| == if p < 0x80 then 1 else if p < 0x800 then 2 else if p < 0x1_0000 then 3 else 4
  {
    if p < 0x80 then [p]
    else if p < 0x800 then [0xC0 + p / 0x40, 0x80 + p % 0x40]
    else if p < 0x1_0000 then [0xE0 + p / 0x1000, 0x80 + p / 0x40 % 0x40, 0x80 + p % 0x40]
    else [0xF0 + p / 0x4_0000, 0x80 + p / 0x1000 % 0x40, 0x80 + p / 0x40 % 0x40, 0x80 + p % 0x40]
  }

  function Encode(s: Text): seq<Byte> {
    if s == [] then []
    else if StartsWithPair(s) then EncodePoint(PairPoint(s[0], s[1])) + Encode(s[2..])
    else EncodePoint(UnitPoint(s[0])) + Encode(s[1..])
  }

  /** Every surrogate has its partner. */
  predicate WellFormed(s: Text) {
    if s == [] then true
    else if StartsWithPair(s) then WellFormed(s[2..])
    else !IsHigh(s[0]) && !IsLow(s[0]) && WellFormed(s[1..])
  }

  // ---- The encoding ----

  /** Where two texts meet without forming a pair, their encodings just follow each other. */
  lemma {:induction false} EncodeConcat(a: Text, b: Text)
    requires a == [] || b == [] || !(IsHigh(a[|a| - 1]) && IsLow(b[0]))
    ensures Encode(a + b) == Encode(a) + Encode(b)
    decreases |a|
  {
    if a == [] {
      assert a + b == b;
    } else if StartsWithPair(a) {
      assert (a + b)[2..] == a[2..] + b;
      EncodeConcat(a[2..], b);
    } else {
      assert (a + b)[1..] == a[1..] + b;
      EncodeConcat(a[1..], b);
    }
  }

  /** Where they do form one, the pair takes four bytes instead of six. */
  lemma EncodeMeeting(a: Text, b: Text)
    requires a != [] && b != [] && IsHigh(a[|a| - 1]) && IsLow(b[0])
    ensures |Encode(a + b)| + 2 == |Encode(a)| + |Encode(b)|
  {
    hide Encode;
    var front, high, low, rest := a[..|a| - 1], a[|a| - 1], b[0], b[1..];
    assert a == front + [high] && b == [low] + rest && a + b == front + ([high, low] + rest);
    EncodeConcat(front, [high]);
    EncodeConcat([low], rest);
    EncodeConcat(front, [high, low] + rest);
    EncodeConcat([high, low], rest);
    EncodedSizes(high, low);
  }

  lemma EncodedSizes(high: CodeUnit, low: CodeUnit)
    requires IsHigh(high) && IsLow(low)
    ensures |Encode([high, low])| == 4 && |Encode([high])| == 3 && |Encode([low])| == 3
  {
    hide EncodePoint;
    assert [high, low][2..] == [] && [high][1..] == [] && [low][1..] == [];
  }

  lemma JoiningNeverAddsBytes(a: Text, b: Text)
    ensures |Encode(a + b)| <= |Encode(a)| + |Encode(b)|
  {
    if a != [] && b != [] && IsHigh(a[|a| - 1]) && IsLow(b[0]) {
      EncodeMeeting(a, b);
    } else {
      EncodeConcat(a, b);
    }
  }

  /** One code unit more is at least one byte more. */
  lemma OneUnitMore(s: Text, m: nat)
    requires m < |s|
    ensures |Encode(s[..m])| < |Encode(s[..m + 1])|
  {
    var front, u := s[..m], s[m];
    assert s[..m + 1] == front + [u];
    assert [u][1..] == [];
    if front != [] && IsHigh(front[|front| - 1]) && IsLow(u) {
      EncodeMeeting(front, [u]);
    } else {
      EncodeConcat(front, [u]);
    }
  }

  lemma {:induction false} LongerIsMore(s: Text, m: nat, n: nat)
    requires m <= n <= |s|
    ensures |Encode(s[..m])| + (n - m) <= |Encode(s[..n])|
    decreases n - m
  {
    if m < n {
      LongerIsMore(s, m, n - 1);
      OneUnitMore(s, n - 1);
    }
  }

  /** A cut of a well-formed text is well formed unless it splits a pair. */
  lemma {:induction false} WholeCuts(s: Text, m: nat)
    requires WellFormed(s) && m <= |s|
    ensures WellFormed(s[..m]) <==> m == 0 || !IsHigh(s[m - 1])
    ensures m > 0 && IsHigh(s[m - 1]) ==> m < |s| && IsLow(s[m]) && (m > 1 ==> !IsHigh(s[m - 2]))
    decreases |s|
  {
    if m == 0 || s == [] {
    } else if StartsWithPair(s) {
      if m >= 2 {
        assert s[..m][2..] == s[2..][..m - 2];
        WholeCuts(s[2..], m - 2);
        assert m > 2 ==> s[2..][m - 3] == s[m - 1];
      }
    } else {
      assert s[..m][1..] == s[1..][..m - 1];
      WholeCuts(s[1..], m - 1);
      assert m > 1 ==> s[1..][m - 2] == s[m - 1];
    }
  }

  // ---- Decoding ----

  predicate Continues(b: Byte) {
    0x80 <= b < 0xC0
  }

  /** The six bits that a continuation byte carries. */
  function Bits(b: Byte): (bits: nat)
    requires Continues(b)
    ensures bits < 0x40
  {
    var n: int := b;
    n - 0x80
  }

  /** The code point in front of these bytes and how many bytes it takes; `None` for anything the
      encoder does not write. */
  function DecodePoint(bytes: seq<Byte>): Option<(CodePoint, nat)> {
    if bytes == [] then None
    else
      var lead: int := bytes[0];
      if lead < 0x80 then Some((bytes[0], 1))
      else if 0xC2 <= lead < 0xE0 && |bytes| >= 2 && Continues(bytes[1]) then
        Some(((lead - 0xC0) * 0x40 + Bits(bytes[1]), 2))
      else if 0xE0 <= lead < 0xF0 && |bytes| >= 3 && Continues(bytes[1]) && Continues(bytes[2]) then
        var p := (lead - 0xE0) * 0x1000 + Bits(bytes[1]) * 0x40 + Bits(bytes[2]);
        if p >= 0x800 && !(0xD800 <= p < 0xE000) then Some((p, 3)) else None
      else if 0xF0 <= lead < 0xF5 && |bytes| >= 4
              && Continues(bytes[1]) && Continues(bytes[2]) && Continues(bytes[3]) then
        var p := (lead - 0xF0) * 0x4_0000 + Bits(bytes[1]) * 0x1000 + Bits(bytes[2]) * 0x40 + Bits(bytes[3]);
        if 0x1_0000 <= p < 0x11_0000 then Some((p, 4)) else None
      else None
  }

  /** Section 2.1 of RFC 2781. */
  function Units(p: CodePoint): Text {
    if p < 0x1_0000 then [p] else [0xD800 + (p - 0x1_0000) / 0x400, 0xDC00 + (p - 0x1_0000) % 0x400]
  }

  function Decode(bytes: seq<Byte>): Option<Text>
    decreases |bytes|
  {
    if bytes == [] then Some([])
    else
      match DecodePoint(bytes)
      case None => None
      case Some((p, n)) =>
        if n == 0 || n > |bytes| then None
        else
          match Decode(bytes[n..])
          case None => None
          case Some(rest) => Some(Units(p) + rest)
  }

  /** Splitting off six bits at a time. */
  lemma SixBits(p: nat)
    ensures p == p / 0x40 * 0x40 + p % 0x40
    ensures p / 0x40 / 0x40 == p / 0x1000 && p / 0x1000 / 0x40 == p / 0x4_0000
    ensures p / 0x40 == p / 0x1000 * 0x40 + p / 0x40 % 0x40
    ensures p / 0x1000 == p / 0x4_0000 * 0x40 + p / 0x1000 % 0x40
  {}

  lemma DecodesPoint(p: CodePoint, rest: seq<Byte>)
    ensures DecodePoint(EncodePoint(p) + rest) == Some((p, |EncodePoint(p)|))
  {
    if p < 0x800 {
      DecodesShortPoint(p, rest);
    } else if p < 0x1_0000 {
      DecodesThreeBytes(p, rest);
    } else {
      DecodesFourBytes(p, rest);
    }
  }

  lemma DecodesShortPoint(p: CodePoint, rest: seq<Byte>)
    requires p < 0x800
    ensures DecodePoint(EncodePoint(p) + rest) == Some((p, |EncodePoint(p)|))
  {}

  lemma DecodesThreeBytes(p: CodePoint, rest: seq<Byte>)
    requires 0x800 <= p < 0x1_0000
    ensures DecodePoint(EncodePoint(p) + rest) == Some((p, 3))
  {
    SixBits(p);
    var bytes := EncodePoint(p) + rest;
    assert bytes[0] == 0xE0 + p / 0x1000 && Bits(bytes[1]) == p / 0x40 % 0x40 && Bits(bytes[2]) == p % 0x40;
  }

  lemma DecodesFourBytes(p: CodePoint, rest: seq<Byte>)
    requires 0x1_0000 <= p
    ensures DecodePoint(EncodePoint(p) + rest) == Some((p, 4))
  {
    SixBits(p);
    var bytes := EncodePoint(p) + rest;
    assert bytes[0] == 0xF0 + p / 0x4_0000 && Bits(bytes[1]) == p / 0x1000 % 0x40;
    assert Bits(bytes[2]) == p / 0x40 % 0x40 && Bits(bytes[3]) == p % 0x40;
  }

  lemma PairUnits(high: CodeUnit, low: CodeUnit)
    requires IsHigh(high) && IsLow(low)
    ensures Units(PairPoint(high, low)) == [high, low]
  {}

  /** The encoding of a well-formed text can be decoded again, so it loses nothing. */
  lemma {:induction false} DecodeEncode(s: Text)
    requires WellFormed(s)
    ensures Decode(Encode(s)) == Some(s)
    decreases |s|
  {
    if s != [] {
      var n := if StartsWithPair(s) then 2 else 1;
      var p: CodePoint := if StartsWithPair(s) then PairPoint(s[0], s[1]) else s[0];
      if n == 2 { PairUnits(s[0], s[1]); }
      var bytes := EncodePoint(p) + Encode(s[n..]);
      assert Encode(s) == bytes;
      DecodesPoint(p, Encode(s[n..]));
      assert bytes[|EncodePoint(p)|..] == Encode(s[n..]);
      DecodeEncode(s[n..]);
      assert s == Units(p) + s[n..];
    }
  }

  // ---- Truncation ----

  function ByteLength(s: Text): nat {
    |Encode(s)|
  }

  /** The length, unit by unit: a pair takes four bytes, a surrogate without a partner three. */
  lemma LengthInFull(s: Text)
    requires s != []
    ensures ByteLength([]) == 0
    ensures var u := s[0];
      if 0xD800 <= u < 0xDC00 && |s| >= 2 && 0xDC00 <= s[1] < 0xE000 then ByteLength(s) == 4 + ByteLength(s[2..])
      else ByteLength(s) == (if u < 0x80 then 1 else if u < 0x800 then 2 else 3) + ByteLength(s[1..])
  {}

  /** The longest prefix within the bytes, whole or not. */
  ghost predicate FitsLongest(value: Text, fitting: nat, maximumBytes: nat) {
    && fitting <= |value| && ByteLength(value[..fitting]) <= maximumBytes
    && forall m: nat :: fitting < m <= |value| ==> ByteLength(value[..m]) > maximumBytes
  }

  /** The longest prefix within the bytes, less a high surrogate at its very end. */
  ghost predicate IsCut(value: Text, prefix: Text, maximumBytes: nat) {
    exists fitting: nat ::
      && FitsLongest(value, fitting, maximumBytes)
      && prefix == value[..if fitting > 0 && 0xD800 <= value[fitting - 1] < 0xDC00 then fitting - 1 else fitting]
  }

  /** Binary search. */
  method Utf8Prefix(value: Text, maximumBytes: nat) returns (prefix: Text)
    ensures prefix <= value && ByteLength(prefix) <= maximumBytes
    ensures forall m: nat :: m <= |value| && ByteLength(value[..m]) <= maximumBytes ==>
      m <= |prefix| || (m == |prefix| + 1 && IsHigh(value[m - 1]))
    ensures |prefix| < |value| && ByteLength(value[..|prefix| + 1]) <= maximumBytes ==> IsHigh(value[|prefix|])
    ensures IsCut(value, prefix, maximumBytes)
    ensures WellFormed(value) ==> IsLongestWholePrefix(value, prefix, maximumBytes)
  {
    var lower := 0;
    var upper := if |value| <= maximumBytes then |value| else maximumBytes;
    forall m | upper < m <= |value|
      ensures ByteLength(value[..m]) > maximumBytes
    {
      LongerIsMore(value, 0, m);
    }
    while lower < upper
      invariant 0 <= lower <= upper <= |value|
      invariant ByteLength(value[..lower]) <= maximumBytes
      invariant forall m :: upper < m <= |value| ==> ByteLength(value[..m]) > maximumBytes
      decreases upper - lower
    {
      var middle := (lower + upper + 1) / 2;
      if ByteLength(value[..middle]) <= maximumBytes {
        lower := middle;
      } else {
        forall m | middle <= m <= |value|
          ensures ByteLength(value[..m]) > maximumBytes
        {
          LongerIsMore(value, middle, m);
        }
        upper := middle - 1;
      }
    }
    var end := lower;
    if end > 0 && 0xD800 <= value[end - 1] <= 0xDBFF {
      end := end - 1;
      OneUnitMore(value, end);
    }
    prefix := value[..end];
    assert FitsLongest(value, lower, maximumBytes);
    if WellFormed(value) {
      LongestWhole(value, lower, end, maximumBytes);
    }
  }

  /** The prefix ends on a code point, fits, and no longer prefix that ends on a code point fits. */
  ghost predicate IsLongestWholePrefix(value: Text, prefix: Text, maximumBytes: nat) {
    && prefix <= value && WellFormed(prefix)
    && Encode(prefix) <= Encode(value)
    && ByteLength(prefix) <= maximumBytes
    && forall longer :: prefix < longer <= value && WellFormed(longer) ==> ByteLength(longer) > maximumBytes
  }

  lemma LongestWhole(value: Text, fitting: nat, end: nat, maximumBytes: nat)
    requires WellFormed(value) && end <= fitting <= |value|
    requires ByteLength(value[..end]) <= maximumBytes
    requires forall m :: fitting < m <= |value| ==> ByteLength(value[..m]) > maximumBytes
    requires end == if fitting > 0 && IsHigh(value[fitting - 1]) then fitting - 1 else fitting
    ensures IsLongestWholePrefix(value, value[..end], maximumBytes)
  {
    hide Encode, WellFormed, ByteLength;
    WholeEnd(value, fitting, end);
    WholePrefixEncodes(value, end);
    forall longer | value[..end] < longer <= value && WellFormed(longer)
      ensures ByteLength(longer) > maximumBytes
    {
      LongerIsBeyond(value, fitting, end, longer);
      assert longer == value[..|longer|];
    }
  }

  /** Where the cut goes: behind a whole code point. */
  lemma WholeEnd(value: Text, fitting: nat, end: nat)
    requires WellFormed(value) && end <= fitting <= |value|
    requires end == if fitting > 0 && IsHigh(value[fitting - 1]) then fitting - 1 else fitting
    ensures WellFormed(value[..end])
  {
    hide WellFormed;
    WholeCuts(value, fitting);
    WholeCuts(value, end);
  }

  lemma WholePrefixEncodes(value: Text, end: nat)
    requires end <= |value| && WellFormed(value) && WellFormed(value[..end])
    ensures Encode(value[..end]) <= Encode(value)
  {
    hide Encode, WellFormed;
    assert value == value[..end] + value[end..];
    WholeCuts(value, end);
    EncodeConcat(value[..end], value[end..]);
  }

  /** A longer whole prefix is longer than anything that fits. */
  lemma LongerIsBeyond(value: Text, fitting: nat, end: nat, longer: Text)
    requires WellFormed(value) && end <= fitting <= |value| && value[..end] < longer <= value && WellFormed(longer)
    requires end == if fitting > 0 && IsHigh(value[fitting - 1]) then fitting - 1 else fitting
    ensures fitting < |longer|
  {
    hide WellFormed;
    assert longer == value[..|longer|];
    WholeCuts(value, |longer|);
  }

  datatype Truncation = Truncation(value: Text, truncated: bool, bytes: nat) | RangeError

  /** Text that fits is returned unchanged. Otherwise it is cut to what the marker leaves of the
      limit and the marker put behind it; a marker that would fill the limit is left out. */
  method TruncateUtf8(value: Text, maximumBytes: int, marker: Text) returns (r: Truncation)
    ensures r.RangeError? <==> maximumBytes < 0 || maximumBytes > 9007199254740991
    ensures r.Truncation? ==> r.bytes == ByteLength(r.value) <= maximumBytes
    ensures r.Truncation? ==> (r.truncated <==> ByteLength(value) > maximumBytes) && (!r.truncated ==> r.value == value)
    ensures r.Truncation? && r.truncated && ByteLength(marker) >= maximumBytes ==>
      && IsCut(value, r.value, maximumBytes)
      && (WellFormed(value) ==> IsLongestWholePrefix(value, r.value, maximumBytes))
    ensures r.Truncation? && r.truncated && ByteLength(marker) < maximumBytes ==> exists prefix: Text ::
      && r.value == prefix + marker
      && IsCut(value, prefix, maximumBytes - ByteLength(marker))
      && (WellFormed(value) ==> IsLongestWholePrefix(value, prefix, maximumBytes - ByteLength(marker)))
  {
    if maximumBytes < 0 || maximumBytes > MAX_SAFE_INTEGER {
      return RangeError;
    }
    var valueBytes := ByteLength(value);
    if valueBytes <= maximumBytes {
      return Truncation(value, false, valueBytes);
    }
    var markerBytes := ByteLength(marker);
    hide ByteLength, IsCut, IsLongestWholePrefix, WellFormed;
    if markerBytes >= maximumBytes {
      var whole := Utf8Prefix(value, maximumBytes);
      return Truncation(whole, true, ByteLength(whole));
    }
    var prefix := Utf8Prefix(value, maximumBytes - markerBytes);
    JoinedLength(prefix, marker);
    return Truncation(prefix + marker, true, ByteLength(prefix + marker));
  }

  lemma JoinedLength(a: Text, b: Text)
    ensures ByteLength(a + b) <= ByteLength(a) + ByteLength(b)
  {
    JoiningNeverAddsBytes(a, b);
  }
}
