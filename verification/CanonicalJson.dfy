/** JSON values, and the canonical text by which the reconciler compares them. */
module CanonicalJson {
  import opened Utf8Truncation

  datatype Json =
    | Null
    | Bool(value: bool)
    | Number(text: Text)
    | String(units: Text)
    | Array(items: Items)
    | Object(members: Members)

  datatype Items = NoItems | Item(head: Json, tail: Items)

  /** The own properties of an object, in some order. */
  datatype Members = NoMembers | Member(key: Text, value: Json, rest: Members)

  function Ascii(s: string): Text {
    seq(|s|, i requires 0 <= i < |s| => if s[i] < 128 as char then s[i] as int else 0x3F)
  }

  const PROTO: Text := Ascii("__proto__")

  predicate Has(members: Members, key: Text) {
    members.Member? && (members.key == key || Has(members.rest, key))
  }

  function Get(members: Members, key: Text): Json
    requires Has(members, key)
  {
    if members.key == key then members.value else Get(members.rest, key)
  }

  // ---- Values that exist ----

  /** What a number prints as is made of these. */
  predicate IsNumberUnit(u: CodeUnit) {
    0x30 <= u <= 0x39 || u in {0x2B, 0x2D, 0x2E, 0x65}
  }

  /** Numbers have a printed form, and no object has a key twice. */
  predicate IsJson(v: Json) {
    match v
    case Number(text) =>
      text != [] && (0x30 <= text[0] <= 0x39 || text[0] == 0x2D) && forall u :: u in text ==> IsNumberUnit(u)
    case Array(items) => AreItems(items)
    case Object(members) => AreMembers(members)
    case _ => true
  }

  predicate AreItems(items: Items) {
    items.Item? ==> IsJson(items.head) && AreItems(items.tail)
  }

  predicate AreMembers(members: Members) {
    members.Member? ==> IsJson(members.value) && !Has(members.rest, members.key) && AreMembers(members.rest)
  }

  // ---- The order of keys ----

  /** By code units. */
  predicate Lex(a: Text, b: Text) {
    if b == [] then false
    else if a == [] then true
    else if a[0] != b[0] then a[0] < b[0]
    else Lex(a[1..], b[1..])
  }

  /** A canonical array index: such keys come first in an object, in ascending order. */
  predicate IsIndex(key: Text) {
    && 1 <= |key| <= 10
    && (forall u :: u in key ==> 0x30 <= u <= 0x39)
    && (key[0] == 0x30 ==> |key| == 1)
    && (|key| == 10 ==> Lex(key, Ascii("4294967295")))
  }

  /** The order in which an object lists keys that were added in the order of their code units. */
  predicate Before(a: Text, b: Text) {
    if IsIndex(a) != IsIndex(b) then IsIndex(a)
    else if IsIndex(a) && |a| != |b| then |a| < |b|
    else Lex(a, b)
  }

  lemma {:induction false} LexTotal(a: Text, b: Text)
    ensures a == b || Lex(a, b) || Lex(b, a)
    ensures !(Lex(a, b) && Lex(b, a)) && !Lex(a, a)
    decreases |a|
  {
    if a != [] {
      LexTotal(a[1..], if b != [] then b[1..] else []);
      if b != [] && a[0] == b[0] {
        assert a[1..] == b[1..] ==> a == [a[0]] + a[1..] && b == [b[0]] + b[1..];
      }
    }
  }

  lemma {:induction false} LexTransitive(a: Text, b: Text, c: Text)
    requires Lex(a, b) && Lex(b, c)
    ensures Lex(a, c)
    decreases |a|
  {
    if a != [] && a[0] == b[0] == c[0] {
      LexTransitive(a[1..], b[1..], c[1..]);
    }
  }

  lemma BeforeTotal(a: Text, b: Text)
    ensures a == b || Before(a, b) || Before(b, a)
    ensures !(Before(a, b) && Before(b, a)) && !Before(a, a)
  {
    hide IsIndex;
    LexTotal(a, b);
  }

  lemma BeforeTransitive(a: Text, b: Text, c: Text)
    requires Before(a, b) && Before(b, c)
    ensures Before(a, c)
  {
    hide IsIndex, Lex;
    if Lex(a, b) && Lex(b, c) {
      LexTransitive(a, b, c);
    }
  }

  // ---- sortKeys ----

  /** Where a new member goes among sorted ones. */
  function Insert(key: Text, value: Json, sorted: Members): Members {
    match sorted
    case NoMembers => Member(key, value, NoMembers)
    case Member(k, v, rest) =>
      if Before(key, k) then Member(key, value, sorted) else Member(k, v, Insert(key, value, rest))
  }

  /** `sorted["__proto__"] = value` sets a prototype and adds no member. */
  function SortMembers(members: Members): Members {
    match members
    case NoMembers => NoMembers
    case Member(key, value, rest) =>
      if key == PROTO then SortMembers(rest) else Insert(key, SortKeys(value), SortMembers(rest))
  }

  function SortItems(items: Items): Items {
    match items
    case NoItems => NoItems
    case Item(head, tail) => Item(SortKeys(head), SortItems(tail))
  }

  function SortKeys(v: Json): Json {
    match v
    case Array(items) => Array(SortItems(items))
    case Object(members) => Object(SortMembers(members))
    case _ => v
  }

  // ---- JSON.stringify ----

  const QUOTE: CodeUnit := 0x22
  const BACKSLASH: CodeUnit := 0x5C

  function HexDigit(n: nat): CodeUnit
    requires n < 16
  {
    if n < 10 then 0x30 + n else 0x57 + n
  }

  function UnicodeEscape(u: CodeUnit): Text {
    [BACKSLASH, 0x75, HexDigit(u / 0x1000), HexDigit(u / 0x100 % 0x10), HexDigit(u / 0x10 % 0x10), HexDigit(u % 0x10)]
  }

  /** The letter of a short escape. */
  function ShortEscape(u: CodeUnit): (letter: CodeUnit)
    ensures letter != 0x75
  {
    if u == QUOTE || u == BACKSLASH then u
    else if u == 0x08 then 0x62
    else if u == 0x0C then 0x66
    else if u == 0x0A then 0x6E
    else if u == 0x0D then 0x72
    else if u == 0x09 then 0x74
    else 0
  }

  /** One code unit that is no part of a pair; a lone surrogate is escaped. */
  function EscapeUnit(u: CodeUnit): (text: Text)
    ensures text != []
  {
    if ShortEscape(u) != 0 then [BACKSLASH, ShortEscape(u)]
    else if u < 0x20 || IsHigh(u) || IsLow(u) then UnicodeEscape(u)
    else [u]
  }

  function Escape(s: Text): Text {
    if s == [] then []
    else if StartsWithPair(s) then [s[0], s[1]] + Escape(s[2..])
    else EscapeUnit(s[0]) + Escape(s[1..])
  }

  function Quote(s: Text): Text {
    [QUOTE] + Escape(s) + [QUOTE]
  }

  function PrintItems(items: Items): Text {
    match items
    case NoItems => []
    case Item(head, tail) => Print(head) + (if tail == NoItems then [] else [0x2C] + PrintItems(tail))
  }

  function PrintMembers(members: Members): Text {
    match members
    case NoMembers => []
    case Member(key, value, rest) =>
      Quote(key) + [0x3A] + Print(value) + (if rest == NoMembers then [] else [0x2C] + PrintMembers(rest))
  }

  function Print(v: Json): Text {
    match v
    case Null => Ascii("null")
    case Bool(b) => if b then Ascii("true") else Ascii("false")
    case Number(text) => text
    case String(units) => Quote(units)
    case Array(items) => [0x5B] + PrintItems(items) + [0x5D]
    case Object(members) => [0x7B] + PrintMembers(members) + [0x7D]
  }

  function StableJson(v: Json): Text {
    Print(SortKeys(v))
  }

  // ---- Equal up to the order of keys ----

  /** The same value, but for the order of object members and for members named `__proto__`. */
  ghost predicate Same(a: Json, b: Json)
    decreases a
  {
    match (a, b)
    case (Array(x), Array(y)) => SameItems(x, y)
    case (Object(x), Object(y)) => Includes(x, y) && (forall key :: key != PROTO && Has(y, key) ==> Has(x, key))
    case _ => !a.Array? && !a.Object? && a == b
  }

  ghost predicate SameItems(a: Items, b: Items)
    decreases a
  {
    match (a, b)
    case (Item(x, xs), Item(y, ys)) => Same(x, y) && SameItems(xs, ys)
    case _ => a == b
  }

  /** Every member of `a` is in `b`, with the same value. */
  ghost predicate Includes(a: Members, b: Members)
    decreases a
  {
    a.Member? ==> (a.key != PROTO ==> Has(b, a.key) && Same(a.value, Get(b, a.key))) && Includes(a.rest, b)
  }

  // ---- Sorting is canonical ----

  ghost predicate Sorted(members: Members) {
    members.Member? ==> (forall key :: Has(members.rest, key) ==> Before(members.key, key)) && Sorted(members.rest)
  }

  lemma {:induction false} InsertHas(key: Text, value: Json, sorted: Members, k: Text)
    ensures Has(Insert(key, value, sorted), key)
    ensures Has(Insert(key, value, sorted), k) <==> k == key || Has(sorted, k)
    ensures !Has(sorted, key) ==> Get(Insert(key, value, sorted), key) == value
    ensures k != key && Has(sorted, k) ==> Get(Insert(key, value, sorted), k) == Get(sorted, k)
  {
    hide Before;
    if sorted.Member? {
      InsertHas(key, value, sorted.rest, k);
      InsertHas(key, value, sorted.rest, key);
    }
  }

  lemma {:induction false} InsertSorts(key: Text, value: Json, sorted: Members)
    requires Sorted(sorted) && !Has(sorted, key)
    ensures Sorted(Insert(key, value, sorted))
  {
    hide Before;
    if sorted.Member? {
      BeforeTotal(key, sorted.key);
      if Before(key, sorted.key) {
        forall k | Has(sorted.rest, k)
          ensures Before(key, k)
        {
          BeforeTransitive(key, sorted.key, k);
        }
      } else {
        InsertSorts(key, value, sorted.rest);
        forall k | Has(Insert(key, value, sorted.rest), k)
          ensures Before(sorted.key, k)
        {
          InsertHas(key, value, sorted.rest, k);
        }
      }
    }
  }

  lemma {:induction false} SortHas(members: Members, k: Text)
    requires AreMembers(members)
    ensures Has(SortMembers(members), k) <==> k != PROTO && Has(members, k)
    ensures k != PROTO && Has(members, k) ==> Get(SortMembers(members), k) == SortKeys(Get(members, k))
  {
    hide Insert, PROTO;
    if members.Member? {
      SortHas(members.rest, k);
      SortHas(members.rest, members.key);
      if members.key != PROTO {
        InsertHas(members.key, SortKeys(members.value), SortMembers(members.rest), k);
      }
    }
  }

  lemma {:induction false} SortSorts(members: Members)
    requires AreMembers(members)
    ensures Sorted(SortMembers(members))
  {
    if members.Member? {
      SortSorts(members.rest);
      SortHas(members.rest, members.key);
      if members.key != PROTO {
        InsertSorts(members.key, SortKeys(members.value), SortMembers(members.rest));
      }
    }
  }

  /** Sorted members are determined by what they hold. */
  lemma {:induction false} SortedUnique(a: Members, b: Members)
    requires Sorted(a) && Sorted(b)
    requires forall k :: Has(a, k) <==> Has(b, k)
    requires forall k :: Has(a, k) ==> Get(a, k) == Get(b, k)
    ensures a == b
  {
    hide Before;
    if a.Member? {
      assert Has(a, a.key);
      assert b.Member?;
      assert Has(b, b.key);
      BeforeTotal(a.key, b.key);
      assert a.key == b.key;
      forall k
        ensures Has(a.rest, k) <==> Has(b.rest, k)
        ensures Has(a.rest, k) ==> Get(a.rest, k) == Get(b.rest, k)
      {
        BeforeTotal(a.key, k);
        assert Has(a.rest, k) ==> Before(a.key, k) && k != a.key && Has(a, k);
        assert Has(b.rest, k) ==> Before(b.key, k) && k != b.key && Has(b, k);
      }
      SortedUnique(a.rest, b.rest);
    } else {
      assert b.Member? ==> Has(b, b.key);
    }
  }

  lemma {:induction false} GetIsJson(members: Members, key: Text)
    requires AreMembers(members) && Has(members, key)
    ensures IsJson(Get(members, key))
  {
    if members.key != key {
      GetIsJson(members.rest, key);
    }
  }

  /** Sorting makes two values equal exactly when they were the same. */
  lemma {:induction false} SortsAlikeIffSame(a: Json, b: Json)
    requires IsJson(a) && IsJson(b)
    ensures SortKeys(a) == SortKeys(b) <==> Same(a, b)
    decreases a
  {
    if a.Array? && b.Array? {
      ItemsSortAlike(a.items, b.items);
    } else if a.Object? && b.Object? {
      MembersSortAlike(a.members, b.members);
    }
  }

  lemma {:induction false} ItemsSortAlike(a: Items, b: Items)
    requires AreItems(a) && AreItems(b)
    ensures SortItems(a) == SortItems(b) <==> SameItems(a, b)
    decreases a
  {
    if a.Item? && b.Item? {
      SortsAlikeIffSame(a.head, b.head);
      ItemsSortAlike(a.tail, b.tail);
    }
  }

  ghost predicate SortsInto(a: Members, b: Members, k: Text) {
    k != PROTO && Has(a, k) ==> Has(b, k) && SortKeys(Get(a, k)) == SortKeys(Get(b, k))
  }

  lemma {:induction false} IncludesIff(a: Members, b: Members)
    requires AreMembers(a) && AreMembers(b)
    ensures Includes(a, b) <==> forall k :: SortsInto(a, b, k)
    decreases a, 0
  {
    hide SortKeys, Same, IsJson;
    if a.Member? {
      IncludesIff(a.rest, b);
      if Has(b, a.key) {
        GetIsJson(b, a.key);
        SortsAlikeIffSame(a.value, Get(b, a.key));
      }
      assert SortsInto(a, b, a.key) <==> (a.key != PROTO ==> Has(b, a.key) && Same(a.value, Get(b, a.key)));
      forall k | k != a.key
        ensures SortsInto(a, b, k) <==> SortsInto(a.rest, b, k)
      {}
      assert SortsInto(a.rest, b, a.key);
    }
  }

  lemma {:induction false} MembersSortAlike(a: Members, b: Members)
    requires AreMembers(a) && AreMembers(b)
    ensures SortMembers(a) == SortMembers(b) <==> Same(Object(a), Object(b))
    decreases a, 1
  {
    hide SortKeys, SortMembers, Insert, IsJson, AreMembers, Includes, Sorted, Before;
    IncludesIff(a, b);
    forall k
      ensures Has(SortMembers(a), k) <==> k != PROTO && Has(a, k)
      ensures Has(SortMembers(b), k) <==> k != PROTO && Has(b, k)
      ensures k != PROTO && Has(a, k) ==> Get(SortMembers(a), k) == SortKeys(Get(a, k))
      ensures k != PROTO && Has(b, k) ==> Get(SortMembers(b), k) == SortKeys(Get(b, k))
    {
      SortHas(a, k);
      SortHas(b, k);
    }
    if Same(Object(a), Object(b)) {
      forall k
        ensures Has(SortMembers(a), k) <==> Has(SortMembers(b), k)
        ensures Has(SortMembers(a), k) ==> Get(SortMembers(a), k) == Get(SortMembers(b), k)
      {
        assert SortsInto(a, b, k);
      }
      SortSorts(a);
      SortSorts(b);
      SortedUnique(SortMembers(a), SortMembers(b));
    }
    if SortMembers(a) == SortMembers(b) {
      forall k
        ensures SortsInto(a, b, k)
        ensures k != PROTO && Has(b, k) ==> Has(a, k)
      {
        assert Has(SortMembers(a), k) == Has(SortMembers(b), k);
      }
    }
  }

  // ---- Printing loses nothing ----

  /** What may follow a value in a text. */
  predicate Stops(text: Text) {
    text == [] || text[0] in {0x2C, 0x5D, 0x7D}
  }

  lemma CancelFront(p: Text, x: Text, y: Text)
    requires p + x == p + y
    ensures x == y
  {
    assert (p + x)[|p|..] == x && (p + y)[|p|..] == y;
  }

  /** Both texts start with as many units of their own. */
  lemma CancelEqual(p: Text, q: Text, x: Text, y: Text)
    requires p + x == q + y && |p| == |q|
    ensures p == q && x == y
  {
    assert (p + x)[..|p|] == p && (q + y)[..|q|] == q;
    assert (p + x)[|p|..] == x && (q + y)[|q|..] == y;
  }

  lemma HexDigitsTell(u: CodeUnit, v: CodeUnit)
    ensures UnicodeEscape(u) == UnicodeEscape(v) ==> u == v
  {
    assert u == u / 0x1000 * 0x1000 + u / 0x100 % 0x10 * 0x100 + u / 0x10 % 0x10 * 0x10 + u % 0x10 by { Nibbles(u); }
    assert v == v / 0x1000 * 0x1000 + v / 0x100 % 0x10 * 0x100 + v / 0x10 % 0x10 * 0x10 + v % 0x10 by { Nibbles(v); }
    var x, y := UnicodeEscape(u), UnicodeEscape(v);
    if x == y {
      HexDigitTells(u / 0x1000, v / 0x1000, x[2], y[2]);
      HexDigitTells(u / 0x100 % 0x10, v / 0x100 % 0x10, x[3], y[3]);
      HexDigitTells(u / 0x10 % 0x10, v / 0x10 % 0x10, x[4], y[4]);
      HexDigitTells(u % 0x10, v % 0x10, x[5], y[5]);
    }
  }

  lemma HexDigitTells(m: nat, n: nat, a: CodeUnit, b: CodeUnit)
    requires m < 16 && n < 16 && a == HexDigit(m) && b == HexDigit(n) && a == b
    ensures m == n
  {}

  lemma Nibbles(u: CodeUnit)
    ensures u == u / 0x1000 * 0x1000 + u / 0x100 % 0x10 * 0x100 + u / 0x10 % 0x10 * 0x10 + u % 0x10
  {
    assert u / 0x10 / 0x10 == u / 0x100 && u / 0x100 / 0x10 == u / 0x1000;
  }

  /** The escape of one unit can be told from the escape of another by its front. */
  lemma EscapeUnitTells(u: CodeUnit, v: CodeUnit, x: Text, y: Text)
    requires EscapeUnit(u) + x == EscapeUnit(v) + y
    ensures u == v && x == y
  {
    hide UnicodeEscape;
    var p, q := EscapeUnit(u), EscapeUnit(v);
    assert (p + x)[0] == p[0] && (q + y)[0] == q[0];
    EscapeFront(u);
    EscapeFront(v);
    if |p| >= 2 && |q| >= 2 {
      assert (p + x)[1] == p[1] && (q + y)[1] == q[1];
    }
    CancelEqual(p, q, x, y);
    HexDigitsTell(u, v);
  }

  /** The first units of an escape tell which form it has. */
  lemma EscapeFront(u: CodeUnit)
    ensures var p := EscapeUnit(u);
      && (|p| == 1 ==> p[0] == u && p[0] != BACKSLASH && p[0] != QUOTE && !IsHigh(u) && !IsLow(u))
      && (|p| == 2 ==> p == [BACKSLASH, ShortEscape(u)] && ShortEscape(u) != 0)
      && (|p| > 2 ==> |p| == 6 && p == UnicodeEscape(u) && p[0] == BACKSLASH && p[1] == 0x75)
      && |p| >= 1
  {}

  lemma {:induction false} EscapeTells(a: Text, b: Text, x: Text, y: Text)
    requires Escape(a) + ([QUOTE] + x) == Escape(b) + ([QUOTE] + y)
    ensures a == b && x == y
    decreases |a| + |b|
  {
    hide EscapeUnit;
    var s, t := Escape(a) + ([QUOTE] + x), Escape(b) + ([QUOTE] + y);
    EscapedFront(a, [QUOTE] + x);
    EscapedFront(b, [QUOTE] + y);
    if a == [] || b == [] {
      assert a == [] ==> s == [QUOTE] + x;
      assert b == [] ==> t == [QUOTE] + y;
      CancelFront([QUOTE], x, y);
    } else if StartsWithPair(a) {
      assert s == [a[0], a[1]] + (Escape(a[2..]) + ([QUOTE] + x));
      assert s[0] == a[0];
      assert t == [b[0], b[1]] + (Escape(b[2..]) + ([QUOTE] + y));
      CancelEqual([a[0], a[1]], [b[0], b[1]], Escape(a[2..]) + ([QUOTE] + x), Escape(b[2..]) + ([QUOTE] + y));
      EscapeTells(a[2..], b[2..], x, y);
      assert a == [a[0], a[1]] + a[2..] && b == [b[0], b[1]] + b[2..];
    } else {
      assert s == EscapeUnit(a[0]) + (Escape(a[1..]) + ([QUOTE] + x));
      assert !StartsWithPair(b);
      assert t == EscapeUnit(b[0]) + (Escape(b[1..]) + ([QUOTE] + y));
      EscapeUnitTells(a[0], b[0], Escape(a[1..]) + ([QUOTE] + x), Escape(b[1..]) + ([QUOTE] + y));
      EscapeTells(a[1..], b[1..], x, y);
      assert a == [a[0]] + a[1..] && b == [b[0]] + b[1..];
    }
  }

  /** The front of an escaped text: a quote only at its end, a raw high surrogate only for a pair. */
  lemma EscapedFront(a: Text, rest: Text)
    requires rest != [] && rest[0] == QUOTE
    ensures var s := Escape(a) + rest;
      && s != []
      && (a == [] <==> s[0] == QUOTE)
      && (StartsWithPair(a) <==> IsHigh(s[0]))
  {
    if a != [] && !StartsWithPair(a) {
      EscapeFront(a[0]);
    }
  }

  lemma QuoteTells(a: Text, b: Text, x: Text, y: Text)
    requires Quote(a) + x == Quote(b) + y
    ensures a == b && x == y
  {
    assert Quote(a) + x == [QUOTE] + (Escape(a) + ([QUOTE] + x));
    assert Quote(b) + y == [QUOTE] + (Escape(b) + ([QUOTE] + y));
    CancelFront([QUOTE], Escape(a) + ([QUOTE] + x), Escape(b) + ([QUOTE] + y));
    EscapeTells(a, b, x, y);
  }

  function NumberLength(text: Text): nat {
    if text != [] && IsNumberUnit(text[0]) then 1 + NumberLength(text[1..]) else 0
  }

  lemma {:induction false} NumberEnds(a: Text, x: Text)
    requires (forall u :: u in a ==> IsNumberUnit(u)) && Stops(x)
    ensures NumberLength(a + x) == |a|
  {
    if a == [] {
      assert a + x == x;
    } else {
      assert IsNumberUnit(a[0]) && (a + x)[1..] == a[1..] + x;
      NumberEnds(a[1..], x);
    }
  }

  lemma NumberTells(a: Text, b: Text, x: Text, y: Text)
    requires a + x == b + y && Stops(x) && Stops(y)
    requires (forall u :: u in a ==> IsNumberUnit(u)) && (forall u :: u in b ==> IsNumberUnit(u))
    ensures a == b && x == y
  {
    NumberEnds(a, x);
    NumberEnds(b, y);
    CancelEqual(a, b, x, y);
  }

  /** The first unit of a value tells its kind. */
  lemma PrintFront(v: Json)
    requires IsJson(v)
    ensures Print(v) != []
    ensures var u := Print(v)[0];
      match v
      case Null => u == 0x6E
      case Bool(b) => u == if b then 0x74 else 0x66
      case Number(_) => 0x30 <= u <= 0x39 || u == 0x2D
      case String(_) => u == QUOTE
      case Array(_) => u == 0x5B
      case Object(_) => u == 0x7B
  {}

  function ItemsTail(tail: Items): Text {
    if tail == NoItems then [] else [0x2C] + PrintItems(tail)
  }

  function MembersTail(rest: Members): Text {
    if rest == NoMembers then [] else [0x2C] + PrintMembers(rest)
  }

  /** A printed value can be told, with its end, from what follows it. */
  lemma {:induction false} PrintTells(a: Json, b: Json, x: Text, y: Text)
    requires IsJson(a) && IsJson(b) && Stops(x) && Stops(y)
    requires Print(a) + x == Print(b) + y
    ensures a == b && x == y
    decreases a, 1
  {
    hide Print, IsJson, PrintItems, PrintMembers, Quote, Escape;
    PrintFront(a);
    PrintFront(b);
    assert (Print(a) + x)[0] == Print(a)[0] && (Print(b) + y)[0] == Print(b)[0];
    PrintParts(a, x);
    PrintParts(b, y);
    match a
    case Null => CancelFront(Print(a), x, y);
    case Bool(_) => CancelFront(Print(a), x, y);
    case Number(s) => NumberTells(s, b.text, x, y);
    case String(s) => QuoteTells(s, b.units, x, y);
    case Array(items) =>
      CancelFront([0x5B], PrintItems(items) + ([0x5D] + x), PrintItems(b.items) + ([0x5D] + y));
      ItemsTell(items, b.items, x, y);
    case Object(members) =>
      CancelFront([0x7B], PrintMembers(members) + ([0x7D] + x), PrintMembers(b.members) + ([0x7D] + y));
      MembersTell(members, b.members, x, y);
  }

  /** What a printed value is made of. */
  lemma PrintParts(v: Json, x: Text)
    requires IsJson(v)
    ensures match v
      case Number(s) => Print(v) == s && forall u :: u in s ==> IsNumberUnit(u)
      case String(s) => Print(v) == Quote(s)
      case Array(items) => AreItems(items) && Print(v) + x == [0x5B] + (PrintItems(items) + ([0x5D] + x))
      case Object(members) => AreMembers(members) && Print(v) + x == [0x7B] + (PrintMembers(members) + ([0x7D] + x))
      case _ => true
  {
    hide PrintItems, PrintMembers, Quote;
  }

  lemma {:induction false} ItemsTell(a: Items, b: Items, x: Text, y: Text)
    requires AreItems(a) && AreItems(b) && PrintItems(a) + ([0x5D] + x) == PrintItems(b) + ([0x5D] + y)
    ensures a == b && x == y
    decreases a, 0
  {
    hide Print, IsJson, ItemsTail, PrintItems;
    ItemsFront(a, x);
    ItemsFront(b, y);
    if a.NoItems? {
      CancelFront([0x5D], x, y);
    } else {
      var p, q := ItemsTail(a.tail) + ([0x5D] + x), ItemsTail(b.tail) + ([0x5D] + y);
      ItemsTailFront(a.tail, x);
      ItemsTailFront(b.tail, y);
      PrintTells(a.head, b.head, p, q);
      TailTells(a.tail, b.tail, x, y);
    }
  }

  lemma Associates(p: Text, q: Text, r: Text)
    ensures (p + q) + r == p + (q + r)
  {}

  lemma ItemParts(a: Items, x: Text)
    requires a.Item?
    ensures PrintItems(a) + ([0x5D] + x) == Print(a.head) + (ItemsTail(a.tail) + ([0x5D] + x))
  {
    hide Print;
    assert PrintItems(a) == Print(a.head) + ItemsTail(a.tail);
    hide ItemsTail, PrintItems;
    Associates(Print(a.head), ItemsTail(a.tail), [0x5D] + x);
  }

  lemma ItemsFront(a: Items, x: Text)
    requires AreItems(a)
    ensures a.NoItems? <==> (PrintItems(a) + ([0x5D] + x))[0] == 0x5D
    ensures a.NoItems? ==> PrintItems(a) + ([0x5D] + x) == [0x5D] + x
    ensures a.Item? ==> PrintItems(a) + ([0x5D] + x) == Print(a.head) + (ItemsTail(a.tail) + ([0x5D] + x))
  {
    hide Print, IsJson, ItemsTail;
    if a.Item? {
      ItemParts(a, x);
      hide PrintItems;
      PrintFront(a.head);
    }
  }

  lemma ItemsTailFront(tail: Items, x: Text)
    ensures var t := ItemsTail(tail) + ([0x5D] + x);
      && Stops(t)
      && (tail.NoItems? ==> t == [0x5D] + x)
      && (tail.Item? ==> t == [0x2C] + (PrintItems(tail) + ([0x5D] + x)))
  {
    hide PrintItems;
    if tail.Item? {
      Associates([0x2C], PrintItems(tail), [0x5D] + x);
    }
  }

  lemma {:induction false} TailTells(a: Items, b: Items, x: Text, y: Text)
    requires AreItems(a) && AreItems(b) && ItemsTail(a) + ([0x5D] + x) == ItemsTail(b) + ([0x5D] + y)
    ensures a == b && x == y
    decreases a, 1
  {
    hide ItemsTail, PrintItems, AreItems;
    ItemsTailFront(a, x);
    ItemsTailFront(b, y);
    if a.NoItems? {
      CancelFront([0x5D], x, y);
    } else {
      CancelFront([0x2C], PrintItems(a) + ([0x5D] + x), PrintItems(b) + ([0x5D] + y));
      ItemsTell(a, b, x, y);
    }
  }

  lemma {:induction false} MembersTell(a: Members, b: Members, x: Text, y: Text)
    requires AreMembers(a) && AreMembers(b) && PrintMembers(a) + ([0x7D] + x) == PrintMembers(b) + ([0x7D] + y)
    ensures a == b && x == y
    decreases a, 0
  {
    hide Print, IsJson, Quote, Has, MembersTail, PrintMembers;
    MembersFront(a, x);
    MembersFront(b, y);
    if a.NoMembers? {
      CancelFront([0x7D], x, y);
    } else {
      var p, q := MembersTail(a.rest) + ([0x7D] + x), MembersTail(b.rest) + ([0x7D] + y);
      MemberParts(a, x);
      MemberParts(b, y);
      QuoteTells(a.key, b.key, [0x3A] + (Print(a.value) + p), [0x3A] + (Print(b.value) + q));
      CancelFront([0x3A], Print(a.value) + p, Print(b.value) + q);
      MembersTailFront(a.rest, x);
      MembersTailFront(b.rest, y);
      PrintTells(a.value, b.value, p, q);
      RestTells(a.rest, b.rest, x, y);
    }
  }

  lemma MembersFront(a: Members, x: Text)
    ensures a.NoMembers? <==> (PrintMembers(a) + ([0x7D] + x))[0] == 0x7D
    ensures a.NoMembers? ==> PrintMembers(a) + ([0x7D] + x) == [0x7D] + x
  {
    hide Print, Escape;
  }

  lemma MembersTailFront(rest: Members, x: Text)
    ensures var t := MembersTail(rest) + ([0x7D] + x);
      && Stops(t)
      && (rest.NoMembers? ==> t == [0x7D] + x)
      && (rest.Member? ==> t == [0x2C] + (PrintMembers(rest) + ([0x7D] + x)))
  {
    hide PrintMembers;
  }

  lemma {:induction false} RestTells(a: Members, b: Members, x: Text, y: Text)
    requires AreMembers(a) && AreMembers(b) && MembersTail(a) + ([0x7D] + x) == MembersTail(b) + ([0x7D] + y)
    ensures a == b && x == y
    decreases a, 1
  {
    hide MembersTail, PrintMembers, AreMembers;
    MembersTailFront(a, x);
    MembersTailFront(b, y);
    if a.NoMembers? {
      CancelFront([0x7D], x, y);
    } else {
      CancelFront([0x2C], PrintMembers(a) + ([0x7D] + x), PrintMembers(b) + ([0x7D] + y));
      MembersTell(a, b, x, y);
    }
  }

  lemma MemberParts(a: Members, x: Text)
    requires a.Member?
    ensures PrintMembers(a) + ([0x7D] + x) ==
      Quote(a.key) + ([0x3A] + (Print(a.value) + (MembersTail(a.rest) + ([0x7D] + x))))
  {
    hide Print, Quote;
  }

  // ---- The canonical text ----

  lemma {:induction false} SortKeepsJson(v: Json)
    requires IsJson(v)
    ensures IsJson(SortKeys(v))
    decreases v
  {
    match v
    case Array(items) => ItemsKeepJson(items);
    case Object(members) => MembersKeepJson(members);
    case _ =>
  }

  lemma {:induction false} ItemsKeepJson(items: Items)
    requires AreItems(items)
    ensures AreItems(SortItems(items))
    decreases items
  {
    if items.Item? {
      SortKeepsJson(items.head);
      ItemsKeepJson(items.tail);
    }
  }

  lemma {:induction false} MembersKeepJson(members: Members)
    requires AreMembers(members)
    ensures AreMembers(SortMembers(members))
    decreases members
  {
    if members.Member? {
      MembersKeepJson(members.rest);
      SortKeepsJson(members.value);
      if members.key != PROTO {
        SortHas(members.rest, members.key);
        InsertKeepsJson(members.key, SortKeys(members.value), SortMembers(members.rest));
      }
    }
  }

  lemma {:induction false} InsertKeepsJson(key: Text, value: Json, sorted: Members)
    requires AreMembers(sorted) && IsJson(value) && !Has(sorted, key)
    ensures AreMembers(Insert(key, value, sorted))
    decreases sorted
  {
    hide Before, IsJson;
    if sorted.Member? {
      InsertKeepsJson(key, value, sorted.rest);
      InsertHas(key, value, sorted.rest, sorted.key);
    }
  }

  /** Two values have the same canonical text if and only if they are the same value up to the order
      of object members, and up to members named `__proto__`. */
  lemma StableJsonIsCanonical(a: Json, b: Json)
    requires IsJson(a) && IsJson(b)
    ensures StableJson(a) == StableJson(b) <==> Same(a, b)
  {
    hide Print, SortKeys, Same, IsJson;
    SortKeepsJson(a);
    SortKeepsJson(b);
    SortsAlikeIffSame(a, b);
    if StableJson(a) == StableJson(b) {
      assert Print(SortKeys(a)) + [] == Print(SortKeys(b)) + [];
      PrintTells(SortKeys(a), SortKeys(b), [], []);
    }
  }

  // ---- Members named `__proto__` ----

  /** The same value, but for the order of object members. */
  ghost predicate Equal(a: Json, b: Json)
    decreases a
  {
    match (a, b)
    case (Array(x), Array(y)) => EqualItems(x, y)
    case (Object(x), Object(y)) => HoldsAll(x, y) && (forall key :: Has(y, key) ==> Has(x, key))
    case _ => !a.Array? && !a.Object? && a == b
  }

  ghost predicate EqualItems(a: Items, b: Items)
    decreases a
  {
    match (a, b)
    case (Item(x, xs), Item(y, ys)) => Equal(x, y) && EqualItems(xs, ys)
    case _ => a == b
  }

  ghost predicate HoldsAll(a: Members, b: Members)
    decreases a
  {
    a.Member? ==> Has(b, a.key) && Equal(a.value, Get(b, a.key)) && HoldsAll(a.rest, b)
  }

  /** No object in the value, at any depth, has a member named `__proto__`. */
  predicate NoProto(v: Json) {
    match v
    case Array(items) => NoProtoItems(items)
    case Object(members) => NoProtoMembers(members)
    case _ => true
  }

  predicate NoProtoItems(items: Items) {
    items.Item? ==> NoProto(items.head) && NoProtoItems(items.tail)
  }

  predicate NoProtoMembers(members: Members) {
    members.Member? ==> members.key != PROTO && NoProto(members.value) && NoProtoMembers(members.rest)
  }

  function DropProto(v: Json): Json {
    match v
    case Array(items) => Array(DropProtoItems(items))
    case Object(members) => Object(DropProtoMembers(members))
    case _ => v
  }

  function DropProtoItems(items: Items): Items {
    if items.NoItems? then items else Item(DropProto(items.head), DropProtoItems(items.tail))
  }

  function DropProtoMembers(members: Members): Members {
    if members.NoMembers? then members
    else if members.key == PROTO then DropProtoMembers(members.rest)
    else Member(members.key, DropProto(members.value), DropProtoMembers(members.rest))
  }

  lemma {:induction false} NoProtoGet(members: Members, key: Text)
    requires NoProtoMembers(members) && Has(members, key)
    ensures key != PROTO && NoProto(Get(members, key))
  {
    if members.key != key {
      NoProtoGet(members.rest, key);
    }
  }

  lemma {:induction false} PlainValuesEqual(a: Json, b: Json)
    requires NoProto(a) && NoProto(b)
    ensures Same(a, b) <==> Equal(a, b)
    decreases a, 1
  {
    match (a, b)
    case (Array(x), Array(y)) => PlainItemsEqual(x, y);
    case (Object(x), Object(y)) =>
      PlainMembersHeld(x, y);
      forall key
        ensures Has(y, key) ==> key != PROTO
      {
        if Has(y, key) { NoProtoGet(y, key); }
      }
    case _ =>
  }

  lemma {:induction false} PlainItemsEqual(a: Items, b: Items)
    requires NoProtoItems(a) && NoProtoItems(b)
    ensures SameItems(a, b) <==> EqualItems(a, b)
    decreases a
  {
    if a.Item? && b.Item? {
      PlainValuesEqual(a.head, b.head);
      PlainItemsEqual(a.tail, b.tail);
    }
  }

  lemma {:induction false} PlainMembersHeld(a: Members, b: Members)
    requires NoProtoMembers(a) && NoProtoMembers(b)
    ensures Includes(a, b) <==> HoldsAll(a, b)
    decreases a
  {
    if a.Member? {
      PlainMembersHeld(a.rest, b);
      if Has(b, a.key) {
        NoProtoGet(b, a.key);
        PlainValuesEqual(a.value, Get(b, a.key));
      }
    }
  }

  lemma {:induction false} DroppedSortsAlike(v: Json)
    ensures SortKeys(DropProto(v)) == SortKeys(v)
    decreases v
  {
    match v
    case Array(items) => DroppedItemsSortAlike(items);
    case Object(members) => DroppedMembersSortAlike(members);
    case _ =>
  }

  lemma {:induction false} DroppedItemsSortAlike(items: Items)
    ensures SortItems(DropProtoItems(items)) == SortItems(items)
    decreases items
  {
    if items.Item? {
      DroppedSortsAlike(items.head);
      DroppedItemsSortAlike(items.tail);
    }
  }

  lemma {:induction false} DroppedMembersSortAlike(members: Members)
    ensures SortMembers(DropProtoMembers(members)) == SortMembers(members)
    decreases members
  {
    hide Insert, PROTO;
    if members.Member? {
      DroppedMembersSortAlike(members.rest);
      DroppedSortsAlike(members.value);
    }
  }

  lemma {:induction false} DroppedGet(members: Members, key: Text)
    ensures Has(DropProtoMembers(members), key) <==> key != PROTO && Has(members, key)
    ensures Has(DropProtoMembers(members), key) ==> Get(DropProtoMembers(members), key) == DropProto(Get(members, key))
  {
    hide PROTO;
    if members.Member? {
      DroppedGet(members.rest, key);
    }
  }

  /** Dropping such members keeps a value equal only if it has none. */
  lemma {:induction false} DroppingShows(v: Json)
    requires IsJson(v)
    ensures Equal(v, DropProto(v)) <==> NoProto(v)
    decreases v, 1
  {
    match v
    case Array(items) => DroppingItemsShows(items);
    case Object(members) =>
      DroppingMembersShows(members, members);
      forall key
        ensures Has(DropProtoMembers(members), key) ==> Has(members, key)
      {
        DroppedGet(members, key);
      }
    case _ =>
  }

  lemma {:induction false} DroppingItemsShows(items: Items)
    requires AreItems(items)
    ensures EqualItems(items, DropProtoItems(items)) <==> NoProtoItems(items)
    decreases items
  {
    if items.Item? {
      DroppingShows(items.head);
      DroppingItemsShows(items.tail);
    }
  }

  /** `part` is a tail of the members. */
  lemma {:induction false} DroppingMembersShows(part: Members, members: Members)
    requires AreMembers(part)
    requires forall key :: Has(part, key) ==> Has(members, key) && Get(members, key) == Get(part, key)
    ensures HoldsAll(part, DropProtoMembers(members)) <==> NoProtoMembers(part)
    decreases part, 0
  {
    hide PROTO, IsJson;
    if part.Member? {
      assert Has(part, part.key) && Get(part, part.key) == part.value;
      forall key | Has(part.rest, key)
        ensures Has(members, key) && Get(members, key) == Get(part.rest, key)
      {
        assert Has(part, key) && key != part.key;
      }
      DroppingMembersShows(part.rest, members);
      DroppedGet(members, part.key);
      DroppingShows(part.value);
    }
  }

  /** Where the law holds and where it fails. Two values without such members have the same text if
      and only if they are equal up to the order of members. Any value that has one, at any depth,
      has the same text as a value that it does not equal. */
  lemma LawHoldsWithoutProto(a: Json, b: Json)
    requires IsJson(a) && IsJson(b)
    ensures NoProto(a) && NoProto(b) ==> (StableJson(a) == StableJson(b) <==> Equal(a, b))
    ensures StableJson(a) == StableJson(DropProto(a))
    ensures Equal(a, DropProto(a)) <==> NoProto(a)
  {
    hide IsJson, NoProto, Same, Equal, DropProto, Print, SortKeys;
    StableJsonIsCanonical(a, b);
    if NoProto(a) && NoProto(b) {
      PlainValuesEqual(a, b);
    }
    DroppedSortsAlike(a);
    DroppingShows(a);
  }
}
