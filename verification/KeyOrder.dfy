/** The order in which the canonical text lists the keys of an object, spelled out: the array
    indices below 2^32 - 1 by their number, then all other keys by their code units. */
module KeyOrder {
  import opened Utf8Truncation
  import opened CanonicalJson

  /** At the first position where the two differ, `a` is smaller or at its end. */
  ghost predicate ComesFirst(a: Text, b: Text) {
    exists k :: 0 <= k <= |a| && k < |b| && a[..k] == b[..k] && (k == |a| || a[k] < b[k])
  }

  lemma {:induction false} LexInFull(a: Text, b: Text)
    ensures Lex(a, b) <==> ComesFirst(a, b)
    decreases |a|
  {
    if b == [] {
    } else if a == [] {
      assert a[..0] == b[..0];
    } else if a[0] != b[0] {
      if a[0] < b[0] {
        assert a[..0] == b[..0];
      }
    } else {
      LexInFull(a[1..], b[1..]);
      if k :| 0 <= k <= |a| && k < |b| && a[..k] == b[..k] && (k == |a| || a[k] < b[k]) {
        assert k > 0;
        assert a[1..][..k - 1] == a[..k][1..] == b[..k][1..] == b[1..][..k - 1];
      }
      var a1, b1 := a[1..], b[1..];
      if k :| 0 <= k <= |a1| && k < |b1| && a1[..k] == b1[..k] && (k == |a1| || a1[k] < b1[k]) {
        assert a[..k + 1] == [a[0]] + a[1..][..k] && b[..k + 1] == [b[0]] + b[1..][..k];
      }
    }
  }

  /** The decimal digits of a number. */
  function Digits(n: nat): (digits: Text)
    ensures digits != []
  {
    (if n < 10 then [] else Digits(n / 10)) + [0x30 + n % 10]
  }

  lemma {:induction false} DigitsAreDigits(n: nat)
    ensures forall u :: u in Digits(n) ==> 0x30 <= u <= 0x39
    ensures Digits(n)[0] == 0x30 ==> n == 0
    ensures Digits(0) == [0x30]
  {
    if n >= 10 {
      DigitsAreDigits(n / 10);
      assert Digits(n)[0] == Digits(n / 10)[0];
    }
  }

  lemma {:induction false} LongerIsLarger(m: nat, n: nat)
    requires m <= n
    ensures |Digits(m)| <= |Digits(n)|
  {
    if m >= 10 {
      LongerIsLarger(m / 10, n / 10);
    }
  }

  lemma {:induction false} LexAppend(a: Text, b: Text, x: CodeUnit, y: CodeUnit)
    requires |a| == |b|
    ensures Lex(a + [x], b + [y]) <==> Lex(a, b) || (a == b && x < y)
    decreases |a|
  {
    if a == [] {
      assert a + [x] == [x] && b + [y] == [y];
    } else {
      assert (a + [x])[1..] == a[1..] + [x] && (b + [y])[1..] == b[1..] + [y];
      assert a == [a[0]] + a[1..] && b == [b[0]] + b[1..];
      LexAppend(a[1..], b[1..], x, y);
    }
  }

  lemma {:induction false} DigitsTell(m: nat, n: nat)
    ensures Digits(m) == Digits(n) ==> m == n
  {
    if Digits(m) == Digits(n) {
      var p, q := Digits(m), Digits(n);
      assert p[|p| - 1] == 0x30 + m % 10 && q[|q| - 1] == 0x30 + n % 10;
      assert p[..|p| - 1] == (if m < 10 then [] else Digits(m / 10));
      assert q[..|q| - 1] == (if n < 10 then [] else Digits(n / 10));
      if m >= 10 {
        DigitsTell(m / 10, n / 10);
      }
    }
  }

  /** Numbers with as many digits are ordered as their digits are. */
  lemma {:induction false} LexDigits(m: nat, n: nat)
    requires |Digits(m)| == |Digits(n)|
    ensures Lex(Digits(m), Digits(n)) <==> m < n
  {
    if m < 10 {
      assert n < 10;
    } else {
      LexDigits(m / 10, n / 10);
      LexAppend(Digits(m / 10), Digits(n / 10), 0x30 + m % 10, 0x30 + n % 10);
      DigitsTell(m / 10, n / 10);
    }
  }

  lemma MoreDigits(n: nat, digit: nat)
    requires n > 0 && digit < 10
    ensures Digits(10 * n + digit) == Digits(n) + [0x30 + digit]
    ensures Digits(42) == [0x34, 0x32]
  {}

  lemma LastIndex()
    ensures Ascii("4294967295") == Digits(4294967295) && |Digits(4294967295)| == 10
  {
    hide Digits;
    MoreDigits(42, 9);
    MoreDigits(429, 4);
    MoreDigits(4294, 9);
    MoreDigits(42949, 6);
    MoreDigits(429496, 7);
    MoreDigits(4294967, 2);
    MoreDigits(42949672, 9);
    MoreDigits(429496729, 5);
    assert Ascii("4294967295") == [0x34, 0x32, 0x39, 0x34, 0x39, 0x36, 0x37, 0x32, 0x39, 0x35];
  }

  /** The number that a text of digits stands for. */
  function Value(digits: Text): nat
    requires forall i :: 0 <= i < |digits| ==> 0x30 <= digits[i] <= 0x39
  {
    if digits == [] then 0 else 10 * Value(digits[..|digits| - 1]) + (digits[|digits| - 1] - 0x30)
  }

  lemma ValueIs(front: Text, last: CodeUnit)
    requires (forall i :: 0 <= i < |front| ==> 0x30 <= front[i] <= 0x39) && 0x30 <= last <= 0x39
    ensures Value(front + [last]) == 10 * Value(front) + (last - 0x30)
    ensures Value([]) == 0
  {
    assert (front + [last])[..|front|] == front;
  }

  lemma DigitsAre(n: nat, digit: nat)
    requires digit < 10
    ensures Digits(10 * n + digit) == (if n == 0 then [] else Digits(n)) + [0x30 + digit]
  {
    assert (10 * n + digit) / 10 == n && (10 * n + digit) % 10 == digit;
  }

  lemma {:induction false} ValueReads(digits: Text)
    requires digits != [] && forall i :: 0 <= i < |digits| ==> 0x30 <= digits[i] <= 0x39
    requires digits[0] == 0x30 ==> |digits| == 1
    ensures Digits(Value(digits)) == digits
    ensures digits[0] != 0x30 ==> Value(digits) > 0
    decreases |digits|
  {
    hide Digits, Value;
    var front, last := digits[..|digits| - 1], digits[|digits| - 1];
    ValueIs(front, last);
    assert digits == front + [last];
    if front == [] {
      DigitsAre(0, last - 0x30);
    } else {
      assert front[0] == digits[0];
      ValueReads(front);
      DigitsAre(Value(front), last - 0x30);
    }
  }

  ghost predicate IsSmallNumber(key: Text) {
    exists n: nat :: n < 4294967295 && key == Digits(n)
  }

  /** The keys that come first are the decimal numbers below 2^32 - 1. */
  lemma IndexInFull(key: Text)
    ensures IsIndex(key) <==> IsSmallNumber(key)
  {
    hide Lex, Digits, Ascii;
    LastIndex();
    if IsIndex(key) {
      assert forall i :: 0 <= i < |key| ==> key[i] in key;
      ValueReads(key);
      var n := Value(key);
      if n >= 4294967295 {
        LongerIsLarger(4294967295, n);
        LexDigits(n, 4294967295);
      }
    }
    if n: nat :| n < 4294967295 && key == Digits(n) {
      DigitsAreDigits(n);
      LongerIsLarger(n, 4294967295);
      if |key| == 10 {
        LexDigits(n, 4294967295);
      }
    }
  }

  lemma SmallNumber(key: Text, n: nat)
    requires n < 4294967295 && key == Digits(n)
    ensures IsSmallNumber(key)
  {}

  /** The order of two keys: indices by number, before all others; the others by code units. */
  lemma BeforeInFull(a: Text, b: Text)
    ensures forall m: nat, n: nat :: m < 4294967295 && n < 4294967295 && a == Digits(m) && b == Digits(n) ==>
      (Before(a, b) <==> m < n)
    ensures IsSmallNumber(a) && !IsSmallNumber(b) ==> Before(a, b) && !Before(b, a)
    ensures !IsSmallNumber(a) && !IsSmallNumber(b) ==> (Before(a, b) <==> ComesFirst(a, b))
  {
    hide Lex, Digits, IsIndex, ComesFirst, IsSmallNumber;
    IndexInFull(a);
    IndexInFull(b);
    LexInFull(a, b);
    forall m: nat, n: nat | m < 4294967295 && n < 4294967295 && a == Digits(m) && b == Digits(n)
      ensures Before(a, b) <==> m < n
    {
      SmallNumber(a, m);
      SmallNumber(b, n);
      if |a| == |b| {
        LexDigits(m, n);
      } else if m <= n {
        LongerIsLarger(m, n);
      } else {
        LongerIsLarger(n, m);
      }
    }
  }
}
