/** Decimal digit strings: their value, the canonical (no leading zero) form, and
    how lexicographic order relates to numeric order. */
module Decimal {
  const U64_MAX: nat := 0xFFFF_FFFF_FFFF_FFFF
  const U128_MAX: nat := 0xFFFF_FFFF_FFFF_FFFF_FFFF_FFFF_FFFF_FFFF

  predicate IsDigit(c: char) {
    '0' <= c <= '9'
  }

  /** The empty string counts: the callers that refuse it say so. */
  predicate IsDigits(s: string) {
    forall i :: 0 <= i < |s| ==> IsDigit(s[i])
  }

  function DigitValue(c: char): (d: nat)
    requires IsDigit(c)
    ensures d < 10
  {
    c as int - '0' as int
  }

  function Digit(d: nat): (c: char)
    requires d < 10
    ensures IsDigit(c) && DigitValue(c) == d
  {
    '0' + d as char
  }

  function Value(s: string): nat
    requires IsDigits(s)
  {
    if s == [] then 0
    else Value(s[..|s| - 1]) * 10 + DigitValue(s[|s| - 1])
  }

  function Print(n: nat): (s: string)
    ensures IsDigits(s) && s != []
  {
    if n < 10 then [Digit(n)] else Print(n / 10) + [Digit(n % 10)]
  }

  /** The form every writer of amounts emits: at least one digit, no leading zero. */
  predicate Canonical(s: string) {
    && IsDigits(s)
    && s != []
    && (|s| > 1 ==> s[0] != '0')
  }

  function Pow10(n: nat): (p: nat)
    ensures p > 0
  {
    if n == 0 then 1 else 10 * Pow10(n - 1)
  }

  lemma {:induction false} Pow10Grows(a: nat, b: nat)
    requires a <= b
    ensures Pow10(a) <= Pow10(b)
  {
    if a < b {
      Pow10Grows(a, b - 1);
    }
  }

  predicate LexLess(a: string, b: string) {
    && b != []
    && (a == [] || a[0] < b[0] || (a[0] == b[0] && LexLess(a[1..], b[1..])))
  }

  predicate LexLeq(a: string, b: string) {
    a == b || LexLess(a, b)
  }

  lemma ValueSnoc(s: string, c: char)
    requires IsDigits(s) && IsDigit(c)
    ensures IsDigits(s + [c]) && Value(s + [c]) == Value(s) * 10 + DigitValue(c)
  {
    assert (s + [c])[..|s|] == s;
  }

  lemma {:induction false} ValueCons(c: char, s: string)
    requires IsDigits(s) && IsDigit(c)
    ensures IsDigits([c] + s) && Value([c] + s) == DigitValue(c) * Pow10(|s|) + Value(s)
  {
    if s == [] {
      assert [c] + s == [] + [c];
      ValueSnoc([], c);
    } else {
      var front, last := s[..|s| - 1], s[|s| - 1];
      ValueCons(c, front);
      ValueSnoc([c] + front, last);
      assert [c] + s == ([c] + front) + [last];
      Reassociate(DigitValue(c), Pow10(|front|), Value(front));
    }
  }

  lemma {:induction false} ValueConcat(a: string, b: string)
    requires IsDigits(a) && IsDigits(b)
    ensures IsDigits(a + b) && Value(a + b) == Value(a) * Pow10(|b|) + Value(b)
  {
    if b == [] {
      assert a + b == a;
    } else {
      var front, last := b[..|b| - 1], b[|b| - 1];
      ValueConcat(a, front);
      ValueSnoc(a + front, last);
      assert a + b == (a + front) + [last];
      var v, p := Value(a), Pow10(|front|);
      calc {
        Value(a + b);
        Value(a + front) * 10 + DigitValue(last);
        (v * p + Value(front)) * 10 + DigitValue(last);
        { Reassociate(v, p, Value(front)); }
        v * (10 * p) + (Value(front) * 10 + DigitValue(last));
      }
    }
  }

  lemma Reassociate(v: nat, p: nat, w: nat)
    ensures (v * p + w) * 10 == v * (10 * p) + w * 10
  {
  }

  lemma {:induction false} ValueBound(s: string)
    requires IsDigits(s)
    ensures Value(s) < Pow10(|s|)
  {
    if s != [] {
      ValueBound(s[..|s| - 1]);
    }
  }

  lemma {:induction false} ValuePrint(n: nat)
    ensures Value(Print(n)) == n
  {
    if n < 10 {
      assert Print(n) == [] + [Digit(n)];
      ValueSnoc([], Digit(n));
    } else {
      ValuePrint(n / 10);
      ValueSnoc(Print(n / 10), Digit(n % 10));
    }
  }

  lemma {:induction false} PrintCanonical(n: nat)
    ensures Canonical(Print(n))
    ensures n > 0 ==> Print(n)[0] != '0'
  {
    if n >= 10 {
      PrintCanonical(n / 10);
    }
  }

  /** A canonical string is the printed form of its value, so equal values mean equal text. */
  lemma {:induction false} CanonicalIsPrinted(s: string)
    requires Canonical(s)
    ensures Print(Value(s)) == s
  {
    var front, last := s[..|s| - 1], s[|s| - 1];
    assert s == front + [last];
    if front == [] {
      assert Value(s) == DigitValue(last);
    } else {
      CanonicalIsPrinted(front);
      LeadingDigitPositive(front);
      assert Value(s) / 10 == Value(front) && Value(s) % 10 == DigitValue(last);
    }
  }

  lemma {:induction false} LeadingDigitPositive(s: string)
    requires IsDigits(s) && s != [] && s[0] != '0'
    ensures Value(s) >= Pow10(|s| - 1)
  {
    ValueCons(s[0], s[1..]);
    assert s == [s[0]] + s[1..];
    AtLeastOnce(DigitValue(s[0]), Pow10(|s| - 1));
  }

  lemma AtLeastOnce(digit: nat, power: nat)
    requires digit >= 1
    ensures digit * power >= power
  {
  }

  /** A 64-bit number has at most twenty digits. */
  lemma TwentyDigits(s: string)
    requires Canonical(s) && Value(s) <= U64_MAX
    ensures |s| <= 20
  {
    if |s| > 20 {
      LeadingDigitPositive(s);
      PowersOfTen();
      Pow10Grows(20, |s| - 1);
    }
  }

  lemma PowersOfTen()
    ensures Pow10(20) > U64_MAX
  {
    assert Pow10(5) == 100_000;
    assert Pow10(10) == 10_000_000_000;
    assert Pow10(15) == 1_000_000_000_000_000;
    assert Pow10(20) == 100_000_000_000_000_000_000;
  }

  /** Digit strings of one length compare as text exactly as they compare as numbers. */
  lemma {:induction false} EqualLengthOrder(a: string, b: string)
    requires IsDigits(a) && IsDigits(b) && |a| == |b|
    ensures LexLess(a, b) <==> Value(a) < Value(b)
    ensures a == b <==> Value(a) == Value(b)
  {
    if a != [] {
      var p := Pow10(|a| - 1);
      assert a == [a[0]] + a[1..] && b == [b[0]] + b[1..];
      ValueCons(a[0], a[1..]);
      ValueCons(b[0], b[1..]);
      ValueBound(a[1..]);
      ValueBound(b[1..]);
      EqualLengthOrder(a[1..], b[1..]);
      LeadingDigitDecides(DigitValue(a[0]), DigitValue(b[0]), p, Value(a[1..]), Value(b[1..]));
    }
  }

  lemma LeadingDigitDecides(x: nat, y: nat, p: nat, v: nat, w: nat)
    requires v < p && w < p
    ensures x * p + v < y * p + w <==> x < y || (x == y && v < w)
    ensures x * p + v == y * p + w <==> x == y && v == w
  {
    if x < y {
      assert (x + 1) * p <= y * p;
    } else if y < x {
      assert (y + 1) * p <= x * p;
    }
  }

  lemma {:induction false} LexIrreflexive(a: string)
    ensures !LexLess(a, a)
  {
    if a != [] {
      LexIrreflexive(a[1..]);
    }
  }

  lemma {:induction false} LexTransitive(a: string, b: string, c: string)
    requires LexLess(a, b) && LexLess(b, c)
    ensures LexLess(a, c)
  {
    if a != [] && a[0] == b[0] && b[0] == c[0] {
      LexTransitive(a[1..], b[1..], c[1..]);
    }
  }

  lemma {:induction false} LexTotal(a: string, b: string)
    ensures a == b || LexLess(a, b) || LexLess(b, a)
  {
    if a != [] && b != [] && a[0] == b[0] {
      LexTotal(a[1..], b[1..]);
      assert a == [a[0]] + a[1..] && b == [b[0]] + b[1..];
    }
  }

  /** Prefixes of one length decide the order unless they agree. */
  lemma {:induction false} LexPrefix(p: string, q: string, a: string, b: string)
    requires |p| == |q|
    ensures LexLess(p + a, q + b) <==> LexLess(p, q) || (p == q && LexLess(a, b))
  {
    if p == [] {
      assert p + a == a && q + b == b;
    } else {
      LexPrefix(p[1..], q[1..], a, b);
      assert (p + a)[1..] == p[1..] + a && (q + b)[1..] == q[1..] + b;
      assert p == [p[0]] + p[1..] && q == [q[0]] + q[1..];
    }
  }
}
