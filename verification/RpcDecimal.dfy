/** Decimal text arithmetic of the RPC client (rust/facilitator/src/rpc.rs). Amounts are
    compared as text there, so every writer must be exact and canonical. */
module RpcDecimal {
  import opened Wrappers
  import opened Decimal
  import opened HexUtil

  function Reverse(s: string): (r: string)
    ensures |r| == |s|
    ensures forall i :: 0 <= i < |s| ==> r[i] == s[|s| - 1 - i]
  {
    if s == [] then [] else [s[|s| - 1]] + Reverse(s[..|s| - 1])
  }

  lemma ReversePush(out: string, c: char)
    ensures Reverse(out + [c]) == [c] + Reverse(out)
  {
    assert (out + [c])[..|out|] == out;
  }

  /** `out` holds the low digits of `total`, least significant first; `carry` is the rest. */
  ghost predicate Emitted(out: string, carry: nat, total: nat) {
    && IsDigits(out)
    && IsDigits(Reverse(out))
    && Value(Reverse(out)) + carry * Pow10(|out|) == total
  }

  lemma EmitDigit(out: string, next: nat, p: nat, total: nat)
    requires IsDigits(out) && p == Pow10(|out|)
    requires IsDigits(Reverse(out)) && Value(Reverse(out)) + next * p == total
    ensures Emitted(out + [Digit(next % 10)], next / 10, total)
  {
    var c := Digit(next % 10);
    ReversePush(out, c);
    ValueCons(c, Reverse(out));
    assert Pow10(|out + [c]|) == 10 * p;
    SplitDigit(next, p);
  }

  lemma SplitDigit(next: nat, p: nat)
    ensures (next % 10) * p + (next / 10) * (10 * p) == next * p
  {
    assert (next / 10) * (10 * p) == (10 * (next / 10)) * p;
  }

  lemma EmitNothing()
    ensures Emitted("", 0, 0)
  {
  }

  /** Both right-to-left loops of the file: the digits still to come weigh `|out|` places more. */
  lemma EmitNext(out: string, carry: nat, total: nat, weight: nat, target: nat)
    requires Emitted(out, carry, total) && target == total + weight * Pow10(|out|)
    ensures Emitted(out + [Digit((weight + carry) % 10)], (weight + carry) / 10, target)
  {
    var p := Pow10(|out|);
    AddDigits(weight, carry, p);
    EmitDigit(out, weight + carry, p, target);
  }

  lemma EmittedAll(out: string, total: nat)
    requires Emitted(out, 0, total)
    ensures IsDigits(Reverse(out)) && Value(Reverse(out)) == total
  {
  }

  lemma SuffixStep(value: string, i: nat)
    requires IsDigits(value) && i < |value|
    ensures IsDigits(value[i..]) && IsDigits(value[i + 1..])
    ensures Value(value[i..]) == DigitValue(value[i]) * Pow10(|value| - i - 1) + Value(value[i + 1..])
  {
    assert value[i..] == [value[i]] + value[i + 1..];
    ValueCons(value[i], value[i + 1..]);
  }

  /** The final `while carry > 0` loop. */
  method FlushCarry(digits: string, carryIn: nat, ghost total: nat) returns (out: string)
    requires Emitted(digits, carryIn, total)
    ensures Emitted(out, 0, total)
    ensures |out| >= |digits| && (carryIn == 0 ==> out == digits)
    ensures carryIn > 0 ==> |out| > |digits| && out[|out| - 1] != '0'
  {
    hide Emitted;
    out := digits;
    var carry := carryIn;
    while carry > 0
      invariant Emitted(out, carry, total)
      invariant |out| >= |digits| && (carryIn == 0 ==> out == digits && carry == 0)
      invariant carryIn > 0 && carry == 0 ==> |out| > |digits| && out[|out| - 1] != '0'
    {
      EmitNext(out, carry, total, 0, total);
      out := out + [Digit((0 + carry) % 10)];
      carry := carry / 10;
    }
  }

  /** Digits that carry enough value have no leading zero. */
  lemma EnoughValue(s: string)
    requires IsDigits(s) && s != []
    requires Value(s) >= Pow10(|s| - 1)
    ensures s[0] != '0'
  {
    assert s == [s[0]] + s[1..];
    ValueCons(s[0], s[1..]);
    ValueBound(s[1..]);
  }

  /** Either the last carry digit or the size of the total rules out a leading zero. */
  lemma CanonicalResult(out: string, total: nat, width: nat)
    requires Emitted(out, 0, total) && |out| >= width >= 1
    requires |out| > width ==> out[|out| - 1] != '0'
    requires width == 1 || total >= Pow10(width - 1)
    ensures Reverse(out) == Print(total)
  {
    var s := Reverse(out);
    if |out| == width && width > 1 {
      EnoughValue(s);
    }
    CanonicalIsPrinted(s);
  }

  /** A canonical numeral of `n` digits is worth at least 10^(n-1). */
  lemma CanonicalSize(s: string)
    requires Canonical(s)
    ensures |s| == 1 || Value(s) >= Pow10(|s| - 1)
  {
    if |s| > 1 {
      LeadingDigitPositive(s);
    }
  }

  // ---- multiplication in sixteen bits --------------------------------------------------

  /** The carry into place `j` of the exact product: the lower places times the factor, without their digits. */
  ghost function CarryInto(value: string, j: nat, factor: nat): nat
    requires IsDigits(value) && j < |value|
  {
    SuffixStep(value, j);
    Carried(Value(value[j + 1..]), factor, Pow10(|value| - j - 1))
  }

  function Carried(low: nat, factor: nat, p: nat): nat
    requires p > 0
  {
    low * factor / p
  }

  /** From place `i` down no step of the multiplication leaves sixteen bits. */
  ghost predicate StaysInWord(value: string, i: nat, factor: nat)
    requires IsDigits(value)
  {
    forall j :: i <= j < |value| ==> DigitValue(value[j]) * factor + CarryInto(value, j, factor) < 65536
  }

  /** What is emitted and what wrapping has dropped make up the product so far; nothing is dropped exactly
      while the sums fit. */
  ghost predicate MulProgress(value: string, i: nat, out: string, carry: nat, total: nat, lost: nat, factor: nat) {
    && i <= |value| && IsDigits(value) && IsDigits(value[i..])
    && |out| == |value| - i
    && Emitted(out, carry, total)
    && total + lost == Value(value[i..]) * factor
    && (lost == 0 <==> StaysInWord(value, i, factor))
  }

  lemma MulProgressStart(value: string, factor: nat)
    requires IsDigits(value)
    ensures MulProgress(value, |value|, "", 0, 0, 0, factor)
  {
    EmitNothing();
    assert value[|value|..] == [];
  }

  /** While nothing was dropped the loop's carry is the exact one. */
  lemma ExactCarry(out: string, carry: nat, total: nat)
    requires Emitted(out, carry, total)
    ensures carry == total / Pow10(|out|)
  {
    hide Pow10, Value, Reverse;
    ValueBound(Reverse(out));
    QuotientIs(total, Value(Reverse(out)), carry, Pow10(|out|));
  }

  lemma QuotientIs(n: nat, low: nat, carry: nat, p: nat)
    requires low < p && n == low + carry * p
    ensures n / p == carry
  {
    var q := n / p;
    assert p * q <= n < p * q + p;
    assert q < carry ==> p * (q + 1) <= p * carry;
    assert q > carry ==> p * q >= p * (carry + 1);
  }

  /** One turn of the loop: `next` is the sum cut to sixteen bits. */
  lemma MulProgressStep(value: string, i: nat, out: string, carry: nat, total: nat, lost: nat, factor: nat)
    returns (total': nat, lost': nat)
    requires IsDigits(value) && i < |value| && MulProgress(value, i + 1, out, carry, total, lost, factor)
    ensures var next := (DigitValue(value[i]) * factor + carry) % 65536;
      MulProgress(value, i, out + [Digit(next % 10)], next / 10, total', lost', factor)
  {
    hide Emitted, Value, Pow10, Digit, StaysInWord;
    var d, p := DigitValue(value[i]), Pow10(|out|);
    var full := d * factor + carry;
    var next := full % 65536;
    DropsSomething(full - next, p);
    lost' := lost + (full - next) * p;
    total' := CutStep(out, carry, total, next, d * factor);
    SuffixStep(value, i);
    ScaleDigit(d, factor, p, Value(value[i + 1..]));
    DropsIffOver(value, i, out, carry, total, lost, factor);
  }

  /** The digit of a cut sum: what the cut dropped is missing from the total. */
  lemma CutStep(out: string, carry: nat, total: nat, next: nat, weight: nat) returns (total': nat)
    requires Emitted(out, carry, total) && next <= weight + carry
    ensures total' + (weight + carry - next) * Pow10(|out|) == total + weight * Pow10(|out|)
    ensures Emitted(out + [Digit(next % 10)], next / 10, total')
  {
    hide Pow10, Digit, Value;
    var p := Pow10(|out|);
    var low := Value(Reverse(out));
    total' := low + next * p;
    Rearrange(low, carry, weight, next, p);
    EmitDigit(out, next, p, total');
  }

  lemma Rearrange(low: int, carry: int, weight: int, next: int, p: int)
    ensures low + next * p + (weight + carry - next) * p == low + carry * p + weight * p
  {
  }

  lemma DropsSomething(dropped: nat, p: nat)
    requires p > 0
    ensures dropped * p >= 0 && (dropped * p == 0 <==> dropped == 0)
  {
    if dropped > 0 {
      assert dropped * p >= p;
    }
  }

  /** Place `i` fits exactly if its sum is not cut, as long as nothing was cut before. */
  lemma DropsIffOver(value: string, i: nat, out: string, carry: nat, total: nat, lost: nat, factor: nat)
    requires IsDigits(value) && i < |value| && MulProgress(value, i + 1, out, carry, total, lost, factor)
    ensures StaysInWord(value, i, factor) <==> lost == 0 && DigitValue(value[i]) * factor + carry < 65536
  {
    hide Emitted, Value, Pow10;
    if lost == 0 {
      ExactCarry(out, carry, total);
      assert carry == CarryInto(value, i, factor);
    }
  }

  lemma MulProgressDone(value: string, out: string, carry: nat, total: nat, lost: nat, factor: nat)
    requires IsDigits(value) && MulProgress(value, 0, out, carry, total, lost, factor)
    ensures |out| == |value| && Emitted(out, carry, total) && total + lost == Value(value) * factor
    ensures lost == 0 <==> StaysInWord(value, 0, factor)
  {
    assert value[0..] == value;
  }

  /** decimal_mul_small, its sixteen-bit sums wrapping around as in an optimised build. The product is exact if and
      only if no sum leaves sixteen bits, and otherwise too small. */
  method DecimalMulSmall(value: string, factor: u16) returns (r: string)
    requires IsDigits(value)
    ensures IsDigits(r) && Value(r) <= Value(value) * factor
    ensures Value(r) == Value(value) * factor <==> StaysInWord(value, 0, factor)
    ensures Canonical(value) && factor > 0 && StaysInWord(value, 0, factor) ==> r == Print(Value(value) * factor)
  {
    hide MulProgress, Emitted, Value, Pow10, Digit, StaysInWord;
    var carry: u16 := 0;
    var out := "";
    var i := |value|;
    MulProgressStart(value, factor);
    ghost var total, lost := 0, 0;
    while i > 0
      invariant 0 <= i <= |value|
      invariant MulProgress(value, i, out, carry, total, lost, factor)
    {
      i := i - 1;
      total, lost := MulProgressStep(value, i, out, carry, total, lost, factor);
      var next: u16 := (DigitValue(value[i]) * factor + carry) % 65536;
      out := out + [Digit(next % 10)];
      carry := next / 10;
    }
    MulProgressDone(value, out, carry, total, lost, factor);
    out := FlushCarry(out, carry, total);
    EmittedAll(out, total);
    r := Reverse(out);
    if Canonical(value) && factor > 0 && lost == 0 {
      CanonicalSize(value);
      ScaleUp(Value(value), factor);
      CanonicalResult(out, total, |value|);
    }
  }

  /** The factors for which every text stays in sixteen bits are exactly those up to 6553; the caller's is 256. */
  lemma AlwaysExactIff(factor: u16)
    ensures (forall value: string :: IsDigits(value) ==> StaysInWord(value, 0, factor)) <==> factor <= 6553
  {
    hide StaysInWord;
    if factor <= 6553 {
      forall value: string | IsDigits(value) ensures StaysInWord(value, 0, factor) {
        SmallFactorFits(value, factor);
      }
    } else {
      SixNines();
      NinesOverflow(factor);
    }
  }

  lemma SmallFactorFits(value: string, factor: nat)
    requires IsDigits(value) && factor <= 6553
    ensures StaysInWord(value, 0, factor)
  {
    hide CarryInto;
    forall j | 0 <= j < |value| ensures DigitValue(value[j]) * factor + CarryInto(value, j, factor) < 65536 {
      SmallFactorAt(value, j, factor);
    }
  }

  lemma SmallFactorAt(value: string, j: nat, factor: nat)
    requires IsDigits(value) && j < |value| && factor <= 6553
    ensures DigitValue(value[j]) * factor + CarryInto(value, j, factor) < 65536
  {
    hide Value, Pow10, Carried;
    SuffixStep(value, j);
    ValueBound(value[j + 1..]);
    SmallQuotient(Value(value[j + 1..]), factor, Pow10(|value| - j - 1));
    assert DigitValue(value[j]) * factor <= 9 * factor;
  }

  lemma SmallQuotient(v: nat, factor: nat, p: nat)
    requires v < p
    ensures Carried(v, factor, p) <= factor
  {
    var q := v * factor / p;
    assert p * q <= v * factor <= p * factor;
    assert q > factor ==> p * q >= p * (factor + 1);
  }

  lemma SixNines()
    ensures IsDigits("999999") && Value("99999") == 99999 && Pow10(5) == 100000 && "999999"[1..] == "99999"
  {
    assert "99999"[..4] == "9999" && "9999"[..3] == "999" && "999"[..2] == "99" && "99"[..1] == "9" && "9"[..0] == "";
    assert Value("9") == 9 && Value("99") == 99 && Value("999") == 999 && Value("9999") == 9999;
    assert Pow10(1) == 10 && Pow10(2) == 100 && Pow10(3) == 1000 && Pow10(4) == 10000;
  }

  lemma NinesOverflow(factor: u16)
    requires factor > 6553 && IsDigits("999999") && Value("99999") == 99999 && Pow10(5) == 100000
    requires "999999"[1..] == "99999"
    ensures !StaysInWord("999999", 0, factor)
  {
    hide Value, Pow10;
    assert 99999 * factor / 100000 == factor - 1;
    assert CarryInto("999999", 0, factor) == factor - 1;
    assert DigitValue("999999"[0]) == 9;
  }

  lemma ScaleDigit(d: nat, factor: nat, p: nat, tail: nat)
    ensures (d * p + tail) * factor == tail * factor + (d * factor) * p
  {
    assert (d * p) * factor == (d * factor) * p;
  }

  lemma ScaleUp(v: nat, factor: nat)
    requires factor > 0
    ensures v * factor >= v
  {
    assert v * (factor - 1) >= 0;
  }

  /** decimal_add_small. */
  method DecimalAddSmall(value: string, addend: byte) returns (r: string)
    requires IsDigits(value)
    ensures IsDigits(r) && Value(r) == Value(value) + addend
    ensures Canonical(value) ==> r == Print(Value(value) + addend)
  {
    hide Emitted, Value, Pow10;
    var carry: u16 := addend;
    var out := "";
    var i := |value|;
    StartWithCarry(value, addend);
    while i > 0
      invariant 0 <= i <= |value| && |out| == |value| - i
      invariant carry <= addend
      invariant IsDigits(value[i..])
      invariant Emitted(out, carry, Value(value[i..]) + addend)
    {
      i := i - 1;
      var next: u16 := DigitValue(value[i]) + carry;
      SuffixStep(value, i);
      EmitNext(out, carry, Value(value[i + 1..]) + addend, DigitValue(value[i]), Value(value[i..]) + addend);
      out := out + [Digit(next % 10)];
      carry := next / 10;
      assert carry <= addend by { assert carry <= (9 + addend) / 10 || addend == 0; }
    }
    ghost var total := Value(value[0..]) + addend;
    assert value[0..] == value;
    out := FlushCarry(out, carry, total);
    EmittedAll(out, total);
    r := Reverse(out);
    if Canonical(value) {
      CanonicalSize(value);
      CanonicalResult(out, total, |value|);
    }
  }

  lemma StartWithCarry(value: string, addend: nat)
    requires IsDigits(value)
    ensures Emitted("", addend, Value(value[|value|..]) + addend)
  {
    assert addend * Pow10(0) == addend;
  }

  /** The digits of `s` whose place is below `k`. */
  function LowDigits(s: string, k: nat): string {
    if k < |s| then s[|s| - k..] else s
  }

  function PlaceDigit(s: string, k: nat): (d: nat)
    requires IsDigits(s)
    ensures d < 10
  {
    if k < |s| then DigitValue(s[|s| - 1 - k]) else 0
  }

  lemma NextPlace(s: string, k: nat)
    requires IsDigits(s)
    ensures IsDigits(LowDigits(s, k)) && IsDigits(LowDigits(s, k + 1))
    ensures Value(LowDigits(s, k + 1)) == Value(LowDigits(s, k)) + PlaceDigit(s, k) * Pow10(k)
  {
    if k < |s| {
      SuffixStep(s, |s| - 1 - k);
      assert s[0..] == s;
    } else {
      assert 0 * Pow10(k) == 0;
    }
  }

  ghost predicate AddProgress(left: string, right: string, out: string, carry: nat) {
    var k := |out|;
    && carry <= 1
    && IsDigits(LowDigits(left, k)) && IsDigits(LowDigits(right, k))
    && Emitted(out, carry, Value(LowDigits(left, k)) + Value(LowDigits(right, k)))
  }

  lemma AddProgressStep(left: string, right: string, out: string, carry: nat)
    requires IsDigits(left) && IsDigits(right) && AddProgress(left, right, out, carry)
    ensures var next := PlaceDigit(left, |out|) + PlaceDigit(right, |out|) + carry;
      AddProgress(left, right, out + [Digit(next % 10)], next / 10)
  {
    hide Emitted, Value, Pow10, Digit, LowDigits, PlaceDigit;
    var k, a, b := |out|, PlaceDigit(left, |out|), PlaceDigit(right, |out|);
    NextPlace(left, k);
    NextPlace(right, k);
    AddDigits(a, b, Pow10(k));
    EmitNext(out, carry, Value(LowDigits(left, k)) + Value(LowDigits(right, k)), a + b,
             Value(LowDigits(left, k + 1)) + Value(LowDigits(right, k + 1)));
  }

  lemma AddProgressStart(left: string, right: string)
    requires IsDigits(left) && IsDigits(right)
    ensures AddProgress(left, right, "", 0)
  {
    NoPlaces(left);
    NoPlaces(right);
    EmitNothing();
  }

  lemma AddProgressDone(left: string, right: string, out: string)
    requires IsDigits(left) && IsDigits(right) && AddProgress(left, right, out, 0)
    requires |out| >= |left| && |out| >= |right|
    ensures Emitted(out, 0, Value(left) + Value(right))
  {
    AllPlaces(left, |out|);
    AllPlaces(right, |out|);
  }

  /** decimal_add: refuses any non-digit, otherwise exact; canonical in, canonical out. */
  method DecimalAdd(left: string, right: string) returns (r: Option<string>)
    ensures r.Some? <==> IsDigits(left) && IsDigits(right)
    ensures r.Some? ==> IsDigits(r.value) && Value(r.value) == Value(left) + Value(right)
    ensures r.Some? && Canonical(left) && Canonical(right) ==> r.value == Print(Value(left) + Value(right))
  {
    hide AddProgress, Emitted, Value, Pow10;
    if !IsDigits(left) || !IsDigits(right) {
      return None;
    }
    var carry: u16 := 0;
    var out := "";
    ghost var width := if |left| > |right| then |left| else |right|;
    AddProgressStart(left, right);
    while !(|out| >= |left| && |out| >= |right| && carry == 0)
      invariant carry <= 1 && AddProgress(left, right, out, carry)
      invariant |out| <= width || (|out| == width + 1 && carry == 0 && out[|out| - 1] != '0')
      decreases width + 1 - |out|
    {
      AddProgressStep(left, right, out, carry);
      var a, b := PlaceDigit(left, |out|), PlaceDigit(right, |out|);
      var next: u16 := a + b + carry;
      out := out + [Digit(next % 10)];
      carry := next / 10;
    }
    AddProgressDone(left, right, out);
    ghost var total := Value(left) + Value(right);
    EmittedAll(out, total);
    r := Some(Reverse(out));
    if Canonical(left) && Canonical(right) {
      CanonicalSize(left);
      CanonicalSize(right);
      CanonicalResult(out, total, width);
    }
  }

  lemma NoPlaces(s: string)
    requires IsDigits(s)
    ensures IsDigits(LowDigits(s, 0)) && Value(LowDigits(s, 0)) == 0
  {
    assert s[|s|..] == [];
  }

  lemma AllPlaces(s: string, k: nat)
    requires IsDigits(s) && k >= |s|
    ensures LowDigits(s, k) == s
  {
    assert s[|s| - |s|..] == s;
  }

  lemma AddDigits(a: nat, b: nat, p: nat)
    ensures (a + b) * p == a * p + b * p
  {
  }

  /** uint256_hex_decimal_word: the canonical decimal of the word. */
  method UintDecimal(bytes: seq<byte>) returns (decimal: string)
    ensures decimal == Print(BE(bytes))
  {
    hide Value, Print;
    decimal := "0";
    ZeroPrinted();
    for k := 0 to |bytes|
      invariant decimal == Print(BE(bytes[..k]))
    {
      ghost var v := BE(bytes[..k]);
      PrintCanonical(v);
      ValuePrint(v);
      SmallFactorFits(decimal, 256);
      decimal := DecimalMulSmall(decimal, 256);
      PrintCanonical(v * 256);
      ValuePrint(v * 256);
      decimal := DecimalAddSmall(decimal, bytes[k]);
      assert bytes[..k + 1][..k] == bytes[..k];
    }
    assert bytes[..|bytes|] == bytes;
  }

  lemma ZeroPrinted()
    ensures Print(0) == "0"
  {
  }

  /** Word to text and back: the two hand-written converters are inverse to each other. */
  lemma WordTextRoundTrip(word: seq<byte>)
    requires |word| == WORD
    ensures ParsedU256(Print(BE(word))) == Some(word)
  {
    BEBound(word);
    ValuePrint(BE(word));
    BEToBytes(BE(word), WORD);
    BEInjective(word, Word(BE(word)));
  }

  /** Text to word and back loses exactly the leading zeros. */
  lemma TextWordRoundTrip(s: string)
    requires ParsedU256(s).Some?
    ensures Print(BE(ParsedU256(s).value)) == Print(Value(s))
    ensures Print(BE(ParsedU256(s).value)) == s <==> Canonical(s)
  {
    BEToBytes(Value(s), WORD);
    PrintCanonical(Value(s));
    if Canonical(s) {
      CanonicalIsPrinted(s);
    }
  }

  // ---- comparison as text -------------------------------------------------------------

  function TrimZeros(s: string): string {
    if s != [] && s[0] == '0' then TrimZeros(s[1..]) else s
  }

  /** decimal_normalize. */
  function Normalize(s: string): string {
    var t := TrimZeros(s);
    if t == [] then "0" else t
  }

  predicate DecimalAtLeast(left: string, right: string) {
    var l, r := Normalize(left), Normalize(right);
    |l| > |r| || (|l| == |r| && !LexLess(l, r))
  }

  predicate DecimalGreater(left: string, right: string) {
    DecimalAtLeast(left, right) && Normalize(left) != Normalize(right)
  }

  lemma {:induction false} TrimZerosValue(s: string)
    requires IsDigits(s)
    ensures IsDigits(TrimZeros(s)) && Value(TrimZeros(s)) == Value(s)
    ensures TrimZeros(s) == [] || TrimZeros(s)[0] != '0'
  {
    if s != [] && s[0] == '0' {
      TrimZerosValue(s[1..]);
      assert s == [s[0]] + s[1..];
      ValueCons(s[0], s[1..]);
      assert 0 * Pow10(|s| - 1) == 0;
    }
  }

  /** Normalising prints the value. */
  lemma NormalizePrints(s: string)
    requires IsDigits(s)
    ensures Normalize(s) == Print(Value(s))
  {
    TrimZerosValue(s);
    var t := TrimZeros(s);
    if t == [] {
      ZeroPrinted();
    } else {
      CanonicalIsPrinted(t);
    }
  }

  /** Fewer digits, smaller number. */
  lemma ShorterIsSmaller(a: string, b: string)
    requires Canonical(a) && Canonical(b) && |a| < |b|
    ensures Value(a) < Value(b)
  {
    ValueBound(a);
    Pow10Grows(|a|, |b| - 1);
    LeadingDigitPositive(b);
  }

  /** decimal_at_least and decimal_greater are the numeric order, on all digit strings. */
  lemma TextOrderIsNumericOrder(left: string, right: string)
    requires IsDigits(left) && IsDigits(right)
    ensures DecimalAtLeast(left, right) <==> Value(left) >= Value(right)
    ensures DecimalGreater(left, right) <==> Value(left) > Value(right)
  {
    var l, r := Normalize(left), Normalize(right);
    NormalizePrints(left);
    NormalizePrints(right);
    PrintCanonical(Value(left));
    PrintCanonical(Value(right));
    ValuePrint(Value(left));
    ValuePrint(Value(right));
    if |l| < |r| {
      ShorterIsSmaller(l, r);
    } else if |r| < |l| {
      ShorterIsSmaller(r, l);
    } else {
      EqualLengthOrder(l, r);
    }
  }
}
