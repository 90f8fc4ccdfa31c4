/** Big-endian byte words and their parsers (rust/facilitator/src/hexutil.rs). */
module HexUtil {
  import opened Wrappers
  import opened Decimal

  type byte = x: int | 0 <= x < 0x100
  type u16 = x: int | 0 <= x < 0x1_0000

  const WORD := 32

  function Pow256(n: nat): (p: nat)
    ensures p > 0
  {
    if n == 0 then 1 else 0x100 * Pow256(n - 1)
  }

  /** The number a big-endian byte string denotes. */
  function BE(s: seq<byte>): nat {
    if s == [] then 0 else BE(s[..|s| - 1]) * 0x100 + s[|s| - 1]
  }

  /** The `width` low-order bytes of `n`, most significant first. */
  function ToBytes(n: nat, width: nat): (s: seq<byte>)
    ensures |s| == width
  {
    if width == 0 then [] else ToBytes(n / 0x100, width - 1) + [n % 0x100]
  }

  function Word(n: nat): (s: seq<byte>)
    ensures |s| == WORD
  {
    ToBytes(n, WORD)
  }

  function Zeros(n: nat): (s: seq<byte>)
    ensures |s| == n
  {
    seq(n, _ => 0)
  }

  function LeftPad32(s: seq<byte>): (w: seq<byte>)
    requires |s| <= WORD
    ensures |w| == WORD
  {
    Zeros(WORD - |s|) + s
  }

  /** u256_word: the 16 bytes of a u128, left-padded. */
  function U256Word(value: nat): (w: seq<byte>)
    requires value <= U128_MAX
    ensures |w| == WORD
  {
    LeftPad32(ToBytes(value, 16))
  }

  lemma {:induction false} BECons(b: byte, s: seq<byte>)
    ensures BE([b] + s) == b * Pow256(|s|) + BE(s)
  {
    if s == [] {
      assert [b] + s == [b];
      assert BE([b]) == BE([]) * 0x100 + b;
    } else {
      var front, last := s[..|s| - 1], s[|s| - 1];
      BECons(b, front);
      assert ([b] + s)[..|s|] == [b] + front;
      Distribute(b, Pow256(|front|), BE(front));
    }
  }

  lemma Distribute(b: int, p: int, w: int)
    ensures (b * p + w) * 0x100 == b * (0x100 * p) + w * 0x100
  {
  }

  lemma {:induction false} BEBound(s: seq<byte>)
    ensures BE(s) < Pow256(|s|)
  {
    if s != [] {
      BEBound(s[..|s| - 1]);
    }
  }

  lemma {:induction false} BEConcat(a: seq<byte>, b: seq<byte>)
    ensures BE(a + b) == BE(a) * Pow256(|b|) + BE(b)
  {
    if b == [] {
      assert a + b == a;
    } else {
      var front, last := b[..|b| - 1], b[|b| - 1];
      BEConcat(a, front);
      assert (a + b)[..|a + b| - 1] == a + front;
      Distribute(BE(a), Pow256(|front|), BE(front));
    }
  }

  /** Byte strings of one length are determined by their value. */
  lemma {:induction false} BEInjective(a: seq<byte>, b: seq<byte>)
    requires |a| == |b| && BE(a) == BE(b)
    ensures a == b
  {
    if a != [] {
      var i := |a| - 1;
      assert BE(a) / 0x100 == BE(a[..i]) && BE(b) / 0x100 == BE(b[..i]);
      assert BE(a) % 0x100 == a[i] && BE(b) % 0x100 == b[i];
      BEInjective(a[..i], b[..i]);
      assert a == a[..i] + [a[i]] && b == b[..i] + [b[i]];
    }
  }

  lemma {:induction false} BEToBytes(n: nat, width: nat)
    requires n < Pow256(width)
    ensures BE(ToBytes(n, width)) == n
  {
    if width > 0 {
      BEToBytes(n / 0x100, width - 1);
    }
  }

  lemma {:induction false} ZerosValue(n: nat)
    ensures BE(Zeros(n)) == 0
  {
    if n > 0 {
      ZerosValue(n - 1);
      assert Zeros(n)[..n - 1] == Zeros(n - 1);
    }
  }

  lemma LeftPadValue(s: seq<byte>)
    requires |s| <= WORD
    ensures BE(LeftPad32(s)) == BE(s)
  {
    ZerosValue(WORD - |s|);
    BEConcat(Zeros(WORD - |s|), s);
    assert 0 * Pow256(|s|) == 0;
  }

  lemma Pow256Constants()
    ensures Pow256(16) == U128_MAX + 1
    ensures Pow256(8) == U64_MAX + 1
    ensures Pow256(32) == (U128_MAX + 1) * (U128_MAX + 1)
  {
    Pow256Add(8, 8);
    Pow256Add(16, 16);
    assert Pow256(4) == 0x1_0000_0000;
    Pow256Add(4, 4);
  }

  lemma {:induction false} Pow256Add(a: nat, b: nat)
    ensures Pow256(a + b) == Pow256(a) * Pow256(b)
  {
    if a > 0 {
      Pow256Add(a - 1, b);
      var p, q := Pow256(a - 1), Pow256(b);
      assert 0x100 * (p * q) == (0x100 * p) * q;
    }
  }

  /** u256_word is the 32-byte big-endian word of its argument. */
  lemma U256WordValue(value: nat)
    requires value <= U128_MAX
    ensures BE(U256Word(value)) == value && U256Word(value) == Word(value)
  {
    Pow256Constants();
    BEToBytes(value, 16);
    LeftPadValue(ToBytes(value, 16));
    assert value < Pow256(32) by {
      assert (U128_MAX + 1) * (U128_MAX + 1) > U128_MAX;
    }
    BEToBytes(value, WORD);
    BEInjective(U256Word(value), Word(value));
  }

  predicate BytesLess(a: seq<byte>, b: seq<byte>) {
    && b != []
    && (a == [] || a[0] < b[0] || (a[0] == b[0] && BytesLess(a[1..], b[1..])))
  }

  /** Rust compares words byte by byte; on words of one length that is numeric order. */
  lemma {:induction false} WordOrder(a: seq<byte>, b: seq<byte>)
    requires |a| == |b|
    ensures BytesLess(a, b) <==> BE(a) < BE(b)
  {
    if a != [] {
      assert a == [a[0]] + a[1..] && b == [b[0]] + b[1..];
      BECons(a[0], a[1..]);
      BECons(b[0], b[1..]);
      BEBound(a[1..]);
      BEBound(b[1..]);
      WordOrder(a[1..], b[1..]);
      LeadingDigitDecides(a[0], b[0], Pow256(|a| - 1), BE(a[1..]), BE(b[1..]));
    }
  }

  lemma MulStep(b: int, p: int, tail: int, oldTail: int, carry: int, factor: int, digit: int, out: int)
    requires tail + carry * p == oldTail * factor
    requires b * factor + carry == out * 0x100 + digit
    ensures (digit * p + tail) + out * (0x100 * p) == (b * p + oldTail) * factor
  {
    calc {
      (digit * p + tail) + out * (0x100 * p);
      (digit + out * 0x100) * p + tail;
      (b * factor + carry) * p + tail;
      b * factor * p + (carry * p + tail);
      { assert b * factor * p == (b * p) * factor; }
      (b * p + oldTail) * factor;
    }
  }

  /** Reading `size * high + low` back: the high part is zero exactly when it fits. */
  lemma Overflow(low: nat, high: nat, size: nat, total: nat)
    requires low < size && total == low + high * size
    ensures high == 0 <==> total < size
    ensures total % size == low
  {
    if high > 0 {
      assert high * size >= size;
    }
    ModUnique(low, high, size);
  }

  lemma ModUnique(low: nat, high: nat, size: nat)
    requires low < size
    ensures (low + high * size) % size == low
  {
    var x := low + high * size;
    var q, r := x / size, x % size;
    assert x == size * q + r;
    var d := high - q;
    assert d * size == r - low;
    SmallMultiple(d, size);
  }

  lemma SmallMultiple(d: int, size: nat)
    ensures d == 0 || d * size >= size || d * size <= -(size as int)
  {
    if d >= 1 {
      assert (d - 1) * size >= 0;
    } else if d <= -1 {
      assert (-d - 1) * size >= 0;
    }
  }

  /** The tail from `i` holds the product of the old tail, `carry` being what is left over. */
  ghost predicate MulSoFar(was: seq<byte>, now: seq<byte>, i: nat, carry: nat, factor: nat) {
    && i <= |was| == |now|
    && now[..i] == was[..i]
    && carry <= (if factor == 0 then 0 else factor - 1)
    && BE(now[i..]) + carry * Pow256(|was| - i) == BE(was[i..]) * factor
  }

  ghost predicate AddSoFar(was: seq<byte>, now: seq<byte>, i: nat, carry: nat, addend: nat) {
    && i <= |was| == |now|
    && now[..i] == was[..i]
    && carry < 0x100
    && BE(now[i..]) + carry * Pow256(|was| - i) == BE(was[i..]) + addend
  }

  /** `now` is the low-order part of `total`; `fits` says whether anything was lost. */
  ghost predicate Truncated(now: seq<byte>, total: nat, fits: bool) {
    && BE(now) == total % Pow256(|now|)
    && (fits <==> total < Pow256(|now|))
  }

  lemma MulDigit(was: seq<byte>, before: seq<byte>, now: seq<byte>, i: nat, carry: u16, next: u16, factor: byte)
    requires i < |before| && MulSoFar(was, before, i + 1, carry, factor)
    requires next == before[i] * factor + carry && now == before[i := next % 0x100]
    ensures MulSoFar(was, now, i, next / 0x100, factor)
  {
    var p := Pow256(|was| - i - 1);
    assert before[i] == was[i] by { assert before[..i + 1][i] == was[..i + 1][i]; }
    assert now[..i] == before[..i + 1][..i] && was[..i] == was[..i + 1][..i];
    assert now[i + 1..] == before[i + 1..];
    assert now[i..] == [now[i]] + now[i + 1..] && was[i..] == [was[i]] + was[i + 1..];
    BECons(now[i], now[i + 1..]);
    BECons(was[i], was[i + 1..]);
    CarryFits(was[i], factor, carry);
    MulStep(was[i], p, BE(now[i + 1..]), BE(was[i + 1..]), carry, factor, next % 0x100, next / 0x100);
  }

  lemma AddDigit(was: seq<byte>, before: seq<byte>, now: seq<byte>, i: nat, carry: u16, next: u16, addend: byte)
    requires i < |before| && AddSoFar(was, before, i + 1, carry, addend)
    requires next == before[i] + carry && now == before[i := next % 0x100]
    ensures AddSoFar(was, now, i, next / 0x100, addend)
  {
    var p := Pow256(|was| - i - 1);
    assert before[i] == was[i] by { assert before[..i + 1][i] == was[..i + 1][i]; }
    assert now[..i] == before[..i + 1][..i] && was[..i] == was[..i + 1][..i];
    assert now[i + 1..] == before[i + 1..];
    assert now[i..] == [now[i]] + now[i + 1..] && was[i..] == [was[i]] + was[i + 1..];
    BECons(now[i], now[i + 1..]);
    BECons(was[i], was[i + 1..]);
    AddStep(was[i], p, carry, next % 0x100, next / 0x100);
  }

  lemma SoFarStart(was: seq<byte>, k: byte)
    ensures MulSoFar(was, was, |was|, 0, k) && AddSoFar(was, was, |was|, k, k)
  {
    assert was[|was|..] == [];
  }

  lemma SoFarFits(was: seq<byte>, now: seq<byte>, i: nat, carry: nat, factor: byte)
    requires i < |now| && MulSoFar(was, now, i + 1, carry, factor)
    ensures 0 <= now[i] * factor + carry < 0x1_0000
  {
    CarryFits(now[i], factor, carry);
  }

  /** The carry left at the end is the overflow. */
  lemma CarryIsOverflow(now: seq<byte>, carry: nat, total: nat)
    requires BE(now) + carry * Pow256(|now|) == total
    ensures Truncated(now, total, carry == 0)
  {
    BEBound(now);
    Overflow(BE(now), carry, Pow256(|now|), total);
  }

  lemma MulDone(was: seq<byte>, now: seq<byte>, carry: nat, factor: nat)
    requires MulSoFar(was, now, 0, carry, factor)
    ensures Truncated(now, BE(was) * factor, carry == 0)
  {
    assert now[0..] == now && was[0..] == was;
    CarryIsOverflow(now, carry, BE(was) * factor);
  }

  /** With no carry left the untouched prefix completes the sum. */
  lemma AddDone(was: seq<byte>, now: seq<byte>, i: nat, carry: nat, addend: nat)
    requires AddSoFar(was, now, i, carry, addend) && (i == 0 || carry == 0)
    ensures Truncated(now, BE(was) + addend, carry == 0)
  {
    assert now == now[..i] + now[i..] && was == was[..i] + was[i..];
    BEConcat(now[..i], now[i..]);
    BEConcat(was[..i], was[i..]);
    CarryIsOverflow(now, carry, BE(was) + addend);
  }

  /** mul_small: multiply in place, failing exactly when the product needs a 33rd byte.
      `next` is held in 16 bits throughout. */
  method MulSmall(value: array<byte>, factor: byte) returns (ok: bool)
    requires value.Length == WORD
    modifies value
    ensures Truncated(value[..], old(BE(value[..])) * factor, ok)
  {
    hide *;
    ghost var was := value[..];
    var carry: u16 := 0;
    var i := value.Length;
    SoFarStart(was, factor);
    while i > 0
      invariant 0 <= i <= value.Length
      invariant MulSoFar(was, value[..], i, carry, factor)
    {
      i := i - 1;
      ghost var before := value[..];
      SoFarFits(was, before, i, carry, factor);
      var next: u16 := value[i] * factor + carry;
      value[i] := next % 0x100;
      MulDigit(was, before, value[..], i, carry, next, factor);
      carry := next / 0x100;
    }
    MulDone(was, value[..], carry, factor);
    ok := carry == 0;
  }

  /** add_small: add in place, stopping as soon as no carry is left. */
  method AddSmall(value: array<byte>, addend: byte) returns (ok: bool)
    requires value.Length == WORD
    modifies value
    ensures Truncated(value[..], old(BE(value[..])) + addend, ok)
  {
    hide *;
    ghost var was := value[..];
    var carry: u16 := addend;
    var i := value.Length;
    SoFarStart(was, addend);
    while i > 0
      invariant 0 <= i <= value.Length && carry < 0x100
      invariant AddSoFar(was, value[..], i, carry, addend)
    {
      i := i - 1;
      ghost var before := value[..];
      var next: u16 := value[i] + carry;
      value[i] := next % 0x100;
      AddDigit(was, before, value[..], i, carry, next, addend);
      carry := next / 0x100;
      if carry == 0 {
        AddDone(was, value[..], i, carry, addend);
        return true;
      }
    }
    AddDone(was, value[..], i, carry, addend);
    ok := carry == 0;
  }

  lemma CarryFits(b: byte, factor: byte, carry: int)
    requires 0 <= carry <= if factor == 0 then 0 else factor - 1
    ensures 0 <= b * factor + carry < 0x1_0000
    ensures (b * factor + carry) / 0x100 <= if factor == 0 then 0 else factor - 1
  {
    assert b * factor <= 0xFF * factor;
    assert factor > 0 ==> b * factor + carry < 0x100 * factor;
  }

  lemma AddStep(b: int, p: int, carry: int, digit: int, out: int)
    requires b + carry == out * 0x100 + digit
    ensures digit * p + out * (0x100 * p) == b * p + carry * p
  {
    assert (digit + out * 0x100) * p == (b + carry) * p;
  }

  lemma {:induction false} PrefixValue(s: string, i: nat)
    requires IsDigits(s) && i <= |s|
    ensures IsDigits(s[..i]) && Value(s[..i]) <= Value(s)
    decreases |s|
  {
    if i == |s| {
      assert s[..i] == s;
    } else {
      PrefixValue(s[..|s| - 1], i);
      assert s[..|s| - 1][..i] == s[..i];
    }
  }

  /** parse_u256_decimal: exact on every input. */
  method ParseU256Decimal(value: string) returns (r: Option<seq<byte>>)
    ensures r.Some? <==> value != [] && IsDigits(value) && Value(value) < Pow256(WORD)
    ensures r.Some? ==> |r.value| == WORD && BE(r.value) == Value(value)
  {
    hide BE, Pow256, Value, Truncated;
    if value == [] || !IsDigits(value) {
      return None;
    }
    var out := new byte[WORD](_ => 0);
    assert out[..] == Zeros(WORD);
    ZerosValue(WORD);
    EmptyValue(value);
    for k := 0 to |value|
      invariant fresh(out) && out.Length == WORD
      invariant BE(out[..]) == Value(value[..k]) < Pow256(WORD)
    {
      var digit := DigitValue(value[k]);
      NextDigit(value, k);
      var ok := MulSmall(out, 10);
      UseTruncated(out[..], Value(value[..k]) * 10, ok);
      if !ok { return None; }
      ok := AddSmall(out, digit);
      UseTruncated(out[..], Value(value[..k]) * 10 + digit, ok);
      if !ok { return None; }
    }
    assert value[..|value|] == value;
    r := Some(out[..]);
  }

  lemma UseTruncated(now: seq<byte>, total: nat, fits: bool)
    requires Truncated(now, total, fits)
    ensures fits <==> total < Pow256(|now|)
    ensures fits ==> BE(now) == total
  {
    if fits {
      SmallMod(total, Pow256(|now|));
    }
  }

  lemma EmptyValue(value: string)
    requires IsDigits(value)
    ensures Value(value[..0]) == 0 < Pow256(WORD)
  {
  }

  lemma NextDigit(value: string, k: nat)
    requires IsDigits(value) && k < |value|
    ensures Value(value[..k]) * 10 + DigitValue(value[k]) == Value(value[..k + 1]) <= Value(value)
  {
    assert value[..k + 1] == value[..k] + [value[k]];
    ValueSnoc(value[..k], value[k]);
    PrefixValue(value, k + 1);
  }

  lemma SmallMod(x: nat, size: nat)
    requires x < size
    ensures x % size == x
  {
  }

  /** What parse_u256_decimal computes, for the pure callers. */
  function ParsedU256(value: string): (r: Option<seq<byte>>)
    ensures r.Some? ==> |r.value| == WORD
  {
    if value != [] && IsDigits(value) && Value(value) < Pow256(WORD)
    then Some(Word(Value(value))) else None
  }

  /** The in-place parser returns exactly the word of the value. */
  lemma ParsedWord(value: string, word: seq<byte>)
    requires ParsedU256(value).Some?
    ensures |word| == WORD && BE(word) == Value(value) <==> ParsedU256(value) == Some(word)
  {
    BEToBytes(Value(value), WORD);
    if |word| == WORD && BE(word) == Value(value) {
      BEInjective(word, Word(Value(value)));
    }
  }

  // ---- hexadecimal words -------------------------------------------------------------

  predicate IsHexDigit(c: char) {
    '0' <= c <= '9' || 'a' <= c <= 'f' || 'A' <= c <= 'F'
  }

  function HexDigit(c: char): (d: nat)
    requires IsHexDigit(c)
    ensures d < 16
  {
    if '0' <= c <= '9' then c as int - '0' as int
    else if 'a' <= c <= 'f' then c as int - 'a' as int + 10
    else c as int - 'A' as int + 10
  }

  predicate IsHex(s: string) {
    forall i :: 0 <= i < |s| ==> IsHexDigit(s[i])
  }

  function HexValue(s: string): nat
    requires IsHex(s)
  {
    if s == [] then 0 else HexValue(s[..|s| - 1]) * 16 + HexDigit(s[|s| - 1])
  }

  function Strip0x(value: string): string {
    if |value| >= 2 && (value[..2] == "0x" || value[..2] == "0X") then value[2..] else value
  }

  function AsciiLower(c: char): char {
    if 'A' <= c <= 'Z' then c - 'A' + 'a' else c
  }

  function Lower(s: string): (r: string)
    ensures |r| == |s|
  {
    seq(|s|, i requires 0 <= i < |s| => AsciiLower(s[i]))
  }

  /** Equal but for the case of letters. */
  predicate SameButCase(a: string, b: string) {
    && |a| == |b|
    && forall i :: 0 <= i < |a| ==>
         || a[i] == b[i]
         || ('A' <= a[i] <= 'Z' && b[i] as int == a[i] as int + 32)
         || ('A' <= b[i] <= 'Z' && a[i] as int == b[i] as int + 32)
  }

  /** Lowering merges exactly the spellings that differ in case. */
  lemma LowerMerges(a: string, b: string)
    ensures Lower(a) == Lower(b) <==> SameButCase(a, b)
  {
    if Lower(a) == Lower(b) {
      forall i | 0 <= i < |a| ensures AsciiLower(a[i]) == AsciiLower(b[i]) {
        assert Lower(a)[i] == Lower(b)[i];
      }
    }
  }

  /** same_address. */
  predicate SameAddress(left: string, right: string) {
    Lower(Strip0x(left)) == Lower(Strip0x(right))
  }

  /** hex::decode on an even number of digits. */
  function HexDecode(s: string): (b: seq<byte>)
    requires IsHex(s) && |s| % 2 == 0
    ensures |b| == |s| / 2
  {
    if s == [] then []
    else
      var n := |s|;
      HexDecode(s[..n - 2]) + [HexDigit(s[n - 2]) * 16 + HexDigit(s[n - 1])]
  }

  function ParseU256Hex(value: string): (r: Option<seq<byte>>)
    ensures r.Some? ==> |r.value| == WORD
  {
    var raw := Strip0x(value);
    if |raw| > 64 then None
    else if raw == [] then Some(Zeros(WORD))
    else
      var padded := if |raw| % 2 == 0 then raw else "0" + raw;
      if !IsHex(padded) then None else Some(LeftPad32(HexDecode(padded)))
  }

  lemma {:induction false} HexDecodeValue(s: string)
    requires IsHex(s) && |s| % 2 == 0
    ensures BE(HexDecode(s)) == HexValue(s)
  {
    if s != [] {
      var n := |s|;
      HexDecodeValue(s[..n - 2]);
      assert s[..n - 1][..n - 2] == s[..n - 2];
      assert HexValue(s) == HexValue(s[..n - 1]) * 16 + HexDigit(s[n - 1]);
      var b := HexDecode(s);
      assert b[..|b| - 1] == HexDecode(s[..n - 2]);
    }
  }

  lemma {:induction false} LeadingZeroHex(s: string)
    requires IsHex(s)
    ensures IsHex("0" + s) && HexValue("0" + s) == HexValue(s)
  {
    if s != [] {
      var n := |s|;
      LeadingZeroHex(s[..n - 1]);
      assert ("0" + s)[..n] == "0" + s[..n - 1];
    } else {
      assert "0" + s == ['0'];
      assert HexValue(['0']) == HexValue([]) * 16 + 0;
    }
  }

  /** parse_u256_hex succeeds exactly on up to 64 hex digits and returns their value. */
  lemma ParseU256HexExact(value: string)
    ensures var raw := Strip0x(value); var r := ParseU256Hex(value);
      && (r.Some? <==> |raw| <= 64 && IsHex(raw))
      && (r.Some? ==> BE(r.value) == HexValue(raw))
  {
    hide Strip0x, BE, HexValue, HexDecode, LeftPad32, IsHex;
    var raw := Strip0x(value);
    EmptyHex();
    if 0 < |raw| <= 64 {
      var padded := if |raw| % 2 == 0 then raw else "0" + raw;
      PaddedHex(raw);
      if IsHex(padded) {
        LeadingZeroHex(raw);
        HexDecodeValue(padded);
        LeftPadValue(HexDecode(padded));
      }
    }
  }

  lemma EmptyHex()
    ensures IsHex("") && HexValue("") == 0 && BE(Zeros(WORD)) == 0
  {
    ZerosValue(WORD);
  }

  lemma PaddedHex(raw: string)
    ensures IsHex("0" + raw) <==> IsHex(raw)
  {
    assert forall i :: 0 <= i < |raw| ==> raw[i] == ("0" + raw)[i + 1];
  }
}
