/** The principal text codec (scripts/batch_production_readiness.ts:411-466). The reference
    definition is the bit stream of section 6 of RFC 4648: bytes become bits, most significant
    first; bits become 5-bit groups, the last one padded with zeros. */
module Principal {
  import opened Wrappers
  import opened HexUtil

  const ALPHABET := "abcdefghijklmnopqrstuvwxyz234567"

  /** The running buffer never needs more than 13 bits. */
  type u13 = x: int | 0 <= x < 0x2000

  // ---- the reference ------------------------------------------------------------------

  function Pow2(n: nat): (p: nat)
    ensures p > 0
  {
    if n == 0 then 1 else 2 * Pow2(n - 1)
  }

  /** The `width` low bits of `n`, most significant first. */
  function Bits(n: nat, width: nat): (b: seq<bool>)
    ensures |b| == width
  {
    if width == 0 then [] else Bits(n / 2, width - 1) + [n % 2 == 1]
  }

  function Number(b: seq<bool>): (n: nat)
    ensures n < Pow2(|b|)
  {
    if b == [] then 0 else Number(b[..|b| - 1]) * 2 + (if b[|b| - 1] then 1 else 0)
  }

  function ByteBits(bytes: seq<byte>): (b: seq<bool>)
    ensures |b| == 8 * |bytes|
  {
    if bytes == [] then [] else ByteBits(bytes[..|bytes| - 1]) + Bits(bytes[|bytes| - 1], 8)
  }

  function Index(c: char): (r: Option<nat>)
    ensures r.Some? ==> r.value < 32
  {
    if 'a' <= c <= 'z' then Some(c as int - 'a' as int)
    else if '2' <= c <= '7' then Some(c as int - '2' as int + 26)
    else None
  }

  /** `PRINCIPAL_BASE32_ALPHABET.charAt(d)`. */
  function Letter(d: nat): (c: char)
    requires d < 32
    ensures Index(c) == Some(d)
  {
    if d < 26 then 'a' + d as char else '2' + (d - 26) as char
  }

  lemma AlphabetText(d: nat)
    requires d < 32
    ensures ALPHABET[d] == Letter(d)
  {
  }

  predicate InAlphabet(s: string) {
    forall i :: 0 <= i < |s| ==> Index(s[i]).Some?
  }

  function TextBits(s: string): (b: seq<bool>)
    requires InAlphabet(s)
    ensures |b| == 5 * |s|
  {
    if s == [] then [] else TextBits(s[..|s| - 1]) + Bits(Index(s[|s| - 1]).value, 5)
  }

  function ZeroBits(n: nat): (b: seq<bool>)
    ensures |b| == n
  {
    seq(n, _ => false)
  }

  /** 5-bit groups from the left, the last one filled up with zeros. */
  function Base32(b: seq<bool>): string {
    if b == [] then ""
    else if |b| < 5 then Symbol(b + ZeroBits(5 - |b|))
    else Symbol(b[..5]) + Base32(b[5..])
  }

  function Symbol(b: seq<bool>): string
    requires |b| == 5
  {
    assert Pow2(5) == 32;
    [Letter(Number(b))]
  }

  /** Whole bytes from the left; a rest of fewer than eight bits is dropped. */
  function Unpack(b: seq<bool>): (r: seq<byte>)
    ensures |r| == |b| / 8
  {
    if |b| < 8 then [] else OneByte(b[..8]) + Unpack(b[8..])
  }

  function OneByte(b: seq<bool>): (r: seq<byte>)
    requires |b| == 8
    ensures |r| == 1
  {
    assert Pow2(8) == 256;
    [Number(b)]
  }

  function Group(compact: string): string {
    if |compact| <= 5 then compact else compact[..5] + "-" + Group(compact[5..])
  }

  function Ungroup(text: string): string {
    if text == [] then [] else Ungroup(text[..|text| - 1]) + (if text[|text| - 1] == '-' then [] else [text[|text| - 1]])
  }

  function Encode(bytes: seq<byte>): string {
    Group(Base32(ByteBits(bytes)))
  }

  function Decode(text: string): Option<seq<byte>> {
    var compact := Ungroup(text);
    if text != Lower(text) || compact == [] || !InAlphabet(compact) then None
    else
      var bytes := Unpack(TextBits(compact));
      if |bytes| < 4 || Encode(bytes) != text then None else Some(bytes)
  }

  // ---- bits and numbers ---------------------------------------------------------------

  lemma {:induction false} NumberBits(n: nat, width: nat)
    requires n < Pow2(width)
    ensures Number(Bits(n, width)) == n
  {
    if width > 0 {
      NumberBits(n / 2, width - 1);
      var b := Bits(n, width);
      assert b[..|b| - 1] == Bits(n / 2, width - 1);
    }
  }

  lemma {:induction false} BitsNumber(b: seq<bool>)
    ensures Bits(Number(b), |b|) == b
  {
    if b != [] {
      BitsNumber(b[..|b| - 1]);
    }
  }

  lemma {:induction false} BitsAppend(high: nat, low: nat, width: nat, extra: nat)
    requires low < Pow2(extra)
    ensures Bits(high * Pow2(extra) + low, width + extra) == Bits(high, width) + Bits(low, extra)
  {
    if extra > 0 {
      var n := high * Pow2(extra) + low;
      Halve(high, low, Pow2(extra - 1));
      BitsAppend(high, low / 2, width, extra - 1);
    }
  }

  lemma Halve(high: nat, low: nat, half: nat)
    ensures (high * (2 * half) + low) / 2 == high * half + low / 2
    ensures (high * (2 * half) + low) % 2 == low % 2
  {
    assert high * (2 * half) == 2 * (high * half);
  }

  lemma {:induction false} ZeroNumber(n: nat)
    ensures Bits(0, n) == ZeroBits(n)
  {
    if n > 0 {
      ZeroNumber(n - 1);
    }
  }

  function Over(n: nat, size: nat): nat
    requires size > 0
  {
    n / size
  }

  function Modulo(n: nat, size: nat): (r: nat)
    requires size > 0
    ensures r <= n && r < size
  {
    n % size
  }

  /** `buffer >> bits`. */
  function Shift(buffer: nat, bits: nat): nat {
    Over(buffer, Pow2(bits))
  }

  /** `buffer & ((1 << bits) - 1)`. */
  function Mask(buffer: nat, bits: nat): (r: nat)
    ensures r <= buffer
  {
    Modulo(buffer, Pow2(bits))
  }

  /** Splitting the buffer at `bits`: what `>>` and the mask compute. */
  lemma SplitBuffer(buffer: nat, bits: nat, width: nat)
    requires buffer < Pow2(bits + width)
    ensures Shift(buffer, bits) < Pow2(width) && Mask(buffer, bits) < Pow2(bits)
    ensures Bits(buffer, bits + width) == Bits(Shift(buffer, bits), width) + Bits(Mask(buffer, bits), bits)
  {
    hide Pow2, Bits;
    var p := Pow2(bits);
    var q, r := Quotient(buffer, p);
    Pow2Add(bits, width);
    QuotientBound(q, p, r, Pow2(width));
    BitsAppend(q, r, width, bits);
  }

  lemma Quotient(n: nat, p: nat) returns (q: nat, r: nat)
    requires p > 0
    ensures q == n / p && r == n % p && r < p && n == q * p + r
  {
    q, r := n / p, n % p;
  }

  lemma QuotientBound(q: nat, p: nat, r: nat, size: nat)
    requires q * p + r < p * size
    ensures q < size
  {
    assert q >= size ==> (q - size) * p >= 0;
  }

  lemma {:induction false} Pow2Add(a: nat, b: nat)
    ensures Pow2(a + b) == Pow2(a) * Pow2(b)
  {
    if a > 0 {
      Pow2Add(a - 1, b);
      Double(Pow2(a - 1), Pow2(b));
      assert a - 1 + b == a + b - 1;
    }
  }

  lemma Double(p: nat, q: nat)
    ensures 2 * (p * q) == (2 * p) * q
  {
  }

  lemma {:induction false} Pow2Grows(a: nat, b: nat)
    requires a <= b
    ensures Pow2(a) <= Pow2(b)
  {
    if a < b {
      Pow2Grows(a, b - 1);
    }
  }

  lemma SmallPowers()
    ensures Pow2(0) == 1 && Pow2(5) == 32 && Pow2(8) == 256 && Pow2(12) == 0x1000
  {
    assert Pow2(5) == 32;
    assert Pow2(8) == 8 * Pow2(5);
    assert Pow2(12) == 16 * Pow2(8);
  }

  lemma ShiftBound(n: nat, size: nat, k: nat, low: nat)
    requires n < size && low < k
    ensures n * k + low < size * k
  {
    var e := size - n - 1;
    assert size * k == n * k + k + e * k;
    assert e * k >= 0;
  }

  // ---- encoding -----------------------------------------------------------------------

  lemma ByteBitsSnoc(bytes: seq<byte>, b: byte)
    ensures ByteBits(bytes + [b]) == ByteBits(bytes) + Bits(b, 8)
  {
    assert (bytes + [b])[..|bytes|] == bytes;
  }

  lemma TextBitsSnoc(s: string, c: char)
    requires InAlphabet(s) && Index(c).Some?
    ensures InAlphabet(s + [c]) && TextBits(s + [c]) == TextBits(s) + Bits(Index(c).value, 5)
  {
    assert (s + [c])[..|s|] == s;
  }

  /** The bits of the emitted text followed by the buffer are the bits read so far. */
  ghost predicate Encoding(compact: string, buffer: nat, bits: nat, seen: seq<bool>) {
    && InAlphabet(compact)
    && buffer < Pow2(bits)
    && TextBits(compact) + Bits(buffer, bits) == seen
  }

  lemma TakeByte(compact: string, buffer: nat, bits: nat, bytes: seq<byte>, b: byte)
    requires Encoding(compact, buffer, bits, ByteBits(bytes))
    ensures Encoding(compact, buffer * 256 + b, bits + 8, ByteBits(bytes + [b]))
  {
    hide Pow2, Bits, ByteBits, TextBits, InAlphabet;
    SmallPowers();
    BitsAppend(buffer, b, bits, 8);
    Pow2Add(bits, 8);
    ByteBitsSnoc(bytes, b);
    ShiftBound(buffer, Pow2(bits), 256, b);
    assert TextBits(compact) + (Bits(buffer, bits) + Bits(b, 8)) == (TextBits(compact) + Bits(buffer, bits)) + Bits(b, 8);
  }

  lemma EmitSymbol(compact: string, buffer: nat, bits: nat, seen: seq<bool>)
    requires Encoding(compact, buffer, bits + 5, seen)
    ensures Shift(buffer, bits) < 32
    ensures Encoding(compact + [Letter(Shift(buffer, bits))], Mask(buffer, bits), bits, seen)
  {
    hide Pow2, Bits, TextBits, InAlphabet, Index, Letter;
    SmallPowers();
    SplitBuffer(buffer, bits, 5);
    var c := Letter(Shift(buffer, bits));
    TextBitsSnoc(compact, c);
  }

  lemma {:induction false} Base32Text(s: string, rest: seq<bool>)
    requires InAlphabet(s)
    ensures Base32(TextBits(s) + rest) == s + Base32(rest)
  {
    hide Bits, Number, Pow2, Base32, Index;
    if s == [] {
      assert TextBits(s) + rest == rest;
    } else {
      var front, last := s[..|s| - 1], s[|s| - 1];
      var d := Index(last).value;
      Base32Text(front, Bits(d, 5) + rest);
      assert TextBits(s) + rest == TextBits(front) + (Bits(d, 5) + rest);
      Base32Symbol(d, rest);
      LetterIndex(last);
      assert s == front + [last];
    }
  }

  lemma LetterIndex(c: char)
    requires Index(c).Some?
    ensures Letter(Index(c).value) == c
  {
  }

  lemma Base32Symbol(d: nat, rest: seq<bool>)
    requires d < 32
    ensures Base32(Bits(d, 5) + rest) == [Letter(d)] + Base32(rest)
  {
    hide Bits, Number, Pow2;
    SmallPowers();
    NumberBits(d, 5);
    assert (Bits(d, 5) + rest)[..5] == Bits(d, 5) && (Bits(d, 5) + rest)[5..] == rest;
  }

  lemma LastSymbol(compact: string, buffer: nat, bits: nat, seen: seq<bool>)
    requires Encoding(compact, buffer, bits, seen) && bits < 5
    ensures bits == 0 ==> Base32(seen) == compact
    ensures bits > 0 ==> buffer * Pow2(5 - bits) < 32 && Base32(seen) == compact + [Letter(buffer * Pow2(5 - bits))]
  {
    hide Bits, Number, Pow2, InAlphabet, TextBits;
    Base32Text(compact, Bits(buffer, bits));
    if bits > 0 {
      var pad := 5 - bits;
      var d := buffer * Pow2(pad);
      BitsAppend(buffer, 0, bits, pad);
      ZeroNumber(pad);
      Pow2Add(bits, pad);
      SmallPowers();
      Scale(buffer, Pow2(bits), Pow2(pad));
      NumberBits(d, 5);
    } else {
      assert Bits(buffer, 0) == [];
    }
  }

  lemma Scale(n: nat, size: nat, k: nat)
    requires n < size && k > 0
    ensures n * k < size * k
  {
  }

  lemma BufferFits(compact: string, buffer: nat, bits: nat, seen: seq<bool>)
    requires Encoding(compact, buffer, bits, seen) && bits <= 12
    ensures buffer < 0x1000
  {
    assert Pow2(12) == 0x1000;
    Pow2Grows(bits, 12);
  }

  /** What is left to group; the loop may overshoot the end. */
  function Tail(compact: string, index: nat): string {
    if index <= |compact| then compact[index..] else ""
  }

  lemma NextGroup(compact: string, index: nat, stop: nat)
    requires index < |compact| && stop == (if index + 5 < |compact| then index + 5 else |compact|)
    ensures var next := compact[index..stop];
      && 0 < |next| <= 5 && next + Tail(compact, index + 5) == Tail(compact, index)
      && (Tail(compact, index + 5) != "" ==> |next| == 5)
  {
  }

  method GroupText(compact: string) returns (r: string)
    ensures r == Group(compact)
  {
    hide Join, JoinAll, Group, Tail;
    var groups: seq<string> := [];
    var index := 0;
    JoinStart(compact);
    while index < |compact|
      invariant 0 <= index && Join(groups, Tail(compact, index)) == Group(compact)
    {
      var stop := if index + 5 < |compact| then index + 5 else |compact|;
      NextGroup(compact, index, stop);
      JoinNext(groups, compact[index..stop], Tail(compact, index + 5));
      groups := groups + [compact[index..stop]];
      index := index + 5;
    }
    r := JoinAll(groups);
    TailEmpty(compact, index);
    JoinEmpty(groups);
  }

  lemma JoinStart(compact: string)
    ensures Join([], Tail(compact, 0)) == Group(compact)
  {
    assert compact[0..] == compact;
  }

  lemma TailEmpty(compact: string, index: nat)
    requires index >= |compact|
    ensures Tail(compact, index) == ""
  {
  }

  /** The groups so far, each followed by a hyphen when something still comes, then the rest grouped. */
  ghost function Join(groups: seq<string>, rest: string): string {
    if groups == [] then Group(rest)
    else if rest == "" then JoinAll(groups)
    else JoinAll(groups) + "-" + Group(rest)
  }

  function JoinAll(groups: seq<string>): string {
    if groups == [] then ""
    else if |groups| == 1 then groups[0]
    else JoinAll(groups[..|groups| - 1]) + "-" + groups[|groups| - 1]
  }

  lemma JoinEmpty(groups: seq<string>)
    ensures Join(groups, "") == JoinAll(groups)
  {
  }

  lemma JoinNext(groups: seq<string>, next: string, rest: string)
    requires 0 < |next| <= 5 && (rest != "" ==> |next| == 5)
    ensures Join(groups + [next], rest) == Join(groups, next + rest)
  {
    assert (groups + [next])[..|groups|] == groups;
    assert (next + rest)[..|next|] == next && (next + rest)[|next|..] == rest;
    if rest == "" {
      assert next + rest == next;
    }
  }

  /** encodePrincipalText. */
  method EncodePrincipalText(bytes: seq<byte>) returns (r: string)
    ensures r == Encode(bytes)
  {
    hide Encoding, ByteBits, Base32, Group;
    var buffer: u13, bits, compact := 0, 0, "";
    EncodingStart();
    for k := 0 to |bytes|
      invariant 0 <= bits < 5
      invariant Encoding(compact, buffer, bits, ByteBits(bytes[..k]))
    {
      TakeByte(compact, buffer, bits, bytes[..k], bytes[k]);
      assert bytes[..k + 1] == bytes[..k] + [bytes[k]];
      BufferFits(compact, buffer * 256 + bytes[k], bits + 8, ByteBits(bytes[..k + 1]));
      buffer := buffer * 256 + bytes[k];
      bits := bits + 8;
      while bits >= 5
        invariant 0 <= bits <= 12
        invariant Encoding(compact, buffer, bits, ByteBits(bytes[..k + 1]))
      {
        bits := bits - 5;
        EmitSymbol(compact, buffer, bits, ByteBits(bytes[..k + 1]));
        compact := compact + [Letter(Shift(buffer, bits))];
        buffer := Mask(buffer, bits);
      }
    }
    assert bytes[..|bytes|] == bytes;
    LastSymbol(compact, buffer, bits, ByteBits(bytes));
    if bits > 0 {
      compact := compact + [Letter(buffer * Pow2(5 - bits))];
    }
    r := GroupText(compact);
  }

  lemma EncodingStart()
    ensures Encoding("", 0, 0, ByteBits([])) && ByteBits([]) == []
  {
  }

  // ---- decoding -----------------------------------------------------------------------

  ghost predicate Decoding(bytes: seq<byte>, buffer: nat, bits: nat, seen: seq<bool>) {
    && buffer < Pow2(bits)
    && ByteBits(bytes) + Bits(buffer, bits) == seen
  }

  lemma TakeSymbol(bytes: seq<byte>, buffer: nat, bits: nat, text: string, c: char)
    requires InAlphabet(text) && Index(c).Some? && Decoding(bytes, buffer, bits, TextBits(text))
    ensures InAlphabet(text + [c])
    ensures Decoding(bytes, buffer * 32 + Index(c).value, bits + 5, TextBits(text + [c]))
  {
    hide Pow2, Bits, ByteBits, TextBits, InAlphabet, Index;
    var d := Index(c).value;
    SmallPowers();
    BitsAppend(buffer, d, bits, 5);
    Pow2Add(bits, 5);
    TextBitsSnoc(text, c);
    ShiftBound(buffer, Pow2(bits), 32, d);
    assert ByteBits(bytes) + (Bits(buffer, bits) + Bits(d, 5)) == (ByteBits(bytes) + Bits(buffer, bits)) + Bits(d, 5);
  }

  lemma EmitByte(bytes: seq<byte>, buffer: nat, bits: nat, seen: seq<bool>)
    requires Decoding(bytes, buffer, bits + 8, seen)
    ensures Shift(buffer, bits) < 256
    ensures Decoding(bytes + [Shift(buffer, bits)], Mask(buffer, bits), bits, seen)
  {
    hide Pow2, Bits, ByteBits;
    SmallPowers();
    SplitBuffer(buffer, bits, 8);
    ByteBitsSnoc(bytes, Shift(buffer, bits));
  }

  lemma {:induction false} UnpackBytes(bytes: seq<byte>, rest: seq<bool>)
    ensures Unpack(ByteBits(bytes) + rest) == bytes + Unpack(rest)
  {
    hide Bits, Number, Pow2;
    SmallPowers();
    if bytes == [] {
      assert ByteBits(bytes) + rest == rest;
    } else {
      var front, last := bytes[..|bytes| - 1], bytes[|bytes| - 1];
      UnpackBytes(front, Bits(last, 8) + rest);
      assert ByteBits(bytes) + rest == ByteBits(front) + (Bits(last, 8) + rest);
      assert (Bits(last, 8) + rest)[..8] == Bits(last, 8) && (Bits(last, 8) + rest)[8..] == rest;
      NumberBits(last, 8);
      assert bytes == front + [last];
    }
  }

  lemma DecodingFits(bytes: seq<byte>, buffer: nat, bits: nat, seen: seq<bool>)
    requires Decoding(bytes, buffer, bits, seen) && bits <= 12
    ensures buffer < 0x1000
  {
    assert Pow2(12) == 0x1000;
    Pow2Grows(bits, 12);
  }

  lemma DecodingDone(bytes: seq<byte>, buffer: nat, bits: nat, seen: seq<bool>)
    requires Decoding(bytes, buffer, bits, seen) && bits < 8
    ensures Unpack(seen) == bytes
  {
    UnpackBytes(bytes, Bits(buffer, bits));
  }

  lemma DecodingStart()
    ensures InAlphabet("") && Decoding([], 0, 0, TextBits(""))
  {
  }

  /** decodePrincipalText. */
  method DecodePrincipalText(value: string) returns (r: Option<seq<byte>>)
    ensures r == Decode(value)
  {
    hide Decoding, TextBits, Encode, Ungroup, Unpack, Lower;
    if value != Lower(value) {
      return None;
    }
    var compact := Ungroup(value);
    if |compact| == 0 {
      return None;
    }
    var buffer: u13, bits, bytes: seq<byte> := 0, 0, [];
    DecodingStart();
    assert compact[..0] == "";
    for k := 0 to |compact|
      invariant 0 <= bits < 8 && InAlphabet(compact[..k])
      invariant Decoding(bytes, buffer, bits, TextBits(compact[..k]))
    {
      var index := Index(compact[k]);
      if index.None? {
        return None;
      }
      TakeSymbol(bytes, buffer, bits, compact[..k], compact[k]);
      assert compact[..k + 1] == compact[..k] + [compact[k]];
      DecodingFits(bytes, buffer * 32 + index.value, bits + 5, TextBits(compact[..k + 1]));
      buffer := buffer * 32 + index.value;
      bits := bits + 5;
      while bits >= 8
        invariant 0 <= bits <= 12
        invariant Decoding(bytes, buffer, bits, TextBits(compact[..k + 1]))
      {
        bits := bits - 8;
        EmitByte(bytes, buffer, bits, TextBits(compact[..k + 1]));
        bytes := bytes + [Shift(buffer, bits)];
        buffer := Mask(buffer, bits);
      }
    }
    assert compact[..|compact|] == compact;
    DecodingDone(bytes, buffer, bits, TextBits(compact));
    var again := EncodePrincipalText(bytes);
    if |bytes| < 4 || again != value {
      return None;
    }
    r := Some(bytes);
  }

  // ---- the codec is a bijection --------------------------------------------------------

  lemma {:induction false} Base32Bits(b: seq<bool>)
    ensures InAlphabet(Base32(b))
    ensures exists pad: nat :: pad < 5 && TextBits(Base32(b)) == b + ZeroBits(pad)
  {
    hide TextBits, InAlphabet, Symbol, Bits;
    TextBitsEmpty();
    if b == [] {
      assert b + ZeroBits(0) == b;
    } else if |b| < 5 {
      var padded := b + ZeroBits(5 - |b|);
      SymbolBits(padded);
    } else {
      Base32Bits(b[5..]);
      var pad: nat :| pad < 5 && TextBits(Base32(b[5..])) == b[5..] + ZeroBits(pad);
      SymbolBits(b[..5]);
      TextBitsConcat(Symbol(b[..5]), Base32(b[5..]));
      assert b[..5] + (b[5..] + ZeroBits(pad)) == b + ZeroBits(pad);
    }
  }

  lemma TextBitsEmpty()
    ensures InAlphabet("") && TextBits("") == []
  {
  }

  lemma SymbolBits(b: seq<bool>)
    requires |b| == 5
    ensures InAlphabet(Symbol(b)) && TextBits(Symbol(b)) == b
  {
    assert Pow2(5) == 32;
    TextBitsSnoc("", Letter(Number(b)));
    assert Symbol(b) == "" + [Letter(Number(b))];
    BitsNumber(b);
  }

  lemma {:induction false} TextBitsConcat(a: string, b: string)
    requires InAlphabet(a) && InAlphabet(b)
    ensures InAlphabet(a + b) && TextBits(a + b) == TextBits(a) + TextBits(b)
  {
    hide TextBits, InAlphabet, Bits, Index;
    if b == [] {
      TextBitsEmpty();
      assert a + b == a;
    } else {
      var front, last := b[..|b| - 1], b[|b| - 1];
      TextBitsFront(b);
      TextBitsConcat(a, front);
      TextBitsSnoc(a + front, last);
      assert a + b == (a + front) + [last];
      assert TextBits(a) + (TextBits(front) + Bits(Index(last).value, 5))
        == (TextBits(a) + TextBits(front)) + Bits(Index(last).value, 5);
    }
  }

  lemma TextBitsFront(b: string)
    requires InAlphabet(b) && b != []
    ensures var front, last := b[..|b| - 1], b[|b| - 1];
      && InAlphabet(front) && Index(last).Some?
      && TextBits(b) == TextBits(front) + Bits(Index(last).value, 5)
  {
    hide Bits, Index;
  }

  lemma {:induction false} UngroupConcat(a: string, b: string)
    ensures Ungroup(a + b) == Ungroup(a) + Ungroup(b)
  {
    if b == [] {
      assert a + b == a;
    } else {
      var front := b[..|b| - 1];
      UngroupConcat(a, front);
      assert (a + b)[..|a + b| - 1] == a + front;
    }
  }

  lemma {:induction false} UngroupPlain(s: string)
    requires InAlphabet(s)
    ensures Ungroup(s) == s
  {
    if s != [] {
      var front := s[..|s| - 1];
      assert InAlphabet(front);
      UngroupPlain(front);
      assert Index(s[|s| - 1]).Some?;
      assert s == front + [s[|s| - 1]];
    }
  }

  lemma {:induction false} UngroupGroup(s: string)
    requires InAlphabet(s)
    ensures Ungroup(Group(s)) == s
  {
    if |s| <= 5 {
      UngroupPlain(s);
    } else {
      UngroupGroup(s[5..]);
      UngroupPlain(s[..5]);
      UngroupConcat(s[..5] + "-", Group(s[5..]));
      UngroupConcat(s[..5], "-");
      assert Ungroup("-") == "" by { assert "-"[..0] == ""; }
      assert s == s[..5] + s[5..];
    }
  }

  predicate LowerCase(s: string) {
    forall i :: 0 <= i < |s| ==> s[i] == '-' || Index(s[i]).Some?
  }

  lemma {:induction false} GroupLower(s: string)
    requires InAlphabet(s)
    ensures LowerCase(Group(s))
  {
    if |s| > 5 {
      GroupLower(s[5..]);
    }
  }

  lemma LowerCaseFixed(s: string)
    requires LowerCase(s)
    ensures Lower(s) == s
  {
    forall i | 0 <= i < |s| ensures AsciiLower(s[i]) == s[i] {
      assert s[i] == '-' || Index(s[i]).Some?;
    }
  }

  /** A text decodes to `bytes` exactly when it is their encoding and there are at least four:
      misplaced hyphens, upper case and non-zero padding bits are all refused. */
  lemma DecodeExact(text: string, bytes: seq<byte>)
    ensures Decode(text) == Some(bytes) <==> |bytes| >= 4 && text == Encode(bytes)
  {
    hide Base32, ByteBits, TextBits, Unpack, Group, Ungroup, Lower, InAlphabet, LowerCase;
    if |bytes| >= 4 && text == Encode(bytes) {
      var b := ByteBits(bytes);
      var compact := Base32(b);
      Base32Bits(b);
      var pad: nat :| pad < 5 && TextBits(compact) == b + ZeroBits(pad);
      UngroupGroup(compact);
      GroupLower(compact);
      LowerCaseFixed(text);
      UnpackBytes(bytes, ZeroBits(pad));
      NothingLeft(bytes, ZeroBits(pad));
      NonEmptyCompact(bytes);
    }
  }

  lemma NothingLeft(bytes: seq<byte>, rest: seq<bool>)
    requires |rest| < 8
    ensures bytes + Unpack(rest) == bytes
  {
  }

  lemma NonEmptyCompact(bytes: seq<byte>)
    requires bytes != []
    ensures Base32(ByteBits(bytes)) != []
  {
  }

  /** Different byte strings of at least four bytes have different texts. */
  lemma EncodeInjective(a: seq<byte>, b: seq<byte>)
    requires |a| >= 4 && |b| >= 4 && Encode(a) == Encode(b)
    ensures a == b
  {
    DecodeExact(Encode(a), a);
    DecodeExact(Encode(b), b);
  }
}
