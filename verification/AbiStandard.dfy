/** Argument encoding as the Solidity Contract ABI Specification defines it, in "Formal Specification
    of the Encoding": a head of fixed width for every component, then the tails of the dynamic ones,
    each head an offset from the start of the tuple. With it, a decoder driven by the types only, and
    the proof that it inverts the encoding. */
module AbiStandard {
  import opened Wrappers
  import opened Decimal
  import opened HexUtil

  type Bytes = seq<byte>
  type Bytes32 = s: seq<byte> | |s| == 32 witness Zeros(32)

  /** Every elementary type in use fills one word. */
  datatype AbiValue = Atom(word: Bytes32) | Blob(data: Bytes) | Tuple(items: seq<AbiValue>) | Array(items: seq<AbiValue>)

  datatype Shape = AtomType | BlobType | TupleType(items: seq<Shape>) | ArrayType(item: Shape)

  // ---- encoding ------------------------------------------------------------------------

  predicate Dynamic(v: AbiValue) {
    match v
    case Atom(_) => false
    case Tuple(items) => exists i :: 0 <= i < |items| && Dynamic(items[i])
    case _ => true
  }

  /** One component of a tuple or an array: its own encoding, and whether it goes to the tail. */
  datatype Part = Part(dynamic: bool, enc: Bytes)

  function Width(p: Part): nat {
    if p.dynamic then 32 else |p.enc|
  }

  function HeadSize(parts: seq<Part>): nat {
    if parts == [] then 0 else HeadSize(parts[..|parts| - 1]) + Width(parts[|parts| - 1])
  }

  function TailOf(p: Part): Bytes {
    if p.dynamic then p.enc else []
  }

  function Tails(parts: seq<Part>): Bytes {
    if parts == [] then [] else Tails(parts[..|parts| - 1]) + TailOf(parts[|parts| - 1])
  }

  /** The head of a component whose tail starts `offset` bytes after the start of the tuple. */
  function HeadOf(p: Part, offset: nat): (r: Bytes)
    ensures |r| == Width(p)
  {
    if p.dynamic then Word(offset) else p.enc
  }

  function Heads(parts: seq<Part>, start: nat): (r: Bytes)
    ensures |r| == HeadSize(parts)
  {
    if parts == [] then []
    else
      var front := parts[..|parts| - 1];
      Heads(front, start) + HeadOf(parts[|parts| - 1], start + |Tails(front)|)
  }

  function Layout(parts: seq<Part>): Bytes {
    Heads(parts, HeadSize(parts)) + Tails(parts)
  }

  function PaddedLen(len: nat): (r: nat)
    ensures len <= r < len + 32 && r % 32 == 0
  {
    ((len + 31) / 32) * 32
  }

  function Enc(v: AbiValue): Bytes {
    match v
    case Atom(w) => w
    case Blob(b) => Word(|b|) + b + Zeros(PaddedLen(|b|) - |b|)
    case Tuple(items) => Layout(Parts(items))
    case Array(items) => Word(|items|) + Layout(Parts(items))
  }

  function Parts(items: seq<AbiValue>): (r: seq<Part>)
    ensures |r| == |items|
    ensures forall i :: 0 <= i < |r| ==> r[i] == Part(Dynamic(items[i]), Enc(items[i]))
  {
    if items == [] then []
    else
      var last := items[|items| - 1];
      Parts(items[..|items| - 1]) + [Part(Dynamic(last), Enc(last))]
  }

  // ---- reading -------------------------------------------------------------------------

  function ReadWordHex(input: Bytes, offset: nat): (r: Option<Bytes>)
    ensures r.Some? ==> |r.value| == 32
  {
    if offset + 32 > |input| then None else Some(input[offset..offset + 32])
  }

  function ReadWord(input: Bytes, offset: nat): Option<nat> {
    match ReadWordHex(input, offset)
    case None => None
    case Some(w) => Some(BE(w))
  }

  ghost predicate At(input: Bytes, offset: nat, piece: Bytes) {
    offset + |piece| <= |input| && input[offset..offset + |piece|] == piece
  }

  lemma AtSplit(input: Bytes, offset: nat, a: Bytes, b: Bytes)
    requires At(input, offset, a + b)
    ensures At(input, offset, a) && At(input, offset + |a|, b)
  {
    var whole := input[offset..offset + |a + b|];
    assert whole[..|a|] == a && whole[|a|..] == b;
    assert whole[..|a|] == input[offset..offset + |a|];
    assert whole[|a|..] == input[offset + |a|..offset + |a| + |b|];
  }

  lemma AtFits(input: Bytes, offset: nat, piece: Bytes)
    requires At(input, offset, piece)
    ensures offset + |piece| <= |input|
  {
  }

  lemma WordRead(input: Bytes, offset: nat, n: nat)
    requires At(input, offset, Word(n)) && n < Pow256(32)
    ensures ReadWord(input, offset) == Some(n)
  {
    BEToBytes(n, 32);
  }

  lemma SmallWord(n: nat)
    requires n <= U128_MAX
    ensures n < Pow256(32)
  {
    Pow256Constants();
    assert (U128_MAX + 1) * (U128_MAX + 1) > U128_MAX;
  }

  // ---- where everything sits -----------------------------------------------------------

  lemma {:induction false} HeadAt(input: Bytes, at: nat, parts: seq<Part>, start: nat, i: nat)
    requires At(input, at, Heads(parts, start)) && i < |parts|
    ensures At(input, at + HeadSize(parts[..i]), HeadOf(parts[i], start + |Tails(parts[..i])|))
    decreases |parts|
  {
    hide At, HeadOf, Width;
    var n := |parts| - 1;
    var front := parts[..n];
    AtSplit(input, at, Heads(front, start), HeadOf(parts[n], start + |Tails(front)|));
    if i < n {
      HeadAt(input, at, front, start, i);
      assert front[..i] == parts[..i];
    }
  }

  lemma {:induction false} TailAt(input: Bytes, at: nat, parts: seq<Part>, i: nat)
    requires At(input, at, Tails(parts)) && i < |parts|
    ensures At(input, at + |Tails(parts[..i])|, TailOf(parts[i]))
    ensures |Tails(parts[..i])| + |TailOf(parts[i])| <= |Tails(parts)|
    decreases |parts|
  {
    hide At, TailOf;
    var n := |parts| - 1;
    var front := parts[..n];
    AtSplit(input, at, Tails(front), TailOf(parts[n]));
    if i < n {
      TailAt(input, at, front, i);
      assert front[..i] == parts[..i];
    }
  }

  /** Where the offset of component `i` points, counted from the start of the tuple. */
  function OffsetOf(parts: seq<Part>, i: nat): nat
    requires i <= |parts|
  {
    HeadSize(parts) + |Tails(parts[..i])|
  }

  /** Every offset word reads back, points behind the whole head, and finds its component inside the
      encoding, where the one before it ends; a static component sits in the head itself. */
  lemma ComponentAt(input: Bytes, at: nat, parts: seq<Part>, i: nat)
    requires At(input, at, Layout(parts)) && i < |parts| && |input| <= U64_MAX
    ensures var head := at + HeadSize(parts[..i]);
      if parts[i].dynamic then
        && ReadWord(input, head) == Some(OffsetOf(parts, i))
        && OffsetOf(parts, i) >= HeadSize(parts)
        && OffsetOf(parts, i) + |parts[i].enc| == OffsetOf(parts, i + 1) <= |Layout(parts)|
        && At(input, at + OffsetOf(parts, i), parts[i].enc)
      else At(input, head, parts[i].enc)
  {
    hide At, Heads, HeadSize, Tails, Word, ReadWord, Pow256, OffsetOf, Layout, Width;
    ComponentTail(input, at, parts, i);
    ComponentHead(input, at, parts, i);
    if parts[i].dynamic {
      SmallWord(OffsetOf(parts, i));
      WordRead(input, at + HeadSize(parts[..i]), OffsetOf(parts, i));
    }
  }

  lemma ComponentHead(input: Bytes, at: nat, parts: seq<Part>, i: nat)
    requires At(input, at, Layout(parts)) && i < |parts|
    ensures At(input, at + HeadSize(parts[..i]), HeadOf(parts[i], OffsetOf(parts, i)))
  {
    hide At, Heads, HeadSize, Tails, HeadOf;
    AtSplit(input, at, Heads(parts, HeadSize(parts)), Tails(parts));
    HeadAt(input, at, parts, HeadSize(parts), i);
  }

  lemma ComponentTail(input: Bytes, at: nat, parts: seq<Part>, i: nat)
    requires At(input, at, Layout(parts)) && i < |parts|
    ensures At(input, at + OffsetOf(parts, i), TailOf(parts[i]))
    ensures OffsetOf(parts, i) >= HeadSize(parts)
    ensures OffsetOf(parts, i) + |TailOf(parts[i])| == OffsetOf(parts, i + 1) <= |Layout(parts)| <= |input|
  {
    hide At, Heads, HeadSize, Tails, TailOf;
    AtFits(input, at, Layout(parts));
    AtSplit(input, at, Heads(parts, HeadSize(parts)), Tails(parts));
    TailAt(input, at + HeadSize(parts), parts, i);
    TailsStep(parts, i);
  }

  lemma TailsStep(parts: seq<Part>, i: nat)
    requires i < |parts|
    ensures Tails(parts[..i + 1]) == Tails(parts[..i]) + TailOf(parts[i])
  {
    assert parts[..i + 1][..i] == parts[..i];
  }

  lemma HeadStep(parts: seq<Part>, i: nat)
    requires i < |parts|
    ensures HeadSize(parts[..i + 1]) == HeadSize(parts[..i]) + Width(parts[i])
  {
    assert parts[..i + 1][..i] == parts[..i];
  }

  // ---- decoding by type ----------------------------------------------------------------

  predicate DynamicType(s: Shape) {
    match s
    case AtomType => false
    case TupleType(items) => exists i :: 0 <= i < |items| && DynamicType(items[i])
    case _ => true
  }

  /** Bytes of a static type. */
  function StaticSize(s: Shape): nat {
    match s
    case TupleType(items) => HeadWidth(items)
    case _ => 32
  }

  /** Bytes a component takes in the head. */
  function Slot(s: Shape): nat {
    if DynamicType(s) then 32 else StaticSize(s)
  }

  function HeadWidth(shapes: seq<Shape>): nat {
    if shapes == [] then 0
    else
      var last := shapes[|shapes| - 1];
      HeadWidth(shapes[..|shapes| - 1]) + if DynamicType(last) then 32 else StaticSize(last)
  }

  predicate Fits(v: AbiValue, s: Shape) {
    match (v, s)
    case (Atom(_), AtomType) => true
    case (Blob(_), BlobType) => true
    case (Tuple(items), TupleType(shapes)) =>
      |items| == |shapes| && forall i :: 0 <= i < |items| ==> Fits(items[i], shapes[i])
    case (Array(items), ArrayType(item)) =>
      |items| <= U64_MAX && forall i :: 0 <= i < |items| ==> Fits(items[i], item)
    case _ => false
  }

  function Dec(s: Shape, input: Bytes, at: nat): Option<AbiValue>
    decreases s, 0, 0
  {
    match s
    case AtomType =>
      var word := ReadWordHex(input, at);
      if word.None? then None else Some(Atom(word.value))
    case BlobType =>
      var length := ReadWord(input, at);
      if length.None? || at + 32 + length.value > |input| then None
      else Some(Blob(input[at + 32..at + 32 + length.value]))
    case TupleType(shapes) =>
      var items := DecTuple(shapes, input, at);
      if items.None? then None else Some(Tuple(items.value))
    case ArrayType(item) =>
      var length := ReadWord(input, at);
      if length.None? then None
      else
        var items := DecArray(item, input, at + 32, length.value);
        if items.None? then None else Some(Array(items.value))
  }

  /** A component whose head is at `head` in a tuple that starts at `base`. */
  function DecItem(s: Shape, input: Bytes, base: nat, head: nat): Option<AbiValue>
    decreases s, 1, 0
  {
    if DynamicType(s) then
      var offset := ReadWord(input, head);
      if offset.None? then None else Dec(s, input, base + offset.value)
    else Dec(s, input, head)
  }

  function DecTuple(shapes: seq<Shape>, input: Bytes, base: nat): Option<seq<AbiValue>>
    decreases shapes, 0, 0
  {
    if shapes == [] then Some([])
    else
      var front := shapes[..|shapes| - 1];
      var items := DecTuple(front, input, base);
      var last := DecItem(shapes[|shapes| - 1], input, base, base + HeadWidth(front));
      if items.None? || last.None? then None else Some(items.value + [last.value])
  }

  function DecArray(s: Shape, input: Bytes, base: nat, count: nat): Option<seq<AbiValue>>
    decreases s, 2, count
  {
    if count == 0 then Some([])
    else
      var items := DecArray(s, input, base, count - 1);
      var last := DecItem(s, input, base, base + (count - 1) * Slot(s));
      if items.None? || last.None? then None else Some(items.value + [last.value])
  }

  // ---- the decoder inverts the encoding -------------------------------------------------

  lemma {:induction false} SameKind(v: AbiValue, s: Shape)
    requires Fits(v, s)
    ensures Dynamic(v) == DynamicType(s)
    decreases v
  {
    match (v, s)
    case (Tuple(items), TupleType(shapes)) =>
      forall i | 0 <= i < |items| ensures Dynamic(items[i]) == DynamicType(shapes[i]) {
        SameKind(items[i], shapes[i]);
      }
    case _ =>
  }

  /** Static components have the size of their type; so a head is as wide as the types say. */
  lemma {:induction false} StaticWidth(v: AbiValue, s: Shape)
    requires Fits(v, s) && !DynamicType(s)
    ensures |Enc(v)| == StaticSize(s)
    decreases v, 1
  {
    match (v, s)
    case (Tuple(items), TupleType(shapes)) =>
      forall i | 0 <= i < |items| ensures !DynamicType(shapes[i]) {
      }
      HeadWidths(items, shapes);
      NoTails(items, shapes);
    case _ =>
  }

  lemma {:induction false} HeadWidths(items: seq<AbiValue>, shapes: seq<Shape>)
    requires |items| == |shapes| && forall i :: 0 <= i < |items| ==> Fits(items[i], shapes[i])
    ensures HeadSize(Parts(items)) == HeadWidth(shapes)
    decreases items, 0
  {
    if items != [] {
      var n := |items| - 1;
      HeadWidths(items[..n], shapes[..n]);
      assert Parts(items)[..n] == Parts(items[..n]);
      SameKind(items[n], shapes[n]);
      if !DynamicType(shapes[n]) {
        StaticWidth(items[n], shapes[n]);
      }
    }
  }

  lemma {:induction false} NoTails(items: seq<AbiValue>, shapes: seq<Shape>)
    requires |items| == |shapes|
    requires forall i :: 0 <= i < |items| ==> Fits(items[i], shapes[i]) && !DynamicType(shapes[i])
    ensures Tails(Parts(items)) == []
  {
    if items != [] {
      var n := |items| - 1;
      NoTails(items[..n], shapes[..n]);
      assert Parts(items)[..n] == Parts(items[..n]);
      SameKind(items[n], shapes[n]);
    }
  }

  /** Decoding by type inverts the encoding, wherever it sits in the input. */
  lemma {:induction false} DecInverse(v: AbiValue, s: Shape, input: Bytes, at: nat)
    requires Fits(v, s) && At(input, at, Enc(v)) && |input| <= U64_MAX
    ensures Dec(s, input, at) == Some(v)
    decreases v, 2
  {
    hide At, ReadWord, ReadWordHex, Pow256, Layout, HeadSize;
    match (v, s)
    case (Atom(w), AtomType) => AtomRead(input, at, w);
    case (Blob(b), BlobType) => BlobRead(input, at, b);
    case (Tuple(items), TupleType(shapes)) =>
      TupleInverse(items, shapes, input, at, |items|);
      assert items[..|items|] == items && shapes[..|shapes|] == shapes;
    case (Array(items), ArrayType(item)) =>
      ArrayRead(input, at, items);
      ArrayInverse(items, item, input, at + 32, |items|);
      assert items[..|items|] == items;
  }

  lemma AtomRead(input: Bytes, at: nat, w: Bytes32)
    requires At(input, at, w)
    ensures ReadWordHex(input, at) == Some(w)
  {
  }

  lemma BlobRead(input: Bytes, at: nat, b: Bytes)
    requires At(input, at, Enc(Blob(b))) && |input| <= U64_MAX
    ensures ReadWord(input, at) == Some(|b|)
    ensures at + 32 + |b| <= |input| && input[at + 32..at + 32 + |b|] == b
  {
    hide Word, ReadWord, Pow256;
    AtSplit(input, at, Word(|b|) + b, Zeros(PaddedLen(|b|) - |b|));
    AtSplit(input, at, Word(|b|), b);
    SmallWord(|b|);
    WordRead(input, at, |b|);
  }

  lemma EncArray(items: seq<AbiValue>)
    ensures Enc(Array(items)) == Word(|items|) + Layout(Parts(items))
  {
    hide Layout, Parts, Word;
  }

  lemma EncTuple(items: seq<AbiValue>)
    ensures Enc(Tuple(items)) == Layout(Parts(items))
  {
    hide Layout, Parts, Word;
  }

  lemma ArrayRead(input: Bytes, at: nat, items: seq<AbiValue>)
    requires At(input, at, Enc(Array(items))) && |items| <= U64_MAX
    ensures At(input, at + 32, Layout(Parts(items)))
    ensures ReadWord(input, at) == Some(|items|)
  {
    hide Enc, Layout, Parts, Word, ReadWord, Pow256, At;
    EncArray(items);
    AtSplit(input, at, Word(|items|), Layout(Parts(items)));
    SmallWord(|items|);
    WordRead(input, at, |items|);
  }

  /** Component `i` decodes from its head, whose place is `head`. */
  lemma {:induction false} ItemInverse(items: seq<AbiValue>, i: nat, s: Shape, input: Bytes, base: nat, head: nat)
    requires i < |items| && Fits(items[i], s)
    requires At(input, base, Layout(Parts(items))) && |input| <= U64_MAX
    requires head == base + HeadSize(Parts(items)[..i])
    ensures DecItem(s, input, base, head) == Some(items[i])
    decreases items[i], 3
  {
    hide At, ReadWord, Layout, HeadSize, OffsetOf, Enc, Dec, Fits;
    var parts := Parts(items);
    ComponentAt(input, base, parts, i);
    SameKind(items[i], s);
    if DynamicType(s) {
      DecInverse(items[i], s, input, base + OffsetOf(parts, i));
    } else {
      DecInverse(items[i], s, input, head);
    }
  }

  lemma {:induction false} TupleInverse(items: seq<AbiValue>, shapes: seq<Shape>, input: Bytes, base: nat, k: nat)
    requires |items| == |shapes| && forall i :: 0 <= i < |items| ==> Fits(items[i], shapes[i])
    requires At(input, base, Layout(Parts(items))) && |input| <= U64_MAX && k <= |items|
    ensures DecTuple(shapes[..k], input, base) == Some(items[..k])
    decreases items, 0, k
  {
    hide At, Layout, HeadSize, HeadWidth, DecItem, Fits;
    if k > 0 {
      var i := k - 1;
      TupleInverse(items, shapes, input, base, i);
      PrefixWidth(items, shapes, i);
      ItemInverse(items, i, shapes[i], input, base, base + HeadWidth(shapes[..i]));
      assert shapes[..k][..i] == shapes[..i] && items[..k] == items[..i] + [items[i]];
    }
  }

  lemma PrefixWidth(items: seq<AbiValue>, shapes: seq<Shape>, i: nat)
    requires |items| == |shapes| && forall i :: 0 <= i < |items| ==> Fits(items[i], shapes[i])
    requires i <= |items|
    ensures HeadSize(Parts(items)[..i]) == HeadWidth(shapes[..i])
  {
    hide Fits, HeadSize, HeadWidth;
    HeadWidths(items[..i], shapes[..i]);
    PartsPrefix(items, i);
  }

  lemma PartsPrefix(items: seq<AbiValue>, i: nat)
    requires i <= |items|
    ensures Parts(items)[..i] == Parts(items[..i])
  {
  }

  lemma {:induction false} ArrayInverse(items: seq<AbiValue>, s: Shape, input: Bytes, base: nat, k: nat)
    requires forall i :: 0 <= i < |items| ==> Fits(items[i], s)
    requires At(input, base, Layout(Parts(items))) && |input| <= U64_MAX && k <= |items|
    ensures DecArray(s, input, base, k) == Some(items[..k])
    decreases items, 0, k
  {
    hide At, Layout, HeadSize, DecItem, Fits;
    if k > 0 {
      var i := k - 1;
      ArrayInverse(items, s, input, base, i);
      EqualWidths(items, s, i);
      ItemInverse(items, i, s, input, base, base + i * Slot(s));
      assert items[..k] == items[..i] + [items[i]];
    }
  }

  lemma {:induction false} EqualWidths(items: seq<AbiValue>, s: Shape, i: nat)
    requires i <= |items| && forall i :: 0 <= i < |items| ==> Fits(items[i], s)
    ensures HeadSize(Parts(items)[..i]) == i * Slot(s)
    decreases i
  {
    hide Fits, Parts, Enc;
    if i > 0 {
      EqualWidths(items, s, i - 1);
      HeadStep(Parts(items), i - 1);
      SameKind(items[i - 1], s);
      if !DynamicType(s) {
        StaticWidth(items[i - 1], s);
      }
      assert i * Slot(s) == (i - 1) * Slot(s) + Slot(s);
    }
  }

  /** Encodings of one type are never confused: equal encodings mean equal values. */
  lemma EncInjective(v: AbiValue, w: AbiValue, s: Shape)
    requires Fits(v, s) && Fits(w, s) && Enc(v) == Enc(w) && |Enc(v)| <= U64_MAX
    ensures v == w
  {
    hide Enc, Dec, Fits;
    assert At(Enc(v), 0, Enc(v));
    DecInverse(v, s, Enc(v), 0);
    DecInverse(w, s, Enc(v), 0);
  }
}
