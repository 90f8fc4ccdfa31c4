/** The independent decoder (scripts/batch_settlement_receipt.ts:329-512) and the proof that it
    inverts the encoder. Hex text is modelled as the bytes it spells. */
module AbiDecoder {
  import opened Wrappers
  import opened Decimal
  import opened HexUtil
  import opened AbiStandard
  import opened Abi

  datatype DecodedClaim = DecodedClaim(config: DecodedConfig, totalClaimed: nat)

  /** The delay is a whole word here: the decoder does not know the field is 40 bits wide. */
  datatype DecodedConfig = DecodedConfig(
    payer: Bytes,
    payerAuthorizer: Bytes,
    receiver: Bytes,
    receiverAuthorizer: Bytes,
    token: Bytes,
    withdrawDelay: nat,
    salt: Bytes)

  function Decoded(c: Config): (d: DecodedConfig)
    ensures d.payer == c.payer && d.payerAuthorizer == c.payerAuthorizer && d.receiver == c.receiver
    ensures d.receiverAuthorizer == c.receiverAuthorizer && d.token == c.token
    ensures d.withdrawDelay == c.withdrawDelay && d.salt == c.salt
  {
    DecodedConfig(c.payer, c.payerAuthorizer, c.receiver, c.receiverAuthorizer, c.token, c.withdrawDelay, c.salt)
  }

  function DecodedClaims(claims: seq<Claim>): (r: seq<DecodedClaim>)
    ensures |r| == |claims|
    ensures forall i :: 0 <= i < |r| ==> r[i] == DecodedClaim(Decoded(claims[i].config), claims[i].totalClaimed)
  {
    seq(|claims|, i requires 0 <= i < |claims| => DecodedClaim(Decoded(claims[i].config), claims[i].totalClaimed))
  }

  // ---- reading ------------------------------------------------------------------------

  function ReadAddress(input: Bytes, offset: nat): Option<Bytes> {
    match ReadWordHex(input, offset)
    case None => None
    case Some(w) => if w[..12] == Zeros(12) then Some(w[12..]) else None
  }

  function ReadChannelConfig(input: Bytes, at: nat): Option<DecodedConfig> {
    var payer, payerAuthorizer := ReadAddress(input, at), ReadAddress(input, at + 32);
    var receiver, receiverAuthorizer := ReadAddress(input, at + 64), ReadAddress(input, at + 96);
    var token, delay, salt := ReadAddress(input, at + 128), ReadWord(input, at + 160), ReadWordHex(input, at + 192);
    if payer.Some? && payerAuthorizer.Some? && receiver.Some? && receiverAuthorizer.Some? && token.Some?
       && delay.Some? && salt.Some?
    then Some(DecodedConfig(payer.value, payerAuthorizer.value, receiver.value, receiverAuthorizer.value,
                            token.value, delay.value, salt.value))
    else None
  }

  function ReadElement(input: Bytes, arrayStart: nat, elementOffset: nat, minimum: nat): Option<Bytes> {
    if elementOffset < minimum then None
    else
      var start := arrayStart + 32 + elementOffset;
      match ReadWord(input, start)
      case None => None
      case Some(length) =>
        if start + 32 + length > |input| then None else Some(input[start + 32..start + 32 + length])
  }

  function ReadClaim(input: Bytes, arrayStart: nat, claimOffset: nat, minimum: nat): Option<DecodedClaim> {
    if claimOffset < minimum then None
    else
      var start := arrayStart + 32 + claimOffset;
      match (ReadChannelConfig(input, start), ReadWord(input, start + 288))
      case (Some(config), Some(total)) => Some(DecodedClaim(config, total))
      case _ => None
  }

  /** multicallElements. */
  method MulticallElements(input: Bytes) returns (r: Option<seq<Bytes>>)
    ensures r == Elements(input)
  {
    hide ReadElement, ReadWord;
    var arrayOffset := ReadWord(input, 4);
    if arrayOffset.None? { return None; }
    var arrayStart := 4 + arrayOffset.value;
    var length := ReadWord(input, arrayStart);
    if length.None? { return None; }
    var elements: seq<Bytes> := [];
    var minimum := 32 * length.value;
    var index := 0;
    while index < length.value
      invariant index <= length.value
      invariant ElementsUpTo(input, arrayStart, index, minimum) == Some(elements)
    {
      var offset := ReadWord(input, arrayStart + 32 + index * 32);
      if offset.None? {
        FailedPrefix(input, arrayStart, index, length.value, minimum);
        return None;
      }
      var element := ReadElement(input, arrayStart, offset.value, minimum);
      if element.None? {
        FailedPrefix(input, arrayStart, index, length.value, minimum);
        return None;
      }
      elements := elements + [element.value];
      index := index + 1;
    }
    r := Some(elements);
  }

  function ElementAt(input: Bytes, arrayStart: nat, index: nat, minimum: nat): Option<Bytes> {
    match ReadWord(input, arrayStart + 32 + index * 32)
    case None => None
    case Some(offset) => ReadElement(input, arrayStart, offset, minimum)
  }

  function ElementsUpTo(input: Bytes, arrayStart: nat, count: nat, minimum: nat): Option<seq<Bytes>> {
    if count == 0 then Some([])
    else
      match (ElementsUpTo(input, arrayStart, count - 1, minimum), ElementAt(input, arrayStart, count - 1, minimum))
      case (Some(front), Some(last)) => Some(front + [last])
      case _ => None
  }

  function Elements(input: Bytes): Option<seq<Bytes>> {
    match ReadWord(input, 4)
    case None => None
    case Some(arrayOffset) =>
      match ReadWord(input, 4 + arrayOffset)
      case None => None
      case Some(length) => ElementsUpTo(input, 4 + arrayOffset, length, 32 * length)
  }

  lemma {:induction false} FailedPrefix(input: Bytes, arrayStart: nat, index: nat, length: nat, minimum: nat)
    requires index < length && ElementAt(input, arrayStart, index, minimum).None?
    ensures ElementsUpTo(input, arrayStart, length, minimum).None?
    decreases length
  {
    if index < length - 1 {
      FailedPrefix(input, arrayStart, index, length - 1, minimum);
    }
  }

  function ClaimAt(input: Bytes, arrayStart: nat, index: nat, minimum: nat): Option<DecodedClaim> {
    match ReadWord(input, arrayStart + 32 + index * 32)
    case None => None
    case Some(offset) => ReadClaim(input, arrayStart, offset, minimum)
  }

  function ClaimsUpTo(input: Bytes, arrayStart: nat, count: nat, minimum: nat): Option<seq<DecodedClaim>> {
    if count == 0 then Some([])
    else
      match (ClaimsUpTo(input, arrayStart, count - 1, minimum), ClaimAt(input, arrayStart, count - 1, minimum))
      case (Some(front), Some(last)) => Some(front + [last])
      case _ => None
  }

  function Claims(input: Bytes): Option<seq<DecodedClaim>> {
    match ReadWord(input, 4)
    case None => None
    case Some(claimsOffset) =>
      match ReadWord(input, 4 + claimsOffset)
      case None => None
      case Some(length) => ClaimsUpTo(input, 4 + claimsOffset, length, 32 * length)
  }

  lemma {:induction false} FailedClaims(input: Bytes, arrayStart: nat, index: nat, length: nat, minimum: nat)
    requires index < length && ClaimAt(input, arrayStart, index, minimum).None?
    ensures ClaimsUpTo(input, arrayStart, length, minimum).None?
    decreases length
  {
    if index < length - 1 {
      FailedClaims(input, arrayStart, index, length - 1, minimum);
    }
  }

  /** claimCalldataClaims. */
  method ClaimCalldataClaims(input: Bytes) returns (r: Option<seq<DecodedClaim>>)
    ensures r == Claims(input)
  {
    hide ReadClaim, ReadWord;
    var claimsOffset := ReadWord(input, 4);
    if claimsOffset.None? { return None; }
    var arrayStart := 4 + claimsOffset.value;
    var length := ReadWord(input, arrayStart);
    if length.None? { return None; }
    var claims: seq<DecodedClaim> := [];
    var minimum := 32 * length.value;
    var index := 0;
    while index < length.value
      invariant index <= length.value
      invariant ClaimsUpTo(input, arrayStart, index, minimum) == Some(claims)
    {
      var offset := ReadWord(input, arrayStart + 32 + index * 32);
      if offset.None? {
        FailedClaims(input, arrayStart, index, length.value, minimum);
        return None;
      }
      var claim := ReadClaim(input, arrayStart, offset.value, minimum);
      if claim.None? {
        FailedClaims(input, arrayStart, index, length.value, minimum);
        return None;
      }
      claims := claims + [claim.value];
      index := index + 1;
    }
    r := Some(claims);
  }

  /** refundCalldataNextNonce, depositCalldataAmount and calldataChannelConfig. */
  function RefundNextNonce(input: Bytes): Option<nat> {
    match ReadWord(input, 4 + 32 * 8)
    case None => None
    case Some(n) => Some(n + 1)
  }

  function DepositAmount(input: Bytes): Option<nat> {
    ReadWord(input, 4 + 32 * 7)
  }

  function CalldataConfig(input: Bytes): Option<DecodedConfig> {
    ReadChannelConfig(input, 4)
  }

  predicate HasSelector(input: Bytes, selector: Bytes)
    requires |selector| == 4
  {
    |input| >= 4 && input[..4] == selector
  }

  // ---- what the readers accept ---------------------------------------------------------

  /** The word at `offset` is the number `n`. */
  predicate Says(input: Bytes, offset: nat, n: nat) {
    offset + 32 <= |input| && BE(input[offset..offset + 32]) == n
  }

  /** The word at `offset` is twelve zero bytes and the address. */
  predicate Names(input: Bytes, offset: nat, a: Bytes) {
    && offset + 32 <= |input|
    && (forall k :: offset <= k < offset + 12 ==> input[k] == 0)
    && a == input[offset + 12..offset + 32]
  }

  predicate ConfigAt(input: Bytes, at: nat, c: DecodedConfig) {
    && Names(input, at, c.payer) && Names(input, at + 32, c.payerAuthorizer)
    && Names(input, at + 64, c.receiver) && Names(input, at + 96, c.receiverAuthorizer)
    && Names(input, at + 128, c.token) && Says(input, at + 160, c.withdrawDelay)
    && at + 224 <= |input| && c.salt == input[at + 192..at + 224]
  }

  function EntryAt(start: nat, i: nat): nat {
    start + 32 + i * 32
  }

  /** Entry `i` of an array of `n` at `start` leads behind the head to the length and the bytes of `e`. */
  ghost predicate ElementIs(input: Bytes, start: nat, n: nat, i: nat, e: Bytes) {
    exists offset: nat :: Says(input, EntryAt(start, i), offset)
      && 32 * n <= offset && Says(input, start + 32 + offset, |e|)
      && start + 64 + offset + |e| <= |input| && e == input[start + 64 + offset..start + 64 + offset + |e|]
  }

  /** Entry `i` leads behind the head to the configuration, and the total ten words in. */
  ghost predicate ClaimIs(input: Bytes, start: nat, n: nat, i: nat, c: DecodedClaim) {
    exists offset: nat :: Says(input, EntryAt(start, i), offset)
      && 32 * n <= offset && ConfigAt(input, start + 32 + offset, c.config)
      && Says(input, start + 320 + offset, c.totalClaimed)
  }

  /** The array at `start` has these elements. */
  ghost predicate Splits(input: Bytes, start: nat, es: seq<Bytes>) {
    Says(input, start, |es|) && forall i :: 0 <= i < |es| ==> ElementIs(input, start, |es|, i, es[i])
  }

  /** The array at `start` has these claims. */
  ghost predicate Lists(input: Bytes, start: nat, cs: seq<DecodedClaim>) {
    Says(input, start, |cs|) && forall i :: 0 <= i < |cs| ==> ClaimIs(input, start, |cs|, i, cs[i])
  }

  lemma WordIs(input: Bytes, offset: nat, n: nat)
    ensures ReadWord(input, offset) == Some(n) <==> Says(input, offset, n)
  {
  }

  lemma WordSome(input: Bytes, offset: nat)
    ensures ReadWord(input, offset).Some? ==> Says(input, offset, ReadWord(input, offset).value)
  {
  }

  lemma AddressIs(input: Bytes, offset: nat, a: Bytes)
    ensures ReadAddress(input, offset) == Some(a) <==> Names(input, offset, a)
  {
    if offset + 32 <= |input| {
      var w := input[offset..offset + 32];
      assert w[12..] == input[offset + 12..offset + 32];
      assert w[..12] == Zeros(12) <==> forall k :: 0 <= k < 12 ==> w[k] == 0;
      assert forall k :: offset <= k < offset + 12 ==> input[k] == w[k - offset];
    }
  }

  lemma ConfigIs(input: Bytes, at: nat, c: DecodedConfig)
    ensures ReadChannelConfig(input, at) == Some(c) <==> ConfigAt(input, at, c)
  {
    hide ReadAddress, ReadWord, Names, Says;
    AddressIs(input, at, c.payer);
    AddressIs(input, at + 32, c.payerAuthorizer);
    AddressIs(input, at + 64, c.receiver);
    AddressIs(input, at + 96, c.receiverAuthorizer);
    AddressIs(input, at + 128, c.token);
    WordIs(input, at + 160, c.withdrawDelay);
  }

  lemma ElementAtIs(input: Bytes, start: nat, n: nat, i: nat, e: Bytes)
    ensures ElementAt(input, start, i, 32 * n) == Some(e) <==> ElementIs(input, start, n, i, e)
  {
    hide ReadWord, Says;
    var entry := EntryAt(start, i);
    WordSome(input, entry);
    if ReadWord(input, entry).Some? {
      var offset := ReadWord(input, entry).value;
      WordIs(input, start + 32 + offset, |e|);
      WordSome(input, start + 32 + offset);
    }
    forall m: nat ensures Says(input, entry, m) ==> ReadWord(input, entry) == Some(m) {
      WordIs(input, entry, m);
    }
  }

  lemma ClaimAtIs(input: Bytes, start: nat, n: nat, i: nat, c: DecodedClaim)
    ensures ClaimAt(input, start, i, 32 * n) == Some(c) <==> ClaimIs(input, start, n, i, c)
  {
    hide ReadWord, ReadChannelConfig, ConfigAt, Says;
    var entry := EntryAt(start, i);
    WordSome(input, entry);
    if ReadWord(input, entry).Some? {
      var offset := ReadWord(input, entry).value;
      ConfigIs(input, start + 32 + offset, c.config);
      WordIs(input, start + 320 + offset, c.totalClaimed);
      WordSome(input, start + 320 + offset);
    }
    forall m: nat ensures Says(input, entry, m) ==> ReadWord(input, entry) == Some(m) {
      WordIs(input, entry, m);
    }
  }

  lemma {:induction false} ElementsUpToIs(input: Bytes, start: nat, n: nat, es: seq<Bytes>)
    ensures ElementsUpTo(input, start, |es|, 32 * n) == Some(es) <==>
      forall i :: 0 <= i < |es| ==> ElementIs(input, start, n, i, es[i])
  {
    hide ElementAt, ElementIs;
    if es != [] {
      var front := es[..|es| - 1];
      ElementsUpToIs(input, start, n, front);
      ElementAtIs(input, start, n, |es| - 1, es[|es| - 1]);
      assert es == front + [es[|es| - 1]];
      assert forall i :: 0 <= i < |front| ==> front[i] == es[i];
    }
  }

  lemma {:induction false} ClaimsUpToIs(input: Bytes, start: nat, n: nat, cs: seq<DecodedClaim>)
    ensures ClaimsUpTo(input, start, |cs|, 32 * n) == Some(cs) <==>
      forall i :: 0 <= i < |cs| ==> ClaimIs(input, start, n, i, cs[i])
  {
    hide ClaimAt, ClaimIs;
    if cs != [] {
      var front := cs[..|cs| - 1];
      ClaimsUpToIs(input, start, n, front);
      ClaimAtIs(input, start, n, |cs| - 1, cs[|cs| - 1]);
      assert cs == front + [cs[|cs| - 1]];
      assert forall i :: 0 <= i < |front| ==> front[i] == cs[i];
    }
  }

  lemma {:induction false} ElementsCount(input: Bytes, start: nat, count: nat, minimum: nat)
    ensures var r := ElementsUpTo(input, start, count, minimum); r.Some? ==> |r.value| == count
  {
    if count > 0 {
      ElementsCount(input, start, count - 1, minimum);
    }
  }

  lemma {:induction false} ClaimsCount(input: Bytes, start: nat, count: nat, minimum: nat)
    ensures var r := ClaimsUpTo(input, start, count, minimum); r.Some? ==> |r.value| == count
  {
    if count > 0 {
      ClaimsCount(input, start, count - 1, minimum);
    }
  }

  /** Any input, well formed or not: it splits into `es` if and only if its array has that many entries and
      every one of them leads to its bytes. */
  lemma ElementsIff(input: Bytes, es: seq<Bytes>)
    ensures Elements(input) == Some(es) <==>
      exists at: nat :: Says(input, 4, at) && Splits(input, 4 + at, es)
  {
    hide ReadWord, ElementsUpTo, ElementIs;
    forall offset: nat, m: nat ensures ReadWord(input, offset) == Some(m) <==> Says(input, offset, m) {
      WordIs(input, offset, m);
    }
    hide Says;
    WordSome(input, 4);
    if Elements(input) == Some(es) {
      var at := ReadWord(input, 4).value;
      ElementsCount(input, 4 + at, ReadWord(input, 4 + at).value, 32 * ReadWord(input, 4 + at).value);
      ElementsUpToIs(input, 4 + at, |es|, es);
    }
    if at: nat :| Says(input, 4, at) && Splits(input, 4 + at, es) {
      ElementsUpToIs(input, 4 + at, |es|, es);
    }
  }

  /** And it decodes to these claims if and only if every entry leads to its configuration and total. */
  lemma ClaimsIff(input: Bytes, cs: seq<DecodedClaim>)
    ensures Claims(input) == Some(cs) <==>
      exists at: nat :: Says(input, 4, at) && Lists(input, 4 + at, cs)
  {
    hide ReadWord, ClaimsUpTo, ClaimIs;
    forall offset: nat, m: nat ensures ReadWord(input, offset) == Some(m) <==> Says(input, offset, m) {
      WordIs(input, offset, m);
    }
    hide Says;
    WordSome(input, 4);
    if Claims(input) == Some(cs) {
      var at := ReadWord(input, 4).value;
      ClaimsCount(input, 4 + at, ReadWord(input, 4 + at).value, 32 * ReadWord(input, 4 + at).value);
      ClaimsUpToIs(input, 4 + at, |cs|, cs);
    }
    if at: nat :| Says(input, 4, at) && Lists(input, 4 + at, cs) {
      ClaimsUpToIs(input, 4 + at, |cs|, cs);
    }
  }

  // ---- what sits where ----------------------------------------------------------------

  lemma AtSplit3(input: Bytes, offset: nat, a: Bytes, b: Bytes, c: Bytes, second: nat, third: nat)
    requires At(input, offset, a + b + c) && second == offset + |a| && third == second + |b|
    ensures At(input, offset, a) && At(input, second, b) && At(input, third, c)
  {
    hide At;
    AtSplit(input, offset, a + b, c);
    AtSplit(input, offset, a, b);
  }

  lemma AtStart(input: Bytes, a: Bytes, b: Bytes)
    requires input == a + b
    ensures At(input, 0, a) && At(input, |a|, b)
  {
  }

  lemma AddressRead(input: Bytes, offset: nat, a: Address)
    requires At(input, offset, AddressWord(a))
    ensures ReadAddress(input, offset) == Some(a)
  {
    assert AddressWord(a)[..12] == Zeros(12) && AddressWord(a)[12..] == a;
  }

  lemma ConfigRead(input: Bytes, at: nat, c: Config)
    requires At(input, at, ConfigWords(c))
    ensures ReadChannelConfig(input, at) == Some(Decoded(c))
  {
    ConfigPieces(input, at, c);
    hide At, AddressWord, Word, ReadAddress, ReadWord;
    AddressRead(input, at, c.payer);
    AddressRead(input, at + 32, c.payerAuthorizer);
    AddressRead(input, at + 64, c.receiver);
    AddressRead(input, at + 96, c.receiverAuthorizer);
    AddressRead(input, at + 128, c.token);
    SmallWord(c.withdrawDelay);
    WordRead(input, at + 160, c.withdrawDelay);
    SaltRead(input, at + 192, c.salt);
  }

  lemma SaltRead(input: Bytes, offset: nat, salt: Bytes32)
    requires At(input, offset, salt)
    ensures ReadWordHex(input, offset) == Some(salt)
  {
  }

  lemma ConfigPieces(input: Bytes, at: nat, c: Config)
    requires At(input, at, ConfigWords(c))
    ensures At(input, at, AddressWord(c.payer)) && At(input, at + 32, AddressWord(c.payerAuthorizer))
    ensures At(input, at + 64, AddressWord(c.receiver)) && At(input, at + 96, AddressWord(c.receiverAuthorizer))
    ensures At(input, at + 128, AddressWord(c.token)) && At(input, at + 160, Word(c.withdrawDelay))
    ensures At(input, at + 192, c.salt)
  {
    hide At, AddressWord, Word;
    var p1 := AddressWord(c.payer);
    var p2 := p1 + AddressWord(c.payerAuthorizer);
    var p3 := p2 + AddressWord(c.receiver);
    var p4 := p3 + AddressWord(c.receiverAuthorizer);
    var p5 := p4 + AddressWord(c.token);
    var p6 := p5 + Word(c.withdrawDelay);
    AtSplit(input, at, p6, c.salt);
    AtSplit(input, at, p5, Word(c.withdrawDelay));
    AtSplit(input, at, p4, AddressWord(c.token));
    AtSplit(input, at, p3, AddressWord(c.receiverAuthorizer));
    AtSplit(input, at, p2, AddressWord(c.receiver));
    AtSplit(input, at, p1, AddressWord(c.payerAuthorizer));
  }

  // ---- arrays of dynamic items ---------------------------------------------------------

  lemma {:induction false} OffsetAt(input: Bytes, at: nat, tails: seq<Bytes>, start: nat, i: nat)
    requires At(input, at, Offsets(tails, start)) && i < |tails|
    ensures At(input, at + i * 32, Word(start + Size(tails[..i])))
    decreases |tails|
  {
    hide At, Word;
    var n := |tails| - 1;
    var front := tails[..n];
    AtSplit(input, at, Offsets(front, start), Word(start + Size(front)));
    if i < n {
      OffsetAt(input, at, front, start, i);
      assert front[..i] == tails[..i];
    }
  }

  lemma {:induction false} ItemAt(input: Bytes, at: nat, tails: seq<Bytes>, i: nat)
    requires At(input, at, Concat(tails)) && i < |tails|
    ensures At(input, at + Size(tails[..i]), tails[i])
    decreases |tails|
  {
    hide At;
    var n := |tails| - 1;
    var front := tails[..n];
    AtSplit(input, at, Concat(front), tails[n]);
    if i < n {
      ItemAt(input, at, front, i);
      assert front[..i] == tails[..i];
    }
  }

  lemma {:induction false} SizeMonotone(tails: seq<Bytes>, i: nat)
    requires i <= |tails|
    ensures Size(tails[..i]) <= Size(tails)
    decreases |tails|
  {
    if i == |tails| {
      assert tails[..i] == tails;
    } else {
      var front := tails[..|tails| - 1];
      SizeMonotone(front, i);
      assert front[..i] == tails[..i];
    }
  }

  /** Every offset word of an encoded array reads back, points behind the head, and finds its
      item inside the input. */
  lemma ArrayItem(input: Bytes, start: nat, tails: seq<Bytes>, i: nat)
    requires At(input, start, DynArray(tails)) && i < |tails| && |input| <= U64_MAX
    ensures ReadWord(input, start) == Some(|tails|)
    ensures var offset := 32 * |tails| + Size(tails[..i]);
      && ReadWord(input, start + 32 + i * 32) == Some(offset)
      && offset >= 32 * |tails|
      && At(input, start + 32 + offset, tails[i])
  {
    hide At, Word, Offsets, Concat, Size, ReadWord, Pow256, DynArray;
    ArrayParts(input, start, tails);
    SizeMonotone(tails, i);
    OffsetAt(input, start + 32, tails, 32 * |tails|, i);
    ItemAt(input, BodyAt(start, |tails|), tails, i);
    SmallWord(32 * |tails| + Size(tails[..i]));
    WordRead(input, start + 32 + i * 32, 32 * |tails| + Size(tails[..i]));
  }

  /** Where the items of an array of `n` start: behind its length and its head. */
  function BodyAt(start: nat, n: nat): nat {
    start + 32 + 32 * n
  }

  lemma ArrayParts(input: Bytes, start: nat, tails: seq<Bytes>)
    requires At(input, start, DynArray(tails)) && |input| <= U64_MAX
    ensures ReadWord(input, start) == Some(|tails|)
    ensures At(input, start + 32, Offsets(tails, 32 * |tails|))
    ensures At(input, BodyAt(start, |tails|), Concat(tails))
    ensures 32 * |tails| + Size(tails) <= U64_MAX
  {
    hide *;
    AtFits(input, start, DynArray(tails));
    DynArrayShape(tails);
    CountFits(|tails|, Size(tails));
    ArrayPieces(input, start, |tails|, Word(|tails|), Offsets(tails, 32 * |tails|), Concat(tails));
    SmallWord(|tails|);
    WordRead(input, start, |tails|);
  }

  lemma ArrayPieces(input: Bytes, start: nat, n: nat, length: Bytes, offsets: Bytes, items: Bytes)
    requires At(input, start, length + offsets + items)
    requires |length| == 32 && |offsets| == 32 * n
    ensures At(input, start, length) && At(input, start + 32, offsets) && At(input, BodyAt(start, n), items)
  {
    hide At;
    AtSplit3(input, start, length, offsets, items, start + 32, BodyAt(start, n));
  }

  lemma CountFits(count: nat, size: nat)
    requires 32 * count + size <= U64_MAX
    ensures count <= U128_MAX
  {
  }

  lemma DynArrayShape(tails: seq<Bytes>)
    ensures DynArray(tails) == Word(|tails|) + Offsets(tails, 32 * |tails|) + Concat(tails)
    ensures |DynArray(tails)| == 32 + 32 * |tails| + Size(tails)
    ensures |Word(|tails|)| == 32 && |Offsets(tails, 32 * |tails|)| == 32 * |tails|
  {
  }

  lemma DynBytesRead(input: Bytes, start: nat, b: Bytes)
    requires At(input, start, DynBytes(b)) && |input| <= U64_MAX
    ensures ReadWord(input, start) == Some(|b|)
    ensures start + 32 + |b| <= |input| && input[start + 32..start + 32 + |b|] == b
  {
    var pad := Zeros(PaddedLen(|b|) - |b|);
    AtSplit(input, start, Word(|b|) + b, pad);
    AtSplit(input, start, Word(|b|), b);
    SmallWord(|b|);
    WordRead(input, start, |b|);
  }

  lemma {:induction false} ElementsRead(input: Bytes, start: nat, items: seq<Bytes>, count: nat)
    requires At(input, start, DynArray(DynItems(items))) && count <= |items| && |input| <= U64_MAX
    ensures ElementsUpTo(input, start, count, 32 * |items|) == Some(items[..count])
  {
    hide At, DynArray, DynBytes, ReadWord;
    if count > 0 {
      var i := count - 1;
      ElementsRead(input, start, items, i);
      var tails := DynItems(items);
      ArrayItem(input, start, tails, i);
      DynBytesRead(input, start + 32 + 32 * |tails| + Size(tails[..i]), items[i]);
      assert items[..count] == items[..i] + [items[i]];
    }
  }

  lemma ClaimFound(input: Bytes, start: nat, c: Claim)
    requires At(input, start, ClaimTuple(c)) && |input| <= U64_MAX
    ensures ReadChannelConfig(input, start) == Some(Decoded(c.config))
    ensures ReadWord(input, start + 288) == Some(c.totalClaimed)
  {
    hide At, ConfigWords, Word, DynBytes, ReadWord, ReadChannelConfig;
    var head := ConfigWords(c.config) + Word(c.maxClaimable) + Word(320);
    AtSplit(input, start, head + Word(c.totalClaimed), DynBytes(c.signature));
    AtSplit(input, start, head, Word(c.totalClaimed));
    AtSplit(input, start, ConfigWords(c.config) + Word(c.maxClaimable), Word(320));
    AtSplit(input, start, ConfigWords(c.config), Word(c.maxClaimable));
    ConfigRead(input, start, c.config);
    SmallWord(c.totalClaimed);
    WordRead(input, start + 288, c.totalClaimed);
  }

  lemma {:induction false} ClaimsRead(input: Bytes, start: nat, claims: seq<Claim>, count: nat)
    requires At(input, start, DynArray(ClaimTuples(claims))) && count <= |claims| && |input| <= U64_MAX
    ensures ClaimsUpTo(input, start, count, 32 * |claims|) == Some(DecodedClaims(claims)[..count])
  {
    hide At, DynArray, ClaimTuple, ReadWord, ReadChannelConfig;
    if count > 0 {
      var i := count - 1;
      ClaimsRead(input, start, claims, i);
      var tails := ClaimTuples(claims);
      ArrayItem(input, start, tails, i);
      ClaimFound(input, start + 32 + 32 * |tails| + Size(tails[..i]), claims[i]);
      assert DecodedClaims(claims)[..count] == DecodedClaims(claims)[..i] + [DecodedClaims(claims)[i]];
    }
  }

  // ---- round trips ---------------------------------------------------------------------

  /** Decoding an encoded claim call returns the same configs and totals in the same order, for any
      number of claims and any signature lengths. */
  lemma ClaimCallRoundTrip(claims: seq<Claim>, signature: Bytes)
    requires |ClaimCall(claims, signature)| <= U64_MAX
    ensures Claims(ClaimCall(claims, signature)) == Some(DecodedClaims(claims))
  {
    var input := ClaimCall(claims, signature);
    ClaimCallArray(claims, signature);
    hide ClaimCall, At, DynArray, ReadWord;
    ArrayParts(input, 4 + 64, ClaimTuples(claims));
    ClaimsRead(input, 4 + 64, claims, |claims|);
    assert DecodedClaims(claims)[..|claims|] == DecodedClaims(claims);
  }

  lemma ClaimCallArray(claims: seq<Claim>, signature: Bytes)
    ensures var input := ClaimCall(claims, signature);
      && HasSelector(input, CLAIM_SELECTOR)
      && ReadWord(input, 4) == Some(64)
      && At(input, 4 + 64, DynArray(ClaimTuples(claims)))
  {
    hide ClaimCall, DynArray, ClaimTuples, DynBytes, Word, ReadWord, At;
    ClaimCallLayout(claims, signature);
    var input := ClaimCall(claims, signature);
    var data := DynArray(ClaimTuples(claims));
    var head := CLAIM_SELECTOR + Word(64) + Word(64 + |data|);
    AtStart(input, head + data, DynBytes(signature));
    AtSplit(input, 0, head, data);
    AtSplit(input, 0, CLAIM_SELECTOR + Word(64), Word(64 + |data|));
    AtSplit(input, 0, CLAIM_SELECTOR, Word(64));
    SmallWord(64);
    WordRead(input, 4, 64);
    SelectorAt(input, CLAIM_SELECTOR);
  }

  lemma SelectorAt(input: Bytes, selector: Bytes)
    requires |selector| == 4 && At(input, 0, selector)
    ensures HasSelector(input, selector)
  {
    assert input[..4] == input[0..4];
  }

  /** Splitting an encoded multicall gives back exactly the calls, whatever they contain. */
  lemma MulticallRoundTrip(calls: seq<Bytes>)
    requires |Multicall(calls)| <= U64_MAX
    ensures HasSelector(Multicall(calls), MULTICALL_SELECTOR)
    ensures Elements(Multicall(calls)) == Some(calls)
  {
    var input := Multicall(calls);
    MulticallArray(calls);
    hide Multicall, At, DynArray, ReadWord;
    ArrayParts(input, 4 + 32, DynItems(calls));
    ElementsRead(input, 4 + 32, calls, |calls|);
    assert calls[..|calls|] == calls;
  }

  lemma MulticallArray(calls: seq<Bytes>)
    ensures var input := Multicall(calls);
      && HasSelector(input, MULTICALL_SELECTOR)
      && ReadWord(input, 4) == Some(32)
      && At(input, 4 + 32, DynArray(DynItems(calls)))
  {
    hide Multicall, DynArray, DynItems, Word, ReadWord, At;
    MulticallLayout(calls);
    var input := Multicall(calls);
    AtStart(input, MULTICALL_SELECTOR + Word(32), DynArray(DynItems(calls)));
    AtSplit(input, 0, MULTICALL_SELECTOR, Word(32));
    SmallWord(32);
    WordRead(input, 4, 32);
    SelectorAt(input, MULTICALL_SELECTOR);
  }

  /** A refund call decodes to its config and to the nonce that follows the one it carries. */
  lemma RefundCallRoundTrip(c: Config, amount: u128, nonce: nat, signature: Bytes)
    requires nonce < Pow256(32)
    ensures var input := RefundCall(c, amount, nonce, signature);
      && HasSelector(input, REFUND_SELECTOR)
      && CalldataConfig(input) == Some(Decoded(c))
      && RefundNextNonce(input) == Some(nonce + 1)
  {
    hide RefundCall, ConfigWords, Word, DynBytes, ReadWord, At, ReadChannelConfig;
    RefundCallLayout(c, amount, nonce, signature);
    var input := RefundCall(c, amount, nonce, signature);
    var h1 := REFUND_SELECTOR + ConfigWords(c);
    var h2 := h1 + Word(amount);
    var h3 := h2 + Word(nonce);
    AtStart(input, h3 + Word(320), DynBytes(signature));
    AtSplit(input, 0, h3, Word(320));
    AtSplit(input, 0, h2, Word(nonce));
    AtSplit(input, 0, h1, Word(amount));
    AtSplit(input, 0, REFUND_SELECTOR, ConfigWords(c));
    ConfigRead(input, 4, c);
    WordRead(input, 4 + 32 * 8, nonce);
    SelectorAt(input, REFUND_SELECTOR);
  }

  /** A deposit call decodes to its config and amount. */
  lemma DepositCallRoundTrip(c: Config, amount: u128, collector: Address, data: Bytes)
    ensures var input := DepositCall(c, amount, collector, data);
      && HasSelector(input, DEPOSIT_SELECTOR)
      && CalldataConfig(input) == Some(Decoded(c))
      && DepositAmount(input) == Some(amount)
  {
    hide DepositCall, ConfigWords, Word, DynBytes, ReadWord, At, ReadChannelConfig, AddressWord;
    DepositCallLayout(c, amount, collector, data);
    var input := DepositCall(c, amount, collector, data);
    var h1 := DEPOSIT_SELECTOR + ConfigWords(c);
    var h2 := h1 + Word(amount);
    var h3 := h2 + AddressWord(collector);
    AtStart(input, h3 + Word(320), DynBytes(data));
    AtSplit(input, 0, h3, Word(320));
    AtSplit(input, 0, h2, AddressWord(collector));
    AtSplit(input, 0, h1, Word(amount));
    AtSplit(input, 0, DEPOSIT_SELECTOR, ConfigWords(c));
    ConfigRead(input, 4, c);
    SmallWord(amount);
    WordRead(input, 4 + 32 * 7, amount);
    SelectorAt(input, DEPOSIT_SELECTOR);
  }
}
