/** Calldata of the batch settlement contract (rust/facilitator/src/tx.rs): its arguments as typed
    values, their byte layout, and the encoders that grow a byte vector. */
module Abi {
  import opened Decimal
  import opened HexUtil
  import opened AbiStandard

  type u64 = x: nat | x <= U64_MAX
  type u128 = x: nat | x <= U128_MAX
  type Address = s: seq<byte> | |s| == 20 witness Zeros(20)

  /** The delay is a `uint40` to the contract and 64 bits wide to the encoder, which prints it whole. */
  datatype Config = Config(
    payer: Address,
    payerAuthorizer: Address,
    receiver: Address,
    receiverAuthorizer: Address,
    token: Address,
    withdrawDelay: u64,
    salt: Bytes32)

  datatype Claim = Claim(config: Config, maxClaimable: u128, signature: Bytes, totalClaimed: u128)

  const CLAIM_SELECTOR: Bytes := [0xe4, 0x3c, 0xe1, 0xf2]
  const DEPOSIT_SELECTOR: Bytes := [0x14, 0x0f, 0x1e, 0x75]
  const MULTICALL_SELECTOR: Bytes := [0xac, 0x96, 0x50, 0xd8]
  const REFUND_SELECTOR: Bytes := [0xb7, 0x74, 0x33, 0xe9]

  // ---- the arguments as values of the standard's types ---------------------------------

  function AddressWord(a: Address): (w: Bytes32) {
    Zeros(12) + a
  }

  function Number(n: nat): AbiValue {
    Atom(Word(n))
  }

  function Account(a: Address): AbiValue {
    Atom(AddressWord(a))
  }

  /** (address,address,address,address,address,uint40,bytes32) */
  function ConfigValue(c: Config): AbiValue {
    Tuple([Account(c.payer), Account(c.payerAuthorizer), Account(c.receiver), Account(c.receiverAuthorizer),
           Account(c.token), Number(c.withdrawDelay), Atom(c.salt)])
  }

  /** ((config,uint128),bytes,uint128) */
  function ClaimValue(c: Claim): AbiValue {
    Tuple([Tuple([ConfigValue(c.config), Number(c.maxClaimable)]), Blob(c.signature), Number(c.totalClaimed)])
  }

  function ClaimValues(claims: seq<Claim>): (r: seq<AbiValue>)
    ensures |r| == |claims|
    ensures forall i :: 0 <= i < |r| ==> r[i] == ClaimValue(claims[i])
  {
    seq(|claims|, i requires 0 <= i < |claims| => ClaimValue(claims[i]))
  }

  function Blobs(items: seq<Bytes>): (r: seq<AbiValue>)
    ensures |r| == |items|
    ensures forall i :: 0 <= i < |r| ==> r[i] == Blob(items[i])
  {
    seq(|items|, i requires 0 <= i < |items| => Blob(items[i]))
  }

  function ClaimArgs(claims: seq<Claim>, signature: Bytes): AbiValue {
    Tuple([Array(ClaimValues(claims)), Blob(signature)])
  }

  function RefundArgs(c: Config, amount: u128, nonce: nat, signature: Bytes): AbiValue {
    Tuple([ConfigValue(c), Number(amount), Number(nonce), Blob(signature)])
  }

  function DepositArgs(c: Config, amount: u128, collector: Address, data: Bytes): AbiValue {
    Tuple([ConfigValue(c), Number(amount), Account(collector), Blob(data)])
  }

  function MulticallArgs(calls: seq<Bytes>): AbiValue {
    Tuple([Array(Blobs(calls))])
  }

  /** (uint256,uint256,bytes32,bytes): what a token transfer authorization carries. */
  function CollectorValue(validAfter: Bytes32, validBefore: Bytes32, salt: Bytes32, signature: Bytes): AbiValue {
    Tuple([Atom(validAfter), Atom(validBefore), Atom(salt), Blob(signature)])
  }

  function ClaimCall(claims: seq<Claim>, signature: Bytes): Bytes {
    CLAIM_SELECTOR + Enc(ClaimArgs(claims, signature))
  }

  function RefundCall(c: Config, amount: u128, nonce: nat, signature: Bytes): Bytes {
    REFUND_SELECTOR + Enc(RefundArgs(c, amount, nonce, signature))
  }

  function DepositCall(c: Config, amount: u128, collector: Address, data: Bytes): Bytes {
    DEPOSIT_SELECTOR + Enc(DepositArgs(c, amount, collector, data))
  }

  function Multicall(calls: seq<Bytes>): Bytes {
    MULTICALL_SELECTOR + Enc(MulticallArgs(calls))
  }

  /** A bare refund call without claims, otherwise the claim call and then the refund call. */
  function RefundCalldata(c: Config, amount: u128, nonce: nat, signature: Bytes, claims: seq<Claim>,
                          claimSignature: Bytes): Bytes
  {
    var refund := RefundCall(c, amount, nonce, signature);
    if claims == [] then refund else Multicall([ClaimCall(claims, claimSignature), refund])
  }

  // ---- the layout of these values ------------------------------------------------------

  function ConfigWords(c: Config): (w: Bytes)
    ensures |w| == 224
  {
    AddressWord(c.payer) + AddressWord(c.payerAuthorizer) + AddressWord(c.receiver)
    + AddressWord(c.receiverAuthorizer) + AddressWord(c.token) + Word(c.withdrawDelay) + c.salt
  }

  function DynBytes(b: Bytes): (r: Bytes)
    ensures |r| == 32 + PaddedLen(|b|)
  {
    Word(|b|) + b + Zeros(PaddedLen(|b|) - |b|)
  }

  function ClaimTuple(c: Claim): (r: Bytes)
    ensures |r| == 320 + |DynBytes(c.signature)|
  {
    ConfigWords(c.config) + Word(c.maxClaimable) + Word(320) + Word(c.totalClaimed) + DynBytes(c.signature)
  }

  function ClaimTuples(claims: seq<Claim>): (r: seq<Bytes>)
    ensures |r| == |claims|
    ensures forall i :: 0 <= i < |r| ==> r[i] == ClaimTuple(claims[i])
  {
    seq(|claims|, i requires 0 <= i < |claims| => ClaimTuple(claims[i]))
  }

  function DynItems(items: seq<Bytes>): (r: seq<Bytes>)
    ensures |r| == |items|
    ensures forall i :: 0 <= i < |r| ==> r[i] == DynBytes(items[i])
  {
    seq(|items|, i requires 0 <= i < |items| => DynBytes(items[i]))
  }

  function Size(tails: seq<Bytes>): nat {
    if tails == [] then 0 else Size(tails[..|tails| - 1]) + |tails[|tails| - 1]|
  }

  function Concat(tails: seq<Bytes>): (r: Bytes)
    ensures |r| == Size(tails)
  {
    if tails == [] then [] else Concat(tails[..|tails| - 1]) + tails[|tails| - 1]
  }

  /** One offset word per tail; the first tail starts `start` bytes after the head's origin. */
  function Offsets(tails: seq<Bytes>, start: nat): (r: Bytes)
    ensures |r| == 32 * |tails|
  {
    if tails == [] then []
    else Offsets(tails[..|tails| - 1], start) + Word(start + Size(tails[..|tails| - 1]))
  }

  function DynArray(tails: seq<Bytes>): (r: Bytes)
    ensures |r| == 32 + 32 * |tails| + Size(tails)
  {
    Word(|tails|) + Offsets(tails, 32 * |tails|) + Concat(tails)
  }

  lemma {:induction false} StaticHeads(items: seq<AbiValue>, start: nat)
    requires forall i :: 0 <= i < |items| ==> !Dynamic(items[i])
    ensures Tails(Parts(items)) == [] && Heads(Parts(items), start) == Concat(Encs(items))
  {
    hide Enc, Dynamic;
    if items != [] {
      var n := |items| - 1;
      StaticHeads(items[..n], start);
      assert Parts(items)[..n] == Parts(items[..n]) && Encs(items)[..n] == Encs(items[..n]);
    }
  }

  /** A tuple of static components is their concatenation. */
  lemma StaticLayout(items: seq<AbiValue>)
    requires forall i :: 0 <= i < |items| ==> !Dynamic(items[i])
    ensures Layout(Parts(items)) == Concat(Encs(items))
  {
    hide Heads, Tails, HeadSize, Dynamic, Concat;
    StaticHeads(items, HeadSize(Parts(items)));
  }

  function Encs(items: seq<AbiValue>): (r: seq<Bytes>)
    ensures |r| == |items|
    ensures forall i :: 0 <= i < |r| ==> r[i] == Enc(items[i])
  {
    seq(|items|, i requires 0 <= i < |items| => Enc(items[i]))
  }

  lemma ConfigLayout(c: Config)
    ensures Enc(ConfigValue(c)) == ConfigWords(c) && !Dynamic(ConfigValue(c))
  {
    hide AddressWord, Word, Enc;
    var items := [Account(c.payer), Account(c.payerAuthorizer), Account(c.receiver), Account(c.receiverAuthorizer),
                  Account(c.token), Number(c.withdrawDelay), Atom(c.salt)];
    EncTuple(items);
    AtomsEnc();
    StaticLayout(items);
    assert Encs(items) == [AddressWord(c.payer), AddressWord(c.payerAuthorizer), AddressWord(c.receiver),
                           AddressWord(c.receiverAuthorizer), AddressWord(c.token), Word(c.withdrawDelay), c.salt];
    SevenConcat(AddressWord(c.payer), AddressWord(c.payerAuthorizer), AddressWord(c.receiver),
                AddressWord(c.receiverAuthorizer), AddressWord(c.token), Word(c.withdrawDelay), c.salt);
  }

  lemma AtomsEnc()
    ensures forall w: Bytes32 :: Enc(Atom(w)) == w && !Dynamic(Atom(w))
  {
  }

  lemma SevenConcat(a: Bytes, b: Bytes, c: Bytes, d: Bytes, e: Bytes, f: Bytes, g: Bytes)
    ensures Concat([a, b, c, d, e, f, g]) == a + b + c + d + e + f + g
  {
    ConcatSnoc([], a);
    ConcatSnoc([a], b);
    ConcatSnoc([a, b], c);
    ConcatSnoc([a, b, c], d);
    ConcatSnoc([a, b, c, d], e);
    ConcatSnoc([a, b, c, d, e], f);
    ConcatSnoc([a, b, c, d, e, f], g);
    hide Concat;
    assert [] + [a] == [a] && [a] + [b] == [a, b] && [a, b] + [c] == [a, b, c] && [a, b, c] + [d] == [a, b, c, d];
    assert [a, b, c, d] + [e] == [a, b, c, d, e] && [a, b, c, d, e] + [f] == [a, b, c, d, e, f];
    assert [a, b, c, d, e, f] + [g] == [a, b, c, d, e, f, g];
  }

  lemma ConcatSnoc(tails: seq<Bytes>, t: Bytes)
    ensures Concat(tails + [t]) == Concat(tails) + t && Concat([]) == []
  {
    assert (tails + [t])[..|tails|] == tails;
  }

  /** One more component: its head after the heads, its tail after the tails. */
  lemma LayoutSnoc(parts: seq<Part>, p: Part, start: nat)
    ensures Heads(parts + [p], start) == Heads(parts, start) + HeadOf(p, start + |Tails(parts)|)
    ensures Tails(parts + [p]) == Tails(parts) + TailOf(p)
    ensures HeadSize(parts + [p]) == HeadSize(parts) + Width(p)
    ensures Heads([], start) == [] && Tails([]) == [] && HeadSize([]) == 0
  {
    assert (parts + [p])[..|parts|] == parts;
  }

  lemma PairLayout(a: Part, b: Part)
    ensures var start := Width(a) + Width(b);
      Layout([a, b]) == HeadOf(a, start) + HeadOf(b, start + |TailOf(a)|) + (TailOf(a) + TailOf(b))
  {
    hide Heads, Tails, HeadSize, HeadOf, TailOf, Width;
    var start := Width(a) + Width(b);
    LayoutSnoc([], a, start);
    LayoutSnoc([a], b, start);
    assert [] + [a] == [a] && [a] + [b] == [a, b];
  }

  lemma TripleLayout(a: Part, b: Part, c: Part)
    ensures var start := Width(a) + Width(b) + Width(c);
      Layout([a, b, c]) ==
        HeadOf(a, start) + HeadOf(b, start + |TailOf(a)|) + HeadOf(c, start + |TailOf(a) + TailOf(b)|)
        + (TailOf(a) + TailOf(b) + TailOf(c))
  {
    hide Heads, Tails, HeadSize, HeadOf, TailOf, Width;
    var start := Width(a) + Width(b) + Width(c);
    LayoutSnoc([], a, start);
    LayoutSnoc([a], b, start);
    LayoutSnoc([a, b], c, start);
    assert [] + [a] == [a] && [a] + [b] == [a, b] && [a, b] + [c] == [a, b, c];
  }

  lemma QuadLayout(a: Part, b: Part, c: Part, d: Part)
    requires !a.dynamic && !b.dynamic && !c.dynamic && d.dynamic
    ensures Layout([a, b, c, d]) == a.enc + b.enc + c.enc + Word(|a.enc| + |b.enc| + |c.enc| + 32) + d.enc
  {
    hide Heads, Tails, HeadSize, Word;
    var start := |a.enc| + |b.enc| + |c.enc| + 32;
    assert Heads([a, b, c], start) == a.enc + b.enc + c.enc && Tails([a, b, c]) == []
      && HeadSize([a, b, c]) == |a.enc| + |b.enc| + |c.enc| by
    {
      LayoutSnoc([], a, start);
      LayoutSnoc([a], b, start);
      LayoutSnoc([a, b], c, start);
      assert [] + [a] == [a] && [a] + [b] == [a, b] && [a, b] + [c] == [a, b, c];
    }
    LayoutSnoc([a, b, c], d, start);
    assert [a, b, c] + [d] == [a, b, c, d];
  }

  lemma PartsOf(items: seq<AbiValue>, parts: seq<Part>)
    requires |parts| == |items| && forall i :: 0 <= i < |items| ==> parts[i] == Part(Dynamic(items[i]), Enc(items[i]))
    ensures Parts(items) == parts
  {
    hide Dynamic, Enc;
  }

  lemma BlobLayout(b: Bytes)
    ensures Enc(Blob(b)) == DynBytes(b) && Dynamic(Blob(b))
  {
    hide Word;
  }

  lemma ClaimLayout(c: Claim)
    ensures Enc(ClaimValue(c)) == ClaimTuple(c) && Dynamic(ClaimValue(c))
  {
    hide ConfigWords, DynBytes, Word, Enc, ConfigValue;
    var voucher := Tuple([ConfigValue(c.config), Number(c.maxClaimable)]);
    var items := [voucher, Blob(c.signature), Number(c.totalClaimed)];
    VoucherLayout(c);
    BlobLayout(c.signature);
    AtomsEnc();
    EncTuple(items);
    var a, b, d := Part(false, Enc(voucher)), Part(true, DynBytes(c.signature)), Part(false, Word(c.totalClaimed));
    PartsOf(items, [a, b, d]);
    TripleLayout(a, b, d);
    assert Dynamic(items[1]);
  }

  lemma VoucherLayout(c: Claim)
    ensures var voucher := Tuple([ConfigValue(c.config), Number(c.maxClaimable)]);
      Enc(voucher) == ConfigWords(c.config) + Word(c.maxClaimable) && !Dynamic(voucher)
  {
    hide ConfigWords, Word, Enc, ConfigValue;
    var items := [ConfigValue(c.config), Number(c.maxClaimable)];
    ConfigLayout(c.config);
    AtomsEnc();
    EncTuple(items);
    var a, b := Part(false, ConfigWords(c.config)), Part(false, Word(c.maxClaimable));
    PartsOf(items, [a, b]);
    PairLayout(a, b);
  }

  /** Dynamic components only: the head is one offset word each. */
  lemma {:induction false} DynamicLayout(parts: seq<Part>, encs: seq<Bytes>, start: nat)
    requires |parts| == |encs| && forall i :: 0 <= i < |parts| ==> parts[i] == Part(true, encs[i])
    ensures Heads(parts, start) == Offsets(encs, start) && Tails(parts) == Concat(encs)
    ensures HeadSize(parts) == 32 * |parts|
  {
    hide Word;
    if parts != [] {
      var n := |parts| - 1;
      DynamicLayout(parts[..n], encs[..n], start);
    }
  }

  lemma DynArrayLayout(items: seq<AbiValue>, encs: seq<Bytes>)
    requires |items| == |encs| && forall i :: 0 <= i < |items| ==> Dynamic(items[i]) && Enc(items[i]) == encs[i]
    ensures Enc(Array(items)) == DynArray(encs)
  {
    hide Enc, Dynamic, Heads, Tails, HeadSize, Offsets, Concat, Word;
    EncArray(items);
    DynamicLayout(Parts(items), encs, 32 * |items|);
  }

  lemma ClaimsLayout(claims: seq<Claim>)
    ensures Enc(Array(ClaimValues(claims))) == DynArray(ClaimTuples(claims))
  {
    hide Enc, Dynamic, ClaimValue, ClaimTuple, DynArray;
    forall i | 0 <= i < |claims| ensures Dynamic(ClaimValue(claims[i])) && Enc(ClaimValue(claims[i])) == ClaimTuple(claims[i]) {
      ClaimLayout(claims[i]);
    }
    DynArrayLayout(ClaimValues(claims), ClaimTuples(claims));
  }

  lemma BlobsLayout(items: seq<Bytes>)
    ensures Enc(Array(Blobs(items))) == DynArray(DynItems(items))
  {
    hide Enc, Dynamic, DynBytes, DynArray;
    forall i | 0 <= i < |items| ensures Dynamic(Blob(items[i])) && Enc(Blob(items[i])) == DynBytes(items[i]) {
      BlobLayout(items[i]);
    }
    DynArrayLayout(Blobs(items), DynItems(items));
  }

  lemma ClaimCallLayout(claims: seq<Claim>, signature: Bytes)
    ensures var data := DynArray(ClaimTuples(claims));
      ClaimCall(claims, signature) == CLAIM_SELECTOR + Word(64) + Word(64 + |data|) + data + DynBytes(signature)
  {
    hide DynArray, DynBytes, Word, Enc, ClaimValues;
    var data := DynArray(ClaimTuples(claims));
    var items := [Array(ClaimValues(claims)), Blob(signature)];
    ClaimsLayout(claims);
    BlobLayout(signature);
    EncTuple(items);
    var a, b := Part(true, data), Part(true, DynBytes(signature));
    PartsOf(items, [a, b]);
    PairLayout(a, b);
  }

  lemma RefundCallLayout(c: Config, amount: u128, nonce: nat, signature: Bytes)
    ensures RefundCall(c, amount, nonce, signature) ==
      REFUND_SELECTOR + ConfigWords(c) + Word(amount) + Word(nonce) + Word(320) + DynBytes(signature)
  {
    hide DynBytes, Word, Enc, ConfigWords, ConfigValue;
    var items := [ConfigValue(c), Number(amount), Number(nonce), Blob(signature)];
    ConfigLayout(c);
    BlobLayout(signature);
    AtomsEnc();
    EncTuple(items);
    var w, x, y, z := Part(false, ConfigWords(c)), Part(false, Word(amount)), Part(false, Word(nonce)),
      Part(true, DynBytes(signature));
    PartsOf(items, [w, x, y, z]);
    QuadLayout(w, x, y, z);
  }

  lemma DepositCallLayout(c: Config, amount: u128, collector: Address, data: Bytes)
    ensures DepositCall(c, amount, collector, data) ==
      DEPOSIT_SELECTOR + ConfigWords(c) + Word(amount) + AddressWord(collector) + Word(320) + DynBytes(data)
  {
    hide DynBytes, Word, Enc, ConfigWords, ConfigValue, AddressWord;
    var items := [ConfigValue(c), Number(amount), Account(collector), Blob(data)];
    ConfigLayout(c);
    BlobLayout(data);
    AtomsEnc();
    EncTuple(items);
    var w, x, y, z := Part(false, ConfigWords(c)), Part(false, Word(amount)), Part(false, AddressWord(collector)),
      Part(true, DynBytes(data));
    PartsOf(items, [w, x, y, z]);
    QuadLayout(w, x, y, z);
  }

  lemma CollectorLayout(validAfter: Bytes32, validBefore: Bytes32, salt: Bytes32, signature: Bytes)
    ensures Enc(CollectorValue(validAfter, validBefore, salt, signature)) ==
      validAfter + validBefore + salt + Word(128) + DynBytes(signature)
  {
    hide DynBytes, Word, Enc;
    var items := [Atom(validAfter), Atom(validBefore), Atom(salt), Blob(signature)];
    BlobLayout(signature);
    AtomsEnc();
    EncTuple(items);
    var w, x, y, z := Part(false, validAfter), Part(false, validBefore), Part(false, salt), Part(true, DynBytes(signature));
    PartsOf(items, [w, x, y, z]);
    QuadLayout(w, x, y, z);
  }

  lemma MulticallLayout(calls: seq<Bytes>)
    ensures Multicall(calls) == MULTICALL_SELECTOR + Word(32) + DynArray(DynItems(calls))
  {
    hide DynArray, DynBytes, Word, Enc, Blobs;
    var items := [Array(Blobs(calls))];
    BlobsLayout(calls);
    EncTuple(items);
    var a := Part(true, DynArray(DynItems(calls)));
    PartsOf(items, [a]);
    OneLayout(a);
  }

  lemma OneLayout(a: Part)
    requires a.dynamic
    ensures Layout([a]) == Word(32) + a.enc
  {
    hide Heads, Tails, HeadSize, Word;
    LayoutSnoc([], a, 32);
    assert [] + [a] == [a];
  }

  // ---- the encoders, growing a byte vector --------------------------------------------

  method EncodeBytes(bytes: Bytes) returns (out: Bytes)
    ensures out == Enc(Blob(bytes))
  {
    out := Word(|bytes|);
    out := out + bytes;
    // out.resize(32 + padded_len, 0)
    out := out + Zeros(32 + PaddedLen(|bytes|) - |out|);
  }

  method EncodeChannelConfig(c: Config) returns (out: Bytes)
    ensures out == Enc(ConfigValue(c))
  {
    hide AddressWord, Word, Enc;
    ConfigLayout(c);
    out := AddressWord(c.payer);
    out := out + AddressWord(c.payerAuthorizer);
    out := out + AddressWord(c.receiver);
    out := out + AddressWord(c.receiverAuthorizer);
    out := out + AddressWord(c.token);
    out := out + Word(c.withdrawDelay);
    out := out + c.salt;
  }

  method EncodeClaimTuple(claim: Claim) returns (out: Bytes)
    ensures out == Enc(ClaimValue(claim))
  {
    hide ConfigWords, DynBytes, Word, Enc, ConfigValue;
    ClaimLayout(claim);
    ConfigLayout(claim.config);
    BlobLayout(claim.signature);
    out := EncodeChannelConfig(claim.config);
    out := out + Word(claim.maxClaimable);
    out := out + Word(32 * 10);
    out := out + Word(claim.totalClaimed);
    var signature := EncodeBytes(claim.signature);
    out := out + signature;
  }

  /** The two loops shared by encode_claims_array and encode_bytes_array: offsets while a running
      `offset` grows by each tail's length, then the tails themselves. */
  method EncodeTails(tails: seq<Bytes>) returns (out: Bytes)
    ensures out == DynArray(tails)
  {
    hide Word;
    out := Word(|tails|);
    var offset := 32 * |tails|;
    for i := 0 to |tails|
      invariant out == Word(|tails|) + Offsets(tails[..i], 32 * |tails|)
      invariant offset == 32 * |tails| + Size(tails[..i])
    {
      assert tails[..i + 1][..i] == tails[..i];
      out := out + Word(offset);
      offset := offset + |tails[i]|;
    }
    assert tails[..|tails|] == tails;
    ghost var head := out;
    for i := 0 to |tails|
      invariant out == head + Concat(tails[..i])
    {
      assert tails[..i + 1][..i] == tails[..i];
      out := out + tails[i];
    }
    assert tails[..|tails|] == tails;
  }

  lemma ClaimTails(claims: seq<Claim>, tails: seq<Bytes>)
    requires |tails| == |claims| && forall k :: 0 <= k < |claims| ==> tails[k] == Enc(ClaimValue(claims[k]))
    ensures tails == ClaimTuples(claims)
  {
    hide ClaimValue, ClaimTuple, Enc;
    forall k | 0 <= k < |claims| ensures tails[k] == ClaimTuple(claims[k]) {
      ClaimLayout(claims[k]);
    }
  }

  lemma BlobTails(items: seq<Bytes>, tails: seq<Bytes>)
    requires |tails| == |items| && forall k :: 0 <= k < |items| ==> tails[k] == Enc(Blob(items[k]))
    ensures tails == DynItems(items)
  {
    hide DynBytes, Enc;
    forall k | 0 <= k < |items| ensures tails[k] == DynBytes(items[k]) {
      BlobLayout(items[k]);
    }
  }

  method EncodeClaimsArray(claims: seq<Claim>) returns (out: Bytes)
    ensures out == Enc(Array(ClaimValues(claims)))
  {
    hide ClaimValue, DynArray, Enc;
    ClaimsLayout(claims);
    var tails: seq<Bytes> := [];
    for i := 0 to |claims|
      invariant |tails| == i && forall k :: 0 <= k < i ==> tails[k] == Enc(ClaimValue(claims[k]))
    {
      var tail := EncodeClaimTuple(claims[i]);
      tails := tails + [tail];
    }
    ClaimTails(claims, tails);
    out := EncodeTails(tails);
  }

  method EncodeBytesArray(items: seq<Bytes>) returns (out: Bytes)
    ensures out == Enc(Array(Blobs(items)))
  {
    hide DynBytes, DynArray, Enc;
    BlobsLayout(items);
    var tails: seq<Bytes> := [];
    for i := 0 to |items|
      invariant |tails| == i && forall k :: 0 <= k < i ==> tails[k] == Enc(Blob(items[k]))
    {
      var tail := EncodeBytes(items[i]);
      tails := tails + [tail];
    }
    BlobTails(items, tails);
    out := EncodeTails(tails);
  }

  /** encode_claim_with_signature_call. */
  method EncodeClaimCall(claims: seq<Claim>, signature: Bytes) returns (out: Bytes)
    ensures out == ClaimCall(claims, signature)
  {
    hide DynArray, ClaimTuples, DynBytes, Word, Enc, ClaimCall;
    ClaimCallLayout(claims, signature);
    ClaimsLayout(claims);
    BlobLayout(signature);
    var claimsData := EncodeClaimsArray(claims);
    var signatureData := EncodeBytes(signature);
    var claimsOffset := 64;
    var signatureOffset := claimsOffset + |claimsData|;
    out := CLAIM_SELECTOR;
    out := out + Word(claimsOffset);
    out := out + Word(signatureOffset);
    out := out + claimsData;
    out := out + signatureData;
  }

  /** encode_refund_with_signature_call. */
  method EncodeRefundCall(c: Config, amount: u128, nonce: nat, signature: Bytes) returns (out: Bytes)
    ensures out == RefundCall(c, amount, nonce, signature)
  {
    hide ConfigWords, DynBytes, Word, Enc, ConfigValue, RefundCall;
    RefundCallLayout(c, amount, nonce, signature);
    ConfigLayout(c);
    BlobLayout(signature);
    var head := EncodeChannelConfig(c);
    head := head + Word(amount);
    head := head + Word(nonce);
    head := head + Word(32 * 10);
    out := REFUND_SELECTOR;
    out := out + head;
    var tail := EncodeBytes(signature);
    out := out + tail;
    assert out == RefundCall(c, amount, nonce, signature);
  }

  /** encode_batch_deposit_call. */
  method EncodeDepositCall(c: Config, amount: u128, collector: Address, data: Bytes) returns (out: Bytes)
    ensures out == DepositCall(c, amount, collector, data)
  {
    hide ConfigWords, DynBytes, Word, AddressWord, Enc, ConfigValue, DepositCall;
    DepositCallLayout(c, amount, collector, data);
    ConfigLayout(c);
    BlobLayout(data);
    var head := EncodeChannelConfig(c);
    head := head + Word(amount);
    head := head + AddressWord(collector);
    head := head + Word(32 * 10);
    out := DEPOSIT_SELECTOR;
    out := out + head;
    var tail := EncodeBytes(data);
    out := out + tail;
    assert out == DepositCall(c, amount, collector, data);
  }

  /** encode_erc3009_collector_data; the numbers come as the words their texts parse to. */
  method EncodeCollectorData(validAfter: Bytes32, validBefore: Bytes32, salt: Bytes32, signature: Bytes)
    returns (out: Bytes)
    ensures out == Enc(CollectorValue(validAfter, validBefore, salt, signature))
  {
    hide DynBytes, Word, Enc;
    CollectorLayout(validAfter, validBefore, salt, signature);
    BlobLayout(signature);
    var signatureData := EncodeBytes(signature);
    out := validAfter;
    out := out + validBefore;
    out := out + salt;
    out := out + Word(32 * 4);
    out := out + signatureData;
  }

  /** encode_multicall. */
  method EncodeMulticall(calls: seq<Bytes>) returns (out: Bytes)
    ensures out == Multicall(calls)
  {
    hide DynArray, DynItems, Word, Enc, Multicall;
    MulticallLayout(calls);
    BlobsLayout(calls);
    var data := EncodeBytesArray(calls);
    out := MULTICALL_SELECTOR;
    out := out + Word(32);
    out := out + data;
  }

  /** The refund branch of encode_batch_refund_calldata: a bare refund call without claims,
      otherwise the claim call and then the refund call in one multicall. */
  method EncodeRefundCalldata(c: Config, amount: u128, nonce: nat, signature: Bytes, claims: seq<Claim>,
                              claimSignature: Bytes)
    returns (out: Bytes)
    ensures out == RefundCalldata(c, amount, nonce, signature, claims, claimSignature)
  {
    hide RefundCall, ClaimCall, Multicall;
    out := EncodeRefundCall(c, amount, nonce, signature);
    if claims != [] {
      var claimCall := EncodeClaimCall(claims, claimSignature);
      out := EncodeMulticall([claimCall, out]);
    }
  }
}
