/** Nothing in the calldata is lost or misplaced: a decoder that knows only the argument types gives
    back every argument, and each offset word finds its payload. */
module AbiRoundTrip {
  import opened Wrappers
  import opened Decimal
  import opened HexUtil
  import opened AbiStandard
  import opened Abi
  import opened AbiDecoder

  // ---- the argument types, as the selectors spell them ---------------------------------

  const CONFIG_TYPE := TupleType([AtomType, AtomType, AtomType, AtomType, AtomType, AtomType, AtomType])
  const CLAIM_TYPE := TupleType([TupleType([CONFIG_TYPE, AtomType]), BlobType, AtomType])
  const CLAIM_ARGS := TupleType([ArrayType(CLAIM_TYPE), BlobType])
  const PAYMENT_ARGS := TupleType([CONFIG_TYPE, AtomType, AtomType, BlobType])
  const MULTICALL_ARGS := TupleType([ArrayType(BlobType)])
  const COLLECTOR_TYPE := TupleType([AtomType, AtomType, AtomType, BlobType])

  lemma ClaimFits(c: Claim)
    ensures Fits(ClaimValue(c), CLAIM_TYPE)
  {
    hide ConfigValue, Word;
    ConfigFits(c.config);
    assert Fits(Tuple([ConfigValue(c.config), Number(c.maxClaimable)]), TupleType([CONFIG_TYPE, AtomType]));
  }

  lemma ClaimArgsFit(claims: seq<Claim>, signature: Bytes)
    requires |claims| <= U64_MAX
    ensures Fits(ClaimArgs(claims, signature), CLAIM_ARGS)
  {
    hide ClaimValue;
    forall i | 0 <= i < |claims| ensures Fits(ClaimValue(claims[i]), CLAIM_TYPE) {
      ClaimFits(claims[i]);
    }
    assert Fits(Array(ClaimValues(claims)), ArrayType(CLAIM_TYPE));
  }

  lemma ConfigFits(c: Config)
    ensures Fits(ConfigValue(c), CONFIG_TYPE)
  {
    hide AddressWord, Word;
  }

  lemma RefundArgsFit(c: Config, amount: u128, nonce: nat, signature: Bytes)
    ensures Fits(RefundArgs(c, amount, nonce, signature), PAYMENT_ARGS)
  {
    hide ConfigValue, Word;
    ConfigFits(c);
  }

  lemma DepositArgsFit(c: Config, amount: u128, collector: Address, data: Bytes)
    ensures Fits(DepositArgs(c, amount, collector, data), PAYMENT_ARGS)
  {
    hide ConfigValue, Word, AddressWord;
    ConfigFits(c);
  }

  lemma MulticallArgsFit(calls: seq<Bytes>)
    requires |calls| <= U64_MAX
    ensures Fits(MulticallArgs(calls), MULTICALL_ARGS)
  {
    assert Fits(Array(Blobs(calls)), ArrayType(BlobType));
  }

  // ---- decoding by type ----------------------------------------------------------------

  lemma BehindSelector(selector: Bytes, args: Bytes)
    requires |selector| == 4
    ensures At(selector + args, 4, args)
  {
  }

  /** Every claim's config, voucher limit, signature and total, and the authorizer's signature, come back. */
  lemma ClaimCallDecodes(claims: seq<Claim>, signature: Bytes)
    requires |ClaimCall(claims, signature)| <= U64_MAX
    ensures Dec(CLAIM_ARGS, ClaimCall(claims, signature), 4) == Some(ClaimArgs(claims, signature))
  {
    hide Enc, Dec, Fits, ClaimArgs;
    ClaimCount(claims, signature);
    ClaimArgsFit(claims, signature);
    BehindSelector(CLAIM_SELECTOR, Enc(ClaimArgs(claims, signature)));
    DecInverse(ClaimArgs(claims, signature), CLAIM_ARGS, ClaimCall(claims, signature), 4);
  }

  lemma ClaimCount(claims: seq<Claim>, signature: Bytes)
    ensures |claims| <= |ClaimCall(claims, signature)|
  {
    hide ClaimCall, Word;
    ClaimCallLayout(claims, signature);
  }

  lemma RefundCallDecodes(c: Config, amount: u128, nonce: nat, signature: Bytes)
    requires |RefundCall(c, amount, nonce, signature)| <= U64_MAX
    ensures Dec(PAYMENT_ARGS, RefundCall(c, amount, nonce, signature), 4) == Some(RefundArgs(c, amount, nonce, signature))
  {
    hide Enc, Dec, Fits, RefundArgs;
    RefundArgsFit(c, amount, nonce, signature);
    BehindSelector(REFUND_SELECTOR, Enc(RefundArgs(c, amount, nonce, signature)));
    DecInverse(RefundArgs(c, amount, nonce, signature), PAYMENT_ARGS, RefundCall(c, amount, nonce, signature), 4);
  }

  lemma DepositCallDecodes(c: Config, amount: u128, collector: Address, data: Bytes)
    requires |DepositCall(c, amount, collector, data)| <= U64_MAX
    ensures Dec(PAYMENT_ARGS, DepositCall(c, amount, collector, data), 4) == Some(DepositArgs(c, amount, collector, data))
  {
    hide Enc, Dec, Fits, DepositArgs;
    DepositArgsFit(c, amount, collector, data);
    BehindSelector(DEPOSIT_SELECTOR, Enc(DepositArgs(c, amount, collector, data)));
    DecInverse(DepositArgs(c, amount, collector, data), PAYMENT_ARGS, DepositCall(c, amount, collector, data), 4);
  }

  lemma MulticallDecodes(calls: seq<Bytes>)
    requires |Multicall(calls)| <= U64_MAX
    ensures Dec(MULTICALL_ARGS, Multicall(calls), 4) == Some(MulticallArgs(calls))
  {
    hide Enc, Dec, Fits, MulticallArgs;
    CallCount(calls);
    MulticallArgsFit(calls);
    BehindSelector(MULTICALL_SELECTOR, Enc(MulticallArgs(calls)));
    DecInverse(MulticallArgs(calls), MULTICALL_ARGS, Multicall(calls), 4);
  }

  lemma CallCount(calls: seq<Bytes>)
    ensures |calls| <= |Multicall(calls)|
  {
    hide Multicall, Word;
    MulticallLayout(calls);
  }

  lemma CollectorDataDecodes(validAfter: Bytes32, validBefore: Bytes32, salt: Bytes32, signature: Bytes)
    requires |Enc(CollectorValue(validAfter, validBefore, salt, signature))| <= U64_MAX
    ensures var v := CollectorValue(validAfter, validBefore, salt, signature); Dec(COLLECTOR_TYPE, Enc(v), 0) == Some(v)
  {
    hide Enc, Dec;
    var v := CollectorValue(validAfter, validBefore, salt, signature);
    assert At(Enc(v), 0, Enc(v));
    DecInverse(v, COLLECTOR_TYPE, Enc(v), 0);
  }

  // ---- the arguments themselves --------------------------------------------------------

  lemma NumberInjective(m: nat, n: nat)
    requires m < Pow256(32) && n < Pow256(32) && Number(m) == Number(n)
    ensures m == n
  {
    BEToBytes(m, 32);
    BEToBytes(n, 32);
  }

  lemma SmallNumber(m: u128, n: u128)
    requires Number(m) == Number(n)
    ensures m == n
  {
    hide Word, Pow256;
    SmallWord(m);
    SmallWord(n);
    NumberInjective(m, n);
  }

  lemma AccountInjective(a: Address, b: Address)
    requires Account(a) == Account(b)
    ensures a == b
  {
    assert AddressWord(a)[12..] == a && AddressWord(b)[12..] == b;
  }

  lemma ConfigInjective(c: Config, d: Config)
    requires ConfigValue(c) == ConfigValue(d)
    ensures c == d
  {
    hide Account, Number;
    var x, y := ConfigValue(c).items, ConfigValue(d).items;
    assert x[0] == y[0] && x[1] == y[1] && x[2] == y[2] && x[3] == y[3] && x[4] == y[4] && x[5] == y[5] && x[6] == y[6];
    AccountInjective(c.payer, d.payer);
    AccountInjective(c.payerAuthorizer, d.payerAuthorizer);
    AccountInjective(c.receiver, d.receiver);
    AccountInjective(c.receiverAuthorizer, d.receiverAuthorizer);
    AccountInjective(c.token, d.token);
    SmallNumber(c.withdrawDelay, d.withdrawDelay);
  }

  lemma ClaimInjective(c: Claim, d: Claim)
    requires ClaimValue(c) == ClaimValue(d)
    ensures c == d
  {
    hide ConfigValue, Number;
    var x, y := ClaimValue(c).items, ClaimValue(d).items;
    assert x[0] == y[0] && x[1] == y[1] && x[2] == y[2];
    assert x[0].items[0] == y[0].items[0] && x[0].items[1] == y[0].items[1];
    ConfigInjective(c.config, d.config);
    SmallNumber(c.maxClaimable, d.maxClaimable);
    SmallNumber(c.totalClaimed, d.totalClaimed);
  }

  /** Two claim calls with the same bytes carry the same claims, in the same order, and the same signature. */
  lemma ClaimCallInjective(claims: seq<Claim>, signature: Bytes, claims': seq<Claim>, signature': Bytes)
    requires ClaimCall(claims, signature) == ClaimCall(claims', signature') && |ClaimCall(claims, signature)| <= U64_MAX
    ensures claims == claims' && signature == signature'
  {
    hide ClaimCall, Dec, ClaimValue;
    ClaimCallDecodes(claims, signature);
    ClaimCallDecodes(claims', signature');
    var x, y := ClaimArgs(claims, signature).items, ClaimArgs(claims', signature').items;
    assert x[0] == y[0] && x[1] == y[1];
    var v, w := ClaimValues(claims), ClaimValues(claims');
    assert v == w;
    forall i | 0 <= i < |claims| ensures claims[i] == claims'[i] {
      assert v[i] == w[i];
      ClaimInjective(claims[i], claims'[i]);
    }
  }

  lemma RefundCallInjective(c: Config, amount: u128, nonce: nat, signature: Bytes, c': Config, amount': u128, nonce': nat,
                            signature': Bytes)
    requires nonce < Pow256(32) && nonce' < Pow256(32)
    requires RefundCall(c, amount, nonce, signature) == RefundCall(c', amount', nonce', signature')
    requires |RefundCall(c, amount, nonce, signature)| <= U64_MAX
    ensures c == c' && amount == amount' && nonce == nonce' && signature == signature'
  {
    hide RefundCall, Dec, ConfigValue, Number, Pow256;
    RefundCallDecodes(c, amount, nonce, signature);
    RefundCallDecodes(c', amount', nonce', signature');
    var x, y := RefundArgs(c, amount, nonce, signature).items, RefundArgs(c', amount', nonce', signature').items;
    assert x[0] == y[0] && x[1] == y[1] && x[2] == y[2] && x[3] == y[3];
    ConfigInjective(c, c');
    SmallNumber(amount, amount');
    NumberInjective(nonce, nonce');
  }

  lemma DepositCallInjective(c: Config, amount: u128, collector: Address, data: Bytes, c': Config, amount': u128,
                             collector': Address, data': Bytes)
    requires DepositCall(c, amount, collector, data) == DepositCall(c', amount', collector', data')
    requires |DepositCall(c, amount, collector, data)| <= U64_MAX
    ensures c == c' && amount == amount' && collector == collector' && data == data'
  {
    hide DepositCall, Dec, ConfigValue, Number, Account;
    DepositCallDecodes(c, amount, collector, data);
    DepositCallDecodes(c', amount', collector', data');
    var x, y := DepositArgs(c, amount, collector, data).items, DepositArgs(c', amount', collector', data').items;
    assert x[0] == y[0] && x[1] == y[1] && x[2] == y[2] && x[3] == y[3];
    ConfigInjective(c, c');
    SmallNumber(amount, amount');
    AccountInjective(collector, collector');
  }

  // ---- offset by offset ----------------------------------------------------------------

  /** A `bytes` payload at `start`: its length word, then its bytes, inside the input. */
  ghost predicate HoldsBytes(input: Bytes, start: nat, payload: Bytes) {
    && ReadWord(input, start) == Some(|payload|)
    && start + 32 + |payload| <= |input| && input[start + 32..start + 32 + |payload|] == payload
  }

  lemma PayloadRead(input: Bytes, start: nat, payload: Bytes)
    requires At(input, start, DynBytes(payload)) && |input| <= U64_MAX
    ensures HoldsBytes(input, start, payload)
  {
    hide At, ReadWord, DynBytes;
    DynBytesRead(input, start, payload);
  }

  /** The two outer offsets of a claim call: one finds the claims, the other the authorizer's signature, right
      behind them. */
  lemma ClaimCallOffsets(claims: seq<Claim>, signature: Bytes)
    requires |ClaimCall(claims, signature)| <= U64_MAX
    ensures var input, size := ClaimCall(claims, signature), |DynArray(ClaimTuples(claims))|;
      && ReadWord(input, 4) == Some(64) && ReadWord(input, 4 + 64) == Some(|claims|)
      && ReadWord(input, 4 + 32) == Some(64 + size) && HoldsBytes(input, 4 + 64 + size, signature)
  {
    hide ClaimCall, At, DynArray, ClaimTuples, DynBytes, Word, ReadWord, HoldsBytes;
    ClaimCallArray(claims, signature);
    ArrayParts(ClaimCall(claims, signature), 4 + 64, ClaimTuples(claims));
    ClaimCallLayout(claims, signature);
    SecondOffset(ClaimCall(claims, signature), DynArray(ClaimTuples(claims)), signature);
  }

  lemma SecondOffset(input: Bytes, data: Bytes, signature: Bytes)
    requires input == CLAIM_SELECTOR + Word(64) + Word(64 + |data|) + data + DynBytes(signature) && |input| <= U64_MAX
    ensures ReadWord(input, 4 + 32) == Some(64 + |data|) && HoldsBytes(input, 4 + 64 + |data|, signature)
  {
    hide At, DynBytes, Word, ReadWord, HoldsBytes;
    var head := CLAIM_SELECTOR + Word(64) + Word(64 + |data|);
    AtStart(input, head + data, DynBytes(signature));
    AtSplit(input, 0, head, data);
    AtSplit(input, 0, CLAIM_SELECTOR + Word(64), Word(64 + |data|));
    SmallWord(64 + |data|);
    WordRead(input, 4 + 32, 64 + |data|);
    PayloadRead(input, |head + data|, signature);
  }

  /** Claim `i` of a call: its voucher limit and total read back, and its offset word finds its signature. */
  lemma ClaimPayload(claims: seq<Claim>, signature: Bytes, i: nat)
    requires |ClaimCall(claims, signature)| <= U64_MAX && i < |claims|
    ensures var input, offset := ClaimCall(claims, signature), 32 * |claims| + Size(ClaimTuples(claims)[..i]);
      var start := 4 + 64 + 32 + offset;
      && ReadWord(input, 4 + 64 + 32 + i * 32) == Some(offset)
      && ReadWord(input, start + 224) == Some(claims[i].maxClaimable)
      && ReadWord(input, start + 256) == Some(320) && HoldsBytes(input, start + 320, claims[i].signature)
      && ReadWord(input, start + 288) == Some(claims[i].totalClaimed)
  {
    hide ClaimCall, At, DynArray, ClaimTuple, ReadWord, HoldsBytes, Size;
    var input := ClaimCall(claims, signature);
    ClaimCallArray(claims, signature);
    ArrayItem(input, 4 + 64, ClaimTuples(claims), i);
    TuplePayload(input, 4 + 64 + 32 + (32 * |claims| + Size(ClaimTuples(claims)[..i])), claims[i]);
  }

  lemma TuplePayload(input: Bytes, start: nat, c: Claim)
    requires At(input, start, ClaimTuple(c)) && |input| <= U64_MAX
    ensures ReadWord(input, start + 224) == Some(c.maxClaimable)
    ensures ReadWord(input, start + 256) == Some(320) && HoldsBytes(input, start + 320, c.signature)
    ensures ReadWord(input, start + 288) == Some(c.totalClaimed)
  {
    hide At, ConfigWords, Word, DynBytes, ReadWord, HoldsBytes, Pow256;
    var h1 := ConfigWords(c.config);
    var h2 := h1 + Word(c.maxClaimable);
    var h3 := h2 + Word(320);
    AtSplit(input, start, h3 + Word(c.totalClaimed), DynBytes(c.signature));
    AtSplit(input, start, h3, Word(c.totalClaimed));
    AtSplit(input, start, h2, Word(320));
    AtSplit(input, start, h1, Word(c.maxClaimable));
    SmallWord(c.maxClaimable);
    SmallWord(c.totalClaimed);
    SmallWord(320);
    WordRead(input, start + 224, c.maxClaimable);
    WordRead(input, start + 256, 320);
    WordRead(input, start + 288, c.totalClaimed);
    PayloadRead(input, start + 320, c.signature);
  }

  /** A refund call: amount and nonce read back, and the offset word finds the signature. */
  lemma RefundPayload(c: Config, amount: u128, nonce: nat, signature: Bytes)
    requires nonce < Pow256(32) && |RefundCall(c, amount, nonce, signature)| <= U64_MAX
    ensures var input := RefundCall(c, amount, nonce, signature);
      && ReadWord(input, 4 + 32 * 7) == Some(amount) && ReadWord(input, 4 + 32 * 8) == Some(nonce)
      && ReadWord(input, 4 + 32 * 9) == Some(320) && HoldsBytes(input, 4 + 320, signature)
  {
    hide RefundCall, ConfigWords, Word, DynBytes, ReadWord, At, HoldsBytes, Pow256;
    RefundCallLayout(c, amount, nonce, signature);
    PaymentPayload(RefundCall(c, amount, nonce, signature), REFUND_SELECTOR, c, amount, Word(nonce), signature);
    WordRead(RefundCall(c, amount, nonce, signature), 4 + 32 * 8, nonce);
  }

  /** A deposit call: amount and collector read back, and the offset word finds the collector's data. */
  lemma DepositPayload(c: Config, amount: u128, collector: Address, data: Bytes)
    requires |DepositCall(c, amount, collector, data)| <= U64_MAX
    ensures var input := DepositCall(c, amount, collector, data);
      && ReadWord(input, 4 + 32 * 7) == Some(amount) && ReadAddress(input, 4 + 32 * 8) == Some(collector)
      && ReadWord(input, 4 + 32 * 9) == Some(320) && HoldsBytes(input, 4 + 320, data)
  {
    hide DepositCall, ConfigWords, Word, DynBytes, ReadWord, ReadAddress, At, HoldsBytes, Pow256, AddressWord;
    DepositCallLayout(c, amount, collector, data);
    PaymentPayload(DepositCall(c, amount, collector, data), DEPOSIT_SELECTOR, c, amount, AddressWord(collector), data);
    AddressRead(DepositCall(c, amount, collector, data), 4 + 32 * 8, collector);
  }

  lemma PaymentPayload(input: Bytes, selector: Bytes, c: Config, amount: u128, word: Bytes32, payload: Bytes)
    requires |selector| == 4 && |input| <= U64_MAX
    requires input == selector + ConfigWords(c) + Word(amount) + word + Word(320) + DynBytes(payload)
    ensures ReadWord(input, 4 + 32 * 7) == Some(amount) && At(input, 4 + 32 * 8, word)
    ensures ReadWord(input, 4 + 32 * 9) == Some(320) && HoldsBytes(input, 4 + 320, payload)
  {
    hide ConfigWords, Word, DynBytes, ReadWord, At, HoldsBytes, Pow256;
    var h1 := selector + ConfigWords(c);
    var h2 := h1 + Word(amount);
    var h3 := h2 + word;
    AtStart(input, h3 + Word(320), DynBytes(payload));
    AtSplit(input, 0, h3, Word(320));
    AtSplit(input, 0, h2, word);
    AtSplit(input, 0, h1, Word(amount));
    SmallWord(amount);
    SmallWord(320);
    WordRead(input, 4 + 32 * 7, amount);
    WordRead(input, 4 + 32 * 9, 320);
    PayloadRead(input, 4 + 320, payload);
  }
}
