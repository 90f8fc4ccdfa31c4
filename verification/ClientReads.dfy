/** Which of the server's records the client can read (src/icBatchChannelStorage.ts:184-225): the server's own rules
    (rust/facilitator/src/batch.rs:724-770), and what the client asks beyond them. */
module ClientReads {
  import opened Wrappers
  import opened Decimal
  import opened HexUtil
  import opened Batch
  import opened BatchRules
  import opened ChannelStorage

  predicate Prefixed(value: string) {
    |value| >= 2 && value[0] == '0' && value[1] == 'x'
  }

  /** Every hex text carries its prefix. */
  predicate AllPrefixed(c: Channel) {
    && Prefixed(c.channelId) && Prefixed(c.signature)
    && Prefixed(c.config.payer) && Prefixed(c.config.payerAuthorizer) && Prefixed(c.config.receiver)
    && Prefixed(c.config.receiverAuthorizer) && Prefixed(c.config.token) && Prefixed(c.config.salt)
  }

  /** Every number is below 2^53. */
  predicate AllSafe(c: Channel)
    requires NumberText(c.refundNonce)
  {
    && c.withdrawRequestedAt < 0x20_0000_0000_0000 && c.lastRequestTimestamp < 0x20_0000_0000_0000
    && Value(c.refundNonce) < 0x20_0000_0000_0000
    && (c.onchainSyncedAt.Some? ==> c.onchainSyncedAt.value < 0x20_0000_0000_0000)
    && (c.pending.Some? ==> c.pending.value.expiresAt < 0x20_0000_0000_0000)
  }

  lemma BytesAre(value: string, bytes: nat)
    ensures HexBytes(value, bytes) <==> Prefixed(value) && HexText(value, bytes)
  {
    HexTextIs(value, bytes);
    if |value| >= 2 {
      assert value[..2] == [value[0], value[1]];
    }
  }

  lemma AddressesAre(value: string)
    ensures NonZeroAddress(value) <==> Prefixed(value) && AddressText(value)
  {
    BytesAre(value, 20);
    if HexBytes(value, 20) {
      assert Bare(value) == value[2..];
      assert forall i :: 0 <= i < 40 ==> Bare(value)[i] == value[i + 2];
      if AddressText(value) {
        var i :| 0 <= i < 40 && Bare(value)[i] != '0';
        assert value[i + 2] != '0';
      }
      if NonZeroAddress(value) {
        var i :| 2 <= i < |value| && value[i] != '0';
        assert Bare(value)[i - 2] != '0';
      }
    }
  }

  lemma AmountsAre(value: string)
    ensures Uint128Text(value) <==> AmountText(value)
  {
    NumberIs(value);
  }

  lemma ConfigsAre(c: ChannelConfig)
    ensures ConfigText(c.payer, c.payerAuthorizer, c.receiver, c.receiverAuthorizer, c.token, c.withdrawDelay, c.salt)
      <==>
      && ConfigFits(c)
      && Prefixed(c.payer) && Prefixed(c.payerAuthorizer) && Prefixed(c.receiver) && Prefixed(c.receiverAuthorizer)
      && Prefixed(c.token) && Prefixed(c.salt)
  {
    hide NonZeroAddress, AddressText, HexBytes, HexText, Prefixed;
    AddressesAre(c.payer);
    AddressesAre(c.payerAuthorizer);
    AddressesAre(c.receiver);
    AddressesAre(c.receiverAuthorizer);
    AddressesAre(c.token);
    BytesAre(c.salt, 32);
    BytesAreShort(c.salt, 32);
  }

  lemma BytesAreShort(value: string, bytes: nat)
    requires bytes <= 100
    ensures HexText(value, bytes) ==> |value| <= 512
  {
  }

  lemma PendingsAre(c: Channel)
    requires AmountText(c.charged)
    ensures c.pending.None? || (var p := c.pending.value;
              PendingText(p.pendingId, p.signedMaxClaimable, c.charged) && PositiveSafe(p.expiresAt)) <==>
      PendingFits(c) && (c.pending.Some? ==> c.pending.value.expiresAt < 0x20_0000_0000_0000)
  {
    hide AmountText, Uint128Text, Value, IsDigits;
    DigitsOf(c.charged);
    if c.pending.Some? {
      AmountsAre(c.pending.value.signedMaxClaimable);
    }
  }

  lemma DigitsOf(value: string)
    ensures AmountText(value) ==> IsDigits(value)
  {
  }

  lemma NoncesAre(value: string)
    ensures SafeDecimal(value) <==> NumberText(value) && Value(value) < 0x20_0000_0000_0000
  {
    NumberIs(value);
  }

  lemma SafeBelowWord(value: string)
    requires NumberText(value)
    ensures Value(value) < 0x20_0000_0000_0000 ==> Value(value) < Pow256(32)
  {
    hide Value;
    Pow256Constants();
  }

  lemma BoundsAre(c: Channel)
    ensures AmountBounds(c.charged, c.signedMax, c.totalClaimed, c.balance) <==>
      && AmountText(c.charged) && AmountText(c.signedMax) && AmountText(c.totalClaimed) && AmountText(c.balance)
      && Value(c.charged) <= Value(c.signedMax)
      && Value(c.totalClaimed) <= Value(c.signedMax) && Value(c.totalClaimed) <= Value(c.balance)
  {
    hide Uint128Text, AmountText, Value;
    AmountsAre(c.charged);
    AmountsAre(c.signedMax);
    AmountsAre(c.totalClaimed);
    AmountsAre(c.balance);
  }

  lemma ReadChecks(c: Channel)
    ensures FromIc(c).Some? <==>
      && AmountBounds(c.charged, c.signedMax, c.totalClaimed, c.balance) && HexBytes(c.channelId, 32)
      && ConfigText(c.config.payer, c.config.payerAuthorizer, c.config.receiver, c.config.receiverAuthorizer,
                    c.config.token, c.config.withdrawDelay, c.config.salt)
      && HexBytes(c.signature, 65) && Safe(c.withdrawRequestedAt) && SafeDecimal(c.refundNonce)
      && Safe(c.lastRequestTimestamp) && (c.onchainSyncedAt.Some? ==> Safe(c.onchainSyncedAt.value))
      && (c.pending.None? || (var p := c.pending.value;
            PendingText(p.pendingId, p.signedMaxClaimable, c.charged) && PositiveSafe(p.expiresAt)))
  {
    hide AmountBounds, HexBytes, ConfigText, PendingText, PositiveSafe, SafeDecimal, Safe, Value;
  }

  lemma HexesAre(c: Channel)
    ensures (&& HexBytes(c.channelId, 32) && HexBytes(c.signature, 65)
             && ConfigText(c.config.payer, c.config.payerAuthorizer, c.config.receiver, c.config.receiverAuthorizer,
                           c.config.token, c.config.withdrawDelay, c.config.salt)) <==>
      && |c.channelId| <= 512 && HexText(c.channelId, 32) && |c.signature| <= 512 && HexText(c.signature, 65)
      && ConfigFits(c.config) && AllPrefixed(c)
  {
    hide HexBytes, HexText, ConfigText, ConfigFits, Prefixed;
    BytesAre(c.channelId, 32);
    BytesAreShort(c.channelId, 32);
    BytesAre(c.signature, 65);
    BytesAreShort(c.signature, 65);
    ConfigsAre(c.config);
  }

  lemma AmountsAndPendingAre(c: Channel)
    ensures (&& AmountBounds(c.charged, c.signedMax, c.totalClaimed, c.balance)
             && (c.pending.None? || (var p := c.pending.value;
                   PendingText(p.pendingId, p.signedMaxClaimable, c.charged) && PositiveSafe(p.expiresAt)))) <==>
      && AmountText(c.charged) && AmountText(c.signedMax) && AmountText(c.totalClaimed) && AmountText(c.balance)
      && Value(c.charged) <= Value(c.signedMax)
      && Value(c.totalClaimed) <= Value(c.signedMax) && Value(c.totalClaimed) <= Value(c.balance)
      && PendingFits(c) && (c.pending.Some? ==> c.pending.value.expiresAt < 0x20_0000_0000_0000)
  {
    hide AmountBounds, PendingText, PositiveSafe, PendingFits, AmountText, Value;
    BoundsAre(c);
    if AmountText(c.charged) {
      PendingsAre(c);
    }
  }

  lemma NumbersAre(c: Channel)
    ensures (&& SafeDecimal(c.refundNonce) && Safe(c.withdrawRequestedAt) && Safe(c.lastRequestTimestamp)
             && (c.onchainSyncedAt.Some? ==> Safe(c.onchainSyncedAt.value))
             && (c.pending.Some? ==> c.pending.value.expiresAt < 0x20_0000_0000_0000)) <==>
      && NumberText(c.refundNonce) && Value(c.refundNonce) < Pow256(32) && AllSafe(c)
  {
    hide SafeDecimal, NumberText, Value;
    NoncesAre(c.refundNonce);
    if NumberText(c.refundNonce) {
      SafeBelowWord(c.refundNonce);
    }
  }

  /** The client can read a record if and only if the server's rules hold of it, its hex texts carry the prefix,
      which the server leaves open, and its numbers are safe integers, which the server does not ask. */
  lemma ReadableIff(c: Channel)
    ensures FromIc(c).Some? <==> ChannelFits(c) && AllPrefixed(c) && AllSafe(c)
  {
    hide FromIc, AmountBounds, HexBytes, HexText, ConfigText, ConfigFits, PendingText, PositiveSafe, PendingFits,
      AmountText, Value, SafeDecimal, NumberText, Prefixed, AllPrefixed, AllSafe, Safe;
    ReadChecks(c);
    HexesAre(c);
    AmountsAndPendingAre(c);
    NumbersAre(c);
  }

  /** What is read is the record, field by field; the refund nonce is its value. */
  lemma ReadFields(c: Channel)
    requires FromIc(c).Some?
    ensures var d := FromIc(c).value;
      && d.channelId == c.channelId && d.signature == c.signature
      && d.charged == c.charged && d.signedMax == c.signedMax
      && d.balance == c.balance && d.totalClaimed == c.totalClaimed
      && d.withdrawRequestedAt == c.withdrawRequestedAt && d.lastRequestTimestamp == c.lastRequestTimestamp
      && IsDigits(c.refundNonce) && d.refundNonce == Value(c.refundNonce)
      && d.onchainSyncedAt.Some? == c.onchainSyncedAt.Some? && d.pending.Some? == c.pending.Some?
      && (c.onchainSyncedAt.Some? ==> d.onchainSyncedAt.value == c.onchainSyncedAt.value)
      && (c.pending.Some? ==>
            && d.pending.value.pendingId == c.pending.value.pendingId
            && d.pending.value.signedMaxClaimable == c.pending.value.signedMaxClaimable
            && d.pending.value.expiresAt == c.pending.value.expiresAt)
      && d.config.payer == c.config.payer && d.config.payerAuthorizer == c.config.payerAuthorizer
      && d.config.receiver == c.config.receiver && d.config.receiverAuthorizer == c.config.receiverAuthorizer
      && d.config.token == c.config.token && d.config.withdrawDelay == c.config.withdrawDelay
      && d.config.salt == c.config.salt
  {
    hide AmountBounds, ConfigText, HexBytes, PendingText, Value;
  }

  /** So the client can be shut out of a channel: whatever update of a readable record the server accepts, it
      accepts with the signature spelled without the prefix, and that the client cannot read. */
  lemma BareSignatureIsUnreadable(current: Option<Channel>, next: Channel, nowSeconds: nat)
    requires current.Some? ==> ChannelFits(current.value)
    requires Accepted(current, next, nowSeconds) && FromIc(next).Some?
    ensures var bare := next.(signature := next.signature[2..]);
      Accepted(current, bare, nowSeconds) && FromIc(bare).None?
  {
    hide Accepted, FromIc, ChannelFits, AllSafe, FreshChannel, Follows;
    ReadableIff(next);
    var bare := next.(signature := next.signature[2..]);
    AcceptedIff(current, next, nowSeconds);
    AcceptedIff(current, bare, nowSeconds);
    ReadableIff(bare);
    BareFits(next);
    if current.Some? {
      BareFollows(current.value, next, nowSeconds);
    } else {
      BareFresh(next, nowSeconds);
    }
  }

  lemma BareFits(c: Channel)
    requires ChannelFits(c) && Prefixed(c.signature)
    ensures var bare := c.(signature := c.signature[2..]); ChannelFits(bare) && !Prefixed(bare.signature)
  {
    hide ConfigFits, AmountText, NumberText, Value;
    var digits := c.signature[2..];
    assert Bare(c.signature) == digits;
    assert digits[1] != 'x' && digits[1] != 'X';
    assert Bare(digits) == digits;
  }

  lemma BareFollows(c: Channel, d: Channel, nowSeconds: nat)
    requires ChannelFits(c) && ChannelFits(d) && Prefixed(d.signature)
    requires ChannelFits(d.(signature := d.signature[2..]))
    ensures Follows(c, d, nowSeconds) <==> Follows(c, d.(signature := d.signature[2..]), nowSeconds)
  {
    hide Value;
  }

  lemma BareFresh(d: Channel, nowSeconds: nat)
    requires Prefixed(d.signature)
    ensures FreshChannel(d, nowSeconds) <==> FreshChannel(d.(signature := d.signature[2..]), nowSeconds)
  {
  }
}
