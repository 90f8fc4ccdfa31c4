/** The server's channel rules as exact conditions on the texts (rust/facilitator/src/batch.rs:724-889,
    1082-1107): which channels are valid, which updates are accepted, which claims a voucher covers. */
module BatchRules {
  import opened Wrappers
  import opened Decimal
  import opened HexUtil
  import opened Batch

  function Bare(value: string): string {
    if |value| >= 2 && value[0] == '0' && (value[1] == 'x' || value[1] == 'X') then value[2..] else value
  }

  /** `bytes` bytes of hex, with or without `0x`. */
  predicate HexText(value: string, bytes: nat) {
    && |Bare(value)| == 2 * bytes
    && forall i :: 0 <= i < 2 * bytes ==>
         '0' <= Bare(value)[i] <= '9' || 'a' <= Bare(value)[i] <= 'f' || 'A' <= Bare(value)[i] <= 'F'
  }

  /** Twenty bytes of hex, not all zero. */
  predicate AddressText(value: string) {
    && HexText(value, 20)
    && exists i :: 0 <= i < 40 && Bare(value)[i] != '0'
  }

  predicate NumberText(value: string) {
    0 < |value| <= 512 && forall i :: 0 <= i < |value| ==> '0' <= value[i] <= '9'
  }

  predicate AmountText(value: string) {
    NumberText(value) && Value(value) <= U128_MAX
  }

  /** Three configuration addresses and the two authorizers, the delay within its bounds, the salt. */
  predicate ConfigFits(c: ChannelConfig) {
    && AddressText(c.payer) && AddressText(c.payerAuthorizer) && AddressText(c.receiver)
    && AddressText(c.receiverAuthorizer) && AddressText(c.token)
    && 900 <= c.withdrawDelay <= 2_592_000
    && |c.salt| <= 512 && HexText(c.salt, 32)
  }

  predicate PendingFits(c: Channel)
    requires AmountText(c.charged)
  {
    c.pending.Some? ==>
      var p := c.pending.value;
      && 0 < |p.pendingId| <= 512 && p.expiresAt > 0
      && AmountText(p.signedMaxClaimable) && Value(c.charged) <= Value(p.signedMaxClaimable)
  }

  predicate ChannelFits(c: Channel) {
    && |c.channelId| <= 512 && HexText(c.channelId, 32) && |c.signature| <= 512 && HexText(c.signature, 65)
    && ConfigFits(c.config)
    && AmountText(c.charged) && AmountText(c.signedMax) && AmountText(c.totalClaimed) && AmountText(c.balance)
    && NumberText(c.refundNonce) && Value(c.refundNonce) < Pow256(32)
    && Value(c.charged) <= Value(c.signedMax)
    && Value(c.totalClaimed) <= Value(c.signedMax) && Value(c.totalClaimed) <= Value(c.balance)
    && PendingFits(c)
  }

  lemma HexTextIs(value: string, bytes: nat)
    ensures HexText(value, bytes) <==> IsHex(Strip0x(value)) && |Strip0x(value)| == 2 * bytes
  {
    BareIs(value);
  }

  lemma BareIs(value: string)
    ensures Bare(value) == Strip0x(value)
  {
    if |value| >= 2 {
      assert value[..2] == [value[0], value[1]];
    }
  }

  lemma AddressIs(value: string)
    ensures AddressText(value) <==> IsAddress(value)
  {
    HexTextIs(value, 20);
    BareIs(value);
  }

  lemma NumberIs(value: string)
    ensures NumberText(value) <==> value != [] && |value| <= 512 && IsDigits(value)
  {
  }

  lemma AmountIs(value: string)
    ensures ParseU128(value).Some? <==> AmountText(value)
    ensures AmountText(value) ==> Amount(value) == Value(value) && IsDecimal(value)
  {
    NumberIs(value);
    if ParseU128(value).Some? {
      ParsesAgree(value);
    }
  }

  lemma DecimalIs(value: string)
    ensures IsDecimal(value) <==> NumberText(value) && Value(value) < Pow256(32)
  {
    NumberIs(value);
  }

  lemma ConfigIs(c: ChannelConfig)
    ensures ConfigFits(c) <==> ValidateConfig(c).Ok? && IsAddress(c.payerAuthorizer)
  {
    hide IsAddress, AddressText, HexText, IsHex;
    AddressIs(c.payer);
    AddressIs(c.payerAuthorizer);
    AddressIs(c.receiver);
    AddressIs(c.receiverAuthorizer);
    AddressIs(c.token);
    HexTextIs(c.salt, 32);
    AuthorizerHex(c.payerAuthorizer);
  }

  lemma AuthorizerHex(value: string)
    ensures IsAddress(value) ==> IsHex(Strip0x(value)) && |Strip0x(value)| == 40
  {
  }

  lemma AmountsAre(c: Channel)
    requires AmountText(c.charged) && AmountText(c.signedMax) && AmountText(c.totalClaimed) && AmountText(c.balance)
    ensures ValidateVoucherAmounts(c).Ok? <==>
      && Value(c.charged) <= Value(c.signedMax)
      && Value(c.totalClaimed) <= Value(c.signedMax) && Value(c.totalClaimed) <= Value(c.balance)
      && IsAddress(c.config.payerAuthorizer)
  {
    hide AmountText, IsAddress, ParseU128, Amount, Value;
    AmountIs(c.charged);
    AmountIs(c.signedMax);
    AmountIs(c.totalClaimed);
    AmountIs(c.balance);
    ParsedAmount(c.charged);
    ParsedAmount(c.signedMax);
    ParsedAmount(c.totalClaimed);
    ParsedAmount(c.balance);
  }

  lemma ParsedAmount(value: string)
    ensures ParseU128(value).Some? ==> ParseU128(value).value == Amount(value)
  {
  }

  lemma PendingIs(c: Channel)
    requires AmountText(c.charged)
    ensures ValidatePending(c).Ok? <==> PendingFits(c)
  {
    hide AmountText, ParseU128, Amount, Value, IsDecimal;
    AmountIs(c.charged);
    if c.pending.Some? {
      AmountIs(c.pending.value.signedMaxClaimable);
      IdIs(c.pending.value.pendingId);
    }
  }

  lemma IdIs(id: string)
    ensures id == "" <==> |id| == 0
  {
  }

  lemma AmountsParse(c: Channel)
    ensures ValidateVoucherAmounts(c).Ok? ==>
      AmountText(c.charged) && AmountText(c.signedMax) && AmountText(c.totalClaimed) && AmountText(c.balance)
  {
    hide AmountText, IsAddress, ParseU128, Amount;
    AmountIs(c.charged);
    AmountIs(c.signedMax);
    AmountIs(c.totalClaimed);
    AmountIs(c.balance);
  }

  /** A channel is valid if and only if every field fits, the delay between fifteen minutes and thirty days, the
      charged and the claimed total within the signed limit, and the claimed one within the balance. */
  lemma ValidIff(c: Channel)
    ensures ValidateChannel(c).Ok? <==> ChannelFits(c)
  {
    hide HexText, ConfigFits, ValidateConfig, ValidateVoucherAmounts, ValidatePending, PendingFits, IsHex, IsAddress,
      ParseU128, IsDecimal, AmountText, NumberText, Value;
    HexTextIs(c.channelId, 32);
    HexTextIs(c.signature, 65);
    ConfigIs(c.config);
    AmountIs(c.balance);
    DecimalIs(c.refundNonce);
    AmountsParse(c);
    if AmountText(c.charged) && AmountText(c.signedMax) && AmountText(c.totalClaimed) && AmountText(c.balance) {
      AmountIs(c.charged);
      AmountIs(c.signedMax);
      AmountIs(c.totalClaimed);
      AmountsAre(c);
      PendingIs(c);
    }
    ConfigAuthorizer(c.config);
  }

  lemma ConfigAuthorizer(c: ChannelConfig)
    ensures ConfigFits(c) ==> IsAddress(c.payerAuthorizer)
  {
    hide IsAddress;
    AddressIs(c.payerAuthorizer);
  }

  /** A new channel: one open reservation for what is signed, and nothing else yet. */
  predicate FreshChannel(next: Channel, nowSeconds: nat) {
    && next.pending.Some? && next.pending.value.expiresAt > MillisOf(nowSeconds)
    && next.signedMax == next.pending.value.signedMaxClaimable
    && next.charged == "0" && next.totalClaimed == "0" && next.refundNonce == "0" && next.balance == "0"
    && next.withdrawRequestedAt == 0 && next.onchainSyncedAt.None?
  }

  /** No total, nonce or timestamp falls, and a rise consumes an open reservation and lands on its amount. */
  predicate Follows(c: Channel, d: Channel, nowSeconds: nat)
    requires ChannelFits(c) && ChannelFits(d)
  {
    && Value(c.charged) <= Value(d.charged) && Value(c.signedMax) <= Value(d.signedMax)
    && Value(c.totalClaimed) <= Value(d.totalClaimed) && Value(c.refundNonce) <= Value(d.refundNonce)
    && c.lastRequestTimestamp <= d.lastRequestTimestamp
    && (Value(d.charged) > Value(c.charged) ==>
          && c.pending.Some? && c.pending.value.expiresAt > MillisOf(nowSeconds) && d.pending.None?
          && d.signedMax == c.pending.value.signedMaxClaimable == d.charged)
  }

  lemma RiseIs(c: Channel, d: Channel, nowSeconds: nat)
    requires AmountText(c.charged) && AmountText(d.charged)
    ensures ValidateChargeIncrease(c, d, nowSeconds).Ok? <==>
      (Value(d.charged) > Value(c.charged) ==>
          && c.pending.Some? && c.pending.value.expiresAt > MillisOf(nowSeconds) && d.pending.None?
          && d.signedMax == c.pending.value.signedMaxClaimable == d.charged)
  {
    hide AmountText, ParseU128, Amount, Value, MillisOf;
    AmountIs(c.charged);
    AmountIs(d.charged);
  }

  lemma OrderIs(a: string, b: string)
    requires NumberText(a) && Value(a) < Pow256(32) && NumberText(b) && Value(b) < Pow256(32)
    ensures RequireMonotonic(a, b).Ok? <==> Value(a) <= Value(b)
  {
    hide RequireMonotonic;
    DecimalIs(a);
    DecimalIs(b);
    MonotonicIsNumeric(a, b);
  }

  lemma AmountIsNumber(value: string)
    requires AmountText(value)
    ensures NumberText(value) && Value(value) < Pow256(32)
  {
    AmountIs(value);
    DecimalIs(value);
  }

  /** An update of a valid channel is accepted if and only if the new record is valid and follows the old one; a
      create, if and only if the record is valid and fresh. */
  lemma AcceptedIff(current: Option<Channel>, next: Channel, nowSeconds: nat)
    requires current.Some? ==> ChannelFits(current.value)
    ensures Accepted(current, next, nowSeconds) <==>
      ChannelFits(next) && (if current.None? then FreshChannel(next, nowSeconds) else Follows(current.value, next, nowSeconds))
  {
    hide ChannelFits, ValidateChannel, MillisOf, Follows, ValidateTransition;
    ValidIff(next);
    if ChannelFits(next) {
      if current.None? {
        CreateIs(next, nowSeconds);
      } else {
        FollowsIs(current.value, next, nowSeconds);
      }
    }
  }

  lemma CreateIs(next: Channel, nowSeconds: nat)
    ensures ValidateTransition(None, next, nowSeconds).Ok? <==> FreshChannel(next, nowSeconds)
  {
    hide MillisOf;
  }

  lemma FollowsIs(c: Channel, d: Channel, nowSeconds: nat)
    requires ChannelFits(c) && ChannelFits(d)
    ensures ValidateTransition(Some(c), d, nowSeconds).Ok? <==> Follows(c, d, nowSeconds)
  {
    hide ConfigFits, PendingFits, HexText, AmountText, NumberText, Value, MillisOf, ValidateChargeIncrease, RequireMonotonic;
    AmountIsNumber(c.charged);
    AmountIsNumber(c.signedMax);
    AmountIsNumber(c.totalClaimed);
    AmountIsNumber(d.charged);
    AmountIsNumber(d.signedMax);
    AmountIsNumber(d.totalClaimed);
    OrderIs(c.charged, d.charged);
    OrderIs(c.signedMax, d.signedMax);
    OrderIs(c.totalClaimed, d.totalClaimed);
    OrderIs(c.refundNonce, d.refundNonce);
    RiseIs(c, d, nowSeconds);
  }

  /** A voucher covers a claim if and only if both are amounts and the claim is not above the limit. */
  lemma VoucherCoversIff(maxClaimable: string, totalClaimed: string)
    ensures ClaimWithinVoucher(maxClaimable, totalClaimed) <==>
      AmountText(maxClaimable) && AmountText(totalClaimed) && Value(totalClaimed) <= Value(maxClaimable)
  {
    hide AmountText, ParseU128, Amount, Value;
    AmountIs(maxClaimable);
    AmountIs(totalClaimed);
  }
}
