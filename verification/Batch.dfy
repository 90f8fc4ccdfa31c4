/** Stored payment channels and the server's update rules (rust/facilitator/src/batch.rs).
    Amounts stay decimal text, as stored: several rules compare text, not numbers. */
module Batch {
  import opened Wrappers
  import opened Decimal
  import opened HexUtil

  const MAX_STRING_BYTES := 512
  const MIN_WITHDRAW_DELAY := 900
  const MAX_WITHDRAW_DELAY := 2_592_000

  datatype ChannelConfig = ChannelConfig(
    payer: string,
    payerAuthorizer: string,
    receiver: string,
    receiverAuthorizer: string,
    token: string,
    withdrawDelay: nat,
    salt: string)

  /** A reservation: the next charge may land exactly on `signedMaxClaimable`. */
  datatype Pending = Pending(pendingId: string, signedMaxClaimable: string, expiresAt: nat)

  datatype Channel = Channel(
    channelId: string,
    config: ChannelConfig,
    charged: string,
    signedMax: string,
    signature: string,
    balance: string,
    totalClaimed: string,
    withdrawRequestedAt: nat,
    refundNonce: string,
    onchainSyncedAt: Option<nat>,
    lastRequestTimestamp: nat,
    pending: Option<Pending>,
    revision: nat)

  datatype Reason =
    | BadHex | BadAddress | BadDelay | BadAmount | BadPending
    | ChargedAboveSigned | ClaimedAboveSigned | ClaimedAboveBalance
    | CreateNeedsPending | PendingExpired | SignedMismatch | NotFresh
    | ChargeNeedsPending | PendingNotConsumed | ChargeMismatch | Decreased

  type Verdict = Result<(), Reason>

  function ParseU128(value: string): Option<nat> {
    if |value| <= MAX_STRING_BYTES && value != [] && IsDigits(value) && Value(value) <= U128_MAX
    then Some(Value(value)) else None
  }

  /** The stored amount as a number; stored channels always parse. */
  function Amount(value: string): nat {
    if ParseU128(value).Some? then ParseU128(value).value else 0
  }

  /** validate_decimal. */
  predicate IsDecimal(value: string) {
    |value| <= MAX_STRING_BYTES && ParsedU256(value).Some?
  }

  /** validate_hex. */
  predicate IsHexOf(value: string, bytes: nat) {
    |value| <= MAX_STRING_BYTES && IsHex(Strip0x(value)) && |Strip0x(value)| == 2 * bytes
  }

  /** parse_address: twenty bytes, not all zero. */
  predicate IsAddress(value: string) {
    && IsHex(Strip0x(value)) && |Strip0x(value)| == 40
    && exists i :: 0 <= i < 40 && Strip0x(value)[i] != '0'
  }

  function ValidateConfig(c: ChannelConfig): Verdict {
    if !IsAddress(c.payer) || !IsAddress(c.receiver) || !IsAddress(c.receiverAuthorizer) || !IsAddress(c.token)
      then Err(BadAddress)
    else if !IsHex(Strip0x(c.payerAuthorizer)) || |Strip0x(c.payerAuthorizer)| != 40 then Err(BadAddress)
    else if !IsHexOf(c.salt, 32) then Err(BadHex)
    else if !(MIN_WITHDRAW_DELAY <= c.withdrawDelay <= MAX_WITHDRAW_DELAY) then Err(BadDelay)
    else Ok(())
  }

  /** validate_stored_channel_voucher up to the signature: the three amount bounds. */
  function ValidateVoucherAmounts(c: Channel): Verdict {
    var charged, signed := ParseU128(c.charged), ParseU128(c.signedMax);
    var claimed, balance := ParseU128(c.totalClaimed), ParseU128(c.balance);
    if charged.None? || signed.None? || claimed.None? || balance.None? then Err(BadAmount)
    else if charged.value > signed.value then Err(ChargedAboveSigned)
    else if claimed.value > signed.value then Err(ClaimedAboveSigned)
    else if claimed.value > balance.value then Err(ClaimedAboveBalance)
    else if !IsAddress(c.config.payerAuthorizer) then Err(BadAddress)
    else Ok(())
  }

  function ValidatePending(c: Channel): Verdict {
    match c.pending
    case None => Ok(())
    case Some(p) =>
      if |p.pendingId| > MAX_STRING_BYTES || p.pendingId == "" then Err(BadPending)
      else if !IsDecimal(p.signedMaxClaimable) || ParseU128(p.signedMaxClaimable).None? then Err(BadAmount)
      else if Amount(p.signedMaxClaimable) < Amount(c.charged) then Err(BadPending)
      else if p.expiresAt == 0 then Err(BadPending)
      else Ok(())
  }

  /** validate_batch_channel without the channel-id hash and the voucher signature. */
  function ValidateChannel(c: Channel): Verdict {
    if !IsHexOf(c.channelId, 32) then Err(BadHex)
    else if ValidateConfig(c.config).Err? then ValidateConfig(c.config)
    else if !IsDecimal(c.charged) || !IsDecimal(c.signedMax) || ParseU128(c.balance).None?
      || !IsDecimal(c.totalClaimed) || !IsDecimal(c.refundNonce) then Err(BadAmount)
    else if !IsHexOf(c.signature, 65) then Err(BadHex)
    else if ValidateVoucherAmounts(c).Err? then ValidateVoucherAmounts(c)
    else ValidatePending(c)
  }

  /** Milliseconds of a whole-second clock, saturating like the source. */
  function MillisOf(nowSeconds: nat): nat {
    if nowSeconds * 1000 > U64_MAX then U64_MAX else nowSeconds * 1000
  }

  predicate Live(p: Option<Pending>, nowSeconds: nat) {
    p.Some? && p.value.expiresAt > MillisOf(nowSeconds)
  }

  function ValidateCreate(next: Channel, nowSeconds: nat): Verdict {
    if next.pending.None? then Err(CreateNeedsPending)
    else if !Live(next.pending, nowSeconds) then Err(PendingExpired)
    else if next.signedMax != next.pending.value.signedMaxClaimable then Err(SignedMismatch)
    else if next.charged != "0" || next.totalClaimed != "0" || next.refundNonce != "0" || next.balance != "0"
      || next.withdrawRequestedAt != 0 || next.onchainSyncedAt.Some? then Err(NotFresh)
    else Ok(())
  }

  function ValidateChargeIncrease(current: Channel, next: Channel, nowSeconds: nat): Verdict {
    if ParseU128(current.charged).None? || ParseU128(next.charged).None? then Err(BadAmount)
    else if Amount(next.charged) <= Amount(current.charged) then Ok(())
    else if current.pending.None? then Err(ChargeNeedsPending)
    else if !Live(current.pending, nowSeconds) then Err(PendingExpired)
    else if next.pending.Some? then Err(PendingNotConsumed)
    else if next.signedMax != current.pending.value.signedMaxClaimable then Err(SignedMismatch)
    else if next.charged != current.pending.value.signedMaxClaimable then Err(ChargeMismatch)
    else Ok(())
  }

  /** require_monotonic_decimal compares 32-byte words. */
  function RequireMonotonic(current: string, next: string): Verdict {
    match (ParsedU256(current), ParsedU256(next))
    case (Some(a), Some(b)) => if BytesLess(b, a) then Err(Decreased) else Ok(())
    case _ => Err(BadAmount)
  }

  /** validate_batch_channel_transition. */
  function ValidateTransition(current: Option<Channel>, next: Channel, nowSeconds: nat): Verdict {
    match current
    case None => ValidateCreate(next, nowSeconds)
    case Some(c) =>
      if ValidateChargeIncrease(c, next, nowSeconds).Err? then ValidateChargeIncrease(c, next, nowSeconds)
      else if RequireMonotonic(c.charged, next.charged).Err? then RequireMonotonic(c.charged, next.charged)
      else if RequireMonotonic(c.signedMax, next.signedMax).Err? then RequireMonotonic(c.signedMax, next.signedMax)
      else if RequireMonotonic(c.totalClaimed, next.totalClaimed).Err?
        then RequireMonotonic(c.totalClaimed, next.totalClaimed)
      else if RequireMonotonic(c.refundNonce, next.refundNonce).Err?
        then RequireMonotonic(c.refundNonce, next.refundNonce)
      else if next.lastRequestTimestamp < c.lastRequestTimestamp then Err(Decreased)
      else Ok(())
  }

  /** A channel that holds nothing but its first reservation. */
  predicate PendingOnly(c: Channel) {
    && c.pending.Some? && c.pending.value.signedMaxClaimable == c.signedMax
    && c.charged == "0" && c.balance == "0" && c.totalClaimed == "0" && c.refundNonce == "0"
    && c.withdrawRequestedAt == 0 && c.onchainSyncedAt.None?
  }

  /** The rules an update must pass before it is stored. */
  predicate Accepted(current: Option<Channel>, next: Channel, nowSeconds: nat) {
    ValidateChannel(next).Ok? && ValidateTransition(current, next, nowSeconds).Ok?
  }

  /** validate_claim_voucher_signature up to the signature. */
  predicate ClaimWithinVoucher(maxClaimable: string, totalClaimed: string) {
    && ParseU128(maxClaimable).Some? && ParseU128(totalClaimed).Some?
    && Amount(totalClaimed) <= Amount(maxClaimable)
  }

  // ---- what acceptance means -----------------------------------------------------------

  /** Word comparison is numeric comparison. */
  lemma MonotonicIsNumeric(current: string, next: string)
    ensures RequireMonotonic(current, next).Ok? <==>
      ParsedU256(current).Some? && ParsedU256(next).Some? && Value(current) <= Value(next)
  {
    if ParsedU256(current).Some? && ParsedU256(next).Some? {
      BEToBytes(Value(current), WORD);
      BEToBytes(Value(next), WORD);
      WordOrder(ParsedU256(next).value, ParsedU256(current).value);
    }
  }

  lemma ParsesAgree(value: string)
    requires ParseU128(value).Some?
    ensures ParsedU256(value).Some? && IsDecimal(value) && Amount(value) == Value(value)
  {
    Pow256Constants();
    assert (U128_MAX + 1) * (U128_MAX + 1) > U128_MAX;
  }

  /** What every stored channel satisfies. */
  ghost predicate WellFormed(c: Channel) {
    && ParseU128(c.charged).Some? && ParseU128(c.signedMax).Some?
    && ParseU128(c.totalClaimed).Some? && ParseU128(c.balance).Some?
    && ParsedU256(c.refundNonce).Some?
    && Amount(c.charged) <= Amount(c.signedMax)
    && Amount(c.totalClaimed) <= Amount(c.signedMax)
    && Amount(c.totalClaimed) <= Amount(c.balance)
    && (c.pending.Some? ==>
        ParseU128(c.pending.value.signedMaxClaimable).Some?
        && Amount(c.charged) <= Amount(c.pending.value.signedMaxClaimable))
  }

  lemma ValidMeansWellFormed(c: Channel)
    requires ValidateChannel(c).Ok?
    ensures WellFormed(c)
  {
    hide ParseU128, ParsedU256, Amount;
    assert IsDecimal(c.refundNonce);
    ChannelVerdicts(c);
    VoucherMeaning(c);
  }

  lemma ChannelVerdicts(c: Channel)
    requires ValidateChannel(c).Ok?
    ensures ValidateVoucherAmounts(c).Ok? && ValidatePending(c).Ok?
  {
    hide ValidateVoucherAmounts, ValidatePending, ValidateConfig, IsDecimal, ParseU128, IsHexOf;
  }

  lemma VoucherMeaning(c: Channel)
    requires ValidateVoucherAmounts(c).Ok?
    ensures ParseU128(c.charged).Some? && ParseU128(c.signedMax).Some?
    ensures ParseU128(c.totalClaimed).Some? && ParseU128(c.balance).Some?
    ensures Amount(c.charged) <= Amount(c.signedMax)
    ensures Amount(c.totalClaimed) <= Amount(c.signedMax) && Amount(c.totalClaimed) <= Amount(c.balance)
  {
    hide IsAddress;
  }

  ghost predicate NeverFalls(c: Channel, d: Channel) {
    && Amount(c.charged) <= Amount(d.charged)
    && Amount(c.signedMax) <= Amount(d.signedMax)
    && Amount(c.totalClaimed) <= Amount(d.totalClaimed)
    && NonceValue(c) <= NonceValue(d)
    && c.lastRequestTimestamp <= d.lastRequestTimestamp
  }

  function NonceValue(c: Channel): nat {
    if ParsedU256(c.refundNonce).Some? then Value(c.refundNonce) else 0
  }

  /** A rise of the charged total consumes the reservation and lands exactly on its amount. */
  ghost predicate RiseConsumes(c: Channel, d: Channel, nowSeconds: nat) {
    Amount(d.charged) > Amount(c.charged) ==>
      && Live(c.pending, nowSeconds)
      && d.pending.None?
      && d.charged == c.pending.value.signedMaxClaimable == d.signedMax
  }

  lemma AcceptedStep(c: Channel, d: Channel, nowSeconds: nat)
    requires WellFormed(c) && Accepted(Some(c), d, nowSeconds)
    ensures WellFormed(d) && NeverFalls(c, d) && RiseConsumes(c, d, nowSeconds)
  {
    ValidMeansWellFormed(d);
    TransitionVerdicts(c, d, nowSeconds);
    hide ValidateChannel, ValidateTransition, RequireMonotonic, ParseU128, ParsedU256, Amount, Value, Live;
    MonotonicAmounts(c.charged, d.charged);
    MonotonicAmounts(c.signedMax, d.signedMax);
    MonotonicAmounts(c.totalClaimed, d.totalClaimed);
    MonotonicIsNumeric(c.refundNonce, d.refundNonce);
  }

  lemma TransitionVerdicts(c: Channel, d: Channel, nowSeconds: nat)
    requires ValidateTransition(Some(c), d, nowSeconds).Ok?
    ensures ValidateChargeIncrease(c, d, nowSeconds).Ok?
    ensures RequireMonotonic(c.charged, d.charged).Ok? && RequireMonotonic(c.signedMax, d.signedMax).Ok?
    ensures RequireMonotonic(c.totalClaimed, d.totalClaimed).Ok? && RequireMonotonic(c.refundNonce, d.refundNonce).Ok?
    ensures c.lastRequestTimestamp <= d.lastRequestTimestamp
  {
    hide RequireMonotonic, ValidateChargeIncrease;
  }

  lemma MonotonicAmounts(a: string, b: string)
    requires ParseU128(a).Some? && ParseU128(b).Some? && RequireMonotonic(a, b).Ok?
    ensures Amount(a) <= Amount(b)
  {
    ParsesAgree(a);
    ParsesAgree(b);
    MonotonicIsNumeric(a, b);
  }

  lemma AcceptedCreate(d: Channel, nowSeconds: nat)
    requires Accepted(None, d, nowSeconds)
    ensures WellFormed(d) && d.pending.Some? && Amount(d.charged) == 0
  {
    ValidMeansWellFormed(d);
    ZeroAmount();
  }

  lemma ZeroAmount()
    ensures ParseU128("0") == Some(0) && Amount("0") == 0
  {
    assert "0"[..0] == "";
  }
}
