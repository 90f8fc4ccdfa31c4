/** The TypeScript client of the channel store (src/icBatchChannelStorage.ts): conversions, guards,
    and the proof that what it submits the server accepts. Numbers of that side are JavaScript
    numbers; here they are integers with the safe-integer check written out. */
module ChannelStorage {
  import opened Wrappers
  import opened Decimal
  import opened HexUtil
  import opened Batch

  const MAX_SAFE: nat := 0x1F_FFFF_FFFF_FFFF

  datatype ClientPending = ClientPending(pendingId: string, signedMaxClaimable: string, expiresAt: int)

  datatype ClientConfig = ClientConfig(
    payer: string,
    payerAuthorizer: string,
    receiver: string,
    receiverAuthorizer: string,
    token: string,
    withdrawDelay: int,
    salt: string)

  datatype ClientChannel = ClientChannel(
    channelId: string,
    config: ClientConfig,
    charged: string,
    signedMax: string,
    signature: string,
    balance: string,
    totalClaimed: string,
    withdrawRequestedAt: int,
    refundNonce: int,
    onchainSyncedAt: Option<int>,
    lastRequestTimestamp: int,
    pending: Option<ClientPending>)

  predicate Safe(n: int) {
    0 <= n <= MAX_SAFE
  }

  predicate PositiveSafe(n: int) {
    0 < n <= MAX_SAFE
  }

  /** requireHexBytes: `0x`, then exactly `bytes` bytes of hex. */
  predicate HexBytes(value: string, bytes: nat) {
    |value| == 2 + 2 * bytes && value[..2] == "0x" && IsHex(value[2..])
  }

  predicate NonZeroAddress(value: string) {
    HexBytes(value, 20) && exists i :: 2 <= i < |value| && value[i] != '0'
  }

  /** requireUint128DecimalString. */
  predicate Uint128Text(value: string) {
    |value| <= MAX_STRING_BYTES && value != [] && IsDigits(value) && Value(value) <= U128_MAX
  }

  /** requireChannelAmountBounds, on texts that are uint128. */
  predicate AmountBounds(charged: string, signedMax: string, totalClaimed: string, balance: string) {
    && Uint128Text(charged) && Uint128Text(signedMax) && Uint128Text(totalClaimed) && Uint128Text(balance)
    && Value(charged) <= Value(signedMax)
    && Value(totalClaimed) <= Value(signedMax)
    && Value(totalClaimed) <= Value(balance)
  }

  predicate PendingText(id: string, signed: string, charged: string) {
    && |id| <= MAX_STRING_BYTES && id != ""
    && Uint128Text(signed)
    && (IsDigits(charged) ==> Value(charged) <= Value(signed))
  }

  predicate ConfigText(payer: string, payerAuthorizer: string, receiver: string, receiverAuthorizer: string,
                       token: string, delay: int, salt: string) {
    && NonZeroAddress(payer) && NonZeroAddress(payerAuthorizer) && NonZeroAddress(receiver)
    && NonZeroAddress(receiverAuthorizer) && NonZeroAddress(token)
    && MIN_WITHDRAW_DELAY <= delay <= MAX_WITHDRAW_DELAY
    && HexBytes(salt, 32)
  }

  function OptionInt(o: Option<nat>): Option<int> {
    match o case None => None case Some(n) => Some(n)
  }

  /** safeDecimalNumber: any digits, leading zeros included, whose value is a safe integer. */
  predicate SafeDecimal(value: string) {
    |value| <= MAX_STRING_BYTES && value != [] && IsDigits(value) && Value(value) <= MAX_SAFE
  }

  /** fromIcChannel; `None` is a thrown error. */
  function FromIc(c: Channel): Option<ClientChannel> {
    if !AmountBounds(c.charged, c.signedMax, c.totalClaimed, c.balance) || !HexBytes(c.channelId, 32) then None
    else if !ConfigText(c.config.payer, c.config.payerAuthorizer, c.config.receiver, c.config.receiverAuthorizer,
                        c.config.token, c.config.withdrawDelay, c.config.salt) then None
    else if !HexBytes(c.signature, 65) || !Safe(c.withdrawRequestedAt) || !SafeDecimal(c.refundNonce)
      || !Safe(c.lastRequestTimestamp) then None
    else if c.onchainSyncedAt.Some? && !Safe(c.onchainSyncedAt.value) then None
    else if c.pending.Some? && !(PendingText(c.pending.value.pendingId, c.pending.value.signedMaxClaimable, c.charged)
                                 && PositiveSafe(c.pending.value.expiresAt)) then None
    else Some(ClientChannel(
        c.channelId,
        ClientConfig(c.config.payer, c.config.payerAuthorizer, c.config.receiver, c.config.receiverAuthorizer,
                     c.config.token, c.config.withdrawDelay, c.config.salt),
        c.charged, c.signedMax, c.signature, c.balance, c.totalClaimed, c.withdrawRequestedAt,
        Value(c.refundNonce), OptionInt(c.onchainSyncedAt), c.lastRequestTimestamp,
        match c.pending
        case None => None
        case Some(p) => Some(ClientPending(p.pendingId, p.signedMaxClaimable, p.expiresAt))))
  }

  /** toIcChannel; the refund nonce is printed, so it is always canonical. */
  function ToIc(c: ClientChannel, revision: nat): Option<Channel> {
    if !AmountBounds(c.charged, c.signedMax, c.totalClaimed, c.balance) || !HexBytes(c.channelId, 32) then None
    else if !ConfigText(c.config.payer, c.config.payerAuthorizer, c.config.receiver, c.config.receiverAuthorizer,
                        c.config.token, c.config.withdrawDelay, c.config.salt) then None
    else if !HexBytes(c.signature, 65) || !Safe(c.withdrawRequestedAt) || !Safe(c.refundNonce)
      || !Safe(c.lastRequestTimestamp) then None
    else if c.onchainSyncedAt.Some? && !Safe(c.onchainSyncedAt.value) then None
    else if c.pending.Some? && !(PendingText(c.pending.value.pendingId, c.pending.value.signedMaxClaimable, c.charged)
                                 && PositiveSafe(c.pending.value.expiresAt)) then None
    else Some(Channel(
        c.channelId,
        ChannelConfig(c.config.payer, c.config.payerAuthorizer, c.config.receiver, c.config.receiverAuthorizer,
                      c.config.token, c.config.withdrawDelay, c.config.salt),
        c.charged, c.signedMax, c.signature, c.balance, c.totalClaimed, c.withdrawRequestedAt,
        Print(c.refundNonce),
        (match c.onchainSyncedAt case None => None case Some(n) => Some(n)), c.lastRequestTimestamp,
        (match c.pending
         case None => None
         case Some(p) => Some(Pending(p.pendingId, p.signedMaxClaimable, p.expiresAt))), revision))
  }

  /** cloneChannel. */
  function Clone(c: ClientChannel): Option<ClientChannel> {
    match ToIc(c, 0)
    case None => None
    case Some(ic) => FromIc(ic)
  }

  // ---- the client's guards; times are milliseconds --------------------------------------

  predicate LiveMs(p: Option<ClientPending>, nowMs: nat) {
    p.Some? && p.value.expiresAt > nowMs
  }

  /** requireInitialChannelCreate. */
  predicate CreateGuard(next: ClientChannel, nowMs: nat) {
    && LiveMs(next.pending, nowMs)
    && next.signedMax == next.pending.value.signedMaxClaimable
    && next.charged == "0" && next.balance == "0" && next.totalClaimed == "0"
    && next.refundNonce == 0 && next.withdrawRequestedAt == 0 && next.onchainSyncedAt.None?
  }

  /** requirePendingChargeCommit. */
  predicate ChargeGuard(current: ClientChannel, next: ClientChannel, nowMs: nat) {
    && IsDigits(current.charged) && IsDigits(next.charged)
    && (Value(next.charged) > Value(current.charged) ==>
        && LiveMs(current.pending, nowMs)
        && next.pending.None?
        && next.signedMax == current.pending.value.signedMaxClaimable == next.charged)
  }

  /** requireStablePendingRequest. */
  predicate StablePending(current: ClientChannel, next: ClientChannel) {
    next.pending.Some? && current.pending.Some? && current.pending.value.pendingId == next.pending.value.pendingId ==>
      current.pending == next.pending && current.signedMax == next.signedMax
  }

  predicate MonotonicText(current: string, next: string) {
    IsDigits(current) && IsDigits(next) && Value(current) <= Value(next)
  }

  /** requireStableChannelConfig: hex is compared without case. */
  predicate StableConfig(a: ClientConfig, b: ClientConfig) {
    && Lower(a.payer) == Lower(b.payer) && Lower(a.payerAuthorizer) == Lower(b.payerAuthorizer)
    && Lower(a.receiver) == Lower(b.receiver) && Lower(a.receiverAuthorizer) == Lower(b.receiverAuthorizer)
    && Lower(a.token) == Lower(b.token) && Lower(a.salt) == Lower(b.salt)
    && a.withdrawDelay == b.withdrawDelay
  }

  /** requireMonotonicChannelUpdate. */
  predicate UpdateGuard(current: Option<ClientChannel>, next: ClientChannel, nowMs: nat) {
    match current
    case None => CreateGuard(next, nowMs)
    case Some(c) =>
      && StableConfig(c.config, next.config)
      && ChargeGuard(c, next, nowMs)
      && StablePending(c, next)
      && MonotonicText(c.charged, next.charged)
      && MonotonicText(c.signedMax, next.signedMax)
      && MonotonicText(c.totalClaimed, next.totalClaimed)
      && c.refundNonce <= next.refundNonce
      && Safe(c.lastRequestTimestamp) && c.lastRequestTimestamp <= next.lastRequestTimestamp
  }

  // ---- the client is at least as strict as the server -----------------------------------

  lemma HexBytesAccepted(value: string, bytes: nat)
    requires HexBytes(value, bytes)
    ensures Strip0x(value) == value[2..] && IsHex(Strip0x(value)) && |Strip0x(value)| == 2 * bytes
    ensures bytes <= 100 ==> IsHexOf(value, bytes)
  {
  }

  lemma AddressAccepted(value: string)
    requires NonZeroAddress(value)
    ensures IsAddress(value)
  {
    HexBytesAccepted(value, 20);
    var i :| 2 <= i < |value| && value[i] != '0';
    assert Strip0x(value)[i - 2] != '0';
  }

  lemma TextParses(value: string)
    requires Uint128Text(value)
    ensures ParseU128(value) == Some(Value(value)) && Amount(value) == Value(value) && IsDecimal(value)
  {
    ParsesAgree(value);
  }

  lemma NonceParses(n: nat)
    requires n <= MAX_SAFE
    ensures IsDecimal(Print(n)) && Value(Print(n)) == n && SafeDecimal(Print(n))
  {
    ValuePrint(n);
    PrintCanonical(n);
    NonceLength(Print(n));
    SmallFits(n);
  }

  lemma SmallFits(n: nat)
    requires n <= MAX_SAFE
    ensures n < Pow256(WORD)
  {
    Pow256Constants();
    assert (U128_MAX + 1) * (U128_MAX + 1) > U128_MAX;
  }

  lemma NonceLength(s: string)
    requires Canonical(s) && Value(s) <= MAX_SAFE
    ensures |s| <= MAX_STRING_BYTES
  {
    TwentyDigits(s);
  }

  lemma BoundsAccepted(c: Channel)
    requires AmountBounds(c.charged, c.signedMax, c.totalClaimed, c.balance)
    requires NonZeroAddress(c.config.payerAuthorizer)
    ensures IsDecimal(c.charged) && IsDecimal(c.signedMax) && IsDecimal(c.totalClaimed)
    ensures ParseU128(c.balance).Some? && ValidateVoucherAmounts(c).Ok?
  {
    hide ParseU128, Amount, IsDecimal, Value;
    TextParses(c.charged);
    TextParses(c.signedMax);
    TextParses(c.totalClaimed);
    TextParses(c.balance);
    AddressAccepted(c.config.payerAuthorizer);
  }

  lemma ConfigAccepted(c: ChannelConfig)
    requires ConfigText(c.payer, c.payerAuthorizer, c.receiver, c.receiverAuthorizer, c.token, c.withdrawDelay, c.salt)
    ensures ValidateConfig(c).Ok?
  {
    hide IsAddress, NonZeroAddress, IsHexOf, HexBytes, IsHex, Strip0x;
    AddressAccepted(c.payer);
    AddressAccepted(c.receiver);
    AddressAccepted(c.receiverAuthorizer);
    AddressAccepted(c.token);
    AuthorizerIsHex(c.payerAuthorizer);
    HexBytesAccepted(c.salt, 32);
  }

  lemma AuthorizerIsHex(value: string)
    requires NonZeroAddress(value)
    ensures IsHex(Strip0x(value)) && |Strip0x(value)| == 40
  {
    HexBytesAccepted(value, 20);
  }

  /** Whatever toIcChannel lets through passes the server's field and amount-bound checks. */
  lemma SubmittedChannelIsValid(next: ClientChannel, revision: nat)
    requires ToIc(next, revision).Some?
    ensures ValidateChannel(ToIc(next, revision).value).Ok?
  {
    var ic := ToIc(next, revision).value;
    assert HexBytes(ic.channelId, 32) && HexBytes(ic.signature, 65);
    assert AmountBounds(ic.charged, ic.signedMax, ic.totalClaimed, ic.balance);
    hide HexBytes, AmountBounds, IsHexOf, IsDecimal, ParseU128, ValidateConfig, ValidateVoucherAmounts, Amount;
    HexBytesAccepted(ic.channelId, 32);
    HexBytesAccepted(ic.signature, 65);
    ConfigAccepted(ic.config);
    BoundsAccepted(ic);
    NonceParses(next.refundNonce);
    PendingAccepted(ic);
  }

  lemma PendingAccepted(c: Channel)
    requires c.pending.Some? ==>
      PendingText(c.pending.value.pendingId, c.pending.value.signedMaxClaimable, c.charged) && c.pending.value.expiresAt > 0
    requires Uint128Text(c.charged)
    ensures ValidatePending(c).Ok?
  {
    hide ParseU128, Amount, IsDecimal, Value;
    TextParses(c.charged);
    if c.pending.Some? {
      TextParses(c.pending.value.signedMaxClaimable);
    }
  }

  /** One clock reading, cut to milliseconds by one side and to whole seconds by the other. */
  lemma CoarserClock(nanos: nat, expiresAt: int)
    requires expiresAt > nanos / 1_000_000
    ensures expiresAt > MillisOf(nanos / 1_000_000_000)
  {
    assert nanos / 1_000_000_000 * 1000 <= nanos / 1_000_000;
  }

  /** Any create or update the client lets through passes the server's checks at the same clock
      reading. */
  lemma ClientGuardImpliesServerGuard(current: Option<Channel>, next: ClientChannel, revision: nat, nanos: nat)
    requires current.Some? ==> FromIc(current.value).Some?
    requires UpdateGuard(if current.None? then None else FromIc(current.value), next, nanos / 1_000_000)
    requires ToIc(next, revision).Some?
    ensures Accepted(current, ToIc(next, revision).value, nanos / 1_000_000_000)
  {
    hide ValidateChannel;
    SubmittedChannelIsValid(next, revision);
    if current.None? {
      CreatePasses(next, revision, nanos);
    } else {
      UpdatePasses(current.value, next, revision, nanos);
    }
  }

  lemma CreatePasses(next: ClientChannel, revision: nat, nanos: nat)
    requires CreateGuard(next, nanos / 1_000_000) && ToIc(next, revision).Some?
    ensures ValidateCreate(ToIc(next, revision).value, nanos / 1_000_000_000).Ok?
  {
    hide MillisOf, AmountBounds, HexBytes, ConfigText, PendingText;
    CoarserClock(nanos, next.pending.value.expiresAt);
    assert Print(0) == "0";
  }

  lemma UpdatePasses(current: Channel, next: ClientChannel, revision: nat, nanos: nat)
    requires FromIc(current).Some? && ToIc(next, revision).Some?
    requires UpdateGuard(FromIc(current), next, nanos / 1_000_000)
    ensures ValidateTransition(Some(current), ToIc(next, revision).value, nanos / 1_000_000_000).Ok?
  {
    var ic := ToIc(next, revision).value;
    SameTexts(current, next, revision);
    hide FromIc, ToIc, ValidateChargeIncrease, RequireMonotonic, Value, IsDigits, Print, SafeDecimal, Uint128Text, Safe,
      ValidateTransition, UpdateGuard;
    GuardParts(FromIc(current).value, next, nanos / 1_000_000);
    ChargePasses(current, next, ic, nanos);
    TextPasses(current.charged, next.charged);
    TextPasses(current.signedMax, next.signedMax);
    TextPasses(current.totalClaimed, next.totalClaimed);
    NoncePasses(current.refundNonce, next.refundNonce);
    AllPartsPass(current, ic, nanos / 1_000_000_000);
  }

  /** What the server needs of the client's guard. */
  lemma GuardParts(c: ClientChannel, next: ClientChannel, nowMs: nat)
    requires UpdateGuard(Some(c), next, nowMs)
    ensures IsDigits(c.charged) && IsDigits(next.charged) && Value(c.charged) <= Value(next.charged)
    ensures IsDigits(c.signedMax) && IsDigits(next.signedMax) && Value(c.signedMax) <= Value(next.signedMax)
    ensures IsDigits(c.totalClaimed) && IsDigits(next.totalClaimed) && Value(c.totalClaimed) <= Value(next.totalClaimed)
    ensures c.refundNonce <= next.refundNonce && c.lastRequestTimestamp <= next.lastRequestTimestamp
    ensures Value(next.charged) > Value(c.charged) ==>
      && c.pending.Some? && c.pending.value.expiresAt > nowMs
      && next.pending.None?
      && next.signedMax == c.pending.value.signedMaxClaimable == next.charged
  {
    hide StableConfig, StablePending, Value, IsDigits;
  }

  lemma AllPartsPass(current: Channel, next: Channel, nowSeconds: nat)
    requires ValidateChargeIncrease(current, next, nowSeconds).Ok?
    requires RequireMonotonic(current.charged, next.charged).Ok?
    requires RequireMonotonic(current.signedMax, next.signedMax).Ok?
    requires RequireMonotonic(current.totalClaimed, next.totalClaimed).Ok?
    requires RequireMonotonic(current.refundNonce, next.refundNonce).Ok?
    requires current.lastRequestTimestamp <= next.lastRequestTimestamp
    ensures ValidateTransition(Some(current), next, nowSeconds).Ok?
  {
    hide ValidateChargeIncrease, RequireMonotonic;
  }

  /** The fields both sides compare are the same text on both sides. */
  lemma SameTexts(current: Channel, next: ClientChannel, revision: nat)
    requires FromIc(current).Some? && ToIc(next, revision).Some?
    ensures var c, d := FromIc(current).value, ToIc(next, revision).value;
      && c.charged == current.charged && c.signedMax == current.signedMax && c.totalClaimed == current.totalClaimed
      && d.charged == next.charged && d.signedMax == next.signedMax && d.totalClaimed == next.totalClaimed
      && Uint128Text(c.charged) && Uint128Text(c.signedMax) && Uint128Text(c.totalClaimed)
      && Uint128Text(next.charged) && Uint128Text(next.signedMax) && Uint128Text(next.totalClaimed)
      && SafeDecimal(current.refundNonce) && c.refundNonce == Value(current.refundNonce)
      && Safe(next.refundNonce) && d.refundNonce == Print(next.refundNonce)
      && c.lastRequestTimestamp == current.lastRequestTimestamp && d.lastRequestTimestamp == next.lastRequestTimestamp
      && d.pending.None? == next.pending.None?
      && c.pending.None? == current.pending.None?
      && (current.pending.Some? ==>
          c.pending.value.signedMaxClaimable == current.pending.value.signedMaxClaimable
          && c.pending.value.expiresAt == current.pending.value.expiresAt)
  {
    hide HexBytes, ConfigText, PendingText, SafeDecimal, Uint128Text, Print;
  }

  lemma ChargePasses(current: Channel, next: ClientChannel, ic: Channel, nanos: nat)
    requires Uint128Text(current.charged) && Uint128Text(ic.charged)
    requires ic.charged == next.charged && ic.signedMax == next.signedMax && ic.pending.None? == next.pending.None?
    requires Value(ic.charged) > Value(current.charged) ==>
      && current.pending.Some? && current.pending.value.expiresAt > nanos / 1_000_000
      && next.pending.None?
      && next.signedMax == current.pending.value.signedMaxClaimable == next.charged
    ensures ValidateChargeIncrease(current, ic, nanos / 1_000_000_000).Ok?
  {
    hide MillisOf, ParseU128, Amount, Value;
    TextParses(current.charged);
    TextParses(ic.charged);
    if Value(ic.charged) > Value(current.charged) {
      CoarserClock(nanos, current.pending.value.expiresAt);
    }
  }

  lemma TextPasses(current: string, next: string)
    requires Uint128Text(current) && Uint128Text(next) && Value(current) <= Value(next)
    ensures RequireMonotonic(current, next).Ok?
  {
    TextParses(current);
    TextParses(next);
    MonotonicIsNumeric(current, next);
  }

  lemma NoncePasses(current: string, next: int)
    requires SafeDecimal(current) && Safe(next) && Value(current) <= next
    ensures RequireMonotonic(current, Print(next)).Ok?
  {
    NonceParses(next);
    SmallFits(Value(current));
    MonotonicIsNumeric(current, Print(next));
  }

  /** cloneChannel is the identity on every channel the client can write at all. */
  lemma CloneIsIdentity(c: ClientChannel)
    requires ToIc(c, 0).Some?
    ensures Clone(c) == Some(c)
  {
    hide HexBytes, ConfigText, PendingText, AmountBounds, Print, SafeDecimal, Value;
    NonceParses(c.refundNonce);
  }

  /** Everything read from the server can be written back, so a clone of it never throws. */
  lemma ReadChannelsAreWritable(ic: Channel, revision: nat)
    requires FromIc(ic).Some?
    ensures ToIc(FromIc(ic).value, revision).Some?
    ensures Clone(FromIc(ic).value) == FromIc(ic)
  {
    hide HexBytes, ConfigText, PendingText, AmountBounds, Print, Clone, Value;
    CloneIsIdentity(FromIc(ic).value);
  }

  /** Write then read: only the revision and leading zeros of the nonce are not kept. */
  lemma ReadWriteRoundTrip(ic: Channel)
    requires FromIc(ic).Some?
    ensures ToIc(FromIc(ic).value, ic.revision) == Some(ic.(refundNonce := Print(Value(ic.refundNonce))))
  {
    hide HexBytes, ConfigText, PendingText, AmountBounds, Print, Value;
  }

  /** The converse fails (ClientStrictness says exactly where): the server takes an update that rewrites a
      reservation in place, which the client refuses. */
  lemma ServerAllowsPendingRewrite(c: Channel, expiresAt: nat, nanos: nat)
    requires ValidateChannel(c).Ok? && c.pending.Some? && FromIc(c).Some?
    requires PositiveSafe(expiresAt) && expiresAt != c.pending.value.expiresAt
    ensures var d := c.(pending := Some(c.pending.value.(expiresAt := expiresAt)));
      && Accepted(Some(c), d, nanos / 1_000_000_000)
      && FromIc(d).Some?
      && !UpdateGuard(FromIc(c), FromIc(d).value, nanos / 1_000_000)
  {
    var d := c.(pending := Some(c.pending.value.(expiresAt := expiresAt)));
    SamePendingText(c, d);
    RewriteReadable(c, d);
    RewriteAccepted(c, d, nanos / 1_000_000_000);
    hide FromIc, ValidateChannel, ValidateTransition, StableConfig, ChargeGuard, MonotonicText;
  }

  lemma RewriteReadable(c: Channel, d: Channel)
    requires FromIc(c).Some? && c.pending.Some? && d.pending.Some? && PositiveSafe(d.pending.value.expiresAt)
    requires d == c.(pending := Some(c.pending.value.(expiresAt := d.pending.value.expiresAt)))
    ensures FromIc(d).Some?
    ensures FromIc(d).value.pending == Some(FromIc(c).value.pending.value.(expiresAt := d.pending.value.expiresAt))
    ensures FromIc(c).value.pending.Some? && FromIc(c).value.pending.value.expiresAt == c.pending.value.expiresAt
  {
    hide HexBytes, ConfigText, PendingText, AmountBounds, SafeDecimal, Value;
  }

  lemma RewriteAccepted(c: Channel, d: Channel, nowSeconds: nat)
    requires ValidateChannel(c).Ok?
    requires d.charged == c.charged && d.signedMax == c.signedMax && d.totalClaimed == c.totalClaimed
    requires d.refundNonce == c.refundNonce && d.lastRequestTimestamp == c.lastRequestTimestamp
    ensures ValidateTransition(Some(c), d, nowSeconds).Ok?
  {
    ValidMeansWellFormed(c);
    hide ValidateChannel, ParseU128, ParsedU256, RequireMonotonic, Amount;
    Unchanged(c.charged);
    Unchanged(c.signedMax);
    Unchanged(c.totalClaimed);
    MonotonicIsNumeric(c.refundNonce, c.refundNonce);
  }

  lemma SamePendingText(c: Channel, d: Channel)
    requires ValidateChannel(c).Ok? && c.pending.Some? && d.pending.Some? && d.pending.value.expiresAt > 0
    requires d == c.(pending := Some(c.pending.value.(expiresAt := d.pending.value.expiresAt)))
    ensures ValidateChannel(d).Ok?
  {
    hide ValidateConfig, ParseU128, Amount, IsDecimal, IsHexOf;
  }

  lemma Unchanged(s: string)
    requires ParseU128(s).Some?
    ensures RequireMonotonic(s, s).Ok?
  {
    ParsesAgree(s);
    MonotonicIsNumeric(s, s);
  }
}
