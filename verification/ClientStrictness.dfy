/** How much stricter the client's guard (src/icBatchChannelStorage.ts:314-419) is than the server's rules
    (rust/facilitator/src/batch.rs:772-889): which creates and updates the server takes and the client
    refuses to send. */
module ClientStrictness {
  import opened Wrappers
  import opened Decimal
  import opened HexUtil
  import opened Batch
  import opened ChannelStorage
  import opened ClientUpdates
  import opened Examples

  // ---- the exact condition -------------------------------------------------------------

  /** The same payer, authorizers, receiver, token and salt, letter case aside, and the same delay. */
  predicate SameConfig(a: ClientConfig, b: ClientConfig) {
    && SameButCase(a.payer, b.payer) && SameButCase(a.payerAuthorizer, b.payerAuthorizer)
    && SameButCase(a.receiver, b.receiver) && SameButCase(a.receiverAuthorizer, b.receiverAuthorizer)
    && SameButCase(a.token, b.token) && SameButCase(a.salt, b.salt)
    && a.withdrawDelay == b.withdrawDelay
  }

  /** Under the same reservation id, the same reserved amount, expiry and signed limit. */
  predicate KeepsReservation(c: ClientChannel, d: ClientChannel) {
    match (c.pending, d.pending)
    case (Some(p), Some(q)) =>
      p.pendingId != q.pendingId
      || (p.signedMaxClaimable == q.signedMaxClaimable && p.expiresAt == q.expiresAt && c.signedMax == d.signedMax)
    case _ => true
  }

  predicate OpenAt(p: Option<ClientPending>, nowMs: nat) {
    match p
    case Some(q) => nowMs < q.expiresAt
    case None => false
  }

  lemma SameConfigIs(a: ClientConfig, b: ClientConfig)
    ensures StableConfig(a, b) <==> SameConfig(a, b)
  {
    hide Lower, SameButCase;
    LowerMerges(a.payer, b.payer);
    LowerMerges(a.payerAuthorizer, b.payerAuthorizer);
    LowerMerges(a.receiver, b.receiver);
    LowerMerges(a.receiverAuthorizer, b.receiverAuthorizer);
    LowerMerges(a.token, b.token);
    LowerMerges(a.salt, b.salt);
  }

  lemma KeepsReservationIs(c: ClientChannel, d: ClientChannel)
    ensures StablePending(c, d) <==> KeepsReservation(c, d)
  {
  }

  lemma OpenAtIs(p: Option<ClientPending>, nowMs: nat)
    ensures LiveMs(p, nowMs) <==> OpenAt(p, nowMs)
  {
  }

  /** What the server's rule for a rise says about the texts. */
  lemma RiseMeans(current: Channel, next: Channel, nowSeconds: nat)
    requires Uint128Text(current.charged) && Uint128Text(next.charged)
    requires ValidateChargeIncrease(current, next, nowSeconds).Ok? && Value(next.charged) > Value(current.charged)
    ensures current.pending.Some? && next.pending.None?
    ensures next.signedMax == current.pending.value.signedMaxClaimable == next.charged
  {
    hide MillisOf, ParseU128, Amount, Value;
    TextParses(current.charged);
    TextParses(next.charged);
  }

  /** The server's order of totals, in the client's numbers. */
  lemma TotalsMean(current: Channel, next: ClientChannel, revision: nat, nowSeconds: nat)
    requires FromIc(current).Some? && ToIc(next, revision).Some?
    requires ValidateTransition(Some(current), ToIc(next, revision).value, nowSeconds).Ok?
    ensures Value(current.charged) <= Value(next.charged) && Value(current.signedMax) <= Value(next.signedMax)
    ensures Value(current.totalClaimed) <= Value(next.totalClaimed) && Value(current.refundNonce) <= next.refundNonce
    ensures current.lastRequestTimestamp <= next.lastRequestTimestamp
    ensures ValidateChargeIncrease(current, ToIc(next, revision).value, nowSeconds).Ok?
  {
    var ic := ToIc(next, revision).value;
    SameTexts(current, next, revision);
    hide FromIc, ToIc, ValidateTransition, RequireMonotonic, ValidateChargeIncrease, Value, IsDigits, Print, SafeDecimal,
      Uint128Text;
    TransitionVerdicts(current, ic, nowSeconds);
    MonotonicIsNumeric(current.charged, ic.charged);
    MonotonicIsNumeric(current.signedMax, ic.signedMax);
    MonotonicIsNumeric(current.totalClaimed, ic.totalClaimed);
    MonotonicIsNumeric(current.refundNonce, ic.refundNonce);
    NonceParses(next.refundNonce);
  }

  /** Of the updates the server takes, the client refuses exactly those that change the configuration other
      than in case, rewrite a reservation or the signed limit under an unchanged reservation id, or raise
      the charged total in the tail of the server's second, when the client's clock has passed the expiry. */
  lemma UpdateGuardIff(current: Channel, next: ClientChannel, revision: nat, nanos: nat)
    requires FromIc(current).Some? && ToIc(next, revision).Some?
    requires Accepted(Some(current), ToIc(next, revision).value, nanos / 1_000_000_000)
    ensures var c, nowMs := FromIc(current).value, nanos / 1_000_000;
      UpdateGuard(Some(c), next, nowMs) <==>
        && SameConfig(c.config, next.config)
        && KeepsReservation(c, next)
        && (Value(next.charged) > Value(c.charged) ==> OpenAt(c.pending, nowMs))
  {
    var ic := ToIc(next, revision).value;
    SameTexts(current, next, revision);
    TotalsMean(current, next, revision, nanos / 1_000_000_000);
    hide FromIc, ToIc, ValidateChannel, ValidateTransition, ValidateChargeIncrease, Value, IsDigits, Print, SafeDecimal,
      StableConfig, StablePending, UpdateGuard, LiveMs, Uint128Text,
      SameConfig, KeepsReservation, OpenAt;
    DigitTexts(current, next);
    if Value(next.charged) > Value(current.charged) {
      RiseMeans(current, ic, nanos / 1_000_000_000);
    }
    SameConfigIs(FromIc(current).value.config, next.config);
    KeepsReservationIs(FromIc(current).value, next);
    OpenAtIs(FromIc(current).value.pending, nanos / 1_000_000);
    GuardSplits(FromIc(current).value, next, nanos / 1_000_000);
  }

  /** What is left of the guard once the totals are in order and a rise consumes its reservation. */
  lemma GuardSplits(c: ClientChannel, next: ClientChannel, nowMs: nat)
    requires IsDigits(c.charged) && IsDigits(c.signedMax) && IsDigits(c.totalClaimed)
    requires IsDigits(next.charged) && IsDigits(next.signedMax) && IsDigits(next.totalClaimed)
    requires Value(c.charged) <= Value(next.charged) && Value(c.signedMax) <= Value(next.signedMax)
    requires Value(c.totalClaimed) <= Value(next.totalClaimed) && c.refundNonce <= next.refundNonce
    requires Safe(c.lastRequestTimestamp) && c.lastRequestTimestamp <= next.lastRequestTimestamp
    requires Value(next.charged) > Value(c.charged) ==>
      && c.pending.Some? && next.pending.None?
      && next.signedMax == c.pending.value.signedMaxClaimable == next.charged
    ensures UpdateGuard(Some(c), next, nowMs) <==>
      && StableConfig(c.config, next.config)
      && StablePending(c, next)
      && (Value(next.charged) > Value(c.charged) ==> LiveMs(c.pending, nowMs))
  {
    hide StableConfig, StablePending, Value, IsDigits;
  }

  lemma DigitTexts(current: Channel, next: ClientChannel)
    requires Uint128Text(current.charged) && Uint128Text(current.signedMax) && Uint128Text(current.totalClaimed)
    requires Uint128Text(next.charged) && Uint128Text(next.signedMax) && Uint128Text(next.totalClaimed)
    ensures IsDigits(current.charged) && IsDigits(current.signedMax) && IsDigits(current.totalClaimed)
    ensures IsDigits(next.charged) && IsDigits(next.signedMax) && IsDigits(next.totalClaimed)
  {
  }

  /** Of the creates the server takes, the client refuses exactly those whose reservation its own clock has
      already passed. */
  lemma CreateGuardIff(next: ClientChannel, revision: nat, nanos: nat)
    requires ToIc(next, revision).Some?
    requires Accepted(None, ToIc(next, revision).value, nanos / 1_000_000_000)
    ensures UpdateGuard(None, next, nanos / 1_000_000) <==> OpenAt(next.pending, nanos / 1_000_000)
  {
    OpenAtIs(next.pending, nanos / 1_000_000);
    hide MillisOf, AmountBounds, HexBytes, ConfigText, PendingText, ValidateChannel, Print, Value;
    ZeroIsSafe();
    if next.refundNonce >= 0 {
      ValuePrint(next.refundNonce);
    }
  }

  /** Clocks aside the two agree: at a whole second, where both read the same time, only the
      configuration and the reservation id are left. */
  lemma WholeSecondsAgree(current: Channel, next: ClientChannel, revision: nat, seconds: nat)
    requires FromIc(current).Some? && ToIc(next, revision).Some? && seconds * 1000 <= U64_MAX
    requires Accepted(Some(current), ToIc(next, revision).value, seconds)
    ensures var c := FromIc(current).value;
      UpdateGuard(Some(c), next, seconds * 1000) <==> SameConfig(c.config, next.config) && KeepsReservation(c, next)
  {
    SameTexts(current, next, revision);
    TotalsMean(current, next, revision, seconds);
    hide FromIc, ToIc, ValidateChannel, ValidateTransition, Value, IsDigits, Print, SafeDecimal, SameConfig,
      KeepsReservation, UpdateGuard, ParseU128, Amount;
    var nanos := seconds * 1_000_000_000;
    assert nanos / 1_000_000_000 == seconds && nanos / 1_000_000 == seconds * 1000;
    UpdateGuardIff(current, next, revision, nanos);
    if Value(next.charged) > Value(current.charged) {
      TextParses(current.charged);
      TextParses(next.charged);
    }
  }

  // ---- each case happens ---------------------------------------------------------------

  /** The server would take the record over the one that was read, and the client does not send it. */
  ghost predicate HeldBack(id: string, round: Round, next: ClientChannel) {
    var revision := if round.read.None? then 0 else round.read.value.revision;
    && Readable(id, round) && round.read == round.stored && round.accept && Matches(next, id)
    && ToIc(next, revision).Some? && Request(id, round, Choice(false, Some(next))).None?
    && Serve(round.stored, Revision(round.read), ToIc(next, revision), round.nanos / 1_000_000_000, true).Updated?
  }

  /** What the client would send for a record that reads back as itself. */
  lemma SendsRecord(d: Channel)
    requires FromIc(d).Some? && d.refundNonce == "0"
    ensures ToIc(FromIc(d).value, d.revision) == Some(d)
  {
    hide FromIc, ToIc;
    ReadWriteRoundTrip(d);
    ZeroIsSafe();
    assert Print(0) == "0";
  }

  lemma HoldsBack(id: string, read: Option<Channel>, d: Channel, nanos: nat)
    requires FromIc(d).Some? && d.refundNonce == "0" && Matches(FromIc(d).value, id)
    requires read.Some? ==> FromIc(read.value).Some? && Matches(FromIc(read.value).value, id)
    requires d.revision == (if read.None? then 0 else read.value.revision)
    requires Accepted(read, d, nanos / 1_000_000_000)
    requires !UpdateGuard(Snapshot(read), FromIc(d).value, nanos / 1_000_000)
    ensures HeldBack(id, Round(read, read, nanos, true), FromIc(d).value)
  {
    hide FromIc, ToIc, Matches, UpdateGuard, Accepted;
    SendsRecord(d);
  }

  lemma ExampleValid(c: Channel)
    requires c == OpenChannel(Hex(40, '1'), 5000).(revision := 1)
    ensures ValidateChannel(c).Ok?
  {
    hide IsAddress, Hex, ValidateChannel, ValidateCreate;
    HexAddress('1');
    Creates(Hex(40, '1'), 5000, 0);
    ValidAtAnyRevision(OpenChannel(Hex(40, '1'), 5000), 1);
  }

  lemma ValidAtAnyRevision(c: Channel, revision: nat)
    requires ValidateChannel(c).Ok?
    ensures ValidateChannel(c.(revision := revision)).Ok?
  {
    hide ValidateConfig, IsDecimal, ParseU128, IsHexOf, Amount;
  }

  /** Reading keeps the configuration, and the reservation field by field. */
  lemma ExampleKept(c: Channel, d: Channel)
    requires c == OpenChannel(Hex(40, '1'), 5000).(revision := 1)
    requires d == c.(pending := Some(c.pending.value.(expiresAt := 6000)))
    ensures FromIc(c).Some? && FromIc(d).Some?
    ensures Matches(FromIc(c).value, Hex(64, '2')) && Matches(FromIc(d).value, Hex(64, '2'))
    ensures SameConfig(FromIc(c).value.config, FromIc(d).value.config)
    ensures !StablePending(FromIc(c).value, FromIc(d).value) && !KeepsReservation(FromIc(c).value, FromIc(d).value)
  {
    hide SameConfig, KeepsReservation, Hex, Lower, Value, IsHex, HexBytes, ConfigText, Matches;
    ZeroIsSafe();
    ExampleReads(c);
    ExampleReads(d);
    SameConfigIs(FromIc(c).value.config, FromIc(d).value.config);
    KeepsReservationIs(FromIc(c).value, FromIc(d).value);
  }

  /** The server never compares reservation ids: it moves the expiry of an open reservation from five to six
      seconds, which the client refuses to send at any time. */
  lemma RewriteIsHeldBack(nanos: nat) returns (id: string, round: Round, next: ClientChannel)
    requires nanos < 5_000_000_000
    ensures HeldBack(id, round, next) && round.nanos == nanos
    ensures Snapshot(round.read).Some? && SameConfig(Snapshot(round.read).value.config, next.config)
    ensures !KeepsReservation(Snapshot(round.read).value, next)
  {
    hide FromIc, Matches, Hex, Accepted, UpdateGuard, IsAddress, StableConfig, ValidateChannel;
    var c := OpenChannel(Hex(40, '1'), 5000).(revision := 1);
    var d := c.(pending := Some(c.pending.value.(expiresAt := 6000)));
    id := Hex(64, '2');
    ExampleValid(c);
    ExampleKept(c, d);
    ServerAllowsPendingRewrite(c, 6000, nanos);
    HoldsBack(id, Some(c), d, nanos);
    round, next := Round(Some(c), Some(c), nanos, true), FromIc(d).value;
  }

  /** At 1600 milliseconds, when the server's clock still says one second, the server takes the charge of a
      reservation that lapsed at 1500; the client does not send it. */
  lemma LateRiseIsHeldBack() returns (id: string, round: Round, next: ClientChannel)
    ensures HeldBack(id, round, next) && round.read.Some? && Snapshot(round.read).Some?
    ensures Value(next.charged) > Value(round.read.value.charged)
    ensures !OpenAt(Snapshot(round.read).value.pending, round.nanos / 1_000_000)
  {
    hide FromIc, ToIc, Matches, Hex, Accepted, IsAddress, Value, UpdateGuard, LiveMs, OpenAt, SameConfig,
      KeepsReservation, IsDecimal,
      ParseU128, ParsedU256, Amount, SafeDecimal, HeldBack;
    var c := OpenChannel(Hex(40, '1'), 1500).(channelId := Hex(64, '2'), revision := 1);
    var d := ExampleChannel(Hex(40, '1'), "5", None).(revision := 1);
    id := Hex(64, '2');
    ZeroIsSafe();
    ExampleAmounts();
    HexAddress('1');
    ChargesFive(Hex(40, '1'), 1500, 1);
    ExampleReads(c);
    ExampleReads(d);
    SnapshotFields(c);
    SendsRecord(d);
    AnyRevision(c, ExampleChannel(Hex(40, '1'), "5", None), 1);
    Lapsed(FromIc(c).value, 1600);
    UpdateGuardIff(c, FromIc(d).value, 1, 1_600_000_000);
    SnapshotFields(d);
    HoldsBack(id, Some(c), d, 1_600_000_000);
    round, next := Round(Some(c), Some(c), 1_600_000_000, true), FromIc(d).value;
  }

  lemma AnyRevision(c: Channel, d: Channel, nowSeconds: nat)
    requires Accepted(Some(c), d, nowSeconds)
    ensures Accepted(Some(c), d.(revision := 1), nowSeconds)
  {
    hide ValidateConfig, IsDecimal, ParseU128, IsHexOf, RequireMonotonic;
  }

  lemma Lapsed(c: ClientChannel, nowMs: nat)
    requires c.pending.Some? && c.pending.value.expiresAt <= nowMs
    ensures !LiveMs(c.pending, nowMs) && !OpenAt(c.pending, nowMs)
  {
  }

  /** And the create of a channel whose reservation lapsed at 1500. */
  lemma LateCreateIsHeldBack() returns (id: string, round: Round, next: ClientChannel)
    ensures HeldBack(id, round, next) && round.read.None? && !OpenAt(next.pending, round.nanos / 1_000_000)
  {
    hide FromIc, ToIc, Matches, Hex, Accepted, IsAddress, UpdateGuard, LiveMs, OpenAt, SafeDecimal, Value,
      HeldBack;
    var d := OpenChannel(Hex(40, '1'), 1500);
    id := Hex(64, '2');
    ZeroIsSafe();
    HexAddress('1');
    Creates(Hex(40, '1'), 1500, 1);
    ExampleReads(d);
    SnapshotFields(d);
    SendsRecord(d);
    Lapsed(FromIc(d).value, 1600);
    CreateGuardIff(FromIc(d).value, 0, 1_600_000_000);
    HoldsBack(id, None, d, 1_600_000_000);
    round, next := Round(None, None, 1_600_000_000, true), FromIc(d).value;
  }
}
