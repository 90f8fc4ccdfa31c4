/** The client's compare-and-swap loop (src/icBatchChannelStorage.ts:124-182) against the server's
    update of one record (rust/facilitator/src/lib.rs:5515-5677). Each round names what the client
    reads, what is stored when its write arrives, the clock, and the server's other checks; any
    interference by other callers is a choice of rounds. */
module ClientUpdates {
  import opened Wrappers
  import opened Decimal
  import opened HexUtil
  import opened Batch
  import opened ChannelStorage
  import opened Examples

  datatype Answer = Conflict | Invalid | Unchanged | Deleted | Updated(channel: Channel)

  datatype Round = Round(read: Option<Channel>, stored: Option<Channel>, nanos: nat, accept: bool)

  /** What the caller's function returns: the snapshot object itself or another one, and its content. */
  datatype Choice = Choice(same: bool, next: Option<ClientChannel>)

  datatype Outcome =
    | WasUnchanged(current: Option<ClientChannel>)
    | WasDeleted(existed: bool)
    | WasUpdated(channel: ClientChannel)
    | Refused
    | ConflictError

  function Revision(c: Option<Channel>): Option<nat> {
    if c.None? then None else Some(c.value.revision)
  }

  /** batch_update_channel on one record; `accept` stands for authorization, runtime configuration,
      signature, storage limit and the collector. */
  function Serve(stored: Option<Channel>, expected: Option<nat>, next: Option<Channel>, nowSeconds: nat, accept: bool): Answer
  {
    if expected != Revision(stored) then Conflict
    else
      match next
      case Some(channel) =>
        if !accept || !Accepted(stored, channel, nowSeconds) then Invalid
        else
          var revision := if stored.None? then 0 else stored.value.revision;
          Updated(channel.(revision := if revision + 1 > U64_MAX then U64_MAX else revision + 1))
      case None =>
        if stored.None? then Unchanged
        else if !accept || (Live(stored.value.pending, nowSeconds) && !PendingOnly(stored.value)) then Invalid
        else Deleted
  }

  function Snapshot(read: Option<Channel>): Option<ClientChannel> {
    if read.None? then None else FromIc(read.value)
  }

  predicate Matches(c: ClientChannel, id: string) {
    Lower(c.channelId) == Lower(id)
  }

  predicate ClientPendingOnly(c: ClientChannel) {
    && c.pending.Some? && c.pending.value.signedMaxClaimable == c.signedMax
    && c.charged == "0" && c.balance == "0" && c.totalClaimed == "0" && c.refundNonce == 0
    && c.withdrawRequestedAt == 0 && c.onchainSyncedAt.None?
  }

  /** requireNoLivePendingBeforeDelete. */
  predicate DeleteGuard(current: Option<ClientChannel>, nowMs: nat) {
    current.None? || !LiveMs(current.value.pending, nowMs) || ClientPendingOnly(current.value)
  }

  /** What the client sends in a round, if it sends anything: a record, or `None` to delete. */
  function Request(id: string, round: Round, choice: Choice): Option<Option<Channel>> {
    var current, nowMs := Snapshot(round.read), round.nanos / 1_000_000;
    match choice.next
    case None => if DeleteGuard(current, nowMs) then Some(None) else None
    case Some(next) =>
      var revision := if round.read.None? then 0 else round.read.value.revision;
      if Matches(next, id) && UpdateGuard(current, next, nowMs) && ToIc(next, revision).Some?
      then Some(ToIc(next, revision)) else None
  }

  predicate Readable(id: string, round: Round) {
    round.read.Some? ==> FromIc(round.read.value).Some? && Matches(FromIc(round.read.value).value, id)
  }

  type Update = Option<ClientChannel> -> Choice

  predicate Idles(round: Round, update: Update) {
    var choice := update(Snapshot(round.read));
    choice.same && choice.next == Snapshot(round.read)
  }

  /** The round's write reaches the server and finds another revision. */
  predicate Lost(id: string, round: Round, update: Update) {
    && Readable(id, round) && !Idles(round, update)
    && Request(id, round, update(Snapshot(round.read))).Some?
    && Revision(round.read) != Revision(round.stored)
  }

  function Reply(id: string, round: Round, update: Update): Answer
    requires Request(id, round, update(Snapshot(round.read))).Some?
  {
    Serve(round.stored, Revision(round.read), Request(id, round, update(Snapshot(round.read))).value,
          round.nanos / 1_000_000_000, round.accept)
  }

  /** The deciding round of a call that ends with `r`. */
  predicate Decides(id: string, round: Round, update: Update, r: Outcome) {
    if !Readable(id, round) then r == Refused
    else if Idles(round, update) then r == WasUnchanged(Snapshot(round.read))
    else if Request(id, round, update(Snapshot(round.read))).None? then r == Refused
    else
      match Reply(id, round, update)
      case Conflict => false
      case Invalid => r == Refused
      case Unchanged => r == WasUnchanged(Snapshot(round.read))
      case Deleted => r == WasDeleted(round.read.Some?)
      case Updated(c) =>
        if FromIc(c).Some? && Matches(FromIc(c).value, id) then r == WasUpdated(FromIc(c).value) else r == Refused
  }

  /** updateChannel: one round per attempt, until one is not a conflict. */
  method UpdateChannel(id: string, rounds: seq<Round>, update: Update) returns (r: Outcome, n: nat)
    ensures n <= |rounds| && forall k :: 0 <= k < n ==> Lost(id, rounds[k], update)
    ensures if n < |rounds| then Decides(id, rounds[n], update, r) else r == ConflictError
  {
    hide FromIc, ToIc, UpdateGuard, Accepted, DeleteGuard, PendingOnly, Lower, Live;
    n := 0;
    while n < |rounds|
      invariant n <= |rounds| && forall k :: 0 <= k < n ==> Lost(id, rounds[k], update)
    {
      var round := rounds[n];
      if !Readable(id, round) {
        return Refused, n;
      }
      var current := Snapshot(round.read);
      var choice := update(current);
      if choice.same && choice.next == current {
        return WasUnchanged(current), n;
      }
      var request := Request(id, round, choice);
      if request.None? {
        return Refused, n;
      }
      match Serve(round.stored, Revision(round.read), request.value, round.nanos / 1_000_000_000, round.accept) {
        case Conflict => n := n + 1;
        case Invalid => return Refused, n;
        case Unchanged => return WasUnchanged(current), n;
        case Deleted => return WasDeleted(round.read.Some?), n;
        case Updated(c) =>
          if FromIc(c).Some? && Matches(FromIc(c).value, id) {
            return WasUpdated(FromIc(c).value), n;
          }
          return Refused, n;
      }
    }
    return ConflictError, n;
  }

  // ---- what the loop promises ----------------------------------------------------------

  /** An update that nobody overtook is not refused: if the stored record is the one that was read, a
      create or update the client lets through is taken by the server's own rules at the same clock
      reading. */
  lemma UnovertakenIsServed(id: string, round: Round, update: Update)
    requires Readable(id, round) && round.read == round.stored && round.accept
    requires update(Snapshot(round.read)).next.Some? && Request(id, round, update(Snapshot(round.read))).Some?
    ensures Reply(id, round, update).Updated?
  {
    hide FromIc, ToIc, UpdateGuard, Accepted, Lower;
    var next := update(Snapshot(round.read)).next.value;
    var revision := if round.read.None? then 0 else round.read.value.revision;
    ClientGuardImpliesServerGuard(round.read, next, revision, round.nanos);
  }

  /** Deletes are not covered by that promise. Of those the client lets through, the server refuses
      exactly two kinds while it still sees a live reservation: the client's millisecond clock has passed the
      expiry within the server's whole second, or the record's refund nonce is a zero not spelled "0". */
  lemma DeleteRefusedIff(id: string, round: Round, update: Update)
    requires Readable(id, round) && round.read == round.stored && round.accept && round.read.Some?
    requires update(Snapshot(round.read)).next.None? && Request(id, round, update(Snapshot(round.read))).Some?
    ensures var c, s := round.read.value, round.nanos / 1_000_000_000;
      Reply(id, round, update).Invalid? <==>
        && c.pending.Some? && c.pending.value.expiresAt > MillisOf(s)
        && (if ClientPendingOnly(FromIc(c).value) then c.refundNonce != "0"
            else c.pending.value.expiresAt <= round.nanos / 1_000_000)
  {
    hide Lower, UpdateGuard;
    var c := round.read.value;
    SnapshotFields(c);
    hide FromIc;
    if ClientPendingOnly(FromIc(c).value) {
      ZeroNonce(c.refundNonce);
    }
  }

  /** What FromIc reads into the fields the delete guards look at. */
  lemma SnapshotFields(c: Channel)
    requires FromIc(c).Some?
    ensures var d := FromIc(c).value;
      && (d.pending.Some? <==> c.pending.Some?)
      && (c.pending.Some? ==> d.pending.value.expiresAt == c.pending.value.expiresAt
                              && d.pending.value.signedMaxClaimable == c.pending.value.signedMaxClaimable)
      && d.signedMax == c.signedMax && d.charged == c.charged && d.balance == c.balance
      && d.totalClaimed == c.totalClaimed && d.withdrawRequestedAt == c.withdrawRequestedAt
      && (d.onchainSyncedAt.None? <==> c.onchainSyncedAt.None?) && d.refundNonce == Value(c.refundNonce)
  {
    hide HexBytes, ConfigText, PendingText, AmountBounds, Value, SafeDecimal;
  }

  lemma ZeroNonce(value: string)
    ensures value == "0" ==> IsDigits(value) && Value(value) == 0
  {
    assert "0"[..0] == "";
  }

  /** What the server stores is what the caller computed from the snapshot, read back unchanged. */
  lemma UpdatedIsWhatWasComputed(id: string, round: Round, update: Update, r: Outcome)
    requires Decides(id, round, update, r) && r.WasUpdated?
    ensures update(Snapshot(round.read)).next == Some(r.channel)
    ensures Revision(round.read) == Revision(round.stored)
  {
    hide ClientPendingOnly, PendingOnly, UpdateGuard, Accepted, Lower, Live, LiveMs, FromIc, ToIc;
    var next := update(Snapshot(round.read)).next;
    if next.Some? {
      var revision := if round.read.None? then 0 else round.read.value.revision;
      var reply := Reply(id, round, update);
      ReadBack(next.value, revision, reply.channel.revision);
    }
  }

  lemma ReadBack(c: ClientChannel, revision: nat, stamp: nat)
    requires ToIc(c, revision).Some?
    ensures FromIc(ToIc(c, revision).value.(revision := stamp)) == Some(c)
  {
    hide HexBytes, ConfigText, PendingText, AmountBounds, Print, SafeDecimal, Value;
    NonceParses(c.refundNonce);
  }

  /** The record on the server after a round. */
  function Written(id: string, round: Round, update: Update): Option<Channel> {
    if !Readable(id, round) || Idles(round, update) || Request(id, round, update(Snapshot(round.read))).None? then round.stored
    else
      match Reply(id, round, update)
      case Updated(c) => Some(c)
      case Deleted => None
      case _ => round.stored
  }

  /** The outcome tells what happened on the server. Updated: what the caller computed is stored, under the revision
      after the one that was read. Deleted: there was a record, and it is gone. Unchanged: nothing was written, and the
      caller handed the snapshot back or deleted nothing. Refused: nothing was written. Whatever is not refused was read
      under the id that was asked for. */
  lemma OutcomeTellsEffect(id: string, round: Round, update: Update, r: Outcome)
    requires Decides(id, round, update, r)
    ensures var t, read, choice := Written(id, round, update), Snapshot(round.read), update(Snapshot(round.read));
      && (!r.Refused? && round.read.Some? ==> read.Some? && SameButCase(read.value.channelId, id))
      && match r
         case WasUpdated(c) =>
           && choice.next == Some(c) && SameButCase(c.channelId, id)
           && t.Some? && FromIc(t.value) == Some(c)
           && (round.read.None? <==> round.stored.None?)
           && var was := if round.read.None? then 0 else round.read.value.revision;
              && (round.stored.Some? ==> round.stored.value.revision == was)
              && t.value.revision == if was >= U64_MAX then U64_MAX else was + 1
         case WasDeleted(existed) => existed && choice.next.None? && round.stored.Some? && t.None?
         case WasUnchanged(c) =>
           && t == round.stored && c == read
           && ((choice.same && choice.next == read) || (choice.next.None? && round.read.None?))
         case Refused => t == round.stored
         case ConflictError => false
  {
    hide ClientPendingOnly, PendingOnly, UpdateGuard, Accepted, Live, LiveMs, FromIc, ToIc, SameButCase, Lower;
    var next := update(Snapshot(round.read)).next;
    if round.read.Some? && Snapshot(round.read).Some? {
      LowerMerges(Snapshot(round.read).value.channelId, id);
    }
    if next.Some? {
      LowerMerges(next.value.channelId, id);
      if Readable(id, round) && Request(id, round, update(Snapshot(round.read))).Some? {
        var revision := if round.read.None? then 0 else round.read.value.revision;
        var reply := Reply(id, round, update);
        if reply.Updated? {
          ReadBack(next.value, revision, reply.channel.revision);
        }
      }
    }
  }

  /** A round that is overtaken writes nothing. */
  lemma LostWritesNothing(id: string, round: Round, update: Update)
    requires Lost(id, round, update)
    ensures Written(id, round, update) == round.stored
  {
    hide Readable, Request, Idles;
  }

  // ---- the two deletes the server refuses ----------------------------------------------

  const DELETE: Update := _ => Choice(false, None)

  lemma ExampleReads(c: Channel)
    requires c == ExampleChannel(Hex(40, '1'), c.charged, c.pending).(refundNonce := c.refundNonce, revision := c.revision)
    requires c.charged == "0" || c.charged == "5"
    requires SafeDecimal(c.refundNonce)
    requires c.pending.Some? ==>
      && c.pending.value.pendingId == "first" && c.pending.value.signedMaxClaimable == "5"
      && 0 < c.pending.value.expiresAt <= MAX_SAFE
    ensures FromIc(c).Some? && Matches(FromIc(c).value, Hex(64, '2'))
  {
    hide Hex, IsHex, Value, Lower;
    ExampleBytes();
    ExampleAmounts();
  }

  lemma ExampleBytes()
    ensures NonZeroAddress(Hex(40, '1')) && HexBytes(Hex(64, '2'), 32) && HexBytes(Hex(64, '3'), 32)
    ensures HexBytes(Hex(130, '4'), 65)
  {
    HexIsHex(40, '1');
    HexIsHex(64, '2');
    HexIsHex(64, '3');
    HexIsHex(130, '4');
    assert Hex(40, '1')[2] == '1';
  }

  /** The client deletes a charged channel at 1600 milliseconds, a tenth of a second after its reservation
      lapsed; the server's clock says one second, and the delete is refused. */
  lemma LateDeleteIsRefused() returns (id: string, round: Round)
    ensures Readable(id, round) && round.read.Some? && round.read == round.stored && round.accept
    ensures round.read.value.pending.Some? && round.read.value.pending.value.expiresAt < round.nanos / 1_000_000
    ensures Request(id, round, DELETE(Snapshot(round.read))) == Some(None)
    ensures Reply(id, round, DELETE).Invalid?
  {
    hide FromIc, Matches, Hex;
    var c := ExampleChannel(Hex(40, '1'), "5", Some(Pending.Pending("first", "5", 1500)));
    id, round := Hex(64, '2'), Round(Some(c), Some(c), 1_600_000_000, true);
    ZeroIsSafe();
    ExampleReads(c);
    SnapshotFields(c);
    DeleteRefusedIff(id, round, DELETE);
  }

  /** A new channel's only reservation is live, its refund nonce rewritten as "00" by an update the server
      took: the client reads zero and deletes, and the server, which compares texts, refuses. */
  lemma DoubleZeroDeleteIsRefused() returns (id: string, round: Round, created: Channel)
    ensures Readable(id, round) && round.read.Some? && round.read == round.stored && round.accept
    ensures Accepted(None, created, 0) && Accepted(Some(created.(revision := 1)), round.read.value, 0)
    ensures Request(id, round, DELETE(Snapshot(round.read))) == Some(None)
    ensures Reply(id, round, DELETE).Invalid?
  {
    hide FromIc, Matches, Hex, Accepted, Value, SafeDecimal, IsAddress, IsDecimal, ParsedU256, IsHex;
    created := OpenChannel(Hex(40, '1'), 5000);
    var c := created.(refundNonce := "00");
    id, round := Hex(64, '2'), Round(Some(c), Some(c), 0, true);
    DoubleZero();
    ExampleReads(c);
    SnapshotFields(c);
    DeleteRefusedIff(id, round, DELETE);
    HexAddress('1');
    Creates(Hex(40, '1'), 5000, 0);
    RewritesNonce(created);
  }

  lemma ZeroIsSafe()
    ensures SafeDecimal("0") && Value("0") == 0
  {
    assert "0"[..0] == "";
  }

  lemma DoubleZero()
    ensures SafeDecimal("00") && Value("00") == 0 && IsDecimal("00") && ParsedU256("00").Some?
  {
    assert "00"[..1] == "0" && "0"[..0] == "";
    ParsesAgree("00");
  }

  lemma RewritesNonce(created: Channel)
    requires created == OpenChannel(Hex(40, '1'), 5000)
    ensures Accepted(Some(created.(revision := 1)), created.(refundNonce := "00"), 0)
  {
    hide IsAddress, IsHexOf, ParseU128, Amount, IsDecimal, ParsedU256, Value, Hex, RequireMonotonic, SafeDecimal;
    ExampleTexts();
    ExampleAmounts();
    DoubleZero();
    MonotonicIsNumeric("0", "0");
    MonotonicIsNumeric("5", "5");
    MonotonicIsNumeric("0", "00");
    HexAddress('1');
  }
}
