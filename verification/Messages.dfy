/** What a user's message does, as an exact condition and its effect: switching a seller, updating a channel and
    deleting one (rust/facilitator/src/auto_claim.rs:141-378, rust/facilitator/src/lib.rs:5515-5677). */
module Messages {
  import opened Accounts
  import opened Wrappers
  import opened Decimal
  import opened HexUtil
  import opened Batch
  import opened Collector
  import opened Frames
  import opened MessageSteps
  import opened Scheduler
  import opened Registrations
  import opened Scripts
  import opened Admission
  import opened Wakeups

  // ---- deletion ------------------------------------------------------------------------

  /** A reservation the clock has not passed. */
  predicate Open(channel: Channel, now: u64) {
    channel.pending.Some? && channel.pending.value.expiresAt > MillisOf(Seconds(now))
  }

  /** The channel holds its first reservation and nothing else. */
  predicate OnlyReserved(c: Channel) {
    && c.pending.Some? && c.pending.value.signedMaxClaimable == c.signedMax
    && c.charged == "0" && c.balance == "0" && c.totalClaimed == "0" && c.refundNonce == "0"
    && c.withdrawRequestedAt == 0 && c.onchainSyncedAt.None?
  }

  /** A channel is deleted, its collection with it, if and only if it is stored at the named revision, the call is
      let in, an open reservation is all it holds, and its collection, if any, has no attempt, nothing charged
      above the claimed total and no open reservation. Otherwise nothing changes. */
  lemma DeletedIff(s: State, e: Event)
    requires e.DoDelete? && Ready(s, e)
    ensures Step(s, e) ==
      if e.id in s.channels && e.expected == Some(s.channels[e.id].revision) && e.accept
         && (Open(s.channels[e.id], e.now) ==> OnlyReserved(s.channels[e.id]) && e.id !in s.cols)
         && (e.id in s.cols ==> s.cols[e.id].attempt.None? && Charged(s, e.id) <= s.cols[e.id].claimed)
      then s.(channels := s.channels - {e.id}, cols := s.cols - {e.id}) else s
  {
    hide Amount, MillisOf, Seconds;
  }

  // ---- updates -------------------------------------------------------------------------

  /** The update opens a reservation: one is there, under an id the channel did not hold. */
  predicate Opens(current: Option<Channel>, next: Channel) {
    && next.pending.Some?
    && (current.None? || current.value.pending.None? || current.value.pending.value.pendingId != next.pending.value.pendingId)
  }

  /** Somebody collects for the channel: its seller is enabled, or a collection is registered. */
  predicate Collected(s: State, id: Id, next: Channel) {
    Lower(next.config.receiver) in s.enabled || id in s.cols
  }

  lemma SpelledOut(s: State, id: Id, current: Option<Channel>, next: Channel)
    ensures CreatesPending(current, next.(channelId := id)) <==> Opens(current, next)
    ensures Enabled(s.enabled, next.(channelId := id)) || id in s.cols <==> Collected(s, id, next)
  {
  }

  /** Let in, at the right revision, accepted by the channel rules, and with room for the channel. */
  predicate Admissible(s: State, e: Event)
    requires e.DoUpdate?
  {
    && e.accept
    && e.expected == (if e.id in s.channels then Some(s.channels[e.id].revision) else None)
    && Accepted(Stored(s, e.id), e.next, Seconds(e.now))
    && (e.id in s.channels || |s.channels| < 1000)
  }

  predicate ReservationPasses(s: State, e: Event)
    requires e.DoUpdate?
  {
    Opens(Stored(s, e.id), e.next) && Collected(s, e.id, e.next) ==>
      e.signerOk && e.id in s.cols && Healthy(s, s.cols[e.id], e.now, e.feeNow)
  }

  lemma PassesBefore(s: State, e: Event)
    requires e.DoUpdate?
    ensures var named := e.next.(channelId := e.id);
      BeforeUpdate(s, e.id, Stored(s, e.id), named, e.now, e.feeNow, e.signerOk).1 <==> ReservationPasses(s, e)
  {
    hide Healthy, CreatesPending, Enabled, Collected, Opens, StopReason, Refresh, Arm, NewCollection;
    var named := e.next.(channelId := e.id);
    SpelledOut(s, e.id, Stored(s, e.id), e.next);
    if CreatesPending(Stored(s, e.id), named) && (Enabled(s.enabled, named) || e.id in s.cols) {
      AdmittedIff(s, e.id, Stored(s, e.id), named, e.now, e.feeNow, e.signerOk);
    }
  }

  /** Every update: it is stored, under the next revision, if and only if it is admissible and, where it opens a
      reservation somebody collects for, the signer is configured and the registered collection is healthy.
      Otherwise no channel changes. */
  lemma StoredIff(s: State, e: Event)
    requires e.DoUpdate? && Ready(s, e)
    ensures Step(s, e).channels ==
      if Admissible(s, e) && ReservationPasses(s, e)
      then s.channels[e.id := e.next.(channelId := e.id,
                                      revision := SatAdd(if e.id in s.channels then s.channels[e.id].revision else 0, 1, U64_MAX))]
      else s.channels
  {
    hide BeforeUpdate, AfterUpdate, Accepted, SatAdd, ReservationPasses, Seconds;
    var current := Stored(s, e.id);
    var named := e.next.(channelId := e.id);
    PassesBefore(s, e);
    BeforeUpdateChannels(s, e.id, current, named, e.now, e.feeNow, e.signerOk);
    var s1 := BeforeUpdate(s, e.id, current, named, e.now, e.feeNow, e.signerOk).0;
    var stored := e.next.(channelId := e.id, revision := NextRevision(current));
    AfterUpdateChannels(s1.(channels := s1.channels[e.id := stored]), e.id, current, stored, e.now);
  }

  /** A collection just registered: nothing read, nothing claimed, nothing in flight; due at once, and forced for
      what the channel has already charged. */
  predicate FreshFor(c: Collection, channel: Channel, now: u64) {
    && c.seed == channel && c.charges == [] && c.claimed == 0 && c.nextDue == Seconds(now)
    && c.oldestLegacy == (if Amount(channel.charged) > 0 then Some(Seconds(now)) else None)
    && c.force == (Amount(channel.charged) > 0)
    && c.monitoredAt.None? && c.withdrawalAt == 0 && c.balance == 0 && c.monitorCalls == 0 && c.monitorCycles == 0
    && c.error.None? && c.attempt.None? && !c.halted && c.attemptSequence == 0
  }

  /** The first reservation of a channel nobody has registered is not stored: it registers the channel, as owing
      what it has charged, due at once. */
  lemma FirstReservationRegisters(s: State, e: Event)
    requires e.DoUpdate? && Ready(s, e) && Admissible(s, e) && Opens(Stored(s, e.id), e.next)
    requires Lower(e.next.config.receiver) in s.enabled && e.id !in s.cols && e.signerOk && |s.cols| < 1000
    ensures var t := Step(s, e);
      && t.channels == s.channels && DueAtOnce(t, e.id, e.now)
      && FreshFor(t.cols[e.id], e.next.(channelId := e.id), e.now)
  {
    hide Accepted, Healthy, Arm, FreshFor, Seconds, BeforeUpdate, AfterUpdate, TimerOk, Lower;
    StoredIff(s, e);
    SpelledOut(s, e.id, Stored(s, e.id), e.next);
    PassesBefore(s, e);
    RegistersOnly(s, e.id, Stored(s, e.id), e.next.(channelId := e.id), e.now, e.feeNow);
  }

  lemma RegistersOnly(s: State, id: Id, current: Option<Channel>, next: Channel, now: u64, fee: Option<nat>)
    requires Enabled(s.enabled, next) && id !in s.cols && CreatesPending(current, next) && |s.cols| < 1000
    ensures var t := BeforeUpdate(s, id, current, next, now, fee, true).0;
      DueAtOnce(t, id, now) && FreshFor(t.cols[id], next, now)
  {
    hide Arm, Amount, Seconds, TimerOk, StopReason, Enabled, CreatesPending;
    var r := Register(s, id, NewCollection(next, now));
    ArmRest(r, now);
    ArmQuiet(r, now);
    var mid := Save(Arm(r, now), id, r.cols[id].(monitoredAt := None, nextDue := Seconds(now)));
    ArmedFor(mid, id, now);
  }

  lemma ArmedFor(mid: State, id: Id, now: u64)
    requires id in mid.cols && mid.cols[id].nextDue == Seconds(now)
    ensures DueAtOnce(Arm(mid, now), id, now) && Arm(mid, now).cols == mid.cols
  {
    hide Arm, Seconds, TimerOk;
    ArmRest(mid, now);
    ArmQuiet(mid, now);
    ArmIsOnTime(mid, now);
    ArmWrites(mid, now);
    if id !in mid.workers {
      DueNow(Arm(mid, now), id, now);
    }
  }

  /** A new reservation that finds the last reading two minutes old or older is refused, and the reading is asked
      for again at once. */
  lemma StaleIsAskedAgain(s: State, e: Event)
    requires e.DoUpdate? && Ready(s, e) && Admissible(s, e) && Opens(Stored(s, e.id), e.next)
    requires e.id in s.cols && e.signerOk
    requires s.cols[e.id].monitoredAt.Some? ==> Seconds(e.now) >= s.cols[e.id].monitoredAt.value + 120
    ensures var t := Step(s, e);
      t.channels == s.channels && DueAtOnce(t, e.id, e.now) && t.cols[e.id].monitoredAt.None?
  {
    hide Accepted, Arm, Seconds, BeforeUpdate, AfterUpdate, TimerOk, Lower, Get;
    StoredIff(s, e);
    SpelledOut(s, e.id, Stored(s, e.id), e.next);
    PassesBefore(s, e);
    AsksAgain(s, e.id, Stored(s, e.id), e.next.(channelId := e.id), e.now, e.feeNow);
  }

  lemma AsksAgain(s: State, id: Id, current: Option<Channel>, next: Channel, now: u64, fee: Option<nat>)
    requires id in s.cols && CreatesPending(current, next)
    requires s.cols[id].monitoredAt.Some? ==> Seconds(now) >= s.cols[id].monitoredAt.value + 120
    ensures var t := BeforeUpdate(s, id, current, next, now, fee, true).0;
      DueAtOnce(t, id, now) && t.cols[id].monitoredAt.None?
  {
    hide Arm, Seconds, TimerOk, StopReason, Enabled, CreatesPending;
    ArmedFor(Save(s, id, s.cols[id].(monitoredAt := None, nextDue := Seconds(now))), id, now);
  }

  /** A stored update replaces the collection's copy of the channel, and forces the collection if the seller is
      disabled. */
  lemma UpdateForces(s: State, e: Event)
    requires e.DoUpdate? && Ready(s, e) && e.id in s.cols && Step(s, e).channels != s.channels
    ensures var t := Step(s, e);
      && e.id in t.cols && e.id in t.channels && t.cols[e.id].seed == t.channels[e.id]
      && t.cols[e.id].force == (s.cols[e.id].force || Lower(e.next.config.receiver) !in s.enabled)
  {
    hide BeforeUpdate, AfterUpdate, Accepted, NextRevision, Lower;
    var current := Stored(s, e.id);
    var named := e.next.(channelId := e.id);
    BeforeUpdateChannels(s, e.id, current, named, e.now, e.feeNow, e.signerOk);
    BeforeForce(s, e.id, current, named, e.now, e.feeNow, e.signerOk);
    var s1 := BeforeUpdate(s, e.id, current, named, e.now, e.feeNow, e.signerOk).0;
    var stored := e.next.(channelId := e.id, revision := NextRevision(current));
    AfterUpdateChannels(s1.(channels := s1.channels[e.id := stored]), e.id, current, stored, e.now);
    AfterForce(s1.(channels := s1.channels[e.id := stored]), e.id, current, stored, e.now);
  }

  lemma BeforeForce(s: State, id: Id, current: Option<Channel>, next: Channel, now: u64, fee: Option<nat>, signerOk: bool)
    requires id in s.cols
    ensures var t := BeforeUpdate(s, id, current, next, now, fee, signerOk).0;
      id in t.cols && t.cols[id].force == s.cols[id].force && t.enabled == s.enabled
  {
    hide Arm, StopReason, Enabled, CreatesPending, IsStale, Seconds;
    ArmRest(Save(s, id, s.cols[id].(monitoredAt := None, nextDue := Seconds(now))), now);
  }

  lemma AfterForce(s: State, id: Id, current: Option<Channel>, next: Channel, now: u64)
    requires id in s.cols
    ensures var t := AfterUpdate(s, id, current, next, now);
      id in t.cols && t.cols[id].seed == next && t.cols[id].force == (s.cols[id].force || Lower(next.config.receiver) !in s.enabled)
  {
    hide Arm, Rise, Live, Seconds, Lower;
    ArmRest(Note(s, id, current, next, now), now);
  }

  // ---- the switch ----------------------------------------------------------------------

  /** The text names the same account, letter case and `0x` aside. */
  predicate Names(text: string, receiver: Addr) {
    Lower(Strip0x(text)) == Lower(Strip0x(receiver))
  }

  /** Whom the switch concerns: on, the seller's stored channels; off, the seller's collections. */
  predicate Concerned(s: State, e: Event, id: Id)
    requires e.DoSetEnabled?
  {
    if e.value then id in s.channels && Names(s.channels[id].config.receiver, e.receiver)
    else id in s.cols && Names(s.cols[id].seed.config.receiver, e.receiver)
  }

  /** Whom the switch would have to register. */
  ghost function Added(s: State, e: Event): set<Id>
    requires e.DoSetEnabled?
  {
    set id | id in s.channels && id !in s.cols && e.value && Concerned(s, e, id)
  }

  /** Switching a seller: refused, or on with more than a thousand collections to keep, it changes nothing. Else
      the policy is written, everybody concerned is due at once, forced if the switch is off, and registered from
      zero where it was not; nobody else changes, and no channel. */
  lemma SwitchMeans(s: State, e: Event, id: Id)
    requires e.DoSetEnabled? && Ready(s, e)
    ensures var t := Step(s, e);
      if !e.accept || (e.value && |s.cols| + |Added(s, e)| > 1000) then t == s
      else
        && t.enabled == (if e.value then s.enabled + {e.receiver} else s.enabled - {e.receiver}) && t.channels == s.channels
        && (!Concerned(s, e, id) ==> (id in t.cols <==> id in s.cols) && (id in s.cols ==> t.cols[id] == s.cols[id]))
        && (Concerned(s, e, id) ==>
              && DueAtOnce(t, id, e.now)
              && (id in s.cols ==> t.cols[id] == s.cols[id].(force := s.cols[id].force || !e.value, nextDue := Seconds(e.now)))
              && (id !in s.cols ==> FreshFor(t.cols[id], s.channels[id], e.now)))
  {
    hide Arm, Switch, Amount, Seconds, Names, Norm, Touched, FreshFor, DueAtOnce, Targets;
    TargetsAre(s, e);
    if e.accept && !(e.value && |s.cols| + |Added(s, e)| > 1000) {
      var mid := Switch(s, e.receiver, e.value, e.now);
      SwitchedAt(s, e, id);
      ArmRest(mid, e.now);
      if Concerned(s, e, id) {
        TouchedAt(s, id, e.value, e.now);
        ArmedFor(mid, id, e.now);
      }
    }
  }

  lemma TargetsAre(s: State, e: Event)
    requires e.DoSetEnabled?
    ensures var targets := Targets(s.channels, s.cols, e.receiver, e.value);
      && (forall id :: id in targets <==> Concerned(s, e, id))
      && (e.value ==> targets - s.cols.Keys == Added(s, e))
  {
    hide Lower;
  }

  lemma SwitchedAt(s: State, e: Event, id: Id)
    requires e.DoSetEnabled?
    ensures var targets, t := Targets(s.channels, s.cols, e.receiver, e.value), Switch(s, e.receiver, e.value, e.now);
      && t.enabled == (if e.value then s.enabled + {e.receiver} else s.enabled - {e.receiver}) && t.channels == s.channels
      && (id in targets ==> id in t.cols && t.cols[id] == Touched(s, id, e.value, e.now))
      && (id !in targets ==> (id in t.cols <==> id in s.cols) && (id in s.cols ==> t.cols[id] == s.cols[id]))
  {
    hide Targets, Touched;
  }

  lemma TouchedAt(s: State, id: Id, value: bool, now: u64)
    requires id in s.cols || id in s.channels
    ensures var c := Touched(s, id, value, now);
      && c.nextDue == Seconds(now)
      && (id in s.cols ==> c == s.cols[id].(force := s.cols[id].force || !value, nextDue := Seconds(now)))
      && (id !in s.cols && value ==> FreshFor(c, s.channels[id], now))
  {
    hide Amount, Seconds;
  }
}
