/** What a channel update wakes (rust/facilitator/src/auto_claim.rs:333-362). */
module Wakeups {
  import opened Wrappers
  import opened Decimal
  import opened Batch
  import opened Collector
  import opened Charges
  import opened Journal
  import opened Frames
  import opened MessageSteps
  import opened Scheduler
  import opened Sequences
  import opened Runs
  import opened Scripts

  /** Due now, and the timer armed for it within a second unless somebody works on it already. */
  ghost predicate DueAtOnce(t: State, id: Id, now: u64) {
    && id in t.cols && t.cols[id].nextDue == Seconds(now)
    && (id !in t.workers ==> t.timer.Some? && t.timer.value <= Tick(now))
  }

  lemma NoteWakes(s: State, id: Id, current: Option<Channel>, next: Channel, now: u64)
    requires id in s.cols
    ensures var t := AfterUpdate(s, id, current, next, now);
      var c, rises := s.cols[id], Amount(next.charged) > StoredAmount(current);
      && id in t.cols
      && t.cols[id].charges == (if rises then c.charges + [Charge(Amount(next.charged), Seconds(now))] else c.charges)
      && (rises && |c.charges| + 1 == 100 ==> DueAtOnce(t, id, now))
      && (c.nextDue == Seconds(now) ==> DueAtOnce(t, id, now))
      && (c.nextDue == U64_MAX && (rises || Live(next.pending, Seconds(now))) ==> DueAtOnce(t, id, now))
  {
    hide Arm, Enabled, Live, Amount, Seconds, TimerOk;
    var mid := Note(s, id, current, next, now);
    ArmRest(mid, now);
    ArmQuiet(mid, now);
    ArmIsOnTime(mid, now);
    ArmWrites(mid, now);
    var t := Arm(mid, now);
    if t.cols[id].nextDue == Seconds(now) && id !in t.workers {
      DueNow(t, id, now);
    }
  }

  /** The update was stored. */
  predicate WillStore(s: State, e: Event)
    requires e.DoUpdate?
  {
    var current := Stored(s, e.id);
    && e.accept && e.expected == (if current.None? then None else Some(current.value.revision))
    && Accepted(current, e.next, Seconds(e.now))
    && (e.id in s.channels || |s.channels| < MAX_CHANNELS)
  }

  /** A charge is never asked about admission: it consumes a reservation that was admitted before. */
  lemma ChargeIsAdmitted(s: State, e: Event)
    requires Inv(s) && e.DoUpdate? && WillStore(s, e) && Amount(e.next.charged) > StoredAmount(Stored(s, e.id))
    ensures BeforeUpdate(s, e.id, Stored(s, e.id), e.next.(channelId := e.id), e.now, e.feeNow, e.signerOk) == (s, true)
  {
    hide JournalInv, ChargesInv, SchedInv, KeysInv, LedgerInv, Accepted, Amount, WellFormed, Enabled;
    StoredWellFormed(s, e.id);
    UpdateMeans(Stored(s, e.id), e.next, Seconds(e.now));
  }

  /** An accepted charge on a collected channel is always stored, adds exactly itself to the list, and makes
      the collection due at once when it fills the hundred or ends a sleep. */
  lemma ChargeWakes(s: State, e: Event)
    requires Inv(s) && e.DoUpdate? && Ready(s, e) && WillStore(s, e) && e.id in s.cols
    requires Amount(e.next.charged) > Charged(s, e.id)
    ensures var t := Step(s, e);
      && e.id in t.channels && t.channels[e.id].charged == e.next.charged && e.id in t.cols
      && t.cols[e.id].charges == s.cols[e.id].charges + [Charge(Amount(e.next.charged), Seconds(e.now))]
      && (|t.cols[e.id].charges| == 100 || s.cols[e.id].nextDue == U64_MAX ==> DueAtOnce(t, e.id, e.now))
  {
    hide Inv, BeforeUpdate, AfterUpdate, Accepted, NextRevision, Amount, Live, Seconds, DueAtOnce;
    ChargeIsAdmitted(s, e);
    var current := Stored(s, e.id);
    var stored := e.next.(channelId := e.id, revision := NextRevision(current));
    var s2 := s.(channels := s.channels[e.id := stored]);
    NoteWakes(s2, e.id, current, stored, e.now);
    StoredStays(s2, e.id, current, stored, e.now);
  }

  lemma StoredStays(s: State, id: Id, current: Option<Channel>, next: Channel, now: u64)
    ensures AfterUpdate(s, id, current, next, now).channels == s.channels
  {
    hide Arm, Noted, Rise;
    if id in s.cols {
      ArmRest(Note(s, id, current, next, now), now);
    }
  }

  /** A stored update that leaves a live reservation ends a sleep as well. */
  lemma ReservationWakes(s: State, e: Event)
    requires Inv(s) && e.DoUpdate? && Ready(s, e) && e.id in s.cols && s.cols[e.id].nextDue == U64_MAX
    requires Stored(Step(s, e), e.id) != Stored(s, e.id) && Live(e.next.pending, Seconds(e.now))
    ensures DueAtOnce(Step(s, e), e.id, e.now)
  {
    hide Inv, BeforeUpdate, AfterUpdate, Accepted, NextRevision, Live, Seconds, DueAtOnce, Amount;
    var current := Stored(s, e.id);
    var named := e.next.(channelId := e.id);
    BeforeUpdateChannels(s, e.id, current, named, e.now, e.feeNow, e.signerOk);
    BeforeSleeps(s, e.id, current, named, e.now, e.feeNow, e.signerOk);
    var s1 := BeforeUpdate(s, e.id, current, named, e.now, e.feeNow, e.signerOk).0;
    var stored := e.next.(channelId := e.id, revision := NextRevision(current));
    NoteWakes(s1.(channels := s1.channels[e.id := stored]), e.id, current, stored, e.now);
  }

  lemma BeforeSleeps(s: State, id: Id, current: Option<Channel>, next: Channel, now: u64, fee: Option<nat>, signerOk: bool)
    requires id in s.cols && s.cols[id].nextDue == U64_MAX
    ensures var t := BeforeUpdate(s, id, current, next, now, fee, signerOk).0;
      id in t.cols && (t.cols[id].nextDue == U64_MAX || t.cols[id].nextDue == Seconds(now))
  {
    hide Arm, StopReason, Enabled, CreatesPending, IsStale, Seconds;
    ArmRest(Save(s, id, s.cols[id].(monitoredAt := None, nextDue := Seconds(now))), now);
  }
}
