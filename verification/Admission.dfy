/** Which reservations the collector lets through, and what a reverted claim stops. */
module Admission {
  import opened Accounts
  import opened Wrappers
  import opened Batch
  import opened Collector
  import opened Charges
  import opened Journal
  import opened Frames
  import opened JournalSteps
  import opened ChargeSteps
  import opened MessageSteps
  import opened Scheduler
  import opened Sequences
  import opened Runs
  import opened ChargeRuns
  import opened AttemptStarts
  import opened Scripts

  // ---- admission -----------------------------------------------------------------------

  /** Everything the collector asks of a collection before it takes on a new reservation. */
  predicate Healthy(s: State, c: Collection, now: u64, fee: Option<nat>) {
    && Enabled(s.enabled, c.seed) && c.withdrawalAt == 0 && |c.charges| < 200
    && c.monitoredAt.Some? && Seconds(now) < c.monitoredAt.value + 120
    && fee.Some? && fee.value <= Get(s.credit, c.seed.config.receiver)
    && (c.error.None? || c.error == Some("settlement_queue_busy"))
  }

  lemma StopReasonIff(s: State, c: Collection, now: u64, fee: Option<nat>)
    ensures StopReason(s, c, now, fee).None? <==> Healthy(s, c, now, fee)
  {
    hide Enabled, Seconds, Get;
  }

  /** For a channel of an enabled or still collected seller, a new reservation passes if and only if its
      collection was registered before and is healthy: the first reservation only registers the monitor. */
  lemma AdmittedIff(s: State, id: Id, current: Option<Channel>, next: Channel, now: u64, fee: Option<nat>, signerOk: bool)
    requires CreatesPending(current, next) && (Enabled(s.enabled, next) || id in s.cols)
    ensures BeforeUpdate(s, id, current, next, now, fee, signerOk).1 <==>
      signerOk && id in s.cols && Healthy(s, s.cols[id], now, fee)
  {
    hide Arm, Enabled, CreatesPending, StopReason, Healthy, NewCollection;
    if signerOk && id in s.cols {
      RefreshedHealth(s, id, now, fee);
      StopReasonIff(Refresh(s, id, now), Refresh(s, id, now).cols[id], now, fee);
    } else if signerOk && |s.cols| < CAPACITY {
      var s1 := Arm(Register(s, id, NewCollection(next, now)), now);
      NewIsStale(s, id, next, now, fee);
      RefreshedHealth(s1, id, now, fee);
      StopReasonIff(Refresh(s1, id, now), Refresh(s1, id, now).cols[id], now, fee);
    }
  }

  /** Forgetting a stale answer changes no verdict. */
  lemma RefreshedHealth(s: State, id: Id, now: u64, fee: Option<nat>)
    requires id in s.cols
    ensures Healthy(Refresh(s, id, now), Refresh(s, id, now).cols[id], now, fee) <==> Healthy(s, s.cols[id], now, fee)
  {
    hide Arm, Enabled, Seconds;
    var c := s.cols[id].(monitoredAt := None, nextDue := Seconds(now));
    ArmRest(Save(s, id, c), now);
    ArmQuiet(Save(s, id, c), now);
  }

  lemma NewIsStale(s: State, id: Id, next: Channel, now: u64, fee: Option<nat>)
    requires id !in s.cols
    ensures var s1 := Arm(Register(s, id, NewCollection(next, now)), now);
      id in s1.cols && !Healthy(s1, s1.cols[id], now, fee)
  {
    hide Arm, Enabled, Seconds, Amount;
    ArmRest(Register(s, id, NewCollection(next, now)), now);
  }

  /** End to end: an accepted update of a collected channel that opens a reservation is stored if and only
      if the signer is configured, the collection is healthy, and there is room for the channel. */
  lemma ReservationStoredIff(s: State, e: Event)
    requires e.DoUpdate? && e.accept
    requires e.expected == (if e.id in s.channels then Some(s.channels[e.id].revision) else None)
    requires Accepted(Stored(s, e.id), e.next, Seconds(e.now)) && CreatesPending(Stored(s, e.id), e.next)
    requires Enabled(s.enabled, e.next) || e.id in s.cols
    ensures var t := UpdateChannel(s, e.id, e.expected, e.next, e.now, e.feeNow, e.signerOk, e.accept);
      (e.id in t.channels && t.channels[e.id].pending == e.next.pending
         && t.channels[e.id] == e.next.(channelId := e.id, revision := NextRevision(Stored(s, e.id)))) <==>
      (e.signerOk && e.id in s.cols && Healthy(s, s.cols[e.id], e.now, e.feeNow)
         && (e.id in s.channels || |s.channels| < MAX_CHANNELS))
  {
    hide BeforeUpdate, AfterUpdate, Accepted, Healthy, NextRevision;
    var current := Stored(s, e.id);
    var named := e.next.(channelId := e.id);
    AdmittedIff(s, e.id, current, named, e.now, e.feeNow, e.signerOk);
    BeforeUpdateChannels(s, e.id, current, named, e.now, e.feeNow, e.signerOk);
    var s1 := BeforeUpdate(s, e.id, current, named, e.now, e.feeNow, e.signerOk).0;
    var stored := e.next.(channelId := e.id, revision := NextRevision(current));
    StoredChannels(s1, e.id, current, stored, e.now);
    OldPendingDiffers(s, e);
  }

  lemma StoredChannels(s: State, id: Id, current: Option<Channel>, stored: Channel, now: u64)
    ensures AfterUpdate(s.(channels := s.channels[id := stored]), id, current, stored, now).channels == s.channels[id := stored]
  {
    hide Arm, Noted, Rise;
    var s2 := s.(channels := s.channels[id := stored]);
    if id in s.cols {
      ArmRest(Note(s2, id, current, stored, now), now);
    }
  }

  /** A new reservation is not the old one. */
  lemma OldPendingDiffers(s: State, e: Event)
    requires e.DoUpdate? && CreatesPending(Stored(s, e.id), e.next)
    ensures e.id in s.channels ==> s.channels[e.id].pending != e.next.pending
  {
  }

  /** A collection that is not healthy refuses a new reservation: no channel changes. */
  lemma RefusedThen(s: State, e: Event)
    requires e.DoUpdate? && Ready(s, e) && CreatesPending(Stored(s, e.id), e.next) && e.id in s.cols
    requires !Healthy(s, s.cols[e.id], e.now, e.feeNow)
    ensures Step(s, e).channels == s.channels
  {
    hide BeforeUpdate, AfterUpdate, Accepted, Healthy, NextRevision, CreatesPending;
    var current := Stored(s, e.id);
    var named := e.next.(channelId := e.id);
    assert CreatesPending(current, named) by { NamedPending(current, e.next, e.id); }
    AdmittedIff(s, e.id, current, named, e.now, e.feeNow, e.signerOk);
    BeforeUpdateChannels(s, e.id, current, named, e.now, e.feeNow, e.signerOk);
  }

  lemma NamedPending(current: Option<Channel>, next: Channel, id: Id)
    requires CreatesPending(current, next)
    ensures CreatesPending(current, next.(channelId := id))
  {
  }

  // ---- a reverted claim ----------------------------------------------------------------

  /** Reverted, and nobody asked to try again. */
  predicate Stopped(s: State, id: Id) {
    id in s.cols && s.cols[id].halted && s.cols[id].attempt.None?
  }

  /** The step kept `halted` and `attempt` of this collection. */
  ghost predicate HaltKept(s: State, t: State, id: Id) {
    id in s.cols && id in t.cols ==> t.cols[id].halted == s.cols[id].halted && t.cols[id].attempt == s.cols[id].attempt
  }

  lemma SaveHalt(s: State, i: Id, c: Collection, now: u64, workers: map<Id, Worker>, id: Id)
    requires i == id && id in s.cols ==> c.halted == s.cols[id].halted && c.attempt == s.cols[id].attempt
    ensures HaltKept(s, Arm(Save(s, i, c).(workers := workers), now), id)
    ensures HaltKept(s, Arm(Save(s.(workers := workers), i, c), now), id)
    ensures HaltKept(s, Arm(Save(s, i, c), now), id)
  {
    hide Arm;
    ArmRest(Save(s, i, c).(workers := workers), now);
    ArmRest(Save(s.(workers := workers), i, c), now);
    ArmRest(Save(s, i, c), now);
  }

  lemma MonitorStops(s: State, e: Event)
    requires Ready(s, e) && e.DoMonitor? && Stopped(s, e.id) && e.id in Step(s, e).cols
    ensures Stopped(Step(s, e), e.id)
  {
    hide Observed, Continue;
    if e.answer.Ok? {
      ObservedHalt(s.cols[e.id], e.answer.value, e.now);
      ContinueStops(Save(s, e.id, Observed(s.cols[e.id], e.answer.value, e.now)), e.id, e.now, e.sameNetwork, e.prep);
    }
  }

  lemma ObservedHalt(c: Collection, answer: Answer, now: u64)
    ensures var d := Observed(c, answer, now); d.halted == c.halted && d.attempt == c.attempt
  {
    hide Unpaid, Amount;
  }

  lemma ContinueStops(s: State, id: Id, now: u64, sameNetwork: bool, prep: Result<Prep, string>)
    requires Stopped(s, id) && id in Continue(s, id, now, sameNetwork, prep).cols
    ensures Stopped(Continue(s, id, now, sameNetwork, prep), id)
  {
    hide Leave, Amount, Reserve;
    LeaveStops(s, id, now, s.cols[id].seed);
    if id in s.channels {
      LeaveStops(Save(s, id, s.cols[id].(force := false, oldestLegacy := None)), id, now, s.channels[id]);
    }
  }

  lemma LeaveStops(s: State, id: Id, now: u64, channel: Channel)
    requires Stopped(s, id)
    ensures id in Leave(s, id, now, channel).cols ==> Stopped(Leave(s, id, now, channel), id)
  {
    hide Enabled, Live;
  }

  lemma WorkerStops(s: State, e: Event, id: Id)
    requires Inv(s) && Ready(s, e) && IsWorkerEvent(e) && Stopped(s, id) && id in Step(s, e).cols
    ensures Stopped(Step(s, e), id)
  {
    hide JournalInv, ChargesInv, SchedInv, KeysInv, LedgerInv, WorkerStart, MonitorOutcall, MonitorDone, PrepareDone,
      ResumeDone, At, WorkerPath;
    if e.id != id {
      WorkerEventIsPath(s, e);
      PathLeavesOthers(s, Step(s, e), e.id, id);
    } else if e.DoMonitor? {
      MonitorStops(s, e);
    } else if e.DoPrepare? || e.DoResume? {
      WorkerHoldsAttempt(s, id);
    } else {
      IdleStops(s, e);
    }
  }

  lemma IdleStops(s: State, e: Event)
    requires (e.DoStart? || e.DoOutcall? || e.DoSent?) && Ready(s, e) && Stopped(s, e.id)
    ensures Stopped(Step(s, e), e.id)
  {
    hide Idle, SatAdd;
  }

  lemma UpdateHalt(s: State, e: Event, id: Id)
    requires e.DoUpdate?
    ensures HaltKept(s, UpdateChannel(s, e.id, e.expected, e.next, e.now, e.feeNow, e.signerOk, e.accept), id)
    ensures s.cols.Keys <= UpdateChannel(s, e.id, e.expected, e.next, e.now, e.feeNow, e.signerOk, e.accept).cols.Keys
  {
    hide BeforeUpdate, AfterUpdate, Accepted, NextRevision;
    var current := Stored(s, e.id);
    BeforeUpdateHalt(s, e.id, current, e.next.(channelId := e.id), e.now, e.feeNow, e.signerOk, id);
    BeforeUpdateKeys(s, e.id, current, e.next.(channelId := e.id), e.now, e.feeNow, e.signerOk);
    var s1 := BeforeUpdate(s, e.id, current, e.next.(channelId := e.id), e.now, e.feeNow, e.signerOk).0;
    var stored := e.next.(channelId := e.id, revision := NextRevision(current));
    var s2 := s1.(channels := s1.channels[e.id := stored]);
    NoteHalt(s2, e.id, current, stored, e.now, id);
    AfterUpdateKeys(s2, e.id, current, stored, e.now);
  }

  lemma BeforeUpdateHalt(s: State, i: Id, current: Option<Channel>, next: Channel, now: u64, fee: Option<nat>,
                         signerOk: bool, id: Id)
    ensures HaltKept(s, BeforeUpdate(s, i, current, next, now, fee, signerOk).0, id)
  {
    hide Arm, StopReason, Enabled, CreatesPending, NewCollection, IsStale, Seconds;
    if i in s.cols {
      SaveHalt(s, i, s.cols[i].(monitoredAt := None, nextDue := Seconds(now)), now, s.workers, id);
    } else {
      var r := Register(s, i, NewCollection(next, now));
      ArmRest(r, now);
      SaveHalt(Arm(r, now), i, r.cols[i].(monitoredAt := None, nextDue := Seconds(now)), now, s.workers, id);
    }
  }

  lemma NoteHalt(s: State, i: Id, current: Option<Channel>, next: Channel, now: u64, id: Id)
    ensures HaltKept(s, AfterUpdate(s, i, current, next, now), id)
  {
    hide Arm, Rise, Enabled, Live, Seconds;
    if i in s.cols {
      ArmRest(Note(s, i, current, next, now), now);
    }
  }

  lemma SetEnabledHalt(s: State, receiver: Addr, value: bool, now: u64, accept: bool, id: Id)
    ensures HaltKept(s, SetEnabled(s, receiver, value, now, accept), id)
  {
    hide Arm, Targets, NewCollection, Seconds;
    ArmRest(Switch(s, receiver, value, now), now);
  }

  lemma StepStops(s: State, e: Event, id: Id)
    requires Inv(s) && Ready(s, e) && Stopped(s, id) && id in Step(s, e).cols && !(e.DoRequestClaim? && e.id == id)
    ensures Stopped(Step(s, e), id)
  {
    hide Inv, SetEnabled, RequestClaim, UpdateChannel, DeleteChannel, Fire, WorkerFinish, Upgrade, Earliest, Norm,
      WorkerStart, MonitorOutcall, MonitorDone, PrepareDone, ResumeDone, At;
    if IsWorkerEvent(e) {
      WorkerStops(s, e, id);
    } else if e.DoSetEnabled? {
      SetEnabledHalt(s, e.receiver, e.value, e.now, e.accept, id);
    } else if e.DoUpdate? {
      UpdateHalt(s, e, id);
    } else if e.DoRequestClaim? {
      RequestHalt(s, e.id, e.now, id);
    } else if e.DoDelete? {
      DeleteHalt(s, e, id);
    } else if e.DoFinish? {
      FinishHalt(s, e.id, e.now, id);
    } else if e.DoFire? || e.DoUpgrade? {
      TimerHalt(s, e);
    } else {
      hide Step;
      OutsideFrame(s, e);
    }
  }

  lemma RequestHalt(s: State, i: Id, now: u64, id: Id)
    requires i != id
    ensures HaltKept(s, RequestClaim(s, i, now), id)
  {
    hide Arm, Seconds;
    if i in s.cols {
      ArmRest(Save(s, i, s.cols[i].(force := true, halted := false, nextDue := Seconds(now))), now);
    }
  }

  lemma DeleteHalt(s: State, e: Event, id: Id)
    requires e.DoDelete?
    ensures HaltKept(s, DeleteChannel(s, e.id, e.expected, e.now, e.accept), id)
  {
    hide Live, Provisional, MayDelete;
  }

  lemma FinishHalt(s: State, i: Id, now: u64, id: Id)
    requires i in s.workers && s.workers[i].Returned?
    ensures HaltKept(s, WorkerFinish(s, i, now), id)
  {
    hide Arm, Amount, Live, Seconds, SatAdd;
    if i in s.cols {
      SaveHalt(s, i, Rested(s, i, now), now, s.workers - {i}, id);
    } else {
      ArmRest(s.(workers := s.workers - {i}), now);
    }
  }

  lemma TimerHalt(s: State, e: Event)
    requires e.DoFire? || e.DoUpgrade?
    ensures e.DoFire? ==> Fire(s, e.chosen, e.now).cols == s.cols
    ensures e.DoUpgrade? ==> Upgrade(s, e.now).cols == s.cols
  {
    hide Arm;
    if e.DoFire? {
      ArmRest(s.(timer := None, workers := s.workers + Spawned(e.chosen)), e.now);
    } else {
      ArmRest(s.(workers := map[], timer := None), e.now);
    }
  }

  ghost predicate NobodyAsks(events: seq<Event>, id: Id) {
    forall i :: 0 <= i < |events| ==> !(events[i].DoRequestClaim? && events[i].id == id)
  }

  /** Along a run without a request a stopped collection stays stopped. */
  lemma {:induction false} StaysStopped(s: State, events: seq<Event>, id: Id)
    requires Reachable(s) && IsRun(s, events) && Registered(s, events, id) && Stopped(s, id) && NobodyAsks(events, id)
    ensures Stopped(Exec(s, events), id) && NoAttemptOf(s.hist.log, Exec(s, events).hist.log, id)
    decreases |events|
  {
    hide Reachable, Ready, Step, Stopped, NoAttemptOf, NobodyAsks, Inv;
    if events == [] {
      NoneBegins(s.hist.log, id);
    } else {
      var mid := Step(s, events[0]);
      NobodyAsksYet(events, id);
      ReachableInv(s);
      RegisteredNext(s, events, id);
      StepStops(s, events[0], id);
      StepBeginsNone(s, events[0], id);
      Then(s, events[0]);
      StaysStopped(mid, events[1..], id);
      NoneTransitive(s.hist.log, mid.hist.log, Exec(s, events).hist.log, id);
    }
  }

  lemma NobodyAsksYet(events: seq<Event>, id: Id)
    requires events != [] && NobodyAsks(events, id)
    ensures !(events[0].DoRequestClaim? && events[0].id == id) && NobodyAsks(events[1..], id)
  {
  }

  lemma RegisteredNext(s: State, events: seq<Event>, id: Id)
    requires IsRun(s, events) && Registered(s, events, id) && events != []
    ensures id in s.cols && id in Step(s, events[0]).cols && Registered(Step(s, events[0]), events[1..], id)
  {
    hide Ready, Step;
  }

  /** The later log keeps the keys and adds no attempt of this channel. */
  ghost predicate NoAttemptOf(log: seq<Entry>, log': seq<Entry>, id: Id) {
    && |log| <= |log'|
    && (forall n :: 0 <= n < |log| ==> log'[n].key == log[n].key)
    && forall n :: |log| <= n < |log'| ==> !Of(log', n, id)
  }

  lemma NoneBegins(log: seq<Entry>, id: Id)
    ensures NoAttemptOf(log, log, id)
  {
  }

  lemma NoneTransitive(log: seq<Entry>, mid: seq<Entry>, log': seq<Entry>, id: Id)
    requires NoAttemptOf(log, mid, id) && NoAttemptOf(mid, log', id)
    ensures NoAttemptOf(log, log', id)
  {
    forall n | |log| <= n < |log'| ensures !Of(log', n, id) {
      if n < |mid| {
        assert log'[n].key == mid[n].key && !Of(mid, n, id);
      }
    }
  }

  lemma StepBeginsNone(s: State, e: Event, id: Id)
    requires Reachable(s) && Ready(s, e) && Stopped(s, id)
    ensures NoAttemptOf(s.hist.log, Step(s, e).hist.log, id)
  {
    hide Reachable, Ready, Step, Starts, FirstEntry;
    if e.DoMonitor? {
      AttemptStartsIff(s, e);
      if Starts(s, e) {
        StartsOther(s, e, id);
      }
    } else {
      OnlyMonitorStarts(s, e);
    }
  }

  lemma StartsOther(s: State, e: Event, id: Id)
    requires e.DoMonitor? && Starts(s, e) && Stopped(s, id)
    ensures FirstEntry(s, e).key.Auto? && FirstEntry(s, e).key.id == e.id && e.id != id
  {
    hide Unpaid, Amount, Seller;
  }

  lemma RevertHalts(s: State, id: Id)
    requires Reachable(s) && Ready(s, DoResume(id, Receipt.Failed))
    ensures Stopped(Step(s, DoResume(id, Receipt.Failed)), id)
  {
    hide Reachable;
    JournalNeverMissing(s, id);
  }

  /** From the receipt that shows a claim reverted, along any run during which the collection stays
      registered and nobody requests a claim: the channel gets no further attempt, however often it is
      monitored, charged, switched off and on, or the canister upgraded. */
  lemma RevertedWaitsForRequest(s: State, id: Id, events: seq<Event>)
    requires Reachable(s) && Ready(s, DoResume(id, Receipt.Failed))
    requires var t := Step(s, DoResume(id, Receipt.Failed));
      IsRun(t, events) && Registered(t, events, id) && NobodyAsks(events, id)
    ensures var t := Step(s, DoResume(id, Receipt.Failed));
      Stopped(Exec(t, events), id) && NoAttemptOf(t.hist.log, Exec(t, events).hist.log, id)
  {
    hide Reachable, Ready, Step, Stopped, IsRun, Exec, Registered, NoAttemptOf;
    RevertHalts(s, id);
    Then(s, DoResume(id, Receipt.Failed));
    StaysStopped(Step(s, DoResume(id, Receipt.Failed)), events, id);
  }

  // ---- what sets and lifts a halt ------------------------------------------------------

  lemma StartHalt(s: State, id: Id, now: u64, config: Option<string>)
    requires id in s.cols
    ensures var t := WorkerStart(s, id, now, config); id in t.cols && t.cols[id].halted == s.cols[id].halted
  {
    hide Abandon, Idle, SameRest;
    if s.cols[id].attempt.Some? {
      AbandonRest(s, id, s.cols[id].attempt.value);
    }
  }

  lemma MonitorHalt(s: State, e: Event)
    requires Ready(s, e) && e.DoMonitor? && e.id in s.cols && e.id in Step(s, e).cols
    ensures Step(s, e).cols[e.id].halted == s.cols[e.id].halted
  {
    hide Observed, Continue;
    if e.answer.Ok? {
      ObservedHalt(s.cols[e.id], e.answer.value, e.now);
      ContinueHalt(Save(s, e.id, Observed(s.cols[e.id], e.answer.value, e.now)), e.id, e.now, e.sameNetwork, e.prep);
    }
  }

  lemma ContinueHalt(s: State, id: Id, now: u64, sameNetwork: bool, prep: Result<Prep, string>)
    requires id in s.cols && id in Continue(s, id, now, sameNetwork, prep).cols
    ensures Continue(s, id, now, sameNetwork, prep).cols[id].halted == s.cols[id].halted
  {
    hide Leave, Amount, Reserve, Blocked;
    var c := s.cols[id];
    if c.attempt.None? && id !in s.channels {
      LeaveHalt(s, id, now, c.seed);
    } else if c.attempt.None? && Charged(s, id) <= c.claimed {
      LeaveHalt(Save(s, id, c.(force := false, oldestLegacy := None)), id, now, s.channels[id]);
    } else if c.attempt.None? {
      CollectHalt(s, id, now, sameNetwork, prep);
    }
  }

  lemma CollectHalt(s: State, id: Id, now: u64, sameNetwork: bool, prep: Result<Prep, string>)
    requires id in s.cols && s.cols[id].attempt.None? && id in s.channels && Charged(s, id) > s.cols[id].claimed
    requires id in Continue(s, id, now, sameNetwork, prep).cols
    ensures Continue(s, id, now, sameNetwork, prep).cols[id].halted == s.cols[id].halted
  {
    hide Leave, Amount, Reserve, Blocked;
    if prep.Ok? {
      ReserveHalt(s, id, prep.value);
    }
  }

  lemma LeaveHalt(s: State, id: Id, now: u64, channel: Channel)
    requires id in s.cols
    ensures var t := Leave(s, id, now, channel); id in t.cols ==> t.cols[id].halted == s.cols[id].halted
  {
    hide Enabled, Live;
  }

  lemma ReserveHalt(s: State, id: Id, p: Prep)
    requires id in s.cols && id in s.channels
    ensures var t := Reserve(s, id, p); id in t.cols && t.cols[id].halted == s.cols[id].halted
  {
    hide NewAttempt, Enabled, Amount, Get;
    FeeOfPrep(s, id, p);
  }

  lemma PrepareHalt(s: State, id: Id, a: Attempt, outcome: Prepared)
    requires id in s.cols
    ensures var t := PrepareDone(s, id, a, outcome); id in t.cols && t.cols[id].halted == s.cols[id].halted
  {
    hide Abandon, JournalAndSend, Reserved, Advance, SameRest;
    AbandonRest(s, id, a);
    match outcome
    case SignFailed(pending, _) =>
      var nonce := Reserved(s.nonces, a.from, pending);
      AbandonRest(AfterReserve(s, a.from, nonce), id, a.(nonce := Some(nonce)));
    case Signed(pending, raw, tx) => JournalHalt(s, id, a, Reserved(s.nonces, a.from, pending), raw, tx);
    case _ =>
  }

  lemma JournalHalt(s: State, id: Id, a: Attempt, nonce: nat, raw: string, tx: string)
    requires id in s.cols
    ensures var t := JournalAndSend(s, id, a, nonce, raw, tx); id in t.cols && t.cols[id].halted == s.cols[id].halted
  {
    hide Advance, SetFate, Sent;
    FateColumns();
  }

  lemma SettleHalt(s: State, id: Id, a: Attempt, tx: string)
    requires id in s.cols
    ensures var t := Settle(s, id, a, tx); id in t.cols && t.cols[id].halted == s.cols[id].halted
    ensures var t := Fail(s, id, a, tx); id in t.cols && t.cols[id].halted
  {
    hide Unpaid, Amount;
  }

  lemma ResumeHalt(s: State, id: Id, a: Attempt, receipt: Receipt)
    requires id in s.cols && a.raw.Some? && a.nonce.Some? && a.tx.Some?
    ensures var t := ResumeDone(s, id, a, receipt);
      id in t.cols && t.cols[id].halted == (s.cols[id].halted || receipt.Failed?)
  {
    hide Settle, Fail, Sent;
    SentColumns(s, id, a);
    SettleHalt(s, id, a, a.tx.value);
  }

  lemma WorkerHalt(s: State, e: Event, id: Id)
    requires Reachable(s) && Ready(s, e) && IsWorkerEvent(e) && id in s.cols && id in Step(s, e).cols
    ensures Step(s, e).cols[id].halted == (s.cols[id].halted || (e.DoResume? && e.id == id && e.receipt.Failed?))
  {
    hide Reachable, Inv, WorkerStart, MonitorOutcall, MonitorDone, PrepareDone, ResumeDone, WorkerPath;
    JournalNeverMissing(s, e.id);
    if e.id != id {
      OthersHalt(s, e, id);
    } else if e.DoMonitor? {
      MonitorHalt(s, e);
    } else if e.DoPrepare? {
      PrepareHalt(s, id, s.workers[id].attempt, e.outcome);
    } else if e.DoResume? {
      ResumeHalt(s, id, s.workers[id].attempt, e.receipt);
    } else if e.DoStart? {
      StartHalt(s, id, e.now, e.config);
    } else if e.DoOutcall? {
      OutcallHalt(s, id, e.cycles);
    }
  }

  lemma OutcallHalt(s: State, id: Id, cycles: nat)
    requires id in s.cols
    ensures var t := MonitorOutcall(s, id, cycles); id in t.cols && t.cols[id].halted == s.cols[id].halted
  {
    hide SatAdd;
  }

  lemma OthersHalt(s: State, e: Event, id: Id)
    requires Reachable(s) && Ready(s, e) && IsWorkerEvent(e) && e.id != id && id in s.cols
    ensures id in Step(s, e).cols && Step(s, e).cols[id] == s.cols[id]
  {
    hide Reachable, JournalInv, ChargesInv, SchedInv, KeysInv, LedgerInv, WorkerPath, Step, Ready;
    ReachableInv(s);
    WorkerEventIsPath(s, e);
    PathLeavesOthers(s, Step(s, e), e.id, id);
  }

  lemma PathLeavesOthers(s: State, t: State, i: Id, id: Id)
    requires WorkerPath(s, t, i) && i != id && id in s.cols
    ensures id in t.cols && t.cols[id] == s.cols[id]
  {
    hide Evolves, SameRest;
    var mid :| Between(s, mid, t, i);
  }

  /** A registered collection is halted after a step if and only if the step read a reverted receipt for it,
      or it was halted before and the step is not a request for it. A new registration is not halted
      (Registrations.RegistrationStands), so leaving and registering again is the only other way out. */
  lemma HaltedIff(s: State, e: Event, id: Id)
    requires Reachable(s) && Ready(s, e) && id in s.cols && id in Step(s, e).cols
    ensures Step(s, e).cols[id].halted <==>
      (e.DoResume? && e.id == id && e.receipt.Failed?) || (s.cols[id].halted && !(e.DoRequestClaim? && e.id == id))
  {
    hide Reachable, SetEnabled, RequestClaim, UpdateChannel, DeleteChannel, Fire, WorkerFinish, Upgrade, Earliest, Norm,
      WorkerStart, MonitorOutcall, MonitorDone, PrepareDone, ResumeDone, At;
    if IsWorkerEvent(e) {
      WorkerHalt(s, e, id);
    } else if e.DoSetEnabled? {
      SetEnabledHalt(s, e.receiver, e.value, e.now, e.accept, id);
    } else if e.DoUpdate? {
      UpdateHalt(s, e, id);
    } else if e.DoRequestClaim? {
      RequestLifts(s, e.id, e.now);
      if e.id != id {
        RequestHalt(s, e.id, e.now, id);
      }
    } else if e.DoDelete? {
      DeleteHalt(s, e, id);
    } else if e.DoFinish? {
      FinishHalt(s, e.id, e.now, id);
    } else if e.DoFire? || e.DoUpgrade? {
      TimerHalt(s, e);
    } else {
      hide Step;
      OutsideFrame(s, e);
    }
  }

  /** A request forces the collection, lifts its halt, makes it due now, and has the timer armed within a
      second unless somebody works on it already. */
  lemma RequestLifts(s: State, id: Id, now: u64)
    ensures var t := RequestClaim(s, id, now);
      id in s.cols ==>
        && id in t.cols && !t.cols[id].halted && t.cols[id].force && t.cols[id].nextDue == Seconds(now)
        && t.cols[id].attempt == s.cols[id].attempt
        && (id !in s.workers ==> t.timer.Some? && t.timer.value <= Tick(now))
  {
    hide Arm, TimerOk, Seconds;
    if id in s.cols {
      var mid := Save(s, id, s.cols[id].(force := true, halted := false, nextDue := Seconds(now)));
      ArmRest(mid, now);
      ArmQuiet(mid, now);
      ArmIsOnTime(mid, now);
      ArmWrites(mid, now);
      if id !in s.workers {
        DueNow(Arm(mid, now), id, now);
      }
    }
  }
}
