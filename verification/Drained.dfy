/** What becomes of a collection with nothing left to collect: when its worker takes it out of the map,
    and how one that goes to sleep stays (rust/facilitator/src/auto_claim.rs:515-577). */
module Drained {
  import opened Accounts
  import opened Wrappers
  import opened Decimal
  import opened HexUtil
  import opened Batch
  import opened Collector
  import opened Charges
  import opened Journal
  import opened Frames
  import opened ChargeSteps
  import opened MessageSteps
  import opened Scheduler
  import opened Sequences
  import opened Runs
  import opened ChargeRuns
  import opened AttemptStarts
  import opened Scripts
  import opened Examples

  // ---- leaving -------------------------------------------------------------------------

  /** Nothing in flight and nothing to collect at this claimed total. */
  predicate NothingDue(s: State, id: Id, claimed: nat)
    requires id in s.cols
  {
    s.cols[id].attempt.None? && Charged(s, id) <= claimed
  }

  /** The seller is disabled and no reservation is open; without a stored channel either is enough. */
  predicate MayGo(s: State, id: Id, now: u64)
    requires id in s.cols
  {
    if id in s.channels then !Enabled(s.enabled, s.channels[id]) && !Live(s.channels[id].pending, Seconds(now))
    else !Enabled(s.enabled, s.cols[id].seed) || !Live(s.cols[id].seed.pending, Seconds(now))
  }

  lemma LeaveRemovesIff(s: State, id: Id, now: u64, channel: Channel)
    requires id in s.cols && channel == (if id in s.channels then s.channels[id] else s.cols[id].seed)
    ensures id !in Leave(s, id, now, channel).cols <==> MayGo(s, id, now)
  {
    hide Enabled, Live, Seconds;
  }

  lemma OwingStays(s: State, e: Event)
    requires e.DoMonitor? && e.id in s.cols && !NothingDue(s, e.id, s.cols[e.id].claimed)
    ensures e.id in Continue(s, e.id, e.now, e.sameNetwork, e.prep).cols
  {
    hide Leave, Amount, Reserve, Blocked;
    if e.id in s.channels && e.prep.Ok? {
      ReserveInCols(s, e.id, e.prep.value);
    }
  }

  lemma DrainedAsks(s: State, e: Event)
    requires e.DoMonitor? && e.id in s.cols && NothingDue(s, e.id, s.cols[e.id].claimed)
    ensures Continue(s, e.id, e.now, e.sameNetwork, e.prep) ==
      (if e.id !in s.channels then Leave(s, e.id, e.now, s.cols[e.id].seed)
       else Leave(Save(s, e.id, s.cols[e.id].(force := false, oldestLegacy := None)), e.id, e.now, s.channels[e.id]))
  {
    hide Leave, Amount, Reserve, Blocked;
  }

  lemma ContinueLeavesIff(s: State, e: Event)
    requires e.DoMonitor? && e.id in s.cols
    ensures e.id !in Continue(s, e.id, e.now, e.sameNetwork, e.prep).cols <==>
      NothingDue(s, e.id, s.cols[e.id].claimed) && MayGo(s, e.id, e.now)
  {
    hide Leave, Continue, MayGo, NothingDue;
    var c := s.cols[e.id];
    if !NothingDue(s, e.id, c.claimed) {
      OwingStays(s, e);
    } else {
      DrainedAsks(s, e);
      if e.id !in s.channels {
        LeaveRemovesIff(s, e.id, e.now, c.seed);
      } else {
        var s1 := Save(s, e.id, c.(force := false, oldestLegacy := None));
        LeaveRemovesIff(s1, e.id, e.now, s.channels[e.id]);
        SameMayGo(s, s1, e.id, e.now);
      }
    }
  }

  lemma SameMayGo(s: State, t: State, id: Id, now: u64)
    requires id in s.cols && id in t.cols && s.channels == t.channels && s.enabled == t.enabled
    requires s.cols[id].seed == t.cols[id].seed
    ensures MayGo(s, id, now) <==> MayGo(t, id, now)
  {
    hide Enabled, Live, Seconds;
  }

  /** A worker takes its collection out of the map if and only if: the monitor answered, nothing is in
      flight, nothing is charged above the claimed total with the answer, the seller is disabled, and no
      reservation is live at that moment. */
  lemma LeavesIff(s: State, e: Event)
    requires Ready(s, e) && e.DoMonitor? && e.id in s.cols
    ensures e.id !in Step(s, e).cols <==>
      e.answer.Ok? && NothingDue(s, e.id, PaidSoFar(s.cols[e.id], e.answer.value)) && MayGo(s, e.id, e.now)
  {
    hide Observed, Continue, Amount, Enabled, Live, Seconds, PaidSoFar, Unpaid;
    if e.answer.Ok? {
      ObservedFields(s.cols[e.id], e.answer.value, e.now);
      ObservedSeed(s.cols[e.id], e.answer.value, e.now);
      ContinueLeavesIff(Save(s, e.id, Observed(s.cols[e.id], e.answer.value, e.now)), e);
    }
  }

  lemma ObservedSeed(c: Collection, answer: Answer, now: u64)
    ensures Observed(c, answer, now).seed == c.seed
  {
    hide Unpaid, Amount;
  }

  /** The drained collection of a disabled seller. */
  predicate OffAndDrained(s: State, id: Id) {
    id in s.cols && id in s.channels && NothingDue(s, id, s.cols[id].claimed) && !Enabled(s.enabled, s.channels[id])
  }

  /** From the start of its worker, such a collection leaves if and only if the worker goes on to monitor,
      so it was not idle and the configuration is there, the monitor answers, and no reservation is live
      when it does. */
  lemma DrainedLeavesIff(s: State, start: Event, monitor: Event)
    requires start.DoStart? && monitor.DoMonitor? && monitor.id == start.id
    requires Ready(s, start) && OffAndDrained(s, start.id)
    ensures (Ready(Step(s, start), monitor) && start.id !in Step(Step(s, start), monitor).cols) <==>
      !Idle(s, start.id, start.now) && start.config.None?
      && monitor.answer.Ok? && !Live(s.channels[start.id].pending, Seconds(monitor.now))
  {
    hide MonitorDone, Amount, Enabled, Live, Seconds, Idle;
    var id, t := start.id, Step(s, start);
    StartsMonitoringIff(s, start);
    if Ready(t, monitor) {
      LeavesIff(t, monitor);
    }
  }

  lemma StartsMonitoringIff(s: State, e: Event)
    requires e.DoStart? && Ready(s, e) && OffAndDrained(s, e.id)
    ensures Step(s, e) == At(s, e.id, if Idle(s, e.id, e.now) then Returned(None)
                                      else if e.config.Some? then Returned(e.config) else Monitoring)
  {
    hide Amount, Enabled, Live, Seconds, Idle;
  }

  // ---- sleeping ------------------------------------------------------------------------

  /** No due time: the timer passes it over. */
  predicate Asleep(s: State, id: Id) {
    id in s.cols && s.cols[id].nextDue == U64_MAX
  }

  /** The event is about this channel: an update, a deletion, a request, or a switch of its seller. */
  predicate Names(s: State, e: Event, id: Id) {
    || (e.DoUpdate? && e.id == id) || (e.DoDelete? && e.id == id) || (e.DoRequestClaim? && e.id == id)
    || (e.DoSetEnabled? && id in Targets(s.channels, s.cols, e.receiver, e.value))
  }

  /** The collection, its channel and its seller's policy are as they were, and nobody works on it. */
  ghost predicate Untouched(s: State, t: State, id: Id) {
    && id in s.cols && id in t.cols && t.cols[id] == s.cols[id] && id !in t.workers
    && Stored(t, id) == Stored(s, id)
  }

  lemma SleepersIdle(s: State, id: Id)
    requires Inv(s) && Asleep(s, id)
    ensures id !in s.workers && s.cols[id].attempt.None? && id in s.channels && Charged(s, id) <= s.cols[id].claimed
  {
    hide JournalInv, ChargesInv, KeysInv, LedgerInv, TimerOk, Amount;
    assert SleepOk(s.cols[id], id in s.workers, Stored(s, id));
  }

  lemma PathUntouched(s: State, t: State, i: Id, id: Id)
    requires WorkerPath(s, t, i) && i in s.workers && i != id && id in s.cols && id !in s.workers
    ensures Untouched(s, t, id)
  {
    hide WorkerStep;
    var mid :| Between(s, mid, t, i);
    StepUntouched(s, mid, i, id);
    StepUntouched(mid, t, i, id);
  }

  lemma SegmentUntouched(s: State, e: Event, id: Id)
    requires Inv(s) && Ready(s, e) && IsWorkerEvent(e) && id in s.cols && id !in s.workers
    ensures Untouched(s, Step(s, e), id)
  {
    hide JournalInv, ChargesInv, SchedInv, KeysInv, LedgerInv, Untouched, WorkerPath, Step;
    WorkerEventIsPath(s, e);
    PathUntouched(s, Step(s, e), e.id, id);
  }

  lemma StepUntouched(s: State, t: State, i: Id, id: Id)
    requires WorkerStep(s, t, i) && i in s.workers && i != id && id in s.cols && id !in s.workers
    ensures Untouched(s, t, id) && i in t.workers
  {
    hide Evolves;
    assert t.workers.Keys == s.workers.Keys;
  }

  lemma ArmUntouched(s: State, mid: State, now: u64, id: Id)
    requires Untouched(s, mid, id)
    ensures Untouched(s, Arm(mid, now), id)
  {
    hide Arm;
    ArmRest(mid, now);
    ArmQuiet(mid, now);
  }

  lemma SwitchUntouched(s: State, receiver: Addr, value: bool, now: u64, accept: bool, id: Id)
    requires id in s.cols && id !in s.workers && id !in Targets(s.channels, s.cols, receiver, value)
    ensures Untouched(s, SetEnabled(s, receiver, value, now, accept), id)
  {
    hide Targets, Touched, Arm;
    ArmUntouched(s, Switch(s, receiver, value, now), now, id);
  }

  lemma UpdateUntouched(s: State, e: Event, id: Id)
    requires e.DoUpdate? && e.id != id && id in s.cols && id !in s.workers
    ensures Untouched(s, UpdateChannel(s, e.id, e.expected, e.next, e.now, e.feeNow, e.signerOk, e.accept), id)
  {
    hide BeforeUpdate, AfterUpdate, Accepted, NextRevision;
    var current := Stored(s, e.id);
    BeforeUntouched(s, e.id, current, e.next.(channelId := e.id), e.now, e.feeNow, e.signerOk, id);
    var s1 := BeforeUpdate(s, e.id, current, e.next.(channelId := e.id), e.now, e.feeNow, e.signerOk).0;
    var stored := e.next.(channelId := e.id, revision := NextRevision(current));
    AfterUntouched(s, s1.(channels := s1.channels[e.id := stored]), e.id, current, stored, e.now, id);
  }

  lemma BeforeUntouched(s: State, i: Id, current: Option<Channel>, next: Channel, now: u64, fee: Option<nat>,
                        signerOk: bool, id: Id)
    requires i != id && id in s.cols && id !in s.workers
    ensures Untouched(s, BeforeUpdate(s, i, current, next, now, fee, signerOk).0, id)
  {
    hide Arm, StopReason, Enabled, CreatesPending, NewCollection, IsStale, Seconds;
    if i in s.cols {
      ArmUntouched(s, Save(s, i, s.cols[i].(monitoredAt := None, nextDue := Seconds(now))), now, id);
    } else {
      var r := Register(s, i, NewCollection(next, now));
      ArmUntouched(s, r, now, id);
      ArmKeepsCols(r, now);
      ArmUntouched(s, Save(Arm(r, now), i, r.cols[i].(monitoredAt := None, nextDue := Seconds(now))), now, id);
    }
  }

  lemma AfterUntouched(s: State, mid: State, i: Id, current: Option<Channel>, next: Channel, now: u64, id: Id)
    requires i != id && Untouched(s, mid, id)
    ensures Untouched(s, AfterUpdate(mid, i, current, next, now), id)
  {
    hide Arm, Noted, Rise;
    if i in mid.cols {
      ArmUntouched(s, Note(mid, i, current, next, now), now, id);
    }
  }

  lemma DeleteUntouched(s: State, e: Event, id: Id)
    requires e.DoDelete? && e.id != id && id in s.cols && id !in s.workers
    ensures Untouched(s, DeleteChannel(s, e.id, e.expected, e.now, e.accept), id)
  {
    hide Live, Provisional, MayDelete;
  }

  lemma RequestUntouched(s: State, i: Id, now: u64, id: Id)
    requires i != id && id in s.cols && id !in s.workers
    ensures Untouched(s, RequestClaim(s, i, now), id)
  {
    hide Arm, Seconds;
    if i in s.cols {
      ArmUntouched(s, Save(s, i, s.cols[i].(force := true, halted := false, nextDue := Seconds(now))), now, id);
    }
  }

  /** The timer never chooses a sleeper. */
  lemma FireUntouched(s: State, e: Event, id: Id)
    requires e.DoFire? && Ready(s, e) && Asleep(s, id) && id !in s.workers
    ensures Untouched(s, Fire(s, e.chosen, e.now), id)
  {
    hide Arm, Before, DueIdle, Capacity;
    NotDue(s, e.now, id);
    if s.cols != map[] {
      ArmUntouched(s, s.(timer := None, workers := s.workers + Spawned(e.chosen)), e.now, id);
    }
  }

  lemma UpgradeUntouched(s: State, now: u64, id: Id)
    requires id in s.cols
    ensures Untouched(s, Upgrade(s, now), id)
  {
    hide Arm;
    ArmUntouched(s, s.(workers := map[], timer := None), now, id);
  }

  lemma NotDue(s: State, now: u64, id: Id)
    requires Asleep(s, id)
    ensures id !in DueIdle(s, now)
  {
  }

  lemma FinishUntouched(s: State, i: Id, now: u64, id: Id)
    requires i in s.workers && s.workers[i].Returned? && i != id && id in s.cols && id !in s.workers
    ensures Untouched(s, WorkerFinish(s, i, now), id)
  {
    hide Arm, Rested;
    var done := s.(workers := s.workers - {i});
    if i in s.cols {
      ArmUntouched(s, Save(done, i, Rested(s, i, now)), now, id);
    } else {
      ArmUntouched(s, done, now, id);
    }
  }

  lemma StepsAside(s: State, e: Event, id: Id)
    requires Inv(s) && Ready(s, e) && Asleep(s, id) && !Names(s, e, id)
    ensures Untouched(s, Step(s, e), id)
  {
    hide JournalInv, ChargesInv, SchedInv, KeysInv, LedgerInv, Asleep, Untouched, SetEnabled, RequestClaim, UpdateChannel,
      DeleteChannel, Fire, Upgrade, WorkerFinish, WorkerStart, MonitorOutcall, MonitorDone, PrepareDone, ResumeDone,
      WorkerPath, Earliest, Norm, Targets, Deposit, ManualCharge, ManualRefund, ManualNonce, ManualRollback, ManualAcquire,
      Release;
    SleepersIdle(s, id);
    SleeperIn(s, id);
    if IsWorkerEvent(e) {
      SegmentUntouched(s, e, id);
    } else if e.DoSetEnabled? {
      SwitchUntouched(s, e.receiver, e.value, e.now, e.accept, id);
    } else if e.DoUpdate? {
      UpdateUntouched(s, e, id);
    } else if e.DoDelete? {
      DeleteUntouched(s, e, id);
    } else if e.DoRequestClaim? {
      RequestUntouched(s, e.id, e.now, id);
    } else if e.DoFinish? {
      FinishUntouched(s, e.id, e.now, id);
    } else if e.DoFire? {
      FireUntouched(s, e, id);
    } else if e.DoUpgrade? {
      UpgradeUntouched(s, e.now, id);
    } else {
      OutsideUntouched(s, e, id);
    }
  }

  lemma SleeperIn(s: State, id: Id)
    requires Asleep(s, id)
    ensures id in s.cols
  {
  }

  lemma OutsideUntouched(s: State, e: Event, id: Id)
    requires Ready(s, e) && IsLedgerEvent(e) && id in s.cols && id !in s.workers
    ensures Untouched(s, Step(s, e), id)
  {
    hide Step;
    OutsideFrame(s, e);
  }

  /** No event of the run names the channel. */
  ghost predicate NeverNamed(s: State, events: seq<Event>, id: Id)
    requires IsRun(s, events)
    decreases |events|
  {
    events != [] ==> !Names(s, events[0], id) && NeverNamed(Step(s, events[0]), events[1..], id)
  }

  lemma UntouchedTransitive(s: State, mid: State, t: State, id: Id)
    requires Untouched(s, mid, id) && Untouched(mid, t, id)
    ensures Untouched(s, t, id)
  {
  }

  lemma UntouchedAsleep(s: State, t: State, id: Id)
    requires Asleep(s, id) && Untouched(s, t, id)
    ensures Asleep(t, id)
  {
  }

  /** A sleeping collection is left exactly as it is, without a worker, along every run whose events do not
      name it, however often the timer fires and the canister is upgraded. */
  lemma {:induction false} SleepsUntilNamed(s: State, events: seq<Event>, id: Id)
    requires Inv(s) && IsRun(s, events) && Asleep(s, id) && NeverNamed(s, events, id)
    ensures Untouched(s, Exec(s, events), id) && Asleep(Exec(s, events), id)
    decreases |events|
  {
    hide Inv, Ready, Step, Asleep, Untouched, Names;
    if events == [] {
      SleeperStays(s, id);
    } else {
      StepsAside(s, events[0], id);
      StepKeepsInv(s, events[0]);
      UntouchedAsleep(s, Step(s, events[0]), id);
      SleepsUntilNamed(Step(s, events[0]), events[1..], id);
      UntouchedTransitive(s, Step(s, events[0]), Exec(s, events), id);
    }
  }

  lemma SleeperStays(s: State, id: Id)
    requires Inv(s) && Asleep(s, id)
    ensures Untouched(s, s, id)
  {
    hide Inv;
    SleepersIdle(s, id);
  }

  // ---- a collection that stays ---------------------------------------------------------

  /** Two clock readings at which the worker of a new channel looks at it. */
  ghost predicate Lapses(channel: Channel, receiver: Addr, t: u64) {
    && t + 70 * SECOND <= U64_MAX
    && receiver == Norm(receiver) && SameAddress(channel.config.receiver, receiver)
    && Lower(channel.config.receiver) == receiver
    && Live(channel.pending, Seconds(Tick(t))) && !Live(channel.pending, Seconds(Minute(t)))
  }

  /** The clock when the worker comes back: it rested at `t` plus one second. */
  function Minute(t: u64): u64
    requires t + 70 * SECOND <= U64_MAX
  {
    Tick(t) + 61 * SECOND
  }

  /** A minute later the reservation has lapsed, and the worker finds the collection idle. */
  lemma SecondVisit(d: State, id: Id, channel: Channel, t: u64) returns (s: State)
    requires Reachable(d) && d.workers == map[] && d.cols.Keys == {id} && d.channels == map[id := channel]
    requires TimerOk(d) && d.hist.lastArm == Tick(t) && t + 70 * SECOND <= U64_MAX
    requires var r := d.cols[id];
      && r.seed == channel && r.claimed == 0 && r.attempt.None? && !r.force && r.monitoredAt.Some?
      && r.nextDue == SatAdd(Seconds(Tick(t)), INTERVAL, U64_MAX)
    requires Amount(channel.charged) == 0 && !Live(channel.pending, Seconds(Minute(t))) && !Enabled(d.enabled, channel)
    ensures Reachable(s) && s.workers == map[id := Starting] && OffAndDrained(s, id) && Idle(s, id, Minute(t))
  {
    hide Reachable, Amount, Ready, Step, TimerOk, Live, Seconds, SatAdd, Enabled;
    DueLater(d, id, Tick(t));
    Fires(d, id, Minute(t));
    Then(d, DoFire({id}, Minute(t)));
    s := Step(d, DoFire({id}, Minute(t)));
  }

  /** Idle and off happens. Take any new channel whose first reservation is live one second after `t` and
      lapses within a minute. Create it, enable its seller, disable it at once: the worker monitors it while
      the reservation is live, and finds it idle a minute later. */
  lemma IdleIsReachable(id: Id, created: Channel, receiver: Addr, t: u64) returns (s: State)
    requires Accepted(None, created, Seconds(t)) && Lapses(created, receiver, t)
    ensures Reachable(s) && s.workers == map[id := Starting] && OffAndDrained(s, id) && Idle(s, id, Minute(t))
  {
    hide Reachable, Accepted, Norm, SameAddress, Lower, Amount, Ready, Step, Touched, TimerOk, Live, Seconds, Blank, Idle,
      OffAndDrained;
    var channel := created.(channelId := id, revision := 1);
    var open, on, off := DoUpdate(id, None, created, t, None, true, true), DoSetEnabled(receiver, true, t, true),
      DoSetEnabled(receiver, false, t, true);
    CreatedFresh(created, id, t);
    EmptyReachable();
    Stores(Empty, id, None, created, t);
    Then(Empty, open);
    var a := Step(Empty, open);
    Switched(a, id, receiver, true, t);
    Then(a, on);
    var b := Step(a, on);
    TouchedBlank(a, id, t);
    BlankAgain(b.cols[id], b.cols[id].(force := true, nextDue := Seconds(t)), channel, t);
    Switched(b, id, receiver, false, t);
    Then(b, off);
    var c := Step(b, off);
    TouchedAgain(b, id, t);
    assert !Enabled(c.enabled, channel);
    var d := FirstVisit(c, id, channel, t);
    s := SecondVisit(d, id, channel, t);
  }

  /** The idle worker of a disabled seller's collection rests, and the collection sleeps in the map. */
  lemma IdleFallsAsleep(s: State, id: Id, now: u64, config: Option<string>)
    requires Ready(s, DoStart(id, now, config)) && OffAndDrained(s, id) && Idle(s, id, now)
    ensures var t := Step(s, DoStart(id, now, config));
      && Ready(t, DoFinish(id, now))
      && var u := Step(t, DoFinish(id, now)); Asleep(u, id) && OffAndDrained(u, id)
  {
    hide Arm, Amount, Live, Enabled, Seconds;
    var t := At(s, id, Returned(None));
    assert Step(s, DoStart(id, now, config)) == t;
    ArmRest(Save(t.(workers := t.workers - {id}), id, Rested(t, id, now)), now);
  }

  /** So a drained collection of a disabled seller can stay in the map: there is a reachable state with one
      asleep, for every channel as above. */
  lemma DrainedCanStay(id: Id, created: Channel, receiver: Addr, t: u64) returns (s: State)
    requires Accepted(None, created, Seconds(t)) && Lapses(created, receiver, t)
    ensures Reachable(s) && OffAndDrained(s, id) && Asleep(s, id)
  {
    hide Reachable, Accepted, Lapses, OffAndDrained, Idle, Ready, Step, Asleep;
    var a := IdleIsReachable(id, created, receiver, t);
    var now := MinuteOf(created, receiver, t);
    var start, end := DoStart(id, now, None), DoFinish(id, now);
    assert Ready(a, start) by { StartReady(a, id, now); }
    IdleFallsAsleep(a, id, now, None);
    Then(a, start);
    Then(Step(a, start), end);
    s := Step(Step(a, start), end);
  }

  lemma MinuteOf(created: Channel, receiver: Addr, t: u64) returns (now: u64)
    requires Lapses(created, receiver, t)
    ensures t + 70 * SECOND <= U64_MAX && now == Minute(t)
  {
    now := Minute(t);
  }

  lemma StartReady(s: State, id: Id, now: u64)
    requires s.workers == map[id := Starting]
    ensures Ready(s, DoStart(id, now, None))
  {
  }

  /** A concrete one: a channel created at time zero with a reservation that lapses after thirty seconds. */
  lemma DrainedStaysExample() returns (s: State)
    ensures Reachable(s) && OffAndDrained(s, Hex(64, '2')) && Asleep(s, Hex(64, '2'))
  {
    hide Reachable, Accepted, OffAndDrained, Asleep, Hex, Norm, Lower, SameAddress;
    LowerReceiver('1');
    Creates(Hex(40, '1'), 30_000, 0);
    s := DrainedCanStay(Hex(64, '2'), OpenChannel(Hex(40, '1'), 30_000), Hex(40, '1'), 0);
  }
}
