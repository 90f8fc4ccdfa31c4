/** No sleeping money and no lost wakeup: who sleeps, when the timer is armed, how many work. */
module Scheduler {
  import opened Accounts
  import opened Wrappers
  import opened Decimal
  import opened Batch
  import opened Collector
  import opened Charges
  import opened Journal
  import opened Frames
  import opened ChargeSteps
  import opened MessageSteps

  /** A collection without a due time has nobody working on it, no attempt, and nothing unclaimed. */
  ghost predicate SleepOk(c: Collection, busy: bool, stored: Option<Channel>) {
    c.nextDue == U64_MAX ==> !busy && c.attempt.None? && stored.Some? && StoredAmount(stored) <= c.claimed
  }

  ghost predicate SleepersOk(s: State) {
    forall id :: id in s.cols ==> SleepOk(s.cols[id], id in s.workers, Stored(s, id))
  }

  /** Armed no later than the due time, or one second after the last arming call. */
  ghost predicate OnTime(timer: Option<nat>, due: nat, lastArm: nat) {
    timer.Some? && timer.value <= Larger(SatMul(due), SatAdd(lastArm, SECOND, U64_MAX))
  }

  ghost predicate TimerOk(s: State) {
    forall id :: Wakes(s.cols, s.workers.Keys, id) ==> OnTime(s.timer, s.cols[id].nextDue, s.hist.lastArm)
  }

  ghost predicate SchedInv(s: State) {
    SleepersOk(s) && TimerOk(s) && |s.workers| <= CONCURRENCY
  }

  // ---- arming --------------------------------------------------------------------------

  lemma SatMulMonotone(a: nat, b: nat)
    requires a <= b
    ensures SatMul(a) <= SatMul(b)
  {
  }

  /** Whatever was armed before, arming leaves the timer in time for everyone it has to wake. */
  lemma ArmIsOnTime(s: State, now: u64)
    ensures TimerOk(Arm(s, now))
  {
    hide SatMul, SatAdd, NextWakeup;
    var next := NextWakeup(s.cols, s.workers.Keys);
    forall id | Wakes(s.cols, s.workers.Keys, id)
      ensures OnTime(Arm(s, now).timer, s.cols[id].nextDue, now)
    {
      SatMulMonotone(next.value, s.cols[id].nextDue);
    }
  }

  ghost predicate FirstToWake(s: State, id: Id) {
    && Wakes(s.cols, s.workers.Keys, id)
    && forall other :: Wakes(s.cols, s.workers.Keys, other) ==> s.cols[id].nextDue <= s.cols[other].nextDue
  }

  /** Exactly: an earlier armed deadline, or else the least due time to wake for, brought no nearer than one
      second from now and cut to 64 bits; none when there is nobody to wake. */
  lemma ArmIsExact(s: State, now: u64, id: Id)
    requires FirstToWake(s, id)
    ensures var due, soon := s.cols[id].nextDue * 1_000_000_000, now + 1_000_000_000;
      var wanted := if due > soon then due else soon;
      var cut := if wanted > 0xFFFF_FFFF_FFFF_FFFF then 0xFFFF_FFFF_FFFF_FFFF else wanted;
      Arm(s, now).timer == Some(if s.timer.Some? && s.timer.value < cut then s.timer.value else cut)
  {
    hide NextWakeup;
    NextWakeupIs(s, id);
  }

  lemma NextWakeupIs(s: State, id: Id)
    requires FirstToWake(s, id)
    ensures NextWakeup(s.cols, s.workers.Keys) == Some(s.cols[id].nextDue)
  {
    hide NextWakeup;
  }

  /** Nothing was armed before: the timer stands exactly for the least due time there is to wake for. */
  ghost predicate ArmedAfresh(s: State, now: u64) {
    && ((forall id :: !Wakes(s.cols, s.workers.Keys, id)) ==> s.timer.None?)
    && forall id :: FirstToWake(s, id) ==>
         var due, soon := s.cols[id].nextDue * 1_000_000_000, now + 1_000_000_000;
         var wanted := if due > soon then due else soon;
         s.timer == Some(if wanted > 0xFFFF_FFFF_FFFF_FFFF then 0xFFFF_FFFF_FFFF_FFFF else wanted)
  }

  lemma ArmsAfresh(s: State, now: u64)
    requires s.timer.None?
    ensures ArmedAfresh(Arm(s, now), now)
  {
    hide Arm;
    ArmRest(s, now);
    ArmQuiet(s, now);
    if forall id :: !Wakes(s.cols, s.workers.Keys, id) {
      NobodyToWake(s, now);
    }
    forall id | FirstToWake(s, id)
      ensures var due, soon := s.cols[id].nextDue * 1_000_000_000, now + 1_000_000_000;
        var wanted := if due > soon then due else soon;
        Arm(s, now).timer == Some(if wanted > 0xFFFF_FFFF_FFFF_FFFF then 0xFFFF_FFFF_FFFF_FFFF else wanted)
    {
      ArmIsExact(s, now, id);
    }
  }

  /** A firing starts the chosen channels and touches no other worker and no record; the timer it consumed is
      armed afresh for those that are left. */
  lemma FireStarts(s: State, chosen: set<Id>, now: u64)
    ensures var t := Fire(s, chosen, now);
      if s.cols == map[] then t == s.(timer := None) else
      && t.workers.Keys == s.workers.Keys + chosen
      && (forall id :: id in t.workers ==> t.workers[id] == if id in chosen then Starting else s.workers[id])
      && t == s.(timer := t.timer, workers := t.workers, hist := t.hist) && t.hist == s.hist.(lastArm := now)
      && ArmedAfresh(t, now)
  {
    hide ArmedAfresh, TimerDeadline;
    ArmsAfresh(s.(timer := None, workers := s.workers + Spawned(chosen)), now);
  }

  /** An upgrade drops the workers and keeps what is stored; the timer is armed afresh for every collection
      with a due time. */
  lemma UpgradeRestarts(s: State, now: u64)
    ensures var t := Upgrade(s, now);
      && t.workers == map[] && ArmedAfresh(t, now)
      && t == s.(timer := t.timer, workers := map[], hist := s.hist.(lastArm := now))
  {
    hide ArmedAfresh, TimerDeadline;
    ArmsAfresh(s.(workers := map[], timer := None), now);
  }

  lemma NobodyToWake(s: State, now: u64)
    requires forall id :: !Wakes(s.cols, s.workers.Keys, id)
    ensures Arm(s, now).timer == None
  {
    hide NextWakeup;
  }

  /** Bringing forward only: an armed deadline stays or moves to an earlier one, unless nobody is
      left to wake. */
  lemma ArmNeverPostpones(s: State, now: u64)
    requires s.timer.Some?
    ensures var t := Arm(s, now);
      if NextWakeup(s.cols, s.workers.Keys).Some? then t.timer.Some? && t.timer.value <= s.timer.value
      else t.timer.None?
  {
    hide SatMul, SatAdd, NextWakeup;
  }

  lemma ArmSched(s: State, now: u64)
    requires SleepersOk(s) && |s.workers| <= CONCURRENCY
    ensures SchedInv(Arm(s, now))
  {
    hide Arm, SleepOk, TimerOk;
    ArmIsOnTime(s, now);
    ArmRest(s, now);
    ArmQuiet(s, now);
    ArmSleepers(s, Arm(s, now));
  }

  lemma ArmSleepers(s: State, t: State)
    requires SleepersOk(s) && t.cols == s.cols && t.workers == s.workers && t.channels == s.channels
    ensures SleepersOk(t)
  {
    hide SleepOk;
    assert forall id :: Stored(t, id) == Stored(s, id);
  }

  // ---- workers -------------------------------------------------------------------------

  lemma WorkerStepSched(s: State, t: State, id: Id)
    requires SchedInv(s) && WorkerStep(s, t, id) && id in s.workers
    ensures SchedInv(t) && id in t.workers
  {
    hide StoredAmount, OnTime, Evolves;
    assert |t.workers| == |t.workers.Keys| && |s.workers| == |s.workers.Keys|;
    if id in t.cols {
      EvolvesDue(s.cols[id], t.cols[id], Stored(s, id));
    }
    forall i | i in t.cols ensures SleepOk(t.cols[i], i in t.workers, Stored(t, i)) {
      assert Stored(t, i) == Stored(s, i);
      assert i in t.workers <==> i in s.workers.Keys;
      assert SleepOk(s.cols[i], i in s.workers, Stored(s, i));
    }
  }

  lemma EvolvesDue(c: Collection, d: Collection, stored: Option<Channel>)
    requires Evolves(c, d, stored)
    ensures d.nextDue == c.nextDue && d.claimed >= c.claimed
  {
  }

  lemma PathSched(s: State, t: State, id: Id)
    requires SchedInv(s) && WorkerPath(s, t, id) && id in s.workers
    ensures SchedInv(t)
  {
    hide SchedInv, WorkerStep;
    var mid :| Between(s, mid, t, id);
    WorkerStepSched(s, mid, id);
    WorkerStepSched(mid, t, id);
  }

  lemma FewerWorkers(s: State, id: Id)
    requires SleepersOk(s) && |s.workers| <= CONCURRENCY
    ensures var t := s.(workers := s.workers - {id}); SleepersOk(t) && |t.workers| <= CONCURRENCY
  {
    hide StoredAmount;
    var t := s.(workers := s.workers - {id});
    assert t.workers.Keys == s.workers.Keys - {id} && |t.workers.Keys| <= |s.workers.Keys|;
    forall i | i in t.cols ensures SleepOk(t.cols[i], i in t.workers, Stored(t, i)) {
      assert SleepOk(s.cols[i], i in s.workers, Stored(s, i));
    }
  }

  /** One collection gets a due time, or goes to sleep with nothing to wake up for. */
  lemma SaveSched(s: State, id: Id, c: Collection, now: u64)
    requires SleepersOk(s) && |s.workers| <= CONCURRENCY
    requires SleepOk(c, id in s.workers, Stored(s, id))
    ensures SchedInv(Arm(Save(s, id, c), now))
  {
    hide StoredAmount, Arm, SchedInv, SleepOk;
    var t := Save(s, id, c);
    forall i | i in t.cols ensures SleepOk(t.cols[i], i in t.workers, Stored(t, i)) {
      assert Stored(t, i) == Stored(s, i);
    }
    ArmSched(t, now);
  }

  lemma FinishSched(s: State, id: Id, now: u64)
    requires SchedInv(s) && id in s.workers && s.workers[id].Returned?
    ensures SchedInv(WorkerFinish(s, id, now))
  {
    hide Live, Amount, SatAdd, TimerOk, Arm, SleepersOk, Seconds;
    var done := s.(workers := s.workers - {id});
    FewerWorkers(s, id);
    if id !in s.cols {
      ArmSched(done, now);
    } else {
      FiniteDue(now);
      SaveSched(done, id, Rested(s, id, now), now);
    }
  }

  lemma FiniteDue(now: u64)
    ensures Seconds(now) < U64_MAX && SatAdd(Seconds(now), INTERVAL, U64_MAX) < U64_MAX
  {
  }

  // ---- messages ------------------------------------------------------------------------

  lemma RequestSched(s: State, id: Id, now: u64)
    requires SchedInv(s)
    ensures SchedInv(RequestClaim(s, id, now))
  {
    hide SleepersOk, TimerOk, Arm;
    if id in s.cols {
      SaveSched(s, id, s.cols[id].(force := true, halted := false, nextDue := Seconds(now)), now);
    }
  }

  lemma SetEnabledSched(s: State, receiver: Addr, value: bool, now: u64, accept: bool)
    requires SchedInv(s)
    ensures SchedInv(SetEnabled(s, receiver, value, now, accept))
  {
    hide SleepersOk, TimerOk, Arm, Switch, Targets;
    SwitchSleeps(s, receiver, value, now);
    ArmSched(Switch(s, receiver, value, now), now);
  }

  lemma SwitchSleeps(s: State, receiver: Addr, value: bool, now: u64)
    requires SleepersOk(s)
    ensures var t := Switch(s, receiver, value, now); SleepersOk(t) && t.workers == s.workers
  {
    hide StoredAmount, Targets, Seconds, NewCollection;
    var t := Switch(s, receiver, value, now);
    forall id | id in t.cols ensures SleepOk(t.cols[id], id in t.workers, Stored(t, id)) {
      assert Stored(t, id) == Stored(s, id);
      if id !in Targets(s.channels, s.cols, receiver, value) {
        assert SleepOk(s.cols[id], id in s.workers, Stored(s, id));
      }
    }
  }

  lemma RefreshSched(s: State, id: Id, now: u64)
    requires SchedInv(s) && id in s.cols
    ensures SchedInv(Refresh(s, id, now))
  {
    hide SleepersOk, TimerOk, Arm, IsStale;
    if IsStale(s.cols[id], now) {
      SaveSched(s, id, s.cols[id].(monitoredAt := None, nextDue := Seconds(now)), now);
    }
  }

  lemma BeforeUpdateSched(s: State, id: Id, current: Option<Channel>, next: Channel, now: u64, fee: Option<nat>,
                          signerOk: bool)
    requires SchedInv(s)
    ensures SchedInv(BeforeUpdate(s, id, current, next, now, fee, signerOk).0)
  {
    hide SchedInv, Arm, StopReason, Enabled, CreatesPending, NewCollection, Refresh;
    if id in s.cols {
      RefreshSched(s, id, now);
    } else {
      var s1 := Register(s, id, NewCollection(next, now));
      RegisterSched(s, id, next, now);
      ArmKeepsCols(s1, now);
      RefreshSched(Arm(s1, now), id, now);
    }
  }

  lemma RegisterSched(s: State, id: Id, next: Channel, now: u64)
    requires SchedInv(s)
    ensures SchedInv(Arm(Register(s, id, NewCollection(next, now)), now))
  {
    hide TimerOk, StoredAmount, Arm, Amount;
    var t := Register(s, id, NewCollection(next, now));
    forall i | i in t.cols ensures SleepOk(t.cols[i], i in t.workers, Stored(t, i)) {
      assert Stored(t, i) == Stored(s, i);
      assert i != id ==> SleepOk(s.cols[i], i in s.workers, Stored(s, i));
    }
    ArmSched(t, now);
  }

  /** A charge or a live reservation wakes a sleeper; nothing else can make it owe anything. */
  lemma NotedSleeps(enabled: set<Addr>, c: Collection, busy: bool, current: Option<Channel>, next: Channel, now: u64)
    requires SleepOk(c, busy, current) && StoredAmount(current) <= Amount(next.charged)
    ensures SleepOk(Noted(enabled, c, current, next, now), busy, Some(next))
  {
    hide Amount, Enabled, Live;
  }

  lemma StoreSched(s: State, id: Id, stored: Channel, now: u64)
    requires SchedInv(s) && StoredAmount(Stored(s, id)) <= Amount(stored.charged)
    ensures SchedInv(AfterUpdate(s.(channels := s.channels[id := stored]), id, Stored(s, id), stored, now))
  {
    hide TimerOk, Arm, StoredAmount, Noted, SleepOk, Amount, Rise;
    var s2 := s.(channels := s.channels[id := stored]);
    if id in s.cols {
      NotedSleeps(s.enabled, s.cols[id], id in s.workers, Stored(s, id), stored, now);
      var t := Note(s2, id, Stored(s, id), stored, now);
      forall i | i in t.cols ensures SleepOk(t.cols[i], i in t.workers, Stored(t, i)) {
        assert i != id ==> Stored(t, i) == Stored(s, i);
      }
      ArmSched(t, now);
    } else {
      StoredElsewhere(s, s2, id);
    }
  }

  lemma StoredElsewhere(s: State, t: State, id: Id)
    requires SchedInv(s) && id !in s.cols && t == s.(channels := t.channels)
    requires forall i :: i != id ==> Stored(t, i) == Stored(s, i)
    ensures SchedInv(t)
  {
    hide StoredAmount, OnTime;
    forall i | i in t.cols ensures SleepOk(t.cols[i], i in t.workers, Stored(t, i)) {
      assert SleepOk(s.cols[i], i in s.workers, Stored(s, i));
    }
  }

  lemma UpdateSched(s: State, id: Id, expected: Option<nat>, next: Channel, now: u64, fee: Option<nat>, signerOk: bool,
                    accept: bool)
    requires SchedInv(s) && ChannelsOk(s.channels)
    ensures SchedInv(UpdateChannel(s, id, expected, next, now, fee, signerOk, accept))
  {
    hide SchedInv, BeforeUpdate, AfterUpdate, Accepted, NextRevision, WellFormed, Amount, StoredAmount, ChannelsOk;
    var current := Stored(s, id);
    if accept && Accepted(current, next, Seconds(now)) {
      assert current.Some? ==> WellFormed(current.value) by { ChannelAt(s.channels, id); }
      UpdateMeans(current, next, Seconds(now));
      var named := next.(channelId := id);
      BeforeUpdateSched(s, id, current, named, now, fee, signerOk);
      BeforeUpdateChannels(s, id, current, named, now, fee, signerOk);
      var s1 := BeforeUpdate(s, id, current, named, now, fee, signerOk).0;
      StoreSched(s1, id, next.(channelId := id, revision := NextRevision(current)), now);
    }
  }

  lemma ChannelAt(channels: map<Id, Channel>, id: Id)
    requires ChannelsOk(channels)
    ensures id in channels ==> WellFormed(channels[id])
  {
    hide WellFormed;
  }

  lemma BeforeUpdateChannels(s: State, id: Id, current: Option<Channel>, next: Channel, now: u64, fee: Option<nat>,
                             signerOk: bool)
    ensures BeforeUpdate(s, id, current, next, now, fee, signerOk).0.channels == s.channels
  {
    hide Arm, StopReason, Enabled, CreatesPending, NewCollection, IsStale, Seconds;
    if id in s.cols {
      ArmRest(Save(s, id, s.cols[id].(monitoredAt := None, nextDue := Seconds(now))), now);
    } else {
      var s1 := Arm(Register(s, id, NewCollection(next, now)), now);
      ArmRest(Register(s, id, NewCollection(next, now)), now);
      ArmRest(Save(s1, id, s1.cols[id].(monitoredAt := None, nextDue := Seconds(now))), now);
    }
  }

  lemma DeleteSched(s: State, id: Id, expected: Option<nat>, now: u64, accept: bool)
    requires SchedInv(s)
    ensures SchedInv(DeleteChannel(s, id, expected, now, accept))
  {
    hide SchedInv, Live, Provisional, MayDelete;
    GoneSched(s, id);
  }

  lemma GoneSched(s: State, id: Id)
    requires SchedInv(s)
    ensures SchedInv(Remove(s.(channels := s.channels - {id}), id))
  {
    hide StoredAmount, OnTime;
    var t := Remove(s.(channels := s.channels - {id}), id);
    forall i | i in t.cols ensures SleepOk(t.cols[i], i in t.workers, Stored(t, i)) {
      assert Stored(t, i) == Stored(s, i);
      assert SleepOk(s.cols[i], i in s.workers, Stored(s, i));
    }
  }

  /** Dispatch fills free slots only, with collections whose time has come. */
  lemma FireSched(s: State, chosen: set<Id>, now: u64)
    requires SchedInv(s) && Ready(s, DoFire(chosen, now))
    ensures SchedInv(Fire(s, chosen, now))
  {
    hide TimerOk, Arm, SleepersOk, Earliest;
    if s.cols == map[] {
      NobodyWaits(s);
    } else {
      var t := s.(timer := None, workers := s.workers + Spawned(chosen));
      FireCounts(s, chosen, now);
      FireSleeps(s, chosen, now);
      ArmSched(t, now);
    }
  }

  lemma FireCounts(s: State, chosen: set<Id>, now: u64)
    requires |s.workers| <= CONCURRENCY && Earliest(s.cols, DueIdle(s, now), chosen, Capacity(s))
    ensures |s.workers + Spawned(chosen)| <= CONCURRENCY
    ensures chosen <= DueIdle(s, now)
  {
    hide DueIdle;
    var workers := s.workers + Spawned(chosen);
    assert workers.Keys == s.workers.Keys + chosen;
    assert |workers.Keys| <= |s.workers.Keys| + |chosen|;
  }

  lemma FireSleeps(s: State, chosen: set<Id>, now: u64)
    requires SleepersOk(s) && chosen <= DueIdle(s, now)
    ensures SleepersOk(s.(timer := None, workers := s.workers + Spawned(chosen)))
  {
    hide StoredAmount;
    var t := s.(timer := None, workers := s.workers + Spawned(chosen));
    forall i | i in t.cols ensures SleepOk(t.cols[i], i in t.workers, Stored(t, i)) {
      assert Stored(t, i) == Stored(s, i);
      assert SleepOk(s.cols[i], i in s.workers, Stored(s, i));
      assert i in chosen ==> i in DueIdle(s, now);
    }
  }

  lemma NobodyWaits(s: State)
    requires s.cols == map[] && |s.workers| <= CONCURRENCY
    ensures SchedInv(s.(timer := None))
  {
  }

  lemma UpgradeSched(s: State, now: u64)
    requires SchedInv(s)
    ensures SchedInv(Upgrade(s, now))
  {
    hide TimerOk, StoredAmount, Arm;
    var t := s.(workers := map[], timer := None);
    forall i | i in t.cols ensures SleepOk(t.cols[i], i in t.workers, Stored(t, i)) {
      assert Stored(t, i) == Stored(s, i);
      assert SleepOk(s.cols[i], i in s.workers, Stored(s, i));
    }
    ArmSched(t, now);
  }

  lemma UnrelatedSched(s: State, t: State)
    requires SchedInv(s) && t.cols == s.cols && t.workers == s.workers && t.channels == s.channels && t.timer == s.timer
    requires t.hist.lastArm == s.hist.lastArm
    ensures SchedInv(t)
  {
    hide SleepOk, OnTime;
    assert forall id :: Stored(t, id) == Stored(s, id);
  }

  /** At the end of every message, worker segment, failure and upgrade. */
  lemma StepKeepsSched(s: State, e: Event)
    requires JournalInv(s) && ChargesInv(s) && SchedInv(s) && Ready(s, e)
    ensures SchedInv(Step(s, e))
  {
    hide JournalInv, SchedInv, WorkerPath, SetEnabled, RequestClaim, UpdateChannel, DeleteChannel, CollectionOk,
      MonitorOutcall, Fire, WorkerStart, MonitorDone, PrepareDone, ResumeDone, WorkerFinish, Upgrade, Earliest, Norm,
      ChannelsOk, Stored, Deposit, ManualCharge, ManualRefund, ManualNonce, ManualRollback, ManualAcquire, Release;
    if IsWorkerEvent(e) {
      WorkerEventIsPath(s, e);
      PathSched(s, Step(s, e), e.id);
    } else if e.DoSetEnabled? {
      SetEnabledSched(s, e.receiver, e.value, e.now, e.accept);
    } else if e.DoUpdate? {
      UpdateSched(s, e.id, e.expected, e.next, e.now, e.feeNow, e.signerOk, e.accept);
    } else if e.DoDelete? {
      DeleteSched(s, e.id, e.expected, e.now, e.accept);
    } else if e.DoRequestClaim? {
      RequestSched(s, e.id, e.now);
    } else if e.DoFire? {
      FireSched(s, e.chosen, e.now);
    } else if e.DoFinish? {
      FinishSched(s, e.id, e.now);
    } else if e.DoUpgrade? {
      UpgradeSched(s, e.now);
    } else {
      OutsideSched(s, e);
    }
  }

  lemma OutsideSched(s: State, e: Event)
    requires SchedInv(s) && Ready(s, e) && IsLedgerEvent(e)
    ensures SchedInv(Step(s, e))
  {
    hide SchedInv, Step;
    OutsideFrame(s, e);
    UnrelatedSched(s, Step(s, e));
  }
}
