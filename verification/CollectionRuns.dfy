/** What runs promise about the schedule: money that is owed never sleeps, a wakeup is never postponed,
    and the workers stay within their slots. */
module CollectionRuns {
  import opened Accounts
  import opened Wrappers
  import opened Decimal
  import opened Batch
  import opened Collector
  import opened Charges
  import opened Journal
  import opened Frames
  import opened ChargeSteps
  import opened Scheduler
  import opened Sequences
  import opened Runs

  // ---- money does not sleep ------------------------------------------------------------

  /** In every reachable state, a collection with an attempt or with charges above its claimed total
      has a due time; if nobody works on it, the timer is armed no later than that time and one second
      after the last arming. */
  lemma NoSleepingMoney(s: State, id: Id)
    requires Reachable(s) && id in s.cols
    requires s.cols[id].attempt.Some? || Charged(s, id) > s.cols[id].claimed
    ensures s.cols[id].nextDue < U64_MAX
    ensures id !in s.workers ==>
      s.timer.Some? && s.timer.value <= Larger(SatMul(s.cols[id].nextDue), SatAdd(s.hist.lastArm, SECOND, U64_MAX))
  {
    hide Inv, Reachable, SatMul, SatAdd, JournalInv, ChargesInv, KeysInv, LedgerInv, SchedInv, Amount;
    ReachableInv(s);
    InvJournal(s);
    SchedAt(s, id);
  }

  lemma SchedAt(s: State, id: Id)
    requires SchedInv(s) && id in s.cols
    ensures SleepOk(s.cols[id], id in s.workers, Stored(s, id))
    ensures Wakes(s.cols, s.workers.Keys, id) ==> OnTime(s.timer, s.cols[id].nextDue, s.hist.lastArm)
  {
    hide SleepOk, OnTime;
  }

  /** At most eight workers, never two for one channel. */
  lemma WorkersBounded(s: State)
    requires Reachable(s)
    ensures |s.workers| <= CONCURRENCY
  {
    hide JournalInv, ChargesInv, KeysInv, Reachable, SleepersOk, TimerOk;
    ReachableInv(s);
  }

  predicate Waits(s: State, id: Id) {
    Wakes(s.cols, s.workers.Keys, id)
  }

  lemma ArmForward(s: State, now: u64, id: Id)
    requires Waits(s, id) && s.timer.Some?
    ensures var t := Arm(s, now); Waits(t, id) && t.timer.Some? && t.timer.value <= s.timer.value
  {
    hide NextWakeup;
    ArmNeverPostpones(s, now);
  }

  /** `id` waits before and after with a timer no later than before. */
  ghost predicate Forward(s: State, t: State, id: Id) {
    Waits(s, id) && s.timer.Some? ==> Waits(t, id) && t.timer.Some? && t.timer.value <= s.timer.value
  }

  lemma SaveForward(s: State, i: Id, c: Collection, now: u64, id: Id)
    requires c.nextDue < U64_MAX || i != id
    ensures Forward(s, Arm(Save(s, i, c), now), id)
  {
    hide Arm;
    if Waits(s, id) && s.timer.Some? {
      ArmForward(Save(s, i, c), now, id);
    }
  }

  lemma BeforeUpdateForward(s: State, i: Id, current: Option<Channel>, next: Channel, now: u64, fee: Option<nat>,
                            signerOk: bool, id: Id)
    ensures Forward(s, BeforeUpdate(s, i, current, next, now, fee, signerOk).0, id)
  {
    hide Arm, StopReason, Enabled, CreatesPending, NewCollection, Refresh, Waits;
    if i in s.cols {
      RefreshForward(s, i, now, id);
    } else {
      var s1 := Arm(Register(s, i, NewCollection(next, now)), now);
      RegisterForward(s, i, next, now, id);
      ArmKeepsCols(Register(s, i, NewCollection(next, now)), now);
      RefreshForward(s1, i, now, id);
    }
  }

  lemma RefreshForward(s: State, i: Id, now: u64, id: Id)
    requires i in s.cols
    ensures Forward(s, Refresh(s, i, now), id)
  {
    hide Arm, IsStale, Waits;
    SaveForward(s, i, s.cols[i].(monitoredAt := None, nextDue := Seconds(now)), now, id);
  }

  lemma RegisterForward(s: State, i: Id, next: Channel, now: u64, id: Id)
    requires i !in s.cols
    ensures Forward(s, Arm(Register(s, i, NewCollection(next, now)), now), id)
  {
    hide Arm, NewCollection;
    if Waits(s, id) && s.timer.Some? {
      ArmForward(Register(s, i, NewCollection(next, now)), now, id);
    }
  }

  lemma NoteForward(s: State, i: Id, current: Option<Channel>, next: Channel, now: u64, id: Id)
    ensures Forward(s, AfterUpdate(s, i, current, next, now), id)
  {
    hide Arm, Amount, Enabled, Live, Rise;
    if Waits(s, id) && s.timer.Some? && i in s.cols {
      ArmForward(Note(s, i, current, next, now), now, id);
    }
  }

  lemma UpdateForward(s: State, e: Event, id: Id)
    requires e.DoUpdate?
    ensures Forward(s, UpdateChannel(s, e.id, e.expected, e.next, e.now, e.feeNow, e.signerOk, e.accept), id)
  {
    hide BeforeUpdate, AfterUpdate, Accepted, NextRevision, Wakes;
    var current := Stored(s, e.id);
    BeforeUpdateForward(s, e.id, current, e.next.(channelId := e.id), e.now, e.feeNow, e.signerOk, id);
    var s1 := BeforeUpdate(s, e.id, current, e.next.(channelId := e.id), e.now, e.feeNow, e.signerOk).0;
    var stored := e.next.(channelId := e.id, revision := NextRevision(current));
    NoteForward(s1.(channels := s1.channels[e.id := stored]), e.id, current, stored, e.now, id);
  }

  lemma SetEnabledForward(s: State, receiver: Addr, value: bool, now: u64, accept: bool, id: Id)
    ensures Forward(s, SetEnabled(s, receiver, value, now, accept), id)
  {
    hide Arm, Targets, NewCollection;
    if Waits(s, id) && s.timer.Some? {
      SwitchWaits(s, receiver, value, now, id);
      ArmForward(Switch(s, receiver, value, now), now, id);
    }
  }

  lemma SwitchWaits(s: State, receiver: Addr, value: bool, now: u64, id: Id)
    requires Waits(s, id)
    ensures var t := Switch(s, receiver, value, now); Waits(t, id) && t.timer == s.timer
  {
    hide Targets, NewCollection;
  }

  lemma FinishForward(s: State, i: Id, now: u64, id: Id)
    requires i in s.workers && s.workers[i].Returned?
    ensures Forward(s, WorkerFinish(s, i, now), id)
  {
    hide Arm, Amount, Live, SatAdd;
    if Waits(s, id) && s.timer.Some? {
      var done := s.(workers := s.workers - {i});
      ArmForward(done, now, id);
      if i in s.cols {
        ArmForward(Save(done, i, Rested(s, i, now)), now, id);
      }
    }
  }

  lemma PathForward(s: State, t: State, i: Id, id: Id)
    requires WorkerPath(s, t, i) && i in s.workers
    ensures Forward(s, t, id)
  {
    hide WorkerStep, Forward;
    var mid :| Between(s, mid, t, i);
    StepForward(s, mid, i, id);
    StepForward(mid, t, i, id);
    assert i in mid.workers by { StepBusy(s, mid, i); }
    ForwardTransitive(s, mid, t, id);
  }

  lemma StepBusy(s: State, t: State, i: Id)
    requires WorkerStep(s, t, i) && i in s.workers
    ensures i in t.workers
  {
    hide Evolves;
    assert t.workers.Keys == s.workers.Keys;
  }

  lemma StepForward(s: State, t: State, i: Id, id: Id)
    requires WorkerStep(s, t, i)
    ensures i in s.workers ==> Forward(s, t, id)
  {
    hide Evolves;
    if i in s.workers {
      assert i in s.workers.Keys && t.workers.Keys == s.workers.Keys;
    }
  }

  lemma ForwardTransitive(s: State, mid: State, t: State, id: Id)
    requires Forward(s, mid, id) && Forward(mid, t, id)
    ensures Forward(s, t, id)
  {
    hide Waits;
  }

  /** The collection waits before and after every event, and no event fires the timer or upgrades. */
  ghost predicate WaitsThroughout(s: State, events: seq<Event>, id: Id)
    requires IsRun(s, events)
    decreases |events|
  {
    && Waits(s, id)
    && (events != [] ==> !events[0].DoFire? && !events[0].DoUpgrade? && WaitsThroughout(Step(s, events[0]), events[1..], id))
  }

  /** Repeated updates never postpone a wakeup: until the timer fires or the canister is upgraded, the
      deadline of a waiting collection only moves forward in time's favour. */
  lemma {:induction false} WakeupNeverPostponed(s: State, events: seq<Event>, id: Id)
    requires Inv(s) && IsRun(s, events) && WaitsThroughout(s, events, id)
    ensures s.timer.Some? && Exec(s, events).timer.Some? && Exec(s, events).timer.value <= s.timer.value
    decreases |events|
  {
    hide Inv, Waits, Ready, Step;
    TimerArmed(s, id);
    if events != [] {
      StepKeepsInv(s, events[0]);
      EventForward(s, events[0], id);
      WakeupNeverPostponed(Step(s, events[0]), events[1..], id);
    }
  }

  lemma TimerArmed(s: State, id: Id)
    requires Inv(s) && Waits(s, id)
    ensures s.timer.Some?
  {
    hide Inv, Wakes;
    InvJournal(s);
    assert id in s.cols by { WaitsIn(s, id); }
    SchedAt(s, id);
  }

  lemma WaitsIn(s: State, id: Id)
    requires Waits(s, id)
    ensures id in s.cols && id !in s.workers
  {
  }

  lemma EventForward(s: State, e: Event, id: Id)
    requires Inv(s) && Ready(s, e) && !e.DoFire? && !e.DoUpgrade? && Waits(s, id) && s.timer.Some?
    ensures Waits(Step(s, e), id) ==> Step(s, e).timer.Some? && Step(s, e).timer.value <= s.timer.value
  {
    hide JournalInv, ChargesInv, SchedInv, KeysInv, LedgerInv, Waits, WorkerPath, SetEnabled, RequestClaim, UpdateChannel,
      DeleteChannel, MonitorOutcall, WorkerStart, MonitorDone, PrepareDone, ResumeDone, WorkerFinish, Earliest, Norm,
      SatAdd, Rollback, Advance, Reserved, Get, Seconds, Arm;
    if IsWorkerEvent(e) {
      WorkerEventIsPath(s, e);
      PathForward(s, Step(s, e), e.id, id);
    } else if e.DoSetEnabled? {
      SetEnabledForward(s, e.receiver, e.value, e.now, e.accept, id);
    } else if e.DoUpdate? {
      UpdateForward(s, e, id);
    } else if e.DoDelete? {
      DeleteTimer(s, e);
    } else if e.DoRequestClaim? {
      RequestForward(s, e.id, e.now, id);
    } else if e.DoFinish? {
      FinishForward(s, e.id, e.now, id);
    }
  }

  lemma RequestForward(s: State, i: Id, now: u64, id: Id)
    ensures Forward(s, RequestClaim(s, i, now), id)
  {
    hide Arm, Waits;
    if i in s.cols {
      SaveForward(s, i, s.cols[i].(force := true, halted := false, nextDue := Seconds(now)), now, id);
    }
  }

  lemma DeleteTimer(s: State, e: Event)
    requires e.DoDelete?
    ensures DeleteChannel(s, e.id, e.expected, e.now, e.accept).timer == s.timer
  {
    hide MayDelete, Live, Provisional;
  }
}
