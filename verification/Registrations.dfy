/** When a collection is registered, what stands while it is, and how a new registration starts. */
module Registrations {
  import opened Wrappers
  import opened Batch
  import opened Collector
  import opened Charges
  import opened Journal
  import opened Frames
  import opened ChargeSteps
  import opened MessageSteps
  import opened Scheduler
  import opened Sequences
  import opened Runs

  // ---- stored channels -----------------------------------------------------------------

  lemma StepChannels(s: State, e: Event)
    requires Inv(s) && Ready(s, e) && !e.DoUpdate? && !e.DoDelete?
    ensures Step(s, e).channels == s.channels
  {
    hide JournalInv, ChargesInv, SchedInv, KeysInv, LedgerInv, ColumnsKept, WorkerPath, SetEnabled, RequestClaim, Fire,
      WorkerStart, MonitorOutcall, MonitorDone, PrepareDone, ResumeDone, WorkerFinish, Upgrade, Earliest, Norm, Deposit,
      ManualCharge, ManualRefund, ManualNonce, ManualRollback, ManualAcquire, Release;
    if IsWorkerEvent(e) {
      WorkerEventIsPath(s, e);
      PathChannels(s, Step(s, e), e.id);
    } else if e.DoSetEnabled? {
      SetEnabledChannels(s, e.receiver, e.value, e.now, e.accept);
    } else {
      OtherColumns(s, e);
      ColumnsChannels(s, Step(s, e));
    }
  }

  lemma PathChannels(s: State, t: State, id: Id)
    requires WorkerPath(s, t, id)
    ensures t.channels == s.channels
  {
    hide Evolves;
  }

  lemma SetEnabledChannels(s: State, receiver: Addr, value: bool, now: u64, accept: bool)
    ensures SetEnabled(s, receiver, value, now, accept).channels == s.channels
  {
    hide Arm, Retouched, Targets;
    ArmRest(Switch(s, receiver, value, now), now);
  }

  lemma AfterUpdateChannels(s: State, id: Id, current: Option<Channel>, next: Channel, now: u64)
    ensures AfterUpdate(s, id, current, next, now).channels == s.channels
  {
    hide Arm, Noted, Rise;
    if id in s.cols {
      ArmRest(Note(s, id, current, next, now), now);
    }
  }

  // ---- charged totals ------------------------------------------------------------------

  /** While a collection stays registered its channel's charged total does not fall. */
  lemma ChargedGrows(s: State, e: Event, id: Id)
    requires Inv(s) && Ready(s, e) && id in s.cols && id in Step(s, e).cols
    ensures Charged(s, id) <= Charged(Step(s, e), id)
  {
    hide Inv, Ready, Step, Amount;
    if e.DoUpdate? {
      UpdateGrows(s, e, id);
    } else if e.DoDelete? {
      DeleteGrows(s, e, id);
    } else {
      StepChannels(s, e);
    }
  }

  lemma UpdateGrows(s: State, e: Event, id: Id)
    requires Inv(s) && Ready(s, e) && e.DoUpdate?
    ensures Charged(s, id) <= Charged(Step(s, e), id)
  {
    hide JournalInv, ChargesInv, SchedInv, KeysInv, LedgerInv, BeforeUpdate, AfterUpdate, Accepted, NextRevision, Amount,
      WellFormed;
    var current := Stored(s, e.id);
    BeforeUpdateChannels(s, e.id, current, e.next.(channelId := e.id), e.now, e.feeNow, e.signerOk);
    var s1 := BeforeUpdate(s, e.id, current, e.next.(channelId := e.id), e.now, e.feeNow, e.signerOk).0;
    var stored := e.next.(channelId := e.id, revision := NextRevision(current));
    AfterUpdateChannels(s1.(channels := s1.channels[e.id := stored]), e.id, current, stored, e.now);
    if Accepted(current, e.next, Seconds(e.now)) {
      StoredWellFormed(s, e.id);
      UpdateMeans(current, e.next, Seconds(e.now));
    }
  }

  lemma DeleteGrows(s: State, e: Event, id: Id)
    requires Ready(s, e) && e.DoDelete? && id in Step(s, e).cols
    ensures Charged(s, id) <= Charged(Step(s, e), id)
  {
    hide Live, Provisional, MayDelete, Amount;
  }

  // ---- registrations -------------------------------------------------------------------

  /** How a collection begins: nothing claimed, no attempt, no halt, numbering from zero. */
  predicate StartsOver(c: Collection) {
    c.claimed == 0 && c.attempt.None? && !c.halted && c.attemptSequence == 0
  }

  /** Where a registered collection comes from: it was registered before, or just now. */
  ghost predicate Origin(s: State, t: State, id: Id) {
    && t.hist.log == s.hist.log
    && (id in t.cols ==>
         && id in t.hist.birth
         && (if id in s.cols then id in s.hist.birth && t.hist.birth[id] == s.hist.birth[id]
             else t.hist.birth[id] == |s.hist.log| && StartsOver(t.cols[id])))
  }

  lemma ColumnsOrigin(s: State, t: State, id: Id)
    requires ColumnsKept(s, t) && t.hist.log == s.hist.log && (id in s.cols ==> id in s.hist.birth)
    ensures Origin(s, t, id)
  {
    hide SameCharges;
  }

  lemma TouchedStarts(s: State, id: Id, value: bool, now: u64)
    requires id !in s.cols && id in s.channels
    ensures StartsOver(Touched(s, id, value, now))
  {
    hide Amount, Seconds;
  }

  lemma SwitchOrigin(s: State, receiver: Addr, value: bool, now: u64, id: Id)
    requires id in s.cols ==> id in s.hist.birth
    ensures Origin(s, Switch(s, receiver, value, now), id)
  {
    hide Targets, Touched;
    if id !in s.cols && id in Targets(s.channels, s.cols, receiver, value) {
      TouchedStarts(s, id, value, now);
    }
  }

  lemma ArmOrigin(s: State, mid: State, now: u64, id: Id)
    requires Origin(s, mid, id)
    ensures Origin(s, Arm(mid, now), id)
  {
    hide Arm;
    ArmRest(mid, now);
    ArmQuiet(mid, now);
  }

  lemma SetEnabledOrigin(s: State, receiver: Addr, value: bool, now: u64, accept: bool, id: Id)
    requires id in s.cols ==> id in s.hist.birth
    ensures Origin(s, SetEnabled(s, receiver, value, now, accept), id)
  {
    hide Arm, Switch, Targets;
    SwitchOrigin(s, receiver, value, now, id);
    ArmOrigin(s, Switch(s, receiver, value, now), now, id);
  }

  lemma SaveOrigin(s: State, mid: State, i: Id, c: Collection, id: Id)
    requires Origin(s, mid, id) && i in mid.cols
    requires i !in s.cols && StartsOver(mid.cols[i]) ==> StartsOver(c)
    ensures Origin(s, Save(mid, i, c), id)
  {
  }

  lemma BeforeUpdateOrigin(s: State, i: Id, current: Option<Channel>, next: Channel, now: u64, fee: Option<nat>,
                           signerOk: bool, id: Id)
    requires id in s.cols ==> id in s.hist.birth
    ensures Origin(s, BeforeUpdate(s, i, current, next, now, fee, signerOk).0, id)
  {
    hide Arm, StopReason, Enabled, CreatesPending, NewCollection, Refresh, Register;
    if i in s.cols {
      RefreshOrigin(s, s, i, now, id);
    } else {
      var r := Register(s, i, NewCollection(next, now));
      RegisterOrigin(s, i, next, now, id);
      RegisterColumns(s, i, NewCollection(next, now));
      ArmOrigin(s, r, now, id);
      ArmKeepsCols(r, now);
      RefreshOrigin(s, Arm(r, now), i, now, id);
    }
  }

  lemma RegisterOrigin(s: State, i: Id, next: Channel, now: u64, id: Id)
    requires i !in s.cols && (id in s.cols ==> id in s.hist.birth)
    ensures Origin(s, Register(s, i, NewCollection(next, now)), id)
  {
    hide Amount, Seconds;
  }

  lemma RefreshOrigin(s: State, mid: State, i: Id, now: u64, id: Id)
    requires Origin(s, mid, id) && i in mid.cols
    ensures Origin(s, Refresh(mid, i, now), id)
  {
    hide Arm, IsStale, Origin, Seconds;
    var c := mid.cols[i].(monitoredAt := None, nextDue := Seconds(now));
    SaveOrigin(s, mid, i, c, id);
    ArmOrigin(s, Save(mid, i, c), now, id);
  }

  lemma AfterUpdateOrigin(s: State, mid: State, channels: map<Id, Channel>, i: Id, current: Option<Channel>, next: Channel,
                          now: u64, id: Id)
    requires Origin(s, mid, id)
    ensures Origin(s, AfterUpdate(mid.(channels := channels), i, current, next, now), id)
  {
    hide Arm, Rise, Enabled, Live, Seconds;
    var m := mid.(channels := channels);
    if i in m.cols {
      ArmOrigin(s, Note(m, i, current, next, now), now, id);
    }
  }

  lemma UpdateOrigin(s: State, e: Event, id: Id)
    requires e.DoUpdate? && (id in s.cols ==> id in s.hist.birth)
    ensures Origin(s, UpdateChannel(s, e.id, e.expected, e.next, e.now, e.feeNow, e.signerOk, e.accept), id)
  {
    hide BeforeUpdate, AfterUpdate, Accepted, NextRevision, StartsOver;
    var current := Stored(s, e.id);
    BeforeUpdateOrigin(s, e.id, current, e.next.(channelId := e.id), e.now, e.feeNow, e.signerOk, id);
    var s1 := BeforeUpdate(s, e.id, current, e.next.(channelId := e.id), e.now, e.feeNow, e.signerOk).0;
    var stored := e.next.(channelId := e.id, revision := NextRevision(current));
    AfterUpdateOrigin(s, s1, s1.channels[e.id := stored], e.id, current, stored, e.now, id);
  }

  lemma DeleteOrigin(s: State, e: Event, id: Id)
    requires e.DoDelete? && (id in s.cols ==> id in s.hist.birth)
    ensures Origin(s, DeleteChannel(s, e.id, e.expected, e.now, e.accept), id)
  {
    hide Live, Provisional, MayDelete, StartsOver;
  }

  /** No worker segment registers anything. */
  lemma PathBirths(s: State, t: State, i: Id, id: Id)
    requires WorkerPath(s, t, i)
    ensures t.hist.birth == s.hist.birth && (id in t.cols ==> id in s.cols)
  {
    hide Evolves;
  }

  /** A registration stands, with its birth, until the collection leaves the map; and a collection that
      was not in the map starts over: nothing claimed, no attempt, not halted, numbering from zero. */
  lemma RegistrationStands(s: State, e: Event, id: Id)
    requires Inv(s) && Ready(s, e) && id in Step(s, e).cols
    ensures id in Step(s, e).hist.birth
    ensures id in s.cols ==> id in s.hist.birth && Step(s, e).hist.birth[id] == s.hist.birth[id]
    ensures id !in s.cols ==> Step(s, e).hist.birth[id] == |s.hist.log| && StartsOver(Step(s, e).cols[id])
  {
    hide JournalInv, ChargesInv, SchedInv, LedgerInv, ColumnsKept, WorkerPath, SetEnabled, RequestClaim, UpdateChannel,
      DeleteChannel, Fire, WorkerStart, MonitorOutcall, MonitorDone, PrepareDone, ResumeDone, WorkerFinish, Upgrade,
      Earliest, Norm, Deposit, ManualCharge, ManualRefund, ManualNonce, ManualRollback, ManualAcquire, Release,
      RisingKeys, StartsOver;
    assert id in s.cols ==> KeysOk(s, id);
    hide KeysInv;
    if IsWorkerEvent(e) {
      WorkerEventIsPath(s, e);
      PathBirths(s, Step(s, e), e.id, id);
    } else if e.DoSetEnabled? {
      SetEnabledOrigin(s, e.receiver, e.value, e.now, e.accept, id);
    } else if e.DoUpdate? {
      UpdateOrigin(s, e, id);
    } else if e.DoDelete? {
      DeleteOrigin(s, e, id);
    } else {
      OtherColumns(s, e);
      OtherLog(s, e);
      ColumnsOrigin(s, Step(s, e), id);
    }
  }
}
