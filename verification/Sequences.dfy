/** Attempt keys: within one registration every attempt has its own key. */
module Sequences {
  import opened Accounts
  import opened Wrappers
  import opened Batch
  import opened Collector
  import opened Charges
  import opened Journal
  import opened Frames
  import opened JournalSteps
  import opened ChargeSteps
  import opened MessageSteps
  import opened Ledger
  import opened LedgerSteps

  /** Entry `n` is an attempt of this channel. */
  predicate Of(log: seq<Entry>, n: nat, id: Id)
    requires n < |log|
  {
    log[n].key.Auto? && log[n].key.id == id
  }

  /** The channel's attempts since `birth` carry strictly rising sequence numbers up to `last`. */
  ghost predicate RisingKeys(log: seq<Entry>, id: Id, birth: nat, last: nat) {
    && birth <= |log|
    && (forall n :: birth <= n < |log| && Of(log, n, id) ==> log[n].key.sequence <= last)
    && (forall m, n :: birth <= m < n < |log| && Of(log, m, id) && Of(log, n, id) ==>
          log[m].key.sequence < log[n].key.sequence)
  }

  ghost predicate KeysInv(s: State) {
    forall id :: id in s.cols ==> KeysOk(s, id)
  }

  ghost predicate KeysOk(s: State, id: Id)
    requires id in s.cols
  {
    id in s.hist.birth && RisingKeys(s.hist.log, id, s.hist.birth[id], s.cols[id].attemptSequence)
  }

  ghost predicate SameKeys(log: seq<Entry>, log': seq<Entry>) {
    |log| == |log'| && forall n :: 0 <= n < |log| ==> log'[n].key == log[n].key
  }

  lemma RisingStays(log: seq<Entry>, log': seq<Entry>, id: Id, birth: nat, last: nat, last': nat)
    requires RisingKeys(log, id, birth, last) && SameKeys(log, log') && last <= last'
    ensures RisingKeys(log', id, birth, last')
  {
    assert forall n :: 0 <= n < |log'| ==> (Of(log', n, id) <==> Of(log, n, id));
  }

  /** A new attempt takes the next number. */
  lemma RisingExtends(log: seq<Entry>, e: Entry, id: Id, birth: nat, last: nat)
    requires RisingKeys(log, id, birth, last)
    requires e.key.Auto? && e.key.id == id && e.key.sequence == last + 1
    ensures RisingKeys(log + [e], id, birth, last + 1)
  {
    var log' := log + [e];
    assert forall n :: 0 <= n < |log| ==> log'[n] == log[n] && (Of(log', n, id) <==> Of(log, n, id));
  }

  lemma RisingIgnores(log: seq<Entry>, e: Entry, id: Id, birth: nat, last: nat)
    requires RisingKeys(log, id, birth, last) && e.key.Auto? && e.key.id != id
    ensures RisingKeys(log + [e], id, birth, last)
  {
    var log' := log + [e];
    assert forall n :: 0 <= n < |log| ==> log'[n] == log[n] && (Of(log', n, id) <==> Of(log, n, id));
  }

  lemma RisingFromNow(log: seq<Entry>, id: Id)
    ensures RisingKeys(log, id, |log|, 0)
  {
  }

  // ---- steps ---------------------------------------------------------------------------

  /** No new attempt: registrations stand, numbers only rise, new registrations start at the end. */
  ghost predicate NumbersKept(s: State, t: State) {
    && SameKeys(s.hist.log, t.hist.log)
    && forall id :: id in t.cols ==> id in t.hist.birth && Numbered(s, t, id)
  }

  ghost predicate Numbered(s: State, t: State, id: Id)
    requires id in t.cols && id in t.hist.birth
  {
    || (id in s.cols && id in s.hist.birth && t.hist.birth[id] == s.hist.birth[id]
        && t.cols[id].attemptSequence >= s.cols[id].attemptSequence)
    || (t.hist.birth[id] == |s.hist.log| && t.cols[id].attemptSequence == 0)
  }

  lemma NumbersKeepKeys(s: State, t: State)
    requires KeysInv(s) && NumbersKept(s, t)
    ensures KeysInv(t)
  {
    hide RisingKeys, SameKeys;
    forall id | id in t.cols ensures KeysOk(t, id) {
      assert Numbered(s, t, id);
      if id in s.cols && t.hist.birth[id] == s.hist.birth[id]
        && t.cols[id].attemptSequence >= s.cols[id].attemptSequence
      {
        assert KeysOk(s, id);
        RisingStays(s.hist.log, t.hist.log, id, s.hist.birth[id], s.cols[id].attemptSequence, t.cols[id].attemptSequence);
      } else {
        RisingFromNow(s.hist.log, id);
        RisingStays(s.hist.log, t.hist.log, id, |s.hist.log|, 0, 0);
      }
    }
  }

  lemma MoveSameKeys(s: State, m: Move, t: State)
    requires Moves(s, m, t) && !m.Take?
    ensures SameKeys(s.hist.log, t.hist.log)
  {
    hide Reserved, Advance, Rollback, SatAdd, Get;
  }

  lemma StepNumbers(s: State, t: State, id: Id)
    requires KeysInv(s) && WorkerStep(s, t, id) && SameKeys(s.hist.log, t.hist.log)
    ensures KeysInv(t)
  {
    hide SameKeys, RisingKeys, Unpaid, TargetOk;
    forall i | i in t.cols ensures i in t.hist.birth && Numbered(s, t, i) {
      assert KeysOk(s, i);
    }
    NumbersKeepKeys(s, t);
  }

  lemma PathNumbers(s: State, t: State, id: Id)
    requires KeysInv(s) && WorkerPath(s, t, id) && SameKeys(s.hist.log, t.hist.log)
    ensures KeysInv(t)
  {
    hide SameKeys, RisingKeys, WorkerStep, KeysOk;
    var mid :| Between(s, mid, t, id);
    PathStepNumbers(s, mid, t, id);
  }

  lemma PathStepNumbers(s: State, mid: State, t: State, id: Id)
    requires KeysInv(s) && WorkerStep(s, mid, id) && WorkerStep(mid, t, id) && SameKeys(s.hist.log, t.hist.log)
    ensures KeysInv(t)
  {
    hide SameKeys, RisingKeys, Unpaid, TargetOk;
    forall i | i in t.cols ensures i in t.hist.birth && Numbered(s, t, i) {
      assert KeysOk(s, i);
    }
    NumbersKeepKeys(s, t);
  }

  lemma ReserveNumbers(s: State, id: Id, p: Prep)
    requires KeysInv(s) && id in s.cols && id in s.channels
    ensures KeysInv(Reserve(s, id, p))
  {
    hide NewAttempt, Begin, Release, KeysInv, Get;
    var a := NewAttempt(s, id, p);
    LogKept(s, s);
    ReleaseOnly(s, a.scope, a.key);
    LogKept(s, Release(s, a.scope, a.key));
    FeeOfPrep(s, id, p);
    if a.fee <= Get(s.credit, a.scope.seller) {
      BeginNumbers(s, id, p);
      LogKept(Begin(s, id, a), Begin(s, id, a));
    }
  }

  /** Neither locks nor workers matter to the numbering. */
  lemma LogKept(s: State, t: State)
    requires KeysInv(s) && t.cols == s.cols && t.hist == s.hist
    ensures KeysInv(t) && forall id: Id, w: Worker :: KeysInv(At(t, id, w))
  {
    hide RisingKeys;
    assert forall u: State, id :: u.cols == s.cols && u.hist == s.hist && id in s.cols ==> (KeysOk(u, id) <==> KeysOk(s, id));
  }

  lemma BeginNumbers(s: State, id: Id, p: Prep)
    requires KeysInv(s) && id in s.cols && id in s.channels
    requires var a := NewAttempt(s, id, p); a.fee <= Get(s.credit, a.scope.seller)
    ensures KeysInv(Begin(s, id, NewAttempt(s, id, p)))
  {
    hide RisingKeys, Seller, Amount, Enabled, Get;
    var a := NewAttempt(s, id, p);
    var t := Begin(s, id, a);
    var e := Entry(a.key, a.scope.seller, a.from, a.fee, Held);
    forall i | i in t.cols ensures KeysOk(t, i) {
      assert KeysOk(s, i);
      if i == id {
        RisingExtends(s.hist.log, e, id, s.hist.birth[id], s.cols[id].attemptSequence);
      } else {
        RisingIgnores(s.hist.log, e, i, s.hist.birth[i], s.cols[i].attemptSequence);
      }
    }
  }

  lemma SameIsSame(log: seq<Entry>)
    ensures SameKeys(log, log)
  {
  }

  lemma ContinueNumbers(s: State, id: Id, now: u64, sameNetwork: bool, prep: Result<Prep, string>)
    requires KeysInv(s) && id in s.cols && id in s.workers && (id in s.channels ==> WellFormed(s.channels[id]))
    ensures KeysInv(Continue(s, id, now, sameNetwork, prep))
  {
    hide KeysInv, Reserve, Enabled, Live, Amount, Blocked, WorkerStep, WellFormed;
    var c, t := s.cols[id], Continue(s, id, now, sameNetwork, prep);
    if c.attempt.None? && id in s.channels && Amount(s.channels[id].charged) > c.claimed
      && Blocked(c, Amount(s.channels[id].charged), prep).None?
    {
      ReserveNumbers(s, id, prep.value);
    } else {
      ContinueIsStep(s, id, now, sameNetwork, prep);
      SameIsSame(s.hist.log);
      assert t.hist == s.hist;
      StepNumbers(s, t, id);
    }
  }

  lemma MonitorNumbers(s: State, id: Id, now: u64, answer: Result<Answer, string>, sameNetwork: bool,
                       prep: Result<Prep, string>)
    requires KeysInv(s) && id in s.workers && (id in s.channels ==> WellFormed(s.channels[id]))
    ensures KeysInv(MonitorDone(s, id, now, answer, sameNetwork, prep))
  {
    hide KeysInv, Continue, Observed, WorkerStep, Evolves, WellFormed;
    SameIsSame(s.hist.log);
    SelfStep(s, id);
    if answer.Ok? && id in s.cols {
      var c := Observed(s.cols[id], answer.value, now);
      ObservedEvolves(s.cols[id], answer.value, now, Stored(s, id));
      SaveIsStep(s, id, c);
      StepNumbers(s, Save(s, id, c), id);
      ContinueNumbers(Save(s, id, c), id, now, sameNetwork, prep);
    } else if answer.Err? {
      AtIsStep(s, s, id, Returned(Some(answer.error)));
      StepNumbers(s, At(s, id, Returned(Some(answer.error))), id);
    } else {
      AtIsStep(s, s, id, Returned(Some("collection removed")));
      StepNumbers(s, At(s, id, Returned(Some("collection removed"))), id);
    }
  }

  lemma WorkerNumbers(s: State, e: Event)
    requires JournalInv(s) && ChargesInv(s) && KeysInv(s) && IsWorkerEvent(e) && Ready(s, e)
    ensures KeysInv(Step(s, e))
  {
    hide JournalInv, ChargesInv, KeysInv, WorkerPath, WorkerStart, MonitorOutcall, MonitorDone, PrepareDone, ResumeDone, At,
      Moves;
    if e.DoMonitor? {
      ChannelWellFormed(s, e.id);
      MonitorNumbers(s, e.id, e.now, e.answer, e.sameNetwork, e.prep);
    } else {
      WorkerEventIsPath(s, e);
      var m := StepMoves(s, e);
      MoveSameKeys(s, m, Step(s, e));
      PathNumbers(s, Step(s, e), e.id);
    }
  }

  // ---- messages ------------------------------------------------------------------------

  lemma ColumnsNumbers(s: State, t: State)
    requires KeysInv(s) && ColumnsKept(s, t) && t.hist.log == s.hist.log
    ensures KeysInv(t)
  {
    hide RisingKeys;
    SameIsSame(s.hist.log);
    hide SameKeys;
    forall id | id in t.cols ensures id in t.hist.birth && Numbered(s, t, id) {
      assert SameCharges(s.cols[id], t.cols[id]);
      assert KeysOk(s, id);
    }
    NumbersKeepKeys(s, t);
  }

  lemma SwitchNumbers(s: State, receiver: Addr, value: bool, now: u64)
    requires KeysInv(s)
    ensures var t := Switch(s, receiver, value, now); KeysInv(t) && t.hist.log == s.hist.log
  {
    hide RisingKeys, Targets, Amount;
    SameIsSame(s.hist.log);
    hide SameKeys;
    var t := Switch(s, receiver, value, now);
    forall id | id in t.cols ensures id in t.hist.birth && Numbered(s, t, id) {
      if id in s.cols {
        assert KeysOk(s, id);
      }
    }
    NumbersKeepKeys(s, t);
  }

  lemma RegisterNumbers(s: State, id: Id, channel: Channel, now: u64)
    requires KeysInv(s) && id !in s.cols
    ensures var t := Register(s, id, NewCollection(channel, now)); KeysInv(t) && t.hist.log == s.hist.log
  {
    hide RisingKeys, Amount;
    SameIsSame(s.hist.log);
    hide SameKeys;
    var t := Register(s, id, NewCollection(channel, now));
    forall i | i in t.cols ensures i in t.hist.birth && Numbered(s, t, i) {
      if i in s.cols {
        assert KeysOk(s, i);
      }
    }
    NumbersKeepKeys(s, t);
  }

  lemma ArmNumbers(s: State, now: u64)
    requires KeysInv(s)
    ensures KeysInv(Arm(s, now)) && Arm(s, now).hist.log == s.hist.log
  {
    hide KeysInv, Arm, ColumnsKept;
    ArmColumns(s, now);
    ArmQuiet(s, now);
    ColumnsNumbers(s, Arm(s, now));
  }

  lemma BeforeUpdateNumbers(s: State, id: Id, current: Option<Channel>, next: Channel, now: u64, fee: Option<nat>,
                            signerOk: bool)
    requires KeysInv(s)
    ensures var t := BeforeUpdate(s, id, current, next, now, fee, signerOk).0;
      KeysInv(t) && t.hist.log == s.hist.log
  {
    hide KeysInv, Arm, StopReason, Enabled, CreatesPending, NewCollection, Refresh, Register, ColumnsKept;
    if id in s.cols {
      RefreshNumbers(s, id, now);
    } else {
      var s1 := Register(s, id, NewCollection(next, now));
      RegisterNumbers(s, id, next, now);
      ArmNumbers(s1, now);
      ArmKeepsCols(s1, now);
      RegisterColumns(s, id, NewCollection(next, now));
      RefreshNumbers(Arm(s1, now), id, now);
    }
  }

  lemma RefreshNumbers(s: State, id: Id, now: u64)
    requires KeysInv(s) && id in s.cols
    ensures KeysInv(Refresh(s, id, now)) && Refresh(s, id, now).hist.log == s.hist.log
  {
    hide KeysInv, Refresh, ColumnsKept;
    RefreshColumns(s, id, now);
    RefreshQuiet(s, id, now);
    ColumnsNumbers(s, Refresh(s, id, now));
  }

  lemma StoreNumbers(s: State, id: Id, channels: map<Id, Channel>, current: Option<Channel>, stored: Channel, now: u64)
    requires KeysInv(s)
    ensures KeysInv(AfterUpdate(s.(channels := channels), id, current, stored, now))
  {
    hide RisingKeys, Arm, Amount, Enabled, Live, Rise;
    SameIsSame(s.hist.log);
    hide SameKeys;
    var s2 := s.(channels := channels);
    var t := if id in s.cols then Note(s2, id, current, stored, now) else s2;
    forall i | i in t.cols ensures i in t.hist.birth && Numbered(s, t, i) {
      assert KeysOk(s, i);
    }
    NumbersKeepKeys(s, t);
    ArmNumbers(t, now);
  }

  lemma UpdateNumbers(s: State, id: Id, expected: Option<nat>, next: Channel, now: u64, fee: Option<nat>, signerOk: bool,
                      accept: bool)
    requires KeysInv(s)
    ensures KeysInv(UpdateChannel(s, id, expected, next, now, fee, signerOk, accept))
  {
    hide KeysInv, BeforeUpdate, AfterUpdate, Accepted, NextRevision;
    var current := Stored(s, id);
    BeforeUpdateNumbers(s, id, current, next.(channelId := id), now, fee, signerOk);
    var s1 := BeforeUpdate(s, id, current, next.(channelId := id), now, fee, signerOk).0;
    var stored := next.(channelId := id, revision := NextRevision(current));
    StoreNumbers(s1, id, s1.channels[id := stored], current, stored, now);
  }

  lemma DeleteNumbers(s: State, id: Id, expected: Option<nat>, now: u64, accept: bool)
    requires KeysInv(s)
    ensures KeysInv(DeleteChannel(s, id, expected, now, accept))
  {
    hide RisingKeys, Live, Provisional, MayDelete;
    forall i | i in s.cols ensures KeysOk(s, i) {
    }
  }

  /** In every run the attempts of one registration have strictly rising sequence numbers. */
  lemma StepKeepsKeys(s: State, e: Event)
    requires JournalInv(s) && ChargesInv(s) && KeysInv(s) && Ready(s, e)
    ensures KeysInv(Step(s, e))
  {
    hide JournalInv, ChargesInv, KeysInv, ColumnsKept, SetEnabled, RequestClaim, UpdateChannel, DeleteChannel,
      MonitorOutcall, Fire, WorkerStart, MonitorDone, PrepareDone, ResumeDone, WorkerFinish, Upgrade, Earliest, Norm,
      Switch, Targets, Arm, Moves;
    if IsWorkerEvent(e) {
      WorkerNumbers(s, e);
    } else if e.DoSetEnabled? {
      SetEnabledNumbers(s, e.receiver, e.value, e.now, e.accept);
    } else if e.DoUpdate? {
      UpdateNumbers(s, e.id, e.expected, e.next, e.now, e.feeNow, e.signerOk, e.accept);
    } else if e.DoDelete? {
      DeleteNumbers(s, e.id, e.expected, e.now, e.accept);
    } else {
      OtherColumns(s, e);
      OtherLog(s, e);
      ColumnsNumbers(s, Step(s, e));
    }
  }

  lemma SetEnabledNumbers(s: State, receiver: Addr, value: bool, now: u64, accept: bool)
    requires KeysInv(s)
    ensures KeysInv(SetEnabled(s, receiver, value, now, accept))
  {
    hide KeysInv, Switch, Arm, Targets;
    SwitchNumbers(s, receiver, value, now);
    ArmNumbers(Switch(s, receiver, value, now), now);
  }

  lemma OtherLog(s: State, e: Event)
    requires Ready(s, e) && !IsWorkerEvent(e) && !e.DoSetEnabled? && !e.DoUpdate? && !e.DoDelete?
    ensures Step(s, e).hist.log == s.hist.log
  {
    hide RequestClaim, Fire, WorkerFinish, Upgrade, Earliest, Norm, SatAdd, Rollback, Advance, Reserved, Get, Attempts,
      Moves;
    if e.DoRequestClaim? || e.DoFire? || e.DoFinish? || e.DoUpgrade? {
      var m := QuietMoves(s, e);
    }
  }
}
