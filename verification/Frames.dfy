/** Which steps leave the journal and the ledger alone: messages of users, the scheduler, and the
    monitor bookkeeping. */
module Frames {
  import opened Accounts
  import opened Wrappers
  import opened Decimal
  import opened Batch
  import opened Collector
  import opened Journal

  ghost predicate Quiet(s: State, t: State) {
    && Attempts(t.cols) == Attempts(s.cols)
    && t.locks == s.locks && t.records == s.records && t.credit == s.credit && t.nonces == s.nonces
    && t.hist.log == s.hist.log && t.hist.serial == s.hist.serial && t.hist.sends == s.hist.sends
    && t.hist.paidIn == s.hist.paidIn && t.hist.external == s.hist.external && t.hist.lost == s.hist.lost
    && t.hist.manualNonces == s.hist.manualNonces
  }

  lemma QuietTransitive(s: State, t: State, u: State)
    requires Quiet(s, t) && Quiet(t, u)
    ensures Quiet(s, u)
  {
  }

  lemma ArmQuiet(s: State, now: u64)
    ensures Quiet(s, Arm(s, now)) && Arm(s, now).workers == s.workers
  {
    hide NextWakeup, TimerDeadline;
  }

  ghost predicate SameAttempt(cols: map<Id, Collection>, id: Id, c: Collection) {
    c.attempt == (if id in cols then cols[id].attempt else None)
  }

  lemma SaveQuiet(s: State, id: Id, c: Collection)
    requires SameAttempt(s.cols, id, c)
    ensures Quiet(s, Save(s, id, c))
  {
    assert Attempts(s.cols[id := c]) == Attempts(s.cols);
  }

  lemma RemoveQuiet(s: State, id: Id)
    requires id in s.cols ==> s.cols[id].attempt.None?
    ensures Quiet(s, Remove(s, id))
  {
    assert Attempts(s.cols - {id}) == Attempts(s.cols);
  }

  lemma RegisterQuiet(s: State, id: Id, c: Collection)
    requires id !in s.cols && c.attempt.None?
    ensures Quiet(s, Register(s, id, c))
  {
    assert Attempts(s.cols[id := c]) == Attempts(s.cols);
  }

  lemma NewHasNoAttempt(channel: Channel, now: u64)
    ensures NewCollection(channel, now).attempt.None?
  {
    hide Amount;
  }

  lemma TouchedSame(s: State, id: Id, value: bool, now: u64)
    requires id in s.cols || id in s.channels
    ensures SameAttempt(s.cols, id, Touched(s, id, value, now))
  {
    hide Amount, Seconds;
  }

  lemma RetouchedAttempts(s: State, targets: set<Id>, value: bool, now: u64)
    requires targets <= s.cols.Keys + s.channels.Keys
    ensures Attempts(Retouched(s, targets, value, now)) == Attempts(s.cols)
  {
    hide Touched;
    var cols := Retouched(s, targets, value, now);
    forall id | id in cols ensures SameAttempt(s.cols, id, cols[id]) {
      if id in targets {
        TouchedSame(s, id, value, now);
      }
    }
  }

  lemma SwitchQuiet(s: State, receiver: Addr, value: bool, now: u64)
    ensures var t := Switch(s, receiver, value, now); Quiet(s, t) && t.workers == s.workers
  {
    hide Retouched, Targets, Attempts;
    RetouchedAttempts(s, Targets(s.channels, s.cols, receiver, value), value, now);
  }

  lemma SetEnabledQuiet(s: State, receiver: Addr, value: bool, now: u64, accept: bool)
    ensures var t := SetEnabled(s, receiver, value, now, accept); Quiet(s, t) && t.workers == s.workers
  {
    hide Arm, Switch, Quiet, Targets;
    QuietSelf(s);
    SwitchQuiet(s, receiver, value, now);
    var mid := Switch(s, receiver, value, now);
    ArmQuiet(mid, now);
    QuietTransitive(s, mid, Arm(mid, now));
  }

  lemma RequestClaimQuiet(s: State, id: Id, now: u64)
    ensures var t := RequestClaim(s, id, now); Quiet(s, t) && t.workers == s.workers
  {
    hide Arm, Seconds, Quiet;
    if id in s.cols {
      var c := s.cols[id].(force := true, halted := false, nextDue := Seconds(now));
      SaveQuiet(s, id, c);
      ArmQuiet(Save(s, id, c), now);
      QuietTransitive(s, Save(s, id, c), RequestClaim(s, id, now));
    } else {
      assert Quiet(s, s) by { QuietSelf(s); }
    }
  }

  lemma QuietSelf(s: State)
    ensures Quiet(s, s)
  {
  }

  lemma RefreshQuiet(s: State, id: Id, now: u64)
    requires id in s.cols
    ensures var t := Refresh(s, id, now); Quiet(s, t) && t.workers == s.workers
  {
    hide Arm, Seconds, Quiet, IsStale;
    QuietSelf(s);
    var c := s.cols[id].(monitoredAt := None, nextDue := Seconds(now));
    SaveQuiet(s, id, c);
    ArmQuiet(Save(s, id, c), now);
    QuietTransitive(s, Save(s, id, c), Arm(Save(s, id, c), now));
  }

  lemma BeforeUpdateQuiet(s: State, id: Id, current: Option<Channel>, next: Channel, now: u64, fee: Option<nat>,
                          signerOk: bool)
    ensures var t := BeforeUpdate(s, id, current, next, now, fee, signerOk).0; Quiet(s, t) && t.workers == s.workers
  {
    hide Arm, Quiet, StopReason, Enabled, CreatesPending, NewCollection, Refresh;
    QuietSelf(s);
    if id in s.cols {
      RefreshQuiet(s, id, now);
    } else {
      var c := NewCollection(next, now);
      NewHasNoAttempt(next, now);
      var r := Register(s, id, c);
      RegisterQuiet(s, id, c);
      ArmQuiet(r, now);
      ArmKeepsCols(r, now);
      QuietTransitive(s, r, Arm(r, now));
      RefreshQuiet(Arm(r, now), id, now);
      QuietTransitive(s, Arm(r, now), Refresh(Arm(r, now), id, now));
    }
  }

  lemma ArmKeepsCols(s: State, now: u64)
    ensures Arm(s, now).cols == s.cols && Arm(s, now).channels == s.channels
  {
    hide NextWakeup, TimerDeadline;
  }

  lemma AfterUpdateQuiet(s: State, id: Id, current: Option<Channel>, next: Channel, now: u64)
    ensures var t := AfterUpdate(s, id, current, next, now); Quiet(s, t) && t.workers == s.workers
  {
    hide Arm, Amount, Enabled, Live, Seconds, Rise;
    if id in s.cols {
      var t := Note(s, id, current, next, now);
      assert SameAttempt(s.cols, id, t.cols[id]);
      assert Attempts(t.cols) == Attempts(s.cols);
      ArmQuiet(t, now);
    }
  }

  lemma UpdateQuiet(s: State, id: Id, expected: Option<nat>, next: Channel, now: u64, fee: Option<nat>, signerOk: bool,
                    accept: bool)
    ensures var t := UpdateChannel(s, id, expected, next, now, fee, signerOk, accept); Quiet(s, t) && t.workers == s.workers
  {
    hide BeforeUpdate, AfterUpdate, Quiet, Accepted, NextRevision;
    QuietSelf(s);
    var current := Stored(s, id);
    BeforeUpdateQuiet(s, id, current, next.(channelId := id), now, fee, signerOk);
    var s1 := BeforeUpdate(s, id, current, next.(channelId := id), now, fee, signerOk).0;
    var stored := next.(channelId := id, revision := NextRevision(current));
    var s2 := s1.(channels := s1.channels[id := stored]);
    assert Quiet(s1, s2) by { QuietChannels(s1, s2.channels); }
    QuietTransitive(s, s1, s2);
    AfterUpdateQuiet(s2, id, current, stored, now);
    QuietTransitive(s, s2, AfterUpdate(s2, id, current, stored, now));
  }

  lemma QuietChannels(s: State, channels: map<Id, Channel>)
    ensures Quiet(s, s.(channels := channels))
  {
  }

  lemma DeleteQuiet(s: State, id: Id, expected: Option<nat>, now: u64, accept: bool)
    ensures var t := DeleteChannel(s, id, expected, now, accept); Quiet(s, t) && t.workers == s.workers
  {
    hide Quiet, Live, Provisional, Amount;
    QuietSelf(s);
    var s1 := s.(channels := s.channels - {id});
    QuietChannels(s, s.channels - {id});
    if id in s.cols ==> s.cols[id].attempt.None? {
      RemoveQuiet(s1, id);
      QuietTransitive(s, s1, Remove(s1, id));
    }
  }

  lemma OutcallQuiet(s: State, id: Id, cycles: nat)
    ensures var t := MonitorOutcall(s, id, cycles); Quiet(s, t) && t.workers == s.workers
  {
    hide Quiet, SatAdd;
    QuietSelf(s);
    if id in s.cols {
      SaveQuiet(s, id, s.cols[id].(monitorCalls := SatAdd(s.cols[id].monitorCalls, 1, U64_MAX),
                                   monitorCycles := SatAdd(s.cols[id].monitorCycles, cycles, U128_MAX)));
    }
  }

  lemma FireQuiet(s: State, chosen: set<Id>, now: u64)
    ensures Quiet(s, Fire(s, chosen, now))
  {
    hide NextWakeup, TimerDeadline;
  }

  lemma UpgradeQuiet(s: State, now: u64)
    ensures Quiet(s, Upgrade(s, now)) && Upgrade(s, now).workers == map[]
  {
    hide NextWakeup, TimerDeadline;
  }

  lemma FinishQuiet(s: State, id: Id, now: u64)
    requires id in s.workers && s.workers[id].Returned?
    ensures var t := WorkerFinish(s, id, now); Quiet(s, t) && t.workers == s.workers - {id}
  {
    hide NextWakeup, TimerDeadline, Amount, Live, Seconds, SatAdd;
    if id in s.cols {
      var t := WorkerFinish(s, id, now);
      assert t.cols == s.cols[id := t.cols[id]] && SameAttempt(s.cols, id, t.cols[id]);
      assert Attempts(t.cols) == Attempts(s.cols);
    }
  }

  predicate IsLedgerEvent(e: Event) {
    e.DoDeposit? || e.DoManualCharge? || e.DoManualRefund? || e.DoManualAcquire? || e.DoManualRelease?
      || e.DoManualNonce? || e.DoManualRollback?
  }

  /** What the rest of the canister leaves alone. */
  ghost predicate SameCollector(s: State, t: State) {
    && t.cols == s.cols && t.channels == s.channels && t.workers == s.workers && t.timer == s.timer
    && t.records == s.records && t.enabled == s.enabled
    && t.hist.log == s.hist.log && t.hist.serial == s.hist.serial && t.hist.lastArm == s.hist.lastArm
    && t.hist.committed == s.hist.committed && t.hist.birth == s.hist.birth
  }

  /** Money, nonces and the locks of manual settlements do not touch the collector. */
  lemma OutsideFrame(s: State, e: Event)
    requires Ready(s, e) && IsLedgerEvent(e)
    ensures SameCollector(s, Step(s, e))
    ensures !e.DoManualAcquire? && !e.DoManualRelease? ==> Step(s, e).locks == s.locks
  {
    hide SameCollector, Norm, Deposit, ManualCharge, ManualRefund, ManualNonce, ManualRollback, ManualAcquire, Release;
    if e.DoDeposit? {
      DepositFrame(s, e.seller, e.amount);
    } else if e.DoManualCharge? {
      ChargeFrame(s, e.seller, e.amount);
    } else if e.DoManualRefund? {
      RefundFrame(s, e.seller, e.amount);
    } else if e.DoManualNonce? || e.DoManualRollback? {
      NonceFrame(s, e.from, if e.DoManualNonce? then e.pending else e.nonce);
    } else {
      LockFrame(s, e.scope, e.name);
    }
  }

  lemma DepositFrame(s: State, seller: Addr, amount: nat)
    ensures SameCollector(s, Deposit(s, seller, amount)) && Deposit(s, seller, amount).locks == s.locks
  {
    hide Norm, AddCredit, SameCollector, Get;
    CreditOnly(s, Norm(seller), amount);
    MapsFrame(s, Deposit(s, seller, amount));
  }

  lemma ChargeFrame(s: State, seller: Addr, amount: nat)
    ensures SameCollector(s, ManualCharge(s, seller, amount)) && ManualCharge(s, seller, amount).locks == s.locks
  {
    hide Norm, SameCollector, Get;
    MapsFrame(s, ManualCharge(s, seller, amount));
  }

  lemma RefundFrame(s: State, seller: Addr, amount: nat)
    requires amount <= Get(s.hist.external, Norm(seller))
    ensures SameCollector(s, ManualRefund(s, seller, amount)) && ManualRefund(s, seller, amount).locks == s.locks
  {
    hide Norm, AddCredit, SameCollector, Get;
    CreditOnly(s, Norm(seller), amount);
    MapsFrame(s, ManualRefund(s, seller, amount));
  }

  lemma MapsFrame(s: State, t: State)
    requires t == s.(credit := t.credit,
                     hist := s.hist.(lost := t.hist.lost, paidIn := t.hist.paidIn, external := t.hist.external))
    ensures SameCollector(s, t) && t.locks == s.locks
  {
  }

  lemma NonceFrame(s: State, from: Addr, x: nat)
    ensures SameCollector(s, ManualNonce(s, from, x)) && ManualNonce(s, from, x).locks == s.locks
    ensures SameCollector(s, ManualRollback(s, from, x)) && ManualRollback(s, from, x).locks == s.locks
  {
    hide Rollback, Advance, Reserved;
  }

  lemma LockFrame(s: State, scope: Scope, name: string)
    ensures SameCollector(s, ManualAcquire(s, scope, name)) && SameCollector(s, Release(s, scope, Manual(name)))
  {
  }
}
