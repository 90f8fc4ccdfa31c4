/** Messages of users and of the scheduler keep the charge lists in order; above all, a channel
    update that adds a charge does so only where there is room. */
module MessageSteps {
  import opened Accounts
  import opened Wrappers
  import opened HexUtil
  import opened Batch
  import opened Collector
  import opened Charges
  import opened Journal
  import opened Frames
  import opened ChargeSteps

  /** The fields the charge list depends on are the same. */
  ghost predicate SameCharges(c: Collection, d: Collection) {
    && d.seed == c.seed && d.charges == c.charges && d.claimed == c.claimed && d.attempt == c.attempt
    && d.attemptSequence == c.attemptSequence
  }

  ghost predicate ColumnsKept(s: State, t: State) {
    && t.channels == s.channels && t.hist.committed == s.hist.committed && t.hist.birth == s.hist.birth
    && t.cols.Keys == s.cols.Keys
    && forall id :: id in t.cols ==> id in s.cols && SameCharges(s.cols[id], t.cols[id])
  }

  lemma KeptKeeps(s: State, t: State)
    requires ChargesInv(s) && ColumnsKept(s, t)
    ensures ChargesInv(t)
  {
    hide WellFormed, Amount, Rising, PaidUpTo, SuffixOf, RoomOk, TargetOk, StoredAmount;
    forall id | id in t.cols
      ensures id in t.hist.committed && CollectionOk(t.cols[id], Stored(t, id), t.hist.committed[id])
    {
      assert SameCharges(s.cols[id], t.cols[id]);
      assert CollectionOk(s.cols[id], Stored(s, id), s.hist.committed[id]);
    }
  }

  lemma ArmRest(s: State, now: u64)
    ensures var t := Arm(s, now);
      && t.cols == s.cols && t.channels == s.channels && t.enabled == s.enabled
      && t.hist.committed == s.hist.committed && t.hist.birth == s.hist.birth
  {
    hide NextWakeup, TimerDeadline;
  }

  lemma SaveColumns(s: State, id: Id, c: Collection, workers: map<Id, Worker>, now: u64)
    requires id in s.cols && SameCharges(s.cols[id], c)
    ensures ColumnsKept(s, Arm(Save(s, id, c).(workers := workers), now))
  {
    hide Arm, SameCharges;
    ArmRest(Save(s, id, c).(workers := workers), now);
    CollectionSelf();
  }

  lemma CollectionSelf()
    ensures forall c :: SameCharges(c, c)
  {
  }

  lemma FinishColumns(s: State, id: Id, now: u64)
    requires id in s.workers && s.workers[id].Returned?
    ensures ColumnsKept(s, WorkerFinish(s, id, now))
  {
    hide Arm, Amount, Live, Seconds, SatAdd, ColumnsKept;
    var workers := s.workers - {id};
    if id in s.cols {
      SaveColumns(s, id, Rested(s, id, now), workers, now);
      assert Save(s, id, Rested(s, id, now)).(workers := workers) == Save(s.(workers := workers), id, Rested(s, id, now));
    } else {
      ArmColumns(s.(workers := workers), now);
      WorkersColumns(s, workers, s.timer, Arm(s.(workers := workers), now));
    }
  }

  lemma WorkersColumns(s: State, workers: map<Id, Worker>, timer: Option<nat>, t: State)
    requires ColumnsKept(s.(workers := workers, timer := timer), t)
    ensures ColumnsKept(s, t)
  {
    hide SameCharges;
  }

  lemma RequestColumns(s: State, id: Id, now: u64)
    ensures ColumnsKept(s, RequestClaim(s, id, now))
  {
    hide Arm, Seconds, ColumnsKept;
    if id in s.cols {
      var c := s.cols[id].(force := true, halted := false, nextDue := Seconds(now));
      SaveColumns(s, id, c, s.workers, now);
      assert Save(s, id, c).(workers := s.workers) == Save(s, id, c);
    } else {
      SelfColumns(s);
    }
  }

  lemma SelfColumns(s: State)
    ensures ColumnsKept(s, s)
  {
  }

  lemma FireColumns(s: State, chosen: set<Id>, now: u64)
    ensures ColumnsKept(s, Fire(s, chosen, now))
  {
    hide Arm, ColumnsKept;
    var workers := s.workers + Spawned(chosen);
    var t := s.(timer := None, workers := workers);
    ArmColumns(t, now);
    assert t == s.(workers := workers, timer := None);
    WorkersColumns(s, workers, None, Arm(t, now));
    SelfColumns(s.(timer := None));
    assert s.(timer := None) == s.(workers := s.workers, timer := None);
    WorkersColumns(s, s.workers, None, s.(timer := None));
  }

  lemma UpgradeColumns(s: State, now: u64)
    ensures ColumnsKept(s, Upgrade(s, now))
  {
    hide Arm, ColumnsKept;
    var t := s.(workers := map[], timer := None);
    ArmColumns(t, now);
    WorkersColumns(s, map[], None, Arm(t, now));
  }

  lemma RefreshColumns(s: State, id: Id, now: u64)
    requires id in s.cols
    ensures ColumnsKept(s, Refresh(s, id, now))
    ensures Refresh(s, id, now).enabled == s.enabled && Refresh(s, id, now).cols.Keys == s.cols.Keys
  {
    hide Arm, Seconds, IsStale;
    ArmRest(Save(s, id, s.cols[id].(monitoredAt := None, nextDue := Seconds(now))), now);
  }

  // ---- registration --------------------------------------------------------------------

  lemma NewIsOk(channel: Channel, now: u64, stored: Option<Channel>)
    requires ParseU128(channel.charged).Some? && Amount(channel.charged) == StoredAmount(stored)
    ensures CollectionOk(NewCollection(channel, now), stored, [])
  {
    hide Amount, StoredAmount;
  }

  lemma RegisterKeeps(s: State, id: Id, channel: Channel, now: u64)
    requires ChargesInv(s) && id !in s.cols
    requires ParseU128(channel.charged).Some? && Amount(channel.charged) == StoredAmount(Stored(s, id))
    ensures ChargesInv(Register(s, id, NewCollection(channel, now)))
  {
    hide WellFormed, CollectionOk, NewCollection, StoredAmount, Amount;
    NewIsOk(channel, now, Stored(s, id));
    var t := Register(s, id, NewCollection(channel, now));
    forall i | i in t.cols ensures CollectionOk(t.cols[i], Stored(t, i), t.hist.committed[i]) {
      assert Stored(t, i) == Stored(s, i);
    }
  }

  lemma TouchedIsOk(s: State, id: Id, value: bool, now: u64)
    requires ChargesInv(s) && (id in s.cols || id in s.channels)
    ensures CollectionOk(Touched(s, id, value, now), Stored(s, id), if id in s.cols then s.hist.committed[id] else [])
  {
    hide NewCollection, Amount, Rising, PaidUpTo, SuffixOf, RoomOk, ParseU128;
    if id !in s.cols {
      assert WellFormed(s.channels[id]);
      NewIsOk(s.channels[id], now, Stored(s, id));
    }
  }

  lemma SwitchKeeps(s: State, receiver: Addr, value: bool, now: u64)
    requires ChargesInv(s)
    ensures ChargesInv(Switch(s, receiver, value, now))
  {
    hide WellFormed, CollectionOk, Touched, Targets, StoredAmount;
    var targets := Targets(s.channels, s.cols, receiver, value);
    var t := Switch(s, receiver, value, now);
    forall id | id in t.cols
      ensures id in t.hist.committed && CollectionOk(t.cols[id], Stored(t, id), t.hist.committed[id])
    {
      assert Stored(t, id) == Stored(s, id);
      if id in targets {
        TouchedIsOk(s, id, value, now);
      } else {
        assert CollectionOk(s.cols[id], Stored(s, id), s.hist.committed[id]);
      }
    }
  }

  lemma ArmColumns(s: State, now: u64)
    ensures ColumnsKept(s, Arm(s, now))
  {
    hide NextWakeup, TimerDeadline;
  }

  lemma SetEnabledKeeps(s: State, receiver: Addr, value: bool, now: u64, accept: bool)
    requires ChargesInv(s)
    ensures ChargesInv(SetEnabled(s, receiver, value, now, accept))
  {
    hide ChargesInv, Arm, Switch, Targets, ColumnsKept;
    SwitchKeeps(s, receiver, value, now);
    ArmColumns(Switch(s, receiver, value, now), now);
    KeptKeeps(Switch(s, receiver, value, now), Arm(Switch(s, receiver, value, now), now));
  }

  // ---- updates -------------------------------------------------------------------------

  /** The collector's view of an accepted update: totals do not fall, and a rise consumes the
      reservation. */
  lemma UpdateMeans(current: Option<Channel>, next: Channel, nowSeconds: nat)
    requires current.Some? ==> WellFormed(current.value)
    requires Accepted(current, next, nowSeconds)
    ensures WellFormed(next)
    ensures StoredAmount(current) <= Amount(next.charged)
    ensures StoredAmount(current) < Amount(next.charged) ==>
      current.Some? && current.value.pending.Some? && next.pending.None?
  {
    hide WellFormed, Accepted, Amount;
    match current
    case None => AcceptedCreate(next, nowSeconds);
    case Some(c) => AcceptedStep(c, next, nowSeconds);
  }

  lemma StampsKeep(next: Channel, id: Id, revision: nat)
    requires WellFormed(next)
    ensures WellFormed(next.(channelId := id, revision := revision))
  {
    hide ParseU128, ParsedU256, Amount;
  }

  lemma ChargedParses(c: Channel)
    requires WellFormed(c)
    ensures ParseU128(c.charged).Some?
  {
    hide ParseU128, ParsedU256, Amount;
  }

  /** Before the store: the collection exists with the old total, and a new reservation is let
      through only below the limit. */
  lemma BeforeUpdateKeeps(s: State, id: Id, next: Channel, now: u64, fee: Option<nat>, signerOk: bool)
    requires ChargesInv(s)
    requires ParseU128(next.charged).Some?
    requires next.pending.Some? ==> Amount(next.charged) == StoredAmount(Stored(s, id))
    ensures var (t, ok) := BeforeUpdate(s, id, Stored(s, id), next, now, fee, signerOk);
      && ChargesInv(t) && t.channels == s.channels
      && (ok && CreatesPending(Stored(s, id), next) && id in t.cols ==> |t.cols[id].charges| < MAX_OUTSTANDING)
  {
    hide ChargesInv, Enabled, NewCollection, Refresh, Arm, ColumnsKept, StoredAmount, Amount, IsStale, Register;
    if (Enabled(s.enabled, next) || id in s.cols) && CreatesPending(Stored(s, id), next) && signerOk {
      if id in s.cols {
        RefreshColumns(s, id, now);
        KeptKeeps(s, Refresh(s, id, now));
        ColumnsChannels(s, Refresh(s, id, now));
      } else {
        var s1 := Register(s, id, NewCollection(next, now));
        RegisterKeeps(s, id, next, now);
        RegisterColumns(s, id, NewCollection(next, now));
        ArmColumns(s1, now);
        KeptKeeps(s1, Arm(s1, now));
        ArmKeepsCols(s1, now);
        RefreshColumns(Arm(s1, now), id, now);
        KeptKeeps(Arm(s1, now), Refresh(Arm(s1, now), id, now));
        ColumnsChannels(Arm(s1, now), Refresh(Arm(s1, now), id, now));
      }
    }
  }

  lemma ColumnsChannels(s: State, t: State)
    requires ColumnsKept(s, t)
    ensures t.channels == s.channels
  {
  }

  lemma RegisterColumns(s: State, id: Id, c: Collection)
    ensures var t := Register(s, id, c); t.channels == s.channels && id in t.cols
  {
  }

  /** The collection after the store, against the channel after the store. */
  lemma AppendIsOk(c: Collection, current: Option<Channel>, stored: Channel, committed: seq<Charge>, at: nat,
                   d: Collection, committed': seq<Charge>)
    requires CollectionOk(c, current, committed)
    requires StoredAmount(current) <= Amount(stored.charged)
    requires StoredAmount(current) < Amount(stored.charged) ==>
      current.Some? && current.value.pending.Some? && stored.pending.None?
    requires StoredAmount(current) == Amount(stored.charged) && stored.pending.Some? ==> |c.charges| < MAX_OUTSTANDING
    requires d.seed == stored && ParseU128(stored.charged).Some? && d.claimed == c.claimed && d.attempt == c.attempt
    requires StoredAmount(current) < Amount(stored.charged) ==>
      d.charges == c.charges + [Charge(Amount(stored.charged), at)]
      && committed' == committed + [Charge(Amount(stored.charged), at)]
    requires StoredAmount(current) == Amount(stored.charged) ==> d.charges == c.charges && committed' == committed
    ensures CollectionOk(d, Some(stored), committed')
  {
    hide Amount;
  }

  /** What after_update writes, without the timer. */
  lemma AfterUpdateWrites(s: State, id: Id, current: Option<Channel>, next: Channel, now: u64)
    requires id in s.cols && id in s.hist.committed
    ensures var t := AfterUpdate(s, id, current, next, now);
      var c, d := s.cols[id], t.cols[id];
      var charge := Charge(Amount(next.charged), Seconds(now));
      && t.channels == s.channels && t.enabled == s.enabled && t.cols == s.cols[id := d]
      && d.seed == next && d.claimed == c.claimed && d.attempt == c.attempt
      && t.hist.committed == s.hist.committed[id := t.hist.committed[id]]
      && (if Amount(next.charged) > StoredAmount(current)
          then d.charges == c.charges + [charge] && t.hist.committed[id] == s.hist.committed[id] + [charge]
          else d.charges == c.charges && t.hist.committed[id] == s.hist.committed[id])
  {
    hide Arm, Enabled, Live, Amount, Seconds;
    ArmRest(Note(s, id, current, next, now), now);
  }

  lemma StoreKeeps(s: State, id: Id, stored: Channel, now: u64)
    requires ChargesInv(s) && WellFormed(stored)
    requires var current := Stored(s, id);
      && StoredAmount(current) <= Amount(stored.charged)
      && (StoredAmount(current) < Amount(stored.charged) ==>
            current.Some? && current.value.pending.Some? && stored.pending.None?)
      && (StoredAmount(current) == Amount(stored.charged) && stored.pending.Some? && id in s.cols ==>
            |s.cols[id].charges| < MAX_OUTSTANDING)
    ensures ChargesInv(AfterUpdate(s.(channels := s.channels[id := stored]), id, Stored(s, id), stored, now))
  {
    hide WellFormed, CollectionOk, AfterUpdate, Amount, Seconds, StoredAmount;
    var s2 := s.(channels := s.channels[id := stored]);
    var t := AfterUpdate(s2, id, Stored(s, id), stored, now);
    if id in s.cols {
      AfterUpdateWrites(s2, id, Stored(s, id), stored, now);
      ChargedParses(stored);
      AppendIsOk(s.cols[id], Stored(s, id), stored, s.hist.committed[id], Seconds(now), t.cols[id], t.hist.committed[id]);
    } else {
      assert t == s2 by { AfterUpdateIgnores(s2, id, Stored(s, id), stored, now); }
    }
    forall i | i in t.cols ensures i in t.hist.committed && CollectionOk(t.cols[i], Stored(t, i), t.hist.committed[i]) {
      if i != id {
        assert Stored(t, i) == Stored(s, i);
        assert CollectionOk(s.cols[i], Stored(s, i), s.hist.committed[i]);
      }
    }
  }

  lemma AfterUpdateIgnores(s: State, id: Id, current: Option<Channel>, next: Channel, now: u64)
    requires id !in s.cols
    ensures AfterUpdate(s, id, current, next, now) == s
  {
  }

  /** Backlog bound: an accepted update adds at most one charge, where a slot was kept for it. */
  lemma UpdateKeeps(s: State, id: Id, expected: Option<nat>, next: Channel, now: u64, fee: Option<nat>, signerOk: bool,
                    accept: bool)
    requires ChargesInv(s)
    ensures ChargesInv(UpdateChannel(s, id, expected, next, now, fee, signerOk, accept))
  {
    hide ChargesInv, BeforeUpdate, AfterUpdate, Accepted, NextRevision, WellFormed, Amount, StoredAmount, CreatesPending;
    var current := Stored(s, id);
    if accept && Accepted(current, next, Seconds(now)) {
      StoredWellFormed(s, id);
      UpdateMeans(current, next, Seconds(now));
      var named := next.(channelId := id);
      ChargedParses(next);
      BeforeUpdateKeeps(s, id, named, now, fee, signerOk);
      var (s1, ok) := BeforeUpdate(s, id, current, named, now, fee, signerOk);
      if ok {
        var stored := next.(channelId := id, revision := NextRevision(current));
        StampsKeep(next, id, NextRevision(current));
        if stored.pending.Some? && id in s1.cols {
          ReservationHasRoom(s, s1, id, named, now, fee, signerOk);
        }
        StoreKeeps(s1, id, stored, now);
      }
    }
  }

  lemma StoredWellFormed(s: State, id: Id)
    requires ChargesInv(s)
    ensures Stored(s, id).Some? ==> WellFormed(Stored(s, id).value)
  {
    hide WellFormed, CollectionOk;
  }

  /** A reservation that stays or is new finds at most 199 charges. */
  lemma ReservationHasRoom(s: State, t: State, id: Id, next: Channel, now: u64, fee: Option<nat>, signerOk: bool)
    requires ChargesInv(s) && ChargesInv(t) && t.channels == s.channels && id in t.cols && next.pending.Some?
    requires CreatesPending(Stored(s, id), next) ==> |t.cols[id].charges| < MAX_OUTSTANDING
    ensures |t.cols[id].charges| < MAX_OUTSTANDING
  {
    hide WellFormed, Amount, Rising, PaidUpTo, SuffixOf, StoredAmount, TargetOk;
  }

  lemma DeleteKeeps(s: State, id: Id, expected: Option<nat>, now: u64, accept: bool)
    requires ChargesInv(s)
    ensures ChargesInv(DeleteChannel(s, id, expected, now, accept))
  {
    hide WellFormed, CollectionOk, Live, Provisional, MayDelete;
    var t := DeleteChannel(s, id, expected, now, accept);
    if t != s {
      forall i | i in t.cols ensures CollectionOk(t.cols[i], Stored(t, i), t.hist.committed[i]) {
        assert Stored(t, i) == Stored(s, i);
      }
    }
  }

  /** Every message, worker segment, failure and upgrade keeps the charge lists in order. */
  lemma StepKeepsCharges(s: State, e: Event)
    requires JournalInv(s) && ChargesInv(s) && Ready(s, e)
    ensures ChargesInv(Step(s, e))
  {
    hide JournalInv, ChargesInv, ColumnsKept, WorkerPath, SetEnabled, RequestClaim, UpdateChannel, DeleteChannel,
      MonitorOutcall, Fire, WorkerStart, MonitorDone, PrepareDone, ResumeDone, WorkerFinish, Upgrade, Earliest, Norm;
    if IsWorkerEvent(e) {
      WorkerEventIsPath(s, e);
      PathKeepsCharges(s, Step(s, e), e.id);
    } else if e.DoSetEnabled? {
      SetEnabledKeeps(s, e.receiver, e.value, e.now, e.accept);
    } else if e.DoUpdate? {
      UpdateKeeps(s, e.id, e.expected, e.next, e.now, e.feeNow, e.signerOk, e.accept);
    } else if e.DoDelete? {
      DeleteKeeps(s, e.id, e.expected, e.now, e.accept);
    } else {
      OtherColumns(s, e);
      KeptKeeps(s, Step(s, e));
    }
  }

  lemma OtherColumns(s: State, e: Event)
    requires Ready(s, e) && !IsWorkerEvent(e) && !e.DoSetEnabled? && !e.DoUpdate? && !e.DoDelete?
    ensures ColumnsKept(s, Step(s, e))
  {
    hide RequestClaim, Fire, WorkerFinish, Upgrade, Earliest, Norm, Deposit, ManualCharge, ManualRefund, ManualNonce,
      ManualRollback, ManualAcquire, Release, ColumnsKept;
    if e.DoRequestClaim? {
      RequestColumns(s, e.id, e.now);
    } else if e.DoFire? {
      FireColumns(s, e.chosen, e.now);
    } else if e.DoFinish? {
      FinishColumns(s, e.id, e.now);
    } else if e.DoUpgrade? {
      UpgradeColumns(s, e.now);
    } else {
      SelfColumns(s);
      LedgerColumns(s, e);
    }
  }

  lemma LedgerColumns(s: State, e: Event)
    requires Ready(s, e) && IsLedgerEvent(e)
    ensures ColumnsKept(s, Step(s, e))
  {
    hide Step, ColumnsKept;
    OutsideFrame(s, e);
    UnrelatedColumns(s, Step(s, e));
  }

  lemma UnrelatedColumns(s: State, t: State)
    requires t.cols == s.cols && t.channels == s.channels
    requires t.hist.committed == s.hist.committed && t.hist.birth == s.hist.birth
    ensures ColumnsKept(s, t)
  {
    hide SameCharges;
    CollectionSelf();
  }
}
