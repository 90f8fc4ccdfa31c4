/** What runs promise about one collection's money: the charge list is exact, the backlog bounded, the
    claimed total monotone, and nothing owed is ever dropped. */
module ChargeRuns {
  import opened Accounts
  import opened Wrappers
  import opened Decimal
  import opened Batch
  import opened Collector
  import opened Charges
  import opened Journal
  import opened JournalSteps
  import opened ChargeSteps
  import opened MessageSteps
  import opened Scheduler
  import opened Sequences
  import opened Runs

  /** Backlog bound: never more than 200 outstanding charges, and at most 199 while a reservation is
      open, because each charge consumes a reservation admitted below the limit. */
  lemma BacklogBound(s: State, id: Id)
    requires Reachable(s) && id in s.cols
    ensures |s.cols[id].charges| <= 200
    ensures id in s.channels && s.channels[id].pending.Some? ==> |s.cols[id].charges| <= 199
  {
    hide Inv, Reachable, Amount, Rising, PaidUpTo, SuffixOf, TargetOk, ChannelsOk;
    ReachableInv(s);
    InvJournal(s);
    assert CollectionOk(s.cols[id], Stored(s, id), s.hist.committed[id]);
  }

  /** `amount` never panics: every charged total the collector reads, of a stored channel, of a seed, of an
      attempt's copy, or of an update that passed the channel rules, parses as a 128-bit number. */
  lemma AmountsParse(s: State, id: Id)
    requires Reachable(s)
    ensures id in s.channels ==> ParseU128(s.channels[id].charged).Some?
    ensures id in s.cols ==> ParseU128(s.cols[id].seed.charged).Some?
    ensures id in s.cols && s.cols[id].attempt.Some? ==> ParseU128(s.cols[id].attempt.value.channel.charged).Some?
    ensures forall next: Channel, now: nat :: Accepted(Stored(s, id), next, now) ==> ParseU128(next.charged).Some?
  {
    hide Inv, Reachable, Rising, PaidUpTo, SuffixOf, RoomOk, Accepted, ParseU128, Amount;
    ReachableInv(s);
    InvJournal(s);
    assert id in s.channels ==> WellFormed(s.channels[id]);
    assert id in s.cols ==> CollectionOk(s.cols[id], Stored(s, id), s.hist.committed[id]);
    forall next: Channel, now: nat | Accepted(Stored(s, id), next, now) ensures ParseU128(next.charged).Some? {
      UpdateMeans(Stored(s, id), next, now);
    }
  }

  /** Every claim is covered by the payer's voucher: in every reachable state an attempt's target is within
      the signed limit of the channel it was journaled with, within what that channel has charged since,
      and its claim passes the voucher's amount check. */
  lemma ClaimIsCovered(s: State, id: Id)
    requires Reachable(s) && id in s.cols && s.cols[id].attempt.Some?
    ensures var a := s.cols[id].attempt.value;
      && id in s.channels && a.target <= Charged(s, id)
      && a.target <= Amount(a.channel.signedMax)
      && ClaimWithinVoucher(a.channel.signedMax, Print(a.target))
  {
    hide Inv, Reachable, Rising, PaidUpTo, SuffixOf, RoomOk, ChannelsOk;
    ReachableInv(s);
    InvJournal(s);
    assert CollectionOk(s.cols[id], Stored(s, id), s.hist.committed[id]);
    PrintedParses(s.cols[id].attempt.value.channel.charged);
  }

  /** Printing a stored amount gives a text that parses to it. */
  lemma PrintedParses(value: string)
    requires ParseU128(value).Some?
    ensures ParseU128(Print(Amount(value))) == Some(Amount(value))
  {
    ValuePrint(Amount(value));
    PrintCanonical(Amount(value));
    PrintedIsShort(value);
  }

  lemma PrintedIsShort(value: string)
    requires IsDigits(value) && value != []
    ensures |Print(Value(value))| <= |value|
  {
    hide Value, Print, Pow10;
    ValueBound(value);
    ValuePrint(Value(value));
    PrintCanonical(Value(value));
    var s := Print(Value(value));
    if |s| > |value| {
      LeadingDigitPositive(s);
      Pow10Grows(|value|, |s| - 1);
    }
  }

  /** The filter says what it keeps, and keeps it in order. */
  lemma {:induction false} UnpaidMeans(charges: seq<Charge>, claimed: nat, ch: Charge)
    ensures ch in Unpaid(charges, claimed) <==> ch in charges && ch.amount > claimed
    decreases |charges|
  {
    if charges != [] {
      var front := charges[..|charges| - 1];
      UnpaidMeans(front, claimed, ch);
      assert charges == front + [charges[|charges| - 1]];
    }
  }

  /** In every reachable state the list is, in commit order with strictly rising amounts, what was
      committed since registration minus a paid prefix; so above the claimed total it misses nothing. */
  lemma ChargeListExact(s: State, id: Id)
    requires Reachable(s) && id in s.cols
    ensures id in s.hist.committed
    ensures var c, all := s.cols[id], s.hist.committed[id];
      && |c.charges| <= |all| && c.charges == all[|all| - |c.charges|..]
      && Rising(all)
      && Unpaid(c.charges, c.claimed) == Unpaid(all, c.claimed)
  {
    hide Inv, Reachable, Amount, Rising, PaidUpTo, RoomOk, TargetOk, ChannelsOk, Unpaid;
    ReachableInv(s);
    InvJournal(s);
    assert CollectionOk(s.cols[id], Stored(s, id), s.hist.committed[id]);
    UnpaidOfSuffix(s.cols[id].charges, s.hist.committed[id], s.cols[id].claimed, s.cols[id].claimed);
  }

  // ---- reconciliation ------------------------------------------------------------------

  /** The event's answer about the claimed total: the monitor's reading, or the settled target. */
  ghost predicate Reconciles(s: State, e: Event)
    requires Ready(s, e)
  {
    (e.DoMonitor? && e.answer.Ok?) || (e.DoResume? && e.receipt.Settled?)
  }

  ghost function Reading(s: State, e: Event): nat
    requires Ready(s, e) && Reconciles(s, e)
  {
    if e.DoMonitor? then e.answer.value.claimed else s.workers[e.id].attempt.target
  }

  /** Reconciled against `total`: only what is above it is left, and it is the claimed total. */
  ghost predicate Exact(c: Collection, committed: seq<Charge>, total: nat) {
    c.claimed == total && c.charges == Unpaid(committed, total)
  }

  lemma ReconcileExact(c: Collection, stored: Option<Channel>, committed: seq<Charge>, claimed: nat)
    requires CollectionOk(c, stored, committed)
    ensures Exact(Reconcile(c, claimed), committed, Larger(c.claimed, claimed))
  {
    hide Amount, Rising, PaidUpTo, RoomOk, TargetOk, Unpaid;
    UnpaidOfSuffix(c.charges, committed, c.claimed, Larger(c.claimed, claimed));
  }

  lemma ObservedExact(c: Collection, stored: Option<Channel>, committed: seq<Charge>, answer: Answer, now: u64)
    requires CollectionOk(c, stored, committed)
    ensures Exact(Observed(c, answer, now), committed, Larger(c.claimed, answer.claimed))
  {
    hide CollectionOk, Reconcile, Unpaid, Amount;
    var seen := c.(monitoredAt := Some(Seconds(now)), withdrawalAt := answer.withdrawal, balance := answer.balance,
                   error := if c.halted then c.error else None);
    SeenOk(c, seen, stored, committed);
    ReconcileExact(seen, stored, committed, answer.claimed);
  }

  lemma SeenOk(c: Collection, d: Collection, stored: Option<Channel>, committed: seq<Charge>)
    requires CollectionOk(c, stored, committed) && SameCharges(c, d)
    ensures CollectionOk(d, stored, committed)
  {
    hide Amount, Rising, PaidUpTo, RoomOk, TargetOk, SuffixOf;
  }

  /** What happens after the reconciliation leaves list and total alone. */
  ghost predicate ListKept(s: State, t: State, id: Id) {
    && t.hist.committed == s.hist.committed
    && (id in t.cols ==> id in s.cols && t.cols[id].charges == s.cols[id].charges && t.cols[id].claimed == s.cols[id].claimed)
  }

  lemma ContinueKeepsList(s: State, id: Id, now: u64, sameNetwork: bool, prep: Result<Prep, string>)
    requires id in s.cols
    ensures ListKept(s, Continue(s, id, now, sameNetwork, prep), id)
  {
    hide Reserve, Leave, Amount, Blocked, ListKept;
    var c := s.cols[id];
    SelfKeepsList(s, id, c.(force := false, oldestLegacy := None));
    LeaveKeepsList(s, s, id, now, c.seed);
    AtKeepsList(s, s, id);
    if id in s.channels {
      LeaveKeepsList(s, Save(s, id, c.(force := false, oldestLegacy := None)), id, now, s.channels[id]);
      match Blocked(c, Amount(s.channels[id].charged), prep)
      case Some(_) =>
      case None => ReserveKeepsList(s, id, prep.value);
    }
  }

  lemma SelfKeepsList(s: State, id: Id, c: Collection)
    requires id in s.cols && c.charges == s.cols[id].charges && c.claimed == s.cols[id].claimed
    ensures ListKept(s, s, id) && ListKept(s, Save(s, id, c), id)
  {
  }

  lemma AtKeepsList(s: State, t: State, id: Id)
    requires t.hist.committed == s.hist.committed && t.cols == s.cols
    ensures forall w: Worker :: ListKept(s, At(t, id, w), id)
  {
  }

  lemma LeaveKeepsList(s: State, t: State, id: Id, now: u64, channel: Channel)
    requires ListKept(s, t, id)
    ensures ListKept(s, Leave(t, id, now, channel), id)
  {
    hide Enabled, Live;
  }

  lemma ReserveKeepsList(s: State, id: Id, p: Prep)
    requires id in s.cols && id in s.channels
    ensures ListKept(s, Reserve(s, id, p), id)
  {
    hide NewAttempt, Begin, ListKept;
    var a := NewAttempt(s, id, p);
    AtKeepsList(s, s, id);
    AtKeepsList(s, Release(s, a.scope, a.key), id);
    if a.fee <= Get(s.credit, a.scope.seller) {
      BeginKeepsList(s, id, a);
    }
    assert a.fee == p.fee by { FeeOfPrep(s, id, p); }
  }

  lemma BeginKeepsList(s: State, id: Id, a: Attempt)
    requires id in s.cols && a.fee <= Get(s.credit, a.scope.seller)
    ensures forall w: Worker :: ListKept(s, At(Begin(s, id, a), id, w), id)
  {
    hide Enabled, Amount;
  }

  lemma MonitorReconciles(s: State, e: Event)
    requires Inv(s) && Ready(s, e) && e.DoMonitor? && e.answer.Ok? && e.id in s.cols
    ensures var t := Step(s, e);
      t.hist.committed == s.hist.committed && e.id in s.hist.committed
      && (e.id in t.cols ==> Exact(t.cols[e.id], s.hist.committed[e.id], Larger(s.cols[e.id].claimed, e.answer.value.claimed)))
  {
    hide JournalInv, SchedInv, KeysInv, LedgerInv, ChannelsOk, CollectionOk, Observed, Continue, Unpaid, At;
    assert CollectionOk(s.cols[e.id], Stored(s, e.id), s.hist.committed[e.id]);
    ObservedExact(s.cols[e.id], Stored(s, e.id), s.hist.committed[e.id], e.answer.value, e.now);
    var s1 := Save(s, e.id, Observed(s.cols[e.id], e.answer.value, e.now));
    ContinueKeepsList(s1, e.id, e.now, e.sameNetwork, e.prep);
  }

  lemma SettleReconciles(s: State, e: Event)
    requires Inv(s) && Ready(s, e) && e.DoResume? && e.receipt.Settled?
    ensures var t := Step(s, e);
      && e.id in s.cols && e.id in s.hist.committed && t.hist.committed == s.hist.committed
      && e.id in t.cols && t.cols[e.id].attempt.None?
      && Exact(t.cols[e.id], s.hist.committed[e.id], Larger(s.cols[e.id].claimed, s.workers[e.id].attempt.target))
  {
    hide JournalInv, SchedInv, KeysInv, LedgerInv, ChannelsOk, CollectionOk, Reconcile, Unpaid;
    WorkerHoldsAttempt(s, e.id);
    OwnedJournals(s, e.id);
    hide Journals;
    assert CollectionOk(s.cols[e.id], Stored(s, e.id), s.hist.committed[e.id]);
    ReconcileExact(s.cols[e.id], Stored(s, e.id), s.hist.committed[e.id], s.workers[e.id].attempt.target);
  }

  /** Reconciliation keeps exactly what is unpaid: after every monitor answer and every settled claim,
      the total is the larger of the old one and the reading, and the list is exactly the charges
      committed since registration above it. */
  lemma ReconciliationExact(s: State, e: Event)
    requires Reachable(s) && Ready(s, e) && Reconciles(s, e) && e.id in s.cols && e.id in Step(s, e).cols
    ensures var t := Step(s, e);
      && e.id in t.hist.committed
      && Exact(t.cols[e.id], t.hist.committed[e.id], Larger(s.cols[e.id].claimed, Reading(s, e)))
  {
    hide Inv, Reachable, Step, Exact, IsRun;
    ReachableInv(s);
    if e.DoMonitor? {
      MonitorReconciles(s, e);
    } else {
      SettleReconciles(s, e);
    }
  }

  /** Charges added while a claim is in flight survive its settlement: a committed charge is on the list
      afterwards if and only if it is above both the claimed total and the settled target. */
  lemma InFlightChargesSurvive(s: State, e: Event, ch: Charge)
    requires Reachable(s) && Ready(s, e) && e.DoResume? && e.receipt.Settled?
    ensures e.id in s.cols && e.id in Step(s, e).cols && e.id in s.hist.committed
    ensures ch in Step(s, e).cols[e.id].charges <==>
      ch in s.hist.committed[e.id] && ch.amount > s.cols[e.id].claimed && ch.amount > s.workers[e.id].attempt.target
  {
    hide Inv, Reachable, Step, IsRun, Unpaid;
    ReachableInv(s);
    SettleReconciles(s, e);
    UnpaidMeans(s.hist.committed[e.id], Larger(s.cols[e.id].claimed, s.workers[e.id].attempt.target), ch);
  }

  // ---- drain safety --------------------------------------------------------------------

  /** Worker segments other than the one after the monitor await keep every collection. */
  lemma WorkerKeeps(s: State, e: Event, id: Id)
    requires Inv(s) && Ready(s, e) && IsWorkerEvent(e) && !e.DoMonitor? && id in s.cols
    ensures id in Step(s, e).cols
  {
    hide JournalInv, SchedInv, KeysInv, LedgerInv, ChargesInv, WorkerStart, MonitorOutcall, PrepareDone, ResumeDone;
    if e.DoPrepare? {
      WorkerHoldsAttempt(s, e.id);
      PrepareColumns(s, e.id, s.workers[e.id].attempt, e.outcome);
    } else if e.DoStart? {
      StartColumns(s, e.id, e.now, e.config);
    } else if e.DoResume? {
      ResumeColumns(s, e.id, s.workers[e.id].attempt, e.receipt);
    } else if e.DoOutcall? {
      OutcallColumns(s, e.id, e.cycles);
    }
  }

  lemma StartColumns(s: State, id: Id, now: u64, config: Option<string>)
    ensures WorkerStart(s, id, now, config).cols.Keys == s.cols.Keys
  {
    hide Abandon, Idle;
    if id in s.cols && s.cols[id].attempt.Some? {
      AbandonKeys(s, id, s.cols[id].attempt.value);
    }
  }

  lemma OutcallColumns(s: State, id: Id, cycles: nat)
    ensures MonitorOutcall(s, id, cycles).cols.Keys == s.cols.Keys
  {
    hide SatAdd;
  }

  lemma ResumeColumns(s: State, id: Id, a: Attempt, receipt: Receipt)
    ensures ResumeDone(s, id, a, receipt).cols.Keys == s.cols.Keys
  {
    hide Settle, Fail, Sent;
    SentColumns(s, id, a);
    if id in s.cols && a.tx.Some? {
      ResolveColumns(s, id, a, a.tx.value);
    }
  }

  lemma SentColumns(s: State, id: Id, a: Attempt)
    ensures a.raw.Some? && a.nonce.Some? ==> Sent(s, id, a.raw.value, a.nonce.value).cols == s.cols
  {
  }

  lemma ResolveColumns(s: State, id: Id, a: Attempt, tx: string)
    requires id in s.cols
    ensures Settle(s, id, a, tx).cols.Keys == s.cols.Keys && Fail(s, id, a, tx).cols.Keys == s.cols.Keys
  {
    hide Reconcile;
  }

  lemma PrepareColumns(s: State, id: Id, a: Attempt, outcome: Prepared)
    requires id in s.cols
    ensures PrepareDone(s, id, a, outcome).cols.Keys == s.cols.Keys
  {
    hide Abandon, AfterReserve, JournalAndSend, Reserved;
    AbandonKeys(s, id, a);
    match outcome
    case SignFailed(pending, _) =>
      var nonce := Reserved(s.nonces, a.from, pending);
      AbandonReservedKeys(s, id, a, nonce);
    case Signed(pending, raw, tx) => JournalKeys(s, id, a, Reserved(s.nonces, a.from, pending), raw, tx);
    case _ =>
  }

  lemma AbandonKeys(s: State, id: Id, a: Attempt)
    ensures Abandon(s, id, a).cols.Keys == s.cols.Keys
  {
    hide Abandon, SameRest;
    if id in s.cols {
      AbandonRest(s, id, a);
    } else {
      assert Abandon(s, id, a) == s by { AbandonNothing(s, id, a); }
    }
  }

  lemma AbandonNothing(s: State, id: Id, a: Attempt)
    requires id !in s.cols
    ensures Abandon(s, id, a) == s
  {
  }

  lemma AbandonReservedKeys(s: State, id: Id, a: Attempt, nonce: nat)
    ensures Abandon(AfterReserve(s, a.from, nonce), id, a.(nonce := Some(nonce))).cols.Keys == s.cols.Keys
  {
    hide Abandon, Advance;
    AbandonKeys(AfterReserve(s, a.from, nonce), id, a.(nonce := Some(nonce)));
  }

  lemma JournalKeys(s: State, id: Id, a: Attempt, nonce: nat, raw: string, tx: string)
    ensures JournalAndSend(s, id, a, nonce, raw, tx).cols.Keys == s.cols.Keys
  {
    hide Advance, SetFate, Sent;
    FateColumns();
  }

  lemma FateColumns()
    ensures forall s: State, id: Id, fate: Fate :: SetFate(s, id, fate).cols == s.cols
    ensures forall s: State, id: Id, raw: string, nonce: nat :: Sent(s, id, raw, nonce).cols == s.cols
  {
  }

  /** Nothing but a deletion or the worker's own exit takes a collection out of the map. */
  lemma OthersKeep(s: State, e: Event, id: Id)
    requires Inv(s) && Ready(s, e) && !e.DoMonitor? && !e.DoDelete? && id in s.cols
    ensures id in Step(s, e).cols
  {
    hide Inv, ColumnsKept, SetEnabled, UpdateChannel, RequestClaim, Fire, WorkerFinish, Upgrade, Earliest, Norm,
      WorkerStart, MonitorOutcall, PrepareDone, ResumeDone, Deposit, ManualCharge, ManualRefund, ManualNonce,
      ManualRollback, ManualAcquire, Release;
    if IsWorkerEvent(e) {
      WorkerKeeps(s, e, id);
    } else if e.DoSetEnabled? {
      SetEnabledColumns(s, e.receiver, e.value, e.now, e.accept);
    } else if e.DoUpdate? {
      UpdateColumns(s, e.id, e.expected, e.next, e.now, e.feeNow, e.signerOk, e.accept);
    } else {
      OtherColumns(s, e);
      ColumnsKeys(s, Step(s, e));
    }
  }

  lemma ColumnsKeys(s: State, t: State)
    requires ColumnsKept(s, t)
    ensures t.cols.Keys == s.cols.Keys
  {
  }

  lemma SetEnabledColumns(s: State, receiver: Addr, value: bool, now: u64, accept: bool)
    ensures s.cols.Keys <= SetEnabled(s, receiver, value, now, accept).cols.Keys
  {
    hide Arm, Targets, Touched;
    ArmRest(Switch(s, receiver, value, now), now);
  }

  lemma UpdateColumns(s: State, id: Id, expected: Option<nat>, next: Channel, now: u64, fee: Option<nat>, signerOk: bool,
                      accept: bool)
    ensures s.cols.Keys <= UpdateChannel(s, id, expected, next, now, fee, signerOk, accept).cols.Keys
  {
    hide BeforeUpdate, AfterUpdate, Accepted, NextRevision;
    var current := Stored(s, id);
    BeforeUpdateKeys(s, id, current, next.(channelId := id), now, fee, signerOk);
    var s1 := BeforeUpdate(s, id, current, next.(channelId := id), now, fee, signerOk).0;
    var stored := next.(channelId := id, revision := NextRevision(current));
    AfterUpdateKeys(s1.(channels := s1.channels[id := stored]), id, current, stored, now);
  }

  lemma BeforeUpdateKeys(s: State, id: Id, current: Option<Channel>, next: Channel, now: u64, fee: Option<nat>,
                         signerOk: bool)
    ensures s.cols.Keys <= BeforeUpdate(s, id, current, next, now, fee, signerOk).0.cols.Keys
  {
    hide Arm, StopReason, Enabled, CreatesPending, NewCollection, Refresh, ColumnsKept;
    if id in s.cols {
      RefreshColumns(s, id, now);
    } else {
      var s1 := Register(s, id, NewCollection(next, now));
      ArmRest(s1, now);
      RegisterColumns(s, id, NewCollection(next, now));
      RefreshColumns(Arm(s1, now), id, now);
    }
  }

  lemma AfterUpdateKeys(s: State, id: Id, current: Option<Channel>, next: Channel, now: u64)
    ensures AfterUpdate(s, id, current, next, now).cols.Keys == s.cols.Keys
  {
    hide Arm, Noted, Rise;
    if id in s.cols {
      ArmRest(Note(s, id, current, next, now), now);
    }
  }

  lemma MonitorDrains(s: State, e: Event)
    requires Ready(s, e) && e.DoMonitor? && e.id in s.cols && e.id !in Step(s, e).cols
    ensures s.cols[e.id].attempt.None? && e.answer.Ok?
    ensures Charged(s, e.id) <= Larger(s.cols[e.id].claimed, e.answer.value.claimed)
  {
    hide Observed, Continue, Amount;
    if e.answer.Ok? {
      ObservedTotals(s.cols[e.id], e.answer.value, e.now);
      ContinueDrains(Save(s, e.id, Observed(s.cols[e.id], e.answer.value, e.now)), e.id, e.now, e.sameNetwork, e.prep);
    }
  }

  lemma ObservedTotals(c: Collection, answer: Answer, now: u64)
    ensures var d := Observed(c, answer, now); d.attempt == c.attempt && d.claimed == Larger(c.claimed, answer.claimed)
  {
    hide Unpaid, Amount;
  }

  lemma ContinueDrains(s: State, id: Id, now: u64, sameNetwork: bool, prep: Result<Prep, string>)
    requires id in s.cols && id !in Continue(s, id, now, sameNetwork, prep).cols
    ensures s.cols[id].attempt.None? && Charged(s, id) <= s.cols[id].claimed
  {
    hide Leave, Amount, Reserve, Blocked;
    if id in s.channels && Blocked(s.cols[id], Amount(s.channels[id].charged), prep).None? {
      ReserveInCols(s, id, prep.value);
    }
  }

  lemma ReserveInCols(s: State, id: Id, p: Prep)
    requires id in s.cols && id in s.channels
    ensures id in Reserve(s, id, p).cols
  {
    hide NewAttempt, Get, Holding, Seller;
    FeeOfPrep(s, id, p);
  }

  lemma MonitorTouchesOne(s: State, e: Event, id: Id)
    requires Inv(s) && Ready(s, e) && e.DoMonitor? && id in s.cols && id != e.id
    ensures id in Step(s, e).cols
  {
    hide JournalInv, ChargesInv, SchedInv, KeysInv, LedgerInv, MonitorDone, Evolves;
    WorkerEventIsPath(s, e);
    var mid :| Between(s, mid, Step(s, e), e.id);
  }

  /** Drain safety: a collection leaves the map only by its channel's deletion or by its own worker, and
      only with no attempt and nothing charged above its claimed total, the worker's last reading
      included. */
  lemma DrainSafety(s: State, e: Event, id: Id)
    requires Reachable(s) && Ready(s, e) && id in s.cols && id !in Step(s, e).cols
    ensures (e.DoDelete? || (e.DoMonitor? && e.answer.Ok?)) && e.id == id
    ensures s.cols[id].attempt.None?
    ensures Charged(s, id) <= (if e.DoDelete? then s.cols[id].claimed
                               else Larger(s.cols[id].claimed, e.answer.value.claimed))
  {
    hide Inv, Reachable, Step, Ready;
    ReachableInv(s);
    if e.DoMonitor? {
      if id != e.id {
        MonitorTouchesOne(s, e, id);
      } else {
        MonitorDrains(s, e);
      }
    } else if e.DoDelete? {
      DeleteDrains(s, e, id);
    } else {
      OthersKeep(s, e, id);
    }
  }

  lemma DeleteDrains(s: State, e: Event, id: Id)
    requires e.DoDelete? && Ready(s, e) && id in s.cols && id !in Step(s, e).cols
    ensures e.id == id && s.cols[id].attempt.None? && Charged(s, id) <= s.cols[id].claimed
  {
    hide Live, Provisional, Amount;
  }

  // ---- progress ------------------------------------------------------------------------

  /** While a registration stands: the claimed total does not fall, and no committed charge is lost or
      reordered. */
  ghost predicate Progress(s: State, t: State, id: Id) {
    && id in s.cols && id in t.cols && id in s.hist.committed && id in t.hist.committed
    && s.cols[id].claimed <= t.cols[id].claimed
    && s.hist.committed[id] <= t.hist.committed[id]
  }

  lemma ProgressTransitive(s: State, mid: State, t: State, id: Id)
    requires Progress(s, mid, id) && Progress(mid, t, id)
    ensures Progress(s, t, id)
  {
  }

  lemma ColumnsProgress(s: State, t: State, id: Id)
    requires ColumnsKept(s, t) && id in s.cols && id in s.hist.committed
    ensures Progress(s, t, id)
  {
    assert SameCharges(s.cols[id], t.cols[id]);
  }

  lemma PathProgress(s: State, t: State, i: Id, id: Id)
    requires WorkerPath(s, t, i) && id in s.cols && id in t.cols && id in s.hist.committed
    ensures Progress(s, t, id)
  {
    hide Unpaid, TargetOk, SameRest;
    var mid :| Between(s, mid, t, i);
    assert t.hist.committed == s.hist.committed by { PathCommitted(s, mid, t, i); }
  }

  lemma PathCommitted(s: State, mid: State, t: State, i: Id)
    requires Between(s, mid, t, i)
    ensures t.hist.committed == s.hist.committed
  {
    hide Evolves;
  }

  lemma SetEnabledProgress(s: State, receiver: Addr, value: bool, now: u64, accept: bool, id: Id)
    requires id in s.cols && id in s.hist.committed
    ensures Progress(s, SetEnabled(s, receiver, value, now, accept), id)
  {
    hide Arm, Targets, NewCollection;
    ArmRest(Switch(s, receiver, value, now), now);
  }

  lemma RegisterProgress(s: State, i: Id, c: Collection, id: Id)
    requires i !in s.cols && id in s.cols && id in s.hist.committed
    ensures Progress(s, Register(s, i, c), id)
  {
  }

  lemma BeforeUpdateProgress(s: State, i: Id, current: Option<Channel>, next: Channel, now: u64, fee: Option<nat>,
                             signerOk: bool, id: Id)
    requires id in s.cols && id in s.hist.committed
    ensures Progress(s, BeforeUpdate(s, i, current, next, now, fee, signerOk).0, id)
  {
    hide Arm, StopReason, Enabled, CreatesPending, NewCollection, Refresh, Progress, ColumnsKept, Register;
    SelfColumns(s);
    ColumnsProgress(s, s, id);
    if i in s.cols {
      RefreshColumns(s, i, now);
      ColumnsProgress(s, Refresh(s, i, now), id);
    } else {
      var s1 := Register(s, i, NewCollection(next, now));
      RegisterProgress(s, i, NewCollection(next, now), id);
      RegisterColumns(s, i, NewCollection(next, now));
      RegisteredRefreshes(s1, i, now, id);
      ArmRest(s1, now);
      ProgressTransitive(s, s1, Refresh(Arm(s1, now), i, now), id);
    }
  }

  lemma RegisteredRefreshes(s: State, i: Id, now: u64, id: Id)
    requires i in s.cols && id in s.cols && id in s.hist.committed
    ensures i in Arm(s, now).cols && Progress(s, Refresh(Arm(s, now), i, now), id)
  {
    hide Arm, Refresh, Progress, ColumnsKept;
    ArmRest(s, now);
    ArmColumns(s, now);
    ColumnsProgress(s, Arm(s, now), id);
    RefreshColumns(Arm(s, now), i, now);
    ColumnsProgress(Arm(s, now), Refresh(Arm(s, now), i, now), id);
    ProgressTransitive(s, Arm(s, now), Refresh(Arm(s, now), i, now), id);
  }

  lemma NoteProgress(s: State, i: Id, current: Option<Channel>, next: Channel, now: u64, id: Id)
    requires id in s.cols && id in s.hist.committed
    ensures Progress(s, AfterUpdate(s, i, current, next, now), id)
  {
    hide Arm, Amount, Enabled, Live, Rise;
    if i in s.cols {
      ArmRest(Note(s, i, current, next, now), now);
    }
  }

  lemma UpdateProgress(s: State, e: Event, id: Id)
    requires e.DoUpdate? && id in s.cols && id in s.hist.committed
    ensures Progress(s, UpdateChannel(s, e.id, e.expected, e.next, e.now, e.feeNow, e.signerOk, e.accept), id)
  {
    hide BeforeUpdate, AfterUpdate, Accepted, NextRevision;
    var current := Stored(s, e.id);
    BeforeUpdateProgress(s, e.id, current, e.next.(channelId := e.id), e.now, e.feeNow, e.signerOk, id);
    var s1 := BeforeUpdate(s, e.id, current, e.next.(channelId := e.id), e.now, e.feeNow, e.signerOk).0;
    var stored := e.next.(channelId := e.id, revision := NextRevision(current));
    NoteProgress(s1.(channels := s1.channels[e.id := stored]), e.id, current, stored, e.now, id);
  }

  lemma StepProgress(s: State, e: Event, id: Id)
    requires Inv(s) && Ready(s, e) && id in s.cols && id in Step(s, e).cols
    ensures Progress(s, Step(s, e), id)
  {
    hide JournalInv, SchedInv, KeysInv, LedgerInv, ColumnsKept, WorkerPath, SetEnabled, UpdateChannel, RequestClaim, Fire,
      WorkerFinish, Upgrade, Earliest, Norm, WorkerStart, MonitorOutcall, MonitorDone, PrepareDone, ResumeDone, Deposit,
      ManualCharge, ManualRefund, ManualNonce, ManualRollback, ManualAcquire, Release, MayDelete, Live, Provisional,
      CollectionOk, ChannelsOk, Seconds;
    assert id in s.hist.committed;
    if IsWorkerEvent(e) {
      WorkerEventIsPath(s, e);
      PathProgress(s, Step(s, e), e.id, id);
    } else if e.DoSetEnabled? {
      SetEnabledProgress(s, e.receiver, e.value, e.now, e.accept, id);
    } else if e.DoUpdate? {
      UpdateProgress(s, e, id);
    } else if !e.DoDelete? {
      OtherColumns(s, e);
      ColumnsProgress(s, Step(s, e), id);
    }
  }

  /** The collection stays registered at every point of the run. */
  ghost predicate Registered(s: State, events: seq<Event>, id: Id)
    requires IsRun(s, events)
    decreases |events|
  {
    id in s.cols && (events != [] ==> Registered(Step(s, events[0]), events[1..], id))
  }

  /** Along any run, however long, of one registration. */
  lemma {:induction false} RunsMakeProgress(s: State, events: seq<Event>, id: Id)
    requires Inv(s) && IsRun(s, events) && Registered(s, events, id)
    ensures Progress(s, Exec(s, events), id)
    decreases |events|
  {
    hide Inv, Ready, Step, Progress;
    if events == [] {
      SelfProgress(s, id);
    } else {
      StepKeepsInv(s, events[0]);
      RunsMakeProgress(Step(s, events[0]), events[1..], id);
      StepProgress(s, events[0], id);
      ProgressTransitive(s, Step(s, events[0]), Exec(s, events), id);
    }
  }

  lemma SelfProgress(s: State, id: Id)
    requires Inv(s) && id in s.cols
    ensures Progress(s, s, id)
  {
    hide JournalInv, SchedInv, KeysInv, LedgerInv, CollectionOk, ChannelsOk;
  }
}
