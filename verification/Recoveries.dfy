/** What follows over runs from what a segment leaves: a fee held by an interrupted attempt comes back, and a
    withdrawal shuts a channel to new reservations (rust/facilitator/src/auto_claim.rs:227-229, 513-518). */
module Recoveries {
  import opened Accounts
  import opened Wrappers
  import opened Batch
  import opened Collector
  import opened Journal
  import opened Frames
  import opened ChargeSteps
  import opened MessageSteps
  import opened JournalSteps
  import opened Ledger
  import opened Runs
  import opened ChargeRuns
  import opened AttemptStarts
  import opened Scripts
  import opened Admission
  import opened Segments
  import opened CollectionLaws

  // ---- a segment moves one worker ------------------------------------------------------

  /** Every worker and every ledger entry but this channel's is where it was. */
  ghost predicate OthersStay(s: State, t: State, i: Id) {
    && (forall id :: id != i ==> (id in t.workers <==> id in s.workers) && (id in s.workers ==> t.workers[id] == s.workers[id]))
    && (forall id :: id != i && id in s.hist.serial ==> id in t.hist.serial && t.hist.serial[id] == s.hist.serial[id])
  }

  lemma StayFrom(s: State, t: State, i: Id, w: Worker)
    requires t.workers == s.workers && OthersStay(s, t, i)
    ensures OthersStay(s, At(t, i, w), i)
  {
  }

  lemma StaySame(s: State, t: State, i: Id)
    requires t.workers == s.workers && t.hist.serial == s.hist.serial
    ensures OthersStay(s, t, i)
  {
  }

  lemma MonitorStays(s: State, e: Event)
    requires e.DoMonitor?
    ensures OthersStay(s, MonitorDone(s, e.id, e.now, e.answer, e.sameNetwork, e.prep), e.id)
  {
    hide Observed, Continue, OthersStay;
    StaySame(s, s, e.id);
    if e.answer.Err? {
      StayFrom(s, s, e.id, Returned(Some(e.answer.error)));
    } else if e.id !in s.cols {
      StayFrom(s, s, e.id, Returned(Some("collection removed")));
    } else {
      var s1 := Save(s, e.id, Observed(s.cols[e.id], e.answer.value, e.now));
      ContinueStays(s1, e.id, e.now, e.sameNetwork, e.prep);
      SameOthers(s, s1, Continue(s1, e.id, e.now, e.sameNetwork, e.prep), e.id);
    }
  }

  lemma SameOthers(s: State, s1: State, t: State, i: Id)
    requires s1.workers == s.workers && s1.hist == s.hist && OthersStay(s1, t, i)
    ensures OthersStay(s, t, i)
  {
  }

  lemma ContinueStays(s: State, id: Id, now: u64, sameNetwork: bool, prep: Result<Prep, string>)
    requires id in s.cols
    ensures OthersStay(s, Continue(s, id, now, sameNetwork, prep), id)
  {
    hide Leave, Amount, Reserve, Blocked, OthersStay, At;
    var c := s.cols[id];
    AtStays(s, id);
    if c.attempt.None? && id !in s.channels {
      LeaveStays(s, s, id, now, c.seed);
    } else if c.attempt.None? && Charged(s, id) <= c.claimed {
      LeaveStays(s, Save(s, id, c.(force := false, oldestLegacy := None)), id, now, s.channels[id]);
    } else if c.attempt.None? && prep.Ok? {
      ReserveStays(s, id, prep.value);
    }
  }

  lemma AtStays(s: State, id: Id)
    ensures forall w: Worker :: OthersStay(s, At(s, id, w), id)
  {
  }

  lemma LeaveStays(s: State, mid: State, id: Id, now: u64, channel: Channel)
    requires mid.workers == s.workers && mid.hist == s.hist
    ensures OthersStay(s, Leave(mid, id, now, channel), id)
  {
    hide Enabled, Live;
  }

  lemma ReserveStays(s: State, id: Id, p: Prep)
    requires id in s.cols && id in s.channels
    ensures OthersStay(s, Reserve(s, id, p), id)
  {
    hide NewAttempt, Release, Get, Begin, OthersStay;
    var a := NewAttempt(s, id, p);
    FeeOfPrep(s, id, p);
    ReleaseOnly(s, a.scope, a.key);
    AtStays(s, id);
    ReleasedStays(s, a.scope, a.key, id);
    if a.fee <= Get(s.credit, a.scope.seller) {
      BeginStays(s, id, a);
    }
  }

  lemma ReleasedStays(s: State, scope: Scope, key: Key, id: Id)
    ensures forall w: Worker :: OthersStay(s, At(Release(s, scope, key), id, w), id)
  {
    ReleaseOnly(s, scope, key);
    hide Release;
  }

  lemma BeginStays(s: State, id: Id, a: Attempt)
    requires id in s.cols && a.fee <= Get(s.credit, a.scope.seller)
    ensures forall w: Worker :: OthersStay(s, At(Begin(s, id, a), id, w), id)
  {
    hide Holding, Get;
  }

  lemma SegmentStays(s: State, e: Event)
    requires Reachable(s) && Ready(s, e) && IsWorkerEvent(e)
    ensures OthersStay(s, Step(s, e), e.id)
  {
    hide Reachable, WorkerStart, MonitorOutcall, MonitorDone, PrepareDone, ResumeDone, Reserved, SatAdd;
    match e
    case DoStart(id, now, config) => StartStays(s, id, now, config);
    case DoOutcall(id, cycles) => OutcallStays(s, id, cycles);
    case DoMonitor(_, _, _, _, _) => MonitorStays(s, e);
    case DoPrepare(id, outcome) => PrepareStays(s, id, outcome);
    case DoResume(id, receipt) => ResumeStays(s, id, receipt);
    case DoSent(id) =>
  }

  lemma StartStays(s: State, id: Id, now: u64, config: Option<string>)
    requires Reachable(s) && Ready(s, DoStart(id, now, config))
    ensures OthersStay(s, Step(s, DoStart(id, now, config)), id)
  {
    hide Reachable, OthersStay, GivenBack, Idle, Abandon;
    AtStays(s, id);
    if id in s.cols && s.cols[id].attempt.Some? && s.cols[id].attempt.value.raw.None? {
      InterruptedIsGivenBack(s, id, now, config);
      GivenBackStays(s, Step(s, DoStart(id, now, config)), id, s.cols[id].attempt.value, Returned(None));
    }
  }

  lemma GivenBackStays(s: State, t: State, id: Id, a: Attempt, w: Worker)
    requires GivenBack(s, t, id, a, w)
    ensures OthersStay(s, t, id)
  {
  }

  lemma OutcallStays(s: State, id: Id, cycles: nat)
    ensures OthersStay(s, MonitorOutcall(s, id, cycles), id)
  {
    hide SatAdd;
  }

  lemma PrepareStays(s: State, id: Id, outcome: Prepared)
    requires Reachable(s) && Ready(s, DoPrepare(id, outcome))
    ensures OthersStay(s, Step(s, DoPrepare(id, outcome)), id)
  {
    hide Reachable, Step, GivenBack;
    if outcome.Signed? {
      SignedIsJournaled(s, id, outcome.pendingNonce, outcome.raw, outcome.tx);
    } else {
      UnsentIsGivenBack(s, id, outcome);
      GivenBackStays(s, Step(s, DoPrepare(id, outcome)), id, s.workers[id].attempt,
                     Returned(if outcome.AlreadyMined? then None else Some(outcome.error)));
    }
  }

  lemma ResumeStays(s: State, id: Id, receipt: Receipt)
    requires Reachable(s) && Ready(s, DoResume(id, receipt))
    ensures OthersStay(s, Step(s, DoResume(id, receipt)), id)
  {
    hide Reachable, ResumeDone;
    match receipt
    case Unreadable(e) => UnreadableChangesNothing(s, id, e);
    case Pending => PendingSendsAgain(s, id);
    case Settled => SettledPays(s, id);
    case Failed => FailedHalts(s, id);
  }

  // ---- an interrupted attempt ----------------------------------------------------------

  /** The attempt has no bytes, and whoever works on the channel has not started yet. */
  ghost predicate Waiting(s: State, id: Id, a: Attempt) {
    && id in s.cols && s.cols[id].attempt == Some(a) && a.raw.None?
    && (id in s.workers ==> s.workers[id].Starting?)
  }

  /** The channel's worker and ledger entry after an event that is not its worker's. */
  lemma OthersWorker(s: State, e: Event, id: Id)
    requires Reachable(s) && Ready(s, e) && !Own(e, id)
    ensures var t := Step(s, e);
      && (id in t.workers ==> t.workers[id].Starting? || (id in s.workers && t.workers[id] == s.workers[id]))
      && (id in s.hist.serial ==> id in t.hist.serial && t.hist.serial[id] == s.hist.serial[id])
  {
    hide Reachable, SetEnabled, RequestClaim, UpdateChannel, DeleteChannel, Fire, WorkerFinish, Upgrade, Earliest, Norm,
      WorkerStart, MonitorOutcall, MonitorDone, PrepareDone, ResumeDone, Deposit, ManualCharge, ManualRefund, ManualNonce,
      ManualRollback, ManualAcquire, Release, Quiet;
    if IsWorkerEvent(e) {
      SegmentOthers(s, e, id);
    } else if IsLedgerEvent(e) {
      hide Step;
      OutsideFrame(s, e);
    } else if e.DoFire? {
      FireWorkers(s, e.chosen, e.now);
    } else {
      QuietWorkers(s, e);
    }
  }

  lemma SegmentOthers(s: State, e: Event, id: Id)
    requires Reachable(s) && Ready(s, e) && IsWorkerEvent(e) && e.id != id
    ensures var t := Step(s, e);
      && (id in t.workers ==> id in s.workers && t.workers[id] == s.workers[id])
      && (id in s.hist.serial ==> id in t.hist.serial && t.hist.serial[id] == s.hist.serial[id])
  {
    hide Reachable, Step, Ready;
    SegmentStays(s, e);
  }

  lemma FireWorkers(s: State, chosen: set<Id>, now: u64)
    ensures var t := Fire(s, chosen, now);
      && t.hist.serial == s.hist.serial
      && forall id :: id in t.workers ==> t.workers[id].Starting? || (id in s.workers && t.workers[id] == s.workers[id])
  {
    hide Arm;
    ArmQuiet(s.(timer := None, workers := s.workers + Spawned(chosen)), now);
  }

  lemma QuietWorkers(s: State, e: Event)
    requires Ready(s, e)
    requires e.DoSetEnabled? || e.DoRequestClaim? || e.DoUpdate? || e.DoDelete? || e.DoFinish? || e.DoUpgrade?
    ensures var t := Step(s, e);
      t.hist.serial == s.hist.serial && forall id :: id in t.workers ==> id in s.workers && t.workers[id] == s.workers[id]
  {
    hide SetEnabled, RequestClaim, UpdateChannel, DeleteChannel, WorkerFinish, Upgrade, Norm, Attempts;
    match e
    case DoSetEnabled(receiver, value, now, accept) => SetEnabledQuiet(s, receiver, value, now, accept);
    case DoRequestClaim(id, now) => RequestClaimQuiet(s, id, now);
    case DoUpdate(id, expected, next, now, feeNow, signerOk, accept) =>
      UpdateQuiet(s, id, expected, next, now, feeNow, signerOk, accept);
    case DoDelete(id, expected, now, accept) => DeleteQuiet(s, id, expected, now, accept);
    case DoFinish(id, now) => FinishQuiet(s, id, now);
    case DoUpgrade(now) => UpgradeQuiet(s, now);
  }

  lemma StillWaiting(s: State, e: Event, id: Id, a: Attempt)
    requires Reachable(s) && Ready(s, e) && Waiting(s, id, a) && !(e.DoStart? && e.id == id)
    ensures var t := Step(s, e);
      Waiting(t, id, a) && id in s.hist.serial && id in t.hist.serial && t.hist.serial[id] == s.hist.serial[id]
  {
    hide Reachable, Step;
    NotItsOwn(s, e, id, a);
    AttemptEndsIff(s, e, id);
    EntryOf(s, id);
    OthersWorker(s, e, id);
  }

  lemma NotItsOwn(s: State, e: Event, id: Id, a: Attempt)
    requires Ready(s, e) && Waiting(s, id, a) && !(e.DoStart? && e.id == id)
    ensures !Own(e, id) && !EndsAttempt(e, id, a) && !Signs(e, id)
  {
    hide Earliest;
  }

  lemma EntryOf(s: State, id: Id)
    requires Reachable(s) && id in s.cols && s.cols[id].attempt.Some?
    ensures id in s.hist.serial && s.hist.serial[id] < |s.hist.log|
    ensures s.hist.log[s.hist.serial[id]].key == s.cols[id].attempt.value.key
    ensures s.hist.log[s.hist.serial[id]].fee == s.cols[id].attempt.value.fee
  {
    hide Reachable, Inv, JournalInv;
    ReachableInv(s);
    InvJournal(s);
    OpenHolds(s, id);
  }

  /** The run up to the first start of the channel's worker. */
  lemma {:induction false} FirstStart(s: State, events: seq<Event>, id: Id, a: Attempt, k: nat) returns (j: nat)
    requires Reachable(s) && IsRun(s, events) && Waiting(s, id, a)
    requires k < |events| && events[k].DoStart? && events[k].id == id
    ensures j <= k && events[j].DoStart? && events[j].id == id && IsRun(s, events[..j])
    ensures var mid := Exec(s, events[..j]);
      && Reachable(mid) && Waiting(mid, id, a) && Ready(mid, events[j]) && IsRun(Step(mid, events[j]), events[j + 1..])
      && Exec(s, events) == Exec(Step(mid, events[j]), events[j + 1..])
      && id in s.hist.serial && id in mid.hist.serial && mid.hist.serial[id] == s.hist.serial[id]
    decreases k
  {
    hide Reachable, Ready, Step, Waiting;
    if events[0].DoStart? && events[0].id == id {
      j := 0;
      assert events[..0] == [];
      WaitingEntry(s, id, a);
    } else {
      StillWaiting(s, events[0], id, a);
      Then(s, events[0]);
      var i := FirstStart(Step(s, events[0]), events[1..], id, a, k - 1);
      j := i + 1;
      assert events[..j][0] == events[0] && events[..j][1..] == events[1..][..i] && events[1..][i + 1..] == events[j + 1..];
    }
  }

  lemma WaitingEntry(s: State, id: Id, a: Attempt)
    requires Reachable(s) && Waiting(s, id, a)
    ensures id in s.hist.serial
  {
    hide Reachable;
    EntryOf(s, id);
  }

  /** An upgrade in the middle of prepare costs nobody a fee. Whatever happens after it, as soon as the channel's
      worker has started once: at its first start fee, scope, record and attempt were given back at once, and the
      attempt's entry is refunded for good. */
  lemma InterruptedFeeReturns(s: State, now: u64, events: seq<Event>, id: Id, k: nat) returns (j: nat)
    requires Reachable(s) && id in s.cols && s.cols[id].attempt.Some? && s.cols[id].attempt.value.raw.None?
    requires IsRun(Step(s, DoUpgrade(now)), events)
    requires k < |events| && events[k].DoStart? && events[k].id == id
    ensures j <= k && events[j].DoStart? && events[j].id == id && IsRun(Step(s, DoUpgrade(now)), events[..j])
    ensures var a, mid := s.cols[id].attempt.value, Exec(Step(s, DoUpgrade(now)), events[..j]);
      Ready(mid, events[j]) && GivenBack(mid, Step(mid, events[j]), id, a, Returned(None))
    ensures var u := Exec(Step(s, DoUpgrade(now)), events);
      && id in s.hist.serial && s.hist.serial[id] < |u.hist.log|
      && u.hist.log[s.hist.serial[id]].fee == s.cols[id].attempt.value.fee
      && u.hist.log[s.hist.serial[id]].fate == Refunded
  {
    hide Reachable, Step, IsRun, Exec, Waiting, GivenBack, Inv;
    var a, t := s.cols[id].attempt.value, Step(s, DoUpgrade(now));
    Interrupted(s, now, id);
    j := FirstStart(t, events, id, a, k);
    var mid := Exec(t, events[..j]);
    StartRefunds(mid, events[j], id, a);
    Then(mid, events[j]);
    ReachableInv(Step(mid, events[j]));
    FeesResolveOnce(Step(mid, events[j]), events[j + 1..]);
    RefundStands(Step(mid, events[j]).hist.log, Exec(t, events).hist.log, mid.hist.serial[id]);
  }

  lemma Interrupted(s: State, now: u64, id: Id)
    requires Reachable(s) && id in s.cols && s.cols[id].attempt.Some? && s.cols[id].attempt.value.raw.None?
    ensures var t := Step(s, DoUpgrade(now));
      && Ready(s, DoUpgrade(now)) && Reachable(t) && Waiting(t, id, s.cols[id].attempt.value)
      && id in s.hist.serial && t.hist.serial == s.hist.serial
  {
    hide Reachable, Arm;
    Then(s, DoUpgrade(now));
    EntryOf(s, id);
    ArmRest(s.(workers := map[], timer := None), now);
    ArmQuiet(s.(workers := map[], timer := None), now);
  }

  lemma StartRefunds(s: State, e: Event, id: Id, a: Attempt)
    requires Reachable(s) && Ready(s, e) && Waiting(s, id, a) && e.DoStart? && e.id == id
    ensures GivenBack(s, Step(s, e), id, a, Returned(None))
    ensures var t := Step(s, e);
      && id in s.hist.serial && s.hist.serial[id] < |t.hist.log| && t.hist.log[s.hist.serial[id]].fate == Refunded
      && t.hist.log[s.hist.serial[id]].fee == a.fee
  {
    hide Reachable, Step;
    InterruptedIsGivenBack(s, id, e.now, e.config);
    EntryOf(s, id);
  }

  lemma RefundStands(log: seq<Entry>, log': seq<Entry>, n: nat)
    requires Extends(log, log') && n < |log| && log[n].fate == Refunded
    ensures n < |log'| && log'[n] == log[n]
  {
  }

  // ---- a withdrawal --------------------------------------------------------------------

  /** An answer of the monitor about this channel without a withdrawal. */
  predicate ReadsNone(e: Event, id: Id) {
    e.DoMonitor? && e.id == id && e.answer.Ok? && e.answer.value.withdrawal == 0
  }

  lemma {:induction false} StaysRequested(s: State, events: seq<Event>, id: Id)
    requires Reachable(s) && IsRun(s, events) && Registered(s, events, id) && s.cols[id].withdrawalAt > 0
    requires forall i :: 0 <= i < |events| ==> !ReadsNone(events[i], id)
    ensures var u := Exec(s, events); Reachable(u) && id in u.cols && u.cols[id].withdrawalAt > 0
    decreases |events|
  {
    hide Reachable, Ready, Step, ReadsNone;
    if events != [] {
      RegisteredNext(s, events, id);
      NextRequested(s, events[0], id) by { assert !ReadsNone(events[0], id); }
      Then(s, events[0]);
      assert forall i :: 0 <= i < |events[1..]| ==> events[1..][i] == events[i + 1];
      StaysRequested(Step(s, events[0]), events[1..], id);
    }
  }

  lemma NextRequested(s: State, e: Event, id: Id)
    requires Reachable(s) && Ready(s, e) && id in s.cols && id in Step(s, e).cols && s.cols[id].withdrawalAt > 0
    requires !ReadsNone(e, id)
    ensures Step(s, e).cols[id].withdrawalAt > 0
  {
    hide Reachable, Ready, Step, ErrorAfter;
    FieldsAfter(s, e, id);
  }

  /** A withdrawal shuts the channel. From an answer that shows one, as long as the collection stays registered
      and no answer shows none: no update that opens a reservation is stored, and none changes a channel. */
  lemma WithdrawalShuts(s: State, m: Event, events: seq<Event>, e: Event)
    requires Reachable(s) && Ready(s, m) && m.DoMonitor? && m.answer.Ok? && m.answer.value.withdrawal > 0
    requires m.id in s.cols && IsRun(Step(s, m), events) && Registered(Step(s, m), events, m.id)
    requires forall i :: 0 <= i < |events| ==> !ReadsNone(events[i], m.id)
    requires var u := Exec(Step(s, m), events);
      Ready(u, e) && e.DoUpdate? && e.id == m.id && CreatesPending(Stored(u, e.id), e.next)
    ensures var u := Exec(Step(s, m), events); Step(u, e).channels == u.channels
  {
    hide Reachable, Ready, Step, IsRun, Exec, CreatesPending, ReadsNone, Reads;
    RegisteredNow(Step(s, m), events, m.id);
    RequestedNow(s, m);
    Then(s, m);
    StaysRequested(Step(s, m), events, m.id);
    NotHealthy(Exec(Step(s, m), events), e);
    RefusedThen(Exec(Step(s, m), events), e);
  }

  lemma RegisteredNow(s: State, events: seq<Event>, id: Id)
    requires IsRun(s, events) && Registered(s, events, id)
    ensures id in s.cols
  {
  }

  lemma RequestedNow(s: State, m: Event)
    requires Ready(s, m) && m.DoMonitor? && m.answer.Ok? && m.answer.value.withdrawal > 0
    requires m.id in s.cols && m.id in Step(s, m).cols
    ensures Step(s, m).cols[m.id].withdrawalAt > 0
  {
    hide Ready, Step, PaidSoFar, Unpaid;
    AnswerIsRead(s, m);
  }

  lemma NotHealthy(s: State, e: Event)
    requires e.DoUpdate? && e.id in s.cols && s.cols[e.id].withdrawalAt > 0
    ensures !Healthy(s, s.cols[e.id], e.now, e.feeNow)
  {
    hide Enabled, Seconds, Get;
  }

  /** A worker that ends with an error, other than a busy settlement queue, leaves a collection that takes no
      new reservation. */
  lemma FailureShuts(s: State, id: Id, now: u64, e: Event)
    requires Ready(s, DoFinish(id, now)) && id in s.cols && s.workers[id].error.Some?
    requires s.workers[id].error.value != "settlement_queue_busy"
    requires var t := Step(s, DoFinish(id, now));
      Ready(t, e) && e.DoUpdate? && e.id == id && CreatesPending(Stored(t, id), e.next)
    ensures var t := Step(s, DoFinish(id, now)); Step(t, e).channels == t.channels
  {
    hide WorkerFinish, UpdateChannel, CreatesPending, Enabled, Seconds, Get;
    EpilogueWrites(s, id, now);
    RefusedThen(Step(s, DoFinish(id, now)), e);
  }
}
