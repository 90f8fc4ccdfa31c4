/** Which events change which field of a registered collection, for every event of the system: when an
    attempt ends, when the claimed total rises, who writes the monitor's answer and the error. */
module CollectionLaws {
  import opened Accounts
  import opened Wrappers
  import opened Batch
  import opened Collector
  import opened Journal
  import opened Frames
  import opened ChargeSteps
  import opened MessageSteps
  import opened Runs
  import opened ChargeRuns
  import opened Scripts
  import opened Admission
  import opened Segments

  // ---- everybody else's events ---------------------------------------------------------

  /** The fields only the collection's own worker writes; a stale reading may be forgotten. */
  ghost predicate SameWork(c: Collection, d: Collection) {
    && d.attempt == c.attempt && d.claimed == c.claimed && d.attemptSequence == c.attemptSequence
    && d.withdrawalAt == c.withdrawalAt && d.balance == c.balance && d.error == c.error
    && (d.monitoredAt == c.monitoredAt || d.monitoredAt.None?)
  }

  ghost predicate WorkKept(s: State, t: State, id: Id) {
    id in s.cols && id in t.cols ==> SameWork(s.cols[id], t.cols[id])
  }

  lemma ArmWork(s: State, mid: State, now: u64, id: Id)
    requires WorkKept(s, mid, id)
    ensures WorkKept(s, Arm(mid, now), id)
  {
    hide Arm, SameWork;
    ArmRest(mid, now);
  }

  lemma SwitchWork(s: State, receiver: Addr, value: bool, now: u64, accept: bool, id: Id)
    ensures WorkKept(s, SetEnabled(s, receiver, value, now, accept), id)
  {
    hide Arm, Targets, NewCollection, Seconds;
    ArmWork(s, Switch(s, receiver, value, now), now, id);
  }

  lemma RequestWork(s: State, i: Id, now: u64, id: Id)
    ensures WorkKept(s, RequestClaim(s, i, now), id)
  {
    hide Arm, Seconds;
    if i in s.cols {
      ArmWork(s, Save(s, i, s.cols[i].(force := true, halted := false, nextDue := Seconds(now))), now, id);
    }
  }

  lemma BeforeWork(s: State, i: Id, current: Option<Channel>, next: Channel, now: u64, fee: Option<nat>, signerOk: bool,
                   id: Id)
    ensures WorkKept(s, BeforeUpdate(s, i, current, next, now, fee, signerOk).0, id)
  {
    hide Arm, StopReason, Enabled, CreatesPending, NewCollection, IsStale, Seconds;
    if i in s.cols {
      ArmWork(s, Save(s, i, s.cols[i].(monitoredAt := None, nextDue := Seconds(now))), now, id);
    } else {
      var r := Register(s, i, NewCollection(next, now));
      ArmWork(s, r, now, id);
      ArmRest(r, now);
      ArmWork(s, Save(Arm(r, now), i, r.cols[i].(monitoredAt := None, nextDue := Seconds(now))), now, id);
    }
  }

  lemma AfterWork(s: State, mid: State, i: Id, current: Option<Channel>, next: Channel, now: u64, id: Id)
    requires WorkKept(s, mid, id)
    ensures WorkKept(s, AfterUpdate(mid, i, current, next, now), id)
  {
    hide Arm, Rise, Enabled, Live, Seconds;
    if i in mid.cols {
      ArmWork(s, Note(mid, i, current, next, now), now, id);
    }
  }

  lemma UpdateWork(s: State, e: Event, id: Id)
    requires e.DoUpdate?
    ensures WorkKept(s, UpdateChannel(s, e.id, e.expected, e.next, e.now, e.feeNow, e.signerOk, e.accept), id)
  {
    hide BeforeUpdate, AfterUpdate, Accepted, NextRevision, SameWork;
    var current := Stored(s, e.id);
    WorkSelf(s, id);
    BeforeWork(s, e.id, current, e.next.(channelId := e.id), e.now, e.feeNow, e.signerOk, id);
    var s1 := BeforeUpdate(s, e.id, current, e.next.(channelId := e.id), e.now, e.feeNow, e.signerOk).0;
    var stored := e.next.(channelId := e.id, revision := NextRevision(current));
    AfterWork(s, s1.(channels := s1.channels[e.id := stored]), e.id, current, stored, e.now, id);
  }

  lemma WorkSelf(s: State, id: Id)
    ensures WorkKept(s, s, id)
  {
  }

  lemma DeleteWork(s: State, e: Event, id: Id)
    requires e.DoDelete?
    ensures WorkKept(s, DeleteChannel(s, e.id, e.expected, e.now, e.accept), id)
  {
    hide Live, Provisional, MayDelete;
  }

  /** The event is a segment or the epilogue of this channel's own worker. */
  predicate Own(e: Event, id: Id) {
    (IsWorkerEvent(e) || e.DoFinish?) && e.id == id
  }

  lemma OthersKeepWork(s: State, e: Event, id: Id)
    requires Reachable(s) && Ready(s, e) && !Own(e, id)
    ensures WorkKept(s, Step(s, e), id)
  {
    hide Reachable, WorkKept, SetEnabled, RequestClaim, UpdateChannel, DeleteChannel, Fire, WorkerFinish, Upgrade, Earliest,
      Norm, WorkerStart, MonitorOutcall, MonitorDone, PrepareDone, ResumeDone, Deposit, ManualCharge, ManualRefund,
      ManualNonce, ManualRollback, ManualAcquire, Release;
    if IsWorkerEvent(e) {
      OtherWorkers(s, e, id);
    } else if e.DoSetEnabled? {
      SwitchWork(s, e.receiver, e.value, e.now, e.accept, id);
    } else if e.DoUpdate? {
      UpdateWork(s, e, id);
    } else if e.DoDelete? {
      DeleteWork(s, e, id);
    } else if e.DoRequestClaim? {
      RequestWork(s, e.id, e.now, id);
    } else if e.DoFinish? {
      OtherEpilogues(s, e, id);
    } else {
      QuietWork(s, e, id);
    }
  }

  lemma OtherWorkers(s: State, e: Event, id: Id)
    requires Reachable(s) && Ready(s, e) && IsWorkerEvent(e) && e.id != id
    ensures WorkKept(s, Step(s, e), id)
  {
    hide Reachable, Step, Ready;
    if id in s.cols {
      OthersHalt(s, e, id);
    }
  }

  lemma OtherEpilogues(s: State, e: Event, id: Id)
    requires Ready(s, e) && e.DoFinish? && e.id != id
    ensures WorkKept(s, Step(s, e), id)
  {
    hide Step, Ready;
    EpilogueWrites(s, e.id, e.now);
  }

  lemma QuietWork(s: State, e: Event, id: Id)
    requires Ready(s, e) && (e.DoFire? || e.DoUpgrade? || IsLedgerEvent(e))
    ensures WorkKept(s, Step(s, e), id)
  {
    hide Fire, Upgrade, Earliest, SameWork;
    WorkSelf(s, id);
    if IsLedgerEvent(e) {
      hide Step;
      OutsideFrame(s, e);
    } else {
      TimerHalt(s, e);
    }
  }

  // ---- the laws ------------------------------------------------------------------------

  /** The event ends an attempt of this shape: one without bytes is given back at the start or in prepare, one
      with bytes only by its receipt. */
  predicate EndsAttempt(e: Event, id: Id, a: Attempt) {
    if a.raw.None? then (e.DoStart? && e.id == id) || (e.DoPrepare? && e.id == id && !e.outcome.Signed?)
    else e.DoResume? && e.id == id && (e.receipt.Settled? || e.receipt.Failed?)
  }

  /** The attempt the state holds afterwards, if it does not end: signing adds the bytes. */
  ghost predicate StaysAttempt(a: Attempt, b: Attempt) {
    b == a.(nonce := b.nonce, raw := b.raw, tx := b.tx) && (a.raw.Some? ==> b == a)
  }

  /** The event signs this channel's attempt. */
  predicate Signs(e: Event, id: Id) {
    e.DoPrepare? && e.id == id && e.outcome.Signed?
  }

  lemma OwnAttempt(s: State, e: Event, id: Id)
    requires Reachable(s) && Ready(s, e) && Own(e, id) && id in s.cols && s.cols[id].attempt.Some?
    ensures var a, t := s.cols[id].attempt.value, Step(s, e);
      && id in t.cols
      && (if EndsAttempt(e, id, a) then t.cols[id].attempt.None?
          else t.cols[id].attempt.Some? && StaysAttempt(a, t.cols[id].attempt.value))
      && (!EndsAttempt(e, id, a) && !Signs(e, id) ==> t.cols[id].attempt == Some(a))
  {
    hide Reachable, Ready, Step;
    match e
    case DoStart(_, now, config) =>
      if s.cols[id].attempt.value.raw.None? {
        InterruptedIsGivenBack(s, id, now, config);
      } else {
        StartDecides(s, id, now, config);
      }
    case DoOutcall(_, cycles) => OutcallCounts(s, id, cycles);
    case DoMonitor(_, _, answer, _, _) =>
      if answer.Ok? {
        AttemptComesFirst(s, e);
      } else {
        NoAnswerChangesNothing(s, e);
      }
    case DoPrepare(_, outcome) => PreparedAttempt(s, id, outcome);
    case DoResume(_, receipt) => ResumedAttempt(s, id, receipt);
    case DoSent(_) => SendChangesNothing(s, id);
    case DoFinish(_, now) => EpilogueWrites(s, id, now);
  }

  lemma PreparedAttempt(s: State, id: Id, outcome: Prepared)
    requires Reachable(s) && Ready(s, DoPrepare(id, outcome))
    ensures id in s.cols && s.cols[id].attempt.Some? && s.cols[id].attempt.value.raw.None?
    ensures var t, a := Step(s, DoPrepare(id, outcome)), s.cols[id].attempt.value;
      && id in t.cols
      && (if outcome.Signed? then t.cols[id].attempt.Some? && StaysAttempt(a, t.cols[id].attempt.value)
          else t.cols[id].attempt.None?)
  {
    hide Reachable, PrepareDone, JournalInv;
    PreparingHolds(s, id);
    hide Step;
    if outcome.Signed? {
      SignedIsJournaled(s, id, outcome.pendingNonce, outcome.raw, outcome.tx);
    } else {
      UnsentIsGivenBack(s, id, outcome);
    }
  }

  lemma ResumedAttempt(s: State, id: Id, receipt: Receipt)
    requires Reachable(s) && Ready(s, DoResume(id, receipt))
    ensures id in s.cols && s.cols[id].attempt.Some? && s.cols[id].attempt.value.raw.Some?
    ensures var t := Step(s, DoResume(id, receipt));
      id in t.cols && t.cols[id].attempt == (if receipt.Settled? || receipt.Failed? then None else s.cols[id].attempt)
  {
    hide Reachable, ResumeDone, JournalInv;
    ResumingHolds(s, id);
    match receipt
    case Unreadable(e) => UnreadableChangesNothing(s, id, e);
    case Pending => PendingSendsAgain(s, id);
    case Settled => SettledPays(s, id);
    case Failed => FailedHalts(s, id);
  }

  /** For every event: an attempt ends if and only if it has no bytes and its channel's worker starts again or
      fails in prepare, or it has bytes and its receipt shows it settled or reverted. Otherwise it stays, with
      its lock; where it ends the lock is free. */
  lemma AttemptEndsIff(s: State, e: Event, id: Id)
    requires Reachable(s) && Ready(s, e) && id in s.cols && s.cols[id].attempt.Some?
    ensures var a, t := s.cols[id].attempt.value, Step(s, e);
      && id in t.cols
      && (t.cols[id].attempt.None? <==> EndsAttempt(e, id, a))
      && (t.cols[id].attempt.Some? ==> StaysAttempt(a, t.cols[id].attempt.value))
      && (!EndsAttempt(e, id, a) && !Signs(e, id) ==> t.cols[id].attempt == Some(a))
      && ((a.scope in t.locks && t.locks[a.scope].key == a.key) <==> !EndsAttempt(e, id, a))
  {
    hide Reachable, Ready, Step, EndsAttempt;
    var a, t := s.cols[id].attempt.value, Step(s, e);
    StillRegistered(s, e, id);
    if Own(e, id) {
      OwnAttempt(s, e, id);
    } else {
      OthersKeepWork(s, e, id);
      NotEndsAttempt(e, id, a);
    }
    Then(s, e);
    AttemptKeyOf(s, id);
    LockIffAttempt(t, a.scope, a.key);
  }

  lemma NotEndsAttempt(e: Event, id: Id, a: Attempt)
    requires !Own(e, id)
    ensures !EndsAttempt(e, id, a)
  {
  }

  lemma StillRegistered(s: State, e: Event, id: Id)
    requires Reachable(s) && Ready(s, e) && id in s.cols && s.cols[id].attempt.Some?
    ensures id in Step(s, e).cols
  {
    hide Reachable, Ready, Step;
    if id !in Step(s, e).cols {
      DrainSafety(s, e, id);
    }
  }

  lemma AttemptKeyOf(s: State, id: Id)
    requires Reachable(s) && id in s.cols && s.cols[id].attempt.Some?
    ensures s.cols[id].attempt.value.key.Auto? && s.cols[id].attempt.value.key.id == id
  {
    hide Reachable, Inv, Seller, HeldOk, LocksOk, WorkersOk;
    ReachableInv(s);
    InvJournal(s);
    assert id in Attempts(s.cols);
    assert Owns(id, Attempts(s.cols)[id], s.locks, s.records, s.hist.log, s.hist.serial);
  }

  /** The claimed total after the event: it moves on an answer of the monitor and on a settled receipt only. */
  function TotalAfter(c: Collection, e: Event, id: Id): nat {
    if e.DoMonitor? && e.id == id && e.answer.Ok? then Larger(c.claimed, e.answer.value.claimed)
    else if e.DoResume? && e.id == id && e.receipt.Settled? && c.attempt.Some? then Larger(c.claimed, c.attempt.value.target)
    else c.claimed
  }

  lemma OwnFields(s: State, e: Event, id: Id)
    requires Reachable(s) && Ready(s, e) && Own(e, id) && id in s.cols && id in Step(s, e).cols
    requires !(e.DoMonitor? && e.answer.Ok?)
    ensures var c, d := s.cols[id], Step(s, e).cols[id];
      && d.withdrawalAt == c.withdrawalAt && d.balance == c.balance && d.monitoredAt == c.monitoredAt
      && d.claimed == TotalAfter(c, e, id) && d.error == ErrorAfter(s, e, id)
  {
    hide Reachable, Ready, Step;
    match e
    case DoStart(_, now, config) =>
      if s.cols[id].attempt.Some? && s.cols[id].attempt.value.raw.None? {
        InterruptedIsGivenBack(s, id, now, config);
      } else {
        StartDecides(s, id, now, config);
      }
    case DoOutcall(_, cycles) => OutcallCounts(s, id, cycles);
    case DoMonitor(_, _, _, _, _) => NoAnswerChangesNothing(s, e);
    case DoPrepare(_, outcome) =>
      if outcome.Signed? {
        SignedIsJournaled(s, id, outcome.pendingNonce, outcome.raw, outcome.tx);
      } else {
        UnsentIsGivenBack(s, id, outcome);
      }
    case DoResume(_, receipt) => ResumedFields(s, e, id);
    case DoSent(_) => SendChangesNothing(s, id);
    case DoFinish(_, now) => FinishedFields(s, id, now);
  }

  lemma FinishedFields(s: State, id: Id, now: u64)
    requires Ready(s, DoFinish(id, now)) && id in s.cols
    ensures id in s.workers && s.workers[id].Returned?
    ensures var c, t := s.cols[id], Step(s, DoFinish(id, now));
      && id in t.cols
      && var d := t.cols[id];
         && d.withdrawalAt == c.withdrawalAt && d.balance == c.balance && d.monitoredAt == c.monitoredAt
         && d.claimed == c.claimed && d.error == (if s.workers[id].error.Some? then s.workers[id].error else c.error)
  {
    EpilogueWrites(s, id, now);
    hide Step;
  }

  lemma ResumedFields(s: State, e: Event, id: Id)
    requires Reachable(s) && Ready(s, e) && e.DoResume? && e.id == id && id in s.cols && id in Step(s, e).cols
    ensures var c, d := s.cols[id], Step(s, e).cols[id];
      && d.withdrawalAt == c.withdrawalAt && d.balance == c.balance && d.monitoredAt == c.monitoredAt
      && d.claimed == TotalAfter(c, e, id) && d.error == ErrorAfter(s, e, id)
  {
    hide Reachable, Ready, Step, Unpaid;
    match e.receipt
    case Unreadable(error) => UnreadableChangesNothing(s, id, error);
    case Pending => PendingSendsAgain(s, id);
    case Settled => SettledPays(s, id);
    case Failed => FailedHalts(s, id);
  }

  /** The error after the event: an answer forgets it unless the collection is halted, a reverted claim and a
      worker that ends with an error set it. */
  function ErrorAfter(s: State, e: Event, id: Id): Option<string>
    requires id in s.cols
  {
    var c := s.cols[id];
    if e.DoMonitor? && e.id == id && e.answer.Ok? then (if c.halted then c.error else None)
    else if e.DoResume? && e.id == id && e.receipt.Failed? then Some("claim_reverted_manual_retry_required")
    else if e.DoFinish? && e.id == id && id in s.workers && s.workers[id].Returned? && s.workers[id].error.Some?
      then s.workers[id].error
    else c.error
  }

  /** For every event that leaves the collection registered: withdrawal and balance change only with an answer
      of the monitor, and are its own; the time of the reading is that of an answer, or is forgotten; the
      claimed total and the error are as above. */
  lemma FieldsAfter(s: State, e: Event, id: Id)
    requires Reachable(s) && Ready(s, e) && id in s.cols && id in Step(s, e).cols
    ensures var c, d, answered := s.cols[id], Step(s, e).cols[id], e.DoMonitor? && e.id == id && e.answer.Ok?;
      && d.withdrawalAt == (if answered then e.answer.value.withdrawal else c.withdrawalAt)
      && d.balance == (if answered then e.answer.value.balance else c.balance)
      && (if answered then d.monitoredAt == Some(Seconds(e.now)) else d.monitoredAt == c.monitoredAt || d.monitoredAt.None?)
      && d.claimed == TotalAfter(c, e, id) && d.error == ErrorAfter(s, e, id)
  {
    hide Reachable, Ready, Step, Unpaid, Seconds;
    if e.DoMonitor? && e.id == id && e.answer.Ok? {
      AnswerIsRead(s, e);
    } else if Own(e, id) {
      OwnFields(s, e, id);
    } else {
      OthersKeepWork(s, e, id);
    }
  }
}
