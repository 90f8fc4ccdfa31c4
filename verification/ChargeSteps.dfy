/** Every step keeps every collection's charge list, backlog bound and claim target in order. */
module ChargeSteps {
  import opened Accounts
  import opened Wrappers
  import opened Decimal
  import opened Batch
  import opened Collector
  import opened Charges
  import opened Journal

  // ---- what a worker may do to its collection ------------------------------------------

  /** The claimed total never falls, the list is only reconciled, the target stays chargeable. */
  ghost predicate Evolves(c: Collection, d: Collection, stored: Option<Channel>) {
    && d.seed == c.seed && d.nextDue == c.nextDue
    && d.claimed >= c.claimed && d.attemptSequence >= c.attemptSequence
    && (d.charges == c.charges || d.charges == Unpaid(c.charges, d.claimed))
    && (d.attempt == c.attempt || TargetOk(d.attempt, stored))
  }

  lemma EvolveKeeps(c: Collection, d: Collection, stored: Option<Channel>, committed: seq<Charge>)
    requires CollectionOk(c, stored, committed) && Evolves(c, d, stored)
    ensures CollectionOk(d, stored, committed)
  {
    hide Amount, Rising, Unpaid, StoredAmount;
    UnpaidOfSuffix(c.charges, committed, c.claimed, d.claimed);
    if d.charges == c.charges {
      StillSuffix(c.charges, committed, c.claimed, d.claimed);
    }
  }

  lemma StillSuffix(charges: seq<Charge>, committed: seq<Charge>, claimed: nat, total: nat)
    requires SuffixOf(charges, committed, claimed) && claimed <= total
    ensures SuffixOf(charges, committed, total)
  {
  }

  ghost predicate SameRest(s: State, t: State, id: Id) {
    && t.channels == s.channels && t.enabled == s.enabled
    && t.hist.committed == s.hist.committed && t.hist.birth == s.hist.birth
    && t.timer == s.timer && t.hist.lastArm == s.hist.lastArm
    && (id in s.workers ==> t.workers.Keys == s.workers.Keys)
  }

  /** Only one channel's collection moves, and only as a worker may move it. */
  ghost predicate WorkerStep(s: State, t: State, id: Id) {
    && SameRest(s, t, id)
    && (forall i :: i != id ==> (i in t.cols <==> i in s.cols) && (i in s.cols ==> t.cols[i] == s.cols[i]))
    && (id in t.cols ==> id in s.cols && Evolves(s.cols[id], t.cols[id], Stored(s, id)))
  }

  lemma WorkerStepKeeps(s: State, t: State, id: Id)
    requires ChargesInv(s) && WorkerStep(s, t, id)
    ensures ChargesInv(t)
  {
    hide CollectionOk, Evolves, WellFormed;
    if id in t.cols {
      EvolveKeeps(s.cols[id], t.cols[id], Stored(s, id), s.hist.committed[id]);
    }
    forall i | i in t.cols ensures CollectionOk(t.cols[i], Stored(t, i), t.hist.committed[i]) {
      assert Stored(t, i) == Stored(s, i);
      if i != id {
        assert t.cols[i] == s.cols[i];
      }
    }
  }

  lemma StepFrom(s: State, t: State, id: Id, c: Collection)
    requires id in s.cols && SameRest(s, t, id) && t.cols == s.cols[id := c] && Evolves(s.cols[id], c, Stored(s, id))
    ensures WorkerStep(s, t, id)
  {
    hide Evolves, SameRest;
  }

  lemma SaveIsStep(s: State, id: Id, c: Collection)
    requires id in s.cols && Evolves(s.cols[id], c, Stored(s, id))
    ensures WorkerStep(s, Save(s, id, c), id)
  {
    hide Evolves;
  }

  lemma ObservedEvolves(c: Collection, answer: Answer, now: u64, stored: Option<Channel>)
    ensures Evolves(c, Observed(c, answer, now), stored)
  {
    hide Unpaid, Amount, TargetOk;
  }

  lemma ReserveIsStep(s: State, id: Id, p: Prep)
    requires id in s.cols && id in s.channels && id in s.workers && WellFormed(s.channels[id])
    ensures WorkerStep(s, Reserve(s, id, p), id)
  {
    hide WorkerStep, Begin, Release, NewAttempt, WellFormed;
    var a := NewAttempt(s, id, p);
    SelfStep(s, id);
    AtIsStep(s, s, id, Returned(Some("settlement_queue_busy")));
    ReleaseIsStep(s, id, a.scope, a.key);
    AtIsStep(s, Release(s, a.scope, a.key), id, Returned(Some("seller credit is below required fee")));
    if p.fee <= Get(s.credit, a.scope.seller) {
      BeginIsStep(s, id, p);
      AtIsStep(s, Begin(s, id, a), id, Preparing(a));
    }
  }

  lemma BeginIsStep(s: State, id: Id, p: Prep)
    requires id in s.cols && id in s.channels && WellFormed(s.channels[id])
    ensures var a := NewAttempt(s, id, p);
      a.fee == p.fee && (p.fee <= Get(s.credit, a.scope.seller) ==> WorkerStep(s, Begin(s, id, a), id))
  {
    hide Unpaid, Amount, Seller, Enabled, Get, WorkerStep, WellFormed;
    var a := NewAttempt(s, id, p);
    if p.fee <= Get(s.credit, a.scope.seller) {
      StepFrom(s, Begin(s, id, a), id, Holding(s, s.cols[id], a));
    }
  }

  lemma ReleaseIsStep(s: State, id: Id, scope: Scope, key: Key)
    ensures WorkerStep(s, Release(s, scope, key), id)
  {
    hide Evolves;
    if id in s.cols {
      EvolvesSelf(s.cols[id], Stored(s, id));
    }
  }

  lemma EvolvesSelf(c: Collection, stored: Option<Channel>)
    ensures Evolves(c, c, stored)
  {
    hide Unpaid, TargetOk;
  }

  lemma AbandonIsStep(s: State, id: Id, a: Attempt)
    ensures WorkerStep(s, Abandon(s, id, a), id)
  {
    hide AddCredit, Rollback, Release, SetFate, Evolves, WorkerStep, SameRest;
    SelfStep(s, id);
    if id in s.cols {
      var c := s.cols[id].(attempt := None, force := true);
      AbandonRest(s, id, a);
      assert Evolves(s.cols[id], c, Stored(s, id)) by { DropsAttempt(s.cols[id], Stored(s, id)); }
      StepFrom(s, Abandon(s, id, a), id, c);
    }
  }

  lemma DropsAttempt(c: Collection, stored: Option<Channel>)
    ensures Evolves(c, c.(attempt := None, force := true), stored)
  {
    hide Unpaid;
  }

  lemma AbandonRest(s: State, id: Id, a: Attempt)
    requires id in s.cols
    ensures var t := Abandon(s, id, a);
      SameRest(s, t, id) && t.cols == s.cols[id := s.cols[id].(attempt := None, force := true)]
  {
    hide Seller, Norm, AddCredit, Rollback, Release;
    var s1 := if a.nonce.Some? then RollbackNonce(s, a.from, a.nonce.value) else s;
    CreditOnly(s1, Seller(a.channel), a.fee);
    ReleaseOnly(AddCredit(s1, Seller(a.channel), a.fee), a.scope, a.key);
  }

  lemma SettleIsStep(s: State, id: Id, a: Attempt, tx: string)
    requires id in s.cols
    ensures WorkerStep(s, Settle(s, id, a, tx), id)
  {
    hide Unpaid, Amount;
  }

  lemma FailIsStep(s: State, id: Id, a: Attempt, tx: string)
    requires id in s.cols
    ensures WorkerStep(s, Fail(s, id, a, tx), id)
  {
    hide Unpaid, Amount;
  }

  lemma JournalIsStep(s: State, id: Id, a: Attempt, nonce: nat, raw: string, tx: string)
    requires id in s.cols && s.cols[id].attempt == Some(a) && TargetOk(Some(a), Stored(s, id))
    ensures WorkerStep(s, JournalAndSend(s, id, a, nonce, raw, tx), id)
  {
    hide Unpaid, StoredAmount, WorkerStep, SameRest, JournalAndSend;
    JournalRest(s, id, a, nonce, raw, tx);
    StepFrom(s, JournalAndSend(s, id, a, nonce, raw, tx), id,
             s.cols[id].(attempt := Some(a.(nonce := Some(nonce), raw := Some(raw), tx := Some(tx)))));
  }

  lemma JournalRest(s: State, id: Id, a: Attempt, nonce: nat, raw: string, tx: string)
    requires id in s.cols
    ensures var t := JournalAndSend(s, id, a, nonce, raw, tx);
      && SameRest(s, t, id)
      && t.cols == s.cols[id := s.cols[id].(attempt := Some(a.(nonce := Some(nonce), raw := Some(raw), tx := Some(tx))))]
  {
    hide Advance;
  }

  lemma SelfStep(s: State, id: Id)
    ensures WorkerStep(s, s, id)
  {
    hide Evolves;
    if id in s.cols {
      EvolvesSelf(s.cols[id], Stored(s, id));
    }
  }

  lemma AtIsStep(s: State, t: State, id: Id, w: Worker)
    requires WorkerStep(s, t, id) && id in s.workers
    ensures WorkerStep(s, At(t, id, w), id)
  {
    hide Evolves;
  }

  // ---- the worker's segments -----------------------------------------------------------

  predicate IsWorkerEvent(e: Event) {
    e.DoStart? || e.DoOutcall? || e.DoMonitor? || e.DoPrepare? || e.DoResume? || e.DoSent?
  }

  /** A segment is one or two steps of this kind: the monitor's answer is stored first. */
  ghost predicate WorkerPath(s: State, t: State, id: Id) {
    exists mid :: Between(s, mid, t, id)
  }

  ghost predicate Between(s: State, mid: State, t: State, id: Id) {
    WorkerStep(s, mid, id) && WorkerStep(mid, t, id)
  }

  lemma OneStepPath(s: State, t: State, id: Id)
    requires WorkerStep(s, t, id)
    ensures WorkerPath(s, t, id)
  {
    hide WorkerStep;
    SelfStep(s, id);
    assert Between(s, s, t, id);
  }

  lemma StartIsPath(s: State, id: Id, now: u64, config: Option<string>)
    requires id in s.workers
    ensures WorkerPath(s, WorkerStart(s, id, now, config), id)
  {
    hide WorkerStep, WorkerPath, Abandon, Idle, At;
    SelfStep(s, id);
    forall w: Worker ensures WorkerStep(s, At(s, id, w), id) {
      AtIsStep(s, s, id, w);
    }
    if id in s.cols && s.cols[id].attempt.Some? {
      var a := s.cols[id].attempt.value;
      AbandonIsStep(s, id, a);
      AtIsStep(s, Abandon(s, id, a), id, Returned(None));
    }
    OneStepPath(s, WorkerStart(s, id, now, config), id);
  }

  lemma OutcallIsPath(s: State, id: Id, cycles: nat)
    ensures WorkerPath(s, MonitorOutcall(s, id, cycles), id)
  {
    hide WorkerStep, WorkerPath, Unpaid, SatAdd, TargetOk;
    SelfStep(s, id);
    if id in s.cols {
      SaveIsStep(s, id, s.cols[id].(monitorCalls := SatAdd(s.cols[id].monitorCalls, 1, U64_MAX),
                                    monitorCycles := SatAdd(s.cols[id].monitorCycles, cycles, U128_MAX)));
    }
    OneStepPath(s, MonitorOutcall(s, id, cycles), id);
  }

  lemma LeaveIsStep(s: State, id: Id, now: u64, channel: Channel)
    requires id in s.workers
    ensures WorkerStep(s, Leave(s, id, now, channel), id)
  {
    hide Enabled, Live, WorkerStep, At;
    SelfStep(s, id);
    RemoveIsStep(s, s, id);
    AtIsStep(s, s, id, Returned(None));
    AtIsStep(s, Remove(s, id), id, Returned(None));
  }

  /** `force` and `oldestLegacy` are nobody's business here. */
  lemma MonitorIsPath(s: State, id: Id, now: u64, answer: Result<Answer, string>, sameNetwork: bool,
                      prep: Result<Prep, string>)
    requires id in s.workers && (id in s.channels ==> WellFormed(s.channels[id]))
    ensures WorkerPath(s, MonitorDone(s, id, now, answer, sameNetwork, prep), id)
  {
    hide WorkerStep, WorkerPath, Continue, Evolves, Observed, At, WellFormed;
    SelfStep(s, id);
    if answer.Err? {
      AtIsStep(s, s, id, Returned(Some(answer.error)));
      OneStepPath(s, At(s, id, Returned(Some(answer.error))), id);
    } else if id !in s.cols {
      AtIsStep(s, s, id, Returned(Some("collection removed")));
      OneStepPath(s, At(s, id, Returned(Some("collection removed"))), id);
    } else {
      var c := Observed(s.cols[id], answer.value, now);
      ObservedEvolves(s.cols[id], answer.value, now, Stored(s, id));
      SaveIsStep(s, id, c);
      ContinueIsStep(Save(s, id, c), id, now, sameNetwork, prep);
      assert Between(s, Save(s, id, c), MonitorDone(s, id, now, answer, sameNetwork, prep), id);
      assert WorkerPath(s, MonitorDone(s, id, now, answer, sameNetwork, prep), id) by {
        PathFrom(s, Save(s, id, c), MonitorDone(s, id, now, answer, sameNetwork, prep), id);
      }
    }
  }

  lemma PathFrom(s: State, mid: State, t: State, id: Id)
    requires Between(s, mid, t, id)
    ensures WorkerPath(s, t, id)
  {
  }

  lemma ContinueIsStep(s: State, id: Id, now: u64, sameNetwork: bool, prep: Result<Prep, string>)
    requires id in s.cols && id in s.workers && (id in s.channels ==> WellFormed(s.channels[id]))
    ensures WorkerStep(s, Continue(s, id, now, sameNetwork, prep), id)
  {
    hide WorkerStep, Reserve, Leave, Blocked, Amount, At, WellFormed;
    SelfStep(s, id);
    forall w: Worker ensures WorkerStep(s, At(s, id, w), id) {
      AtIsStep(s, s, id, w);
    }
    LeaveIsStep(s, id, now, s.cols[id].seed);
    if id in s.channels {
      LeaveDrainedIsStep(s, id, now, s.channels[id]);
      match Blocked(s.cols[id], Amount(s.channels[id].charged), prep)
      case Some(_) =>
      case None => ReserveIsStep(s, id, prep.value);
    }
  }

  lemma LeaveDrainedIsStep(s: State, id: Id, now: u64, channel: Channel)
    requires id in s.cols && id in s.workers
    ensures WorkerStep(s, Leave(Save(s, id, s.cols[id].(force := false, oldestLegacy := None)), id, now, channel), id)
  {
    hide Enabled, Live, Unpaid, WorkerStep;
    var c := s.cols[id].(force := false, oldestLegacy := None);
    StepFrom(s, Save(s, id, c), id, c);
    RemoveIsStep(s, Save(s, id, c), id);
    AtIsStep(s, Save(s, id, c), id, Returned(None));
    AtIsStep(s, Remove(Save(s, id, c), id), id, Returned(None));
  }

  lemma RemoveIsStep(s: State, t: State, id: Id)
    requires WorkerStep(s, t, id)
    ensures WorkerStep(s, Remove(t, id), id)
  {
    hide Evolves;
  }

  lemma PrepareIsPath(s: State, id: Id, outcome: Prepared)
    requires JournalInv(s) && ChargesInv(s) && id in s.workers && s.workers[id].Preparing?
    ensures WorkerPath(s, PrepareDone(s, id, s.workers[id].attempt, outcome), id)
  {
    hide WorkerStep, WorkerPath, Abandon, At, JournalAndSend, JournalInv, ChargesInv, Advance, Reserved;
    var a := s.workers[id].attempt;
    match outcome {
      case Unprepared(e) =>
        AbandonIsStep(s, id, a);
        AtIsStep(s, Abandon(s, id, a), id, Returned(Some(e)));
      case AlreadyMined =>
        AbandonIsStep(s, id, a);
        AtIsStep(s, Abandon(s, id, a), id, Returned(None));
      case SignFailed(pending, e) =>
        var nonce := Reserved(s.nonces, a.from, pending);
        AbandonReservedIsStep(s, id, a, nonce);
        AtIsStep(s, Abandon(AfterReserve(s, a.from, nonce), id, a.(nonce := Some(nonce))), id, Returned(Some(e)));
      case Signed(pending, raw, tx) =>
        PreparedTarget(s, id);
        var nonce := Reserved(s.nonces, a.from, pending);
        JournalIsStep(s, id, a, nonce, raw, tx);
        AtIsStep(s, JournalAndSend(s, id, a, nonce, raw, tx), id, Sending);
    }
    OneStepPath(s, PrepareDone(s, id, a, outcome), id);
  }

  /** The worker's copy is the stored attempt, whose target is still charged. */
  lemma PreparedTarget(s: State, id: Id)
    requires JournalInv(s) && ChargesInv(s) && id in s.workers && s.workers[id].Preparing?
    ensures id in s.cols && s.cols[id].attempt == Some(s.workers[id].attempt)
    ensures TargetOk(Some(s.workers[id].attempt), Stored(s, id))
  {
    hide Tables, Amount, SuffixOf, Rising, PaidUpTo;
    assert WorkerOk(id, s.workers[id], Attempts(s.cols));
  }

  lemma AbandonReservedIsStep(s: State, id: Id, a: Attempt, nonce: nat)
    ensures WorkerStep(s, Abandon(AfterReserve(s, a.from, nonce), id, a.(nonce := Some(nonce))), id)
  {
    hide Abandon, Advance, Evolves;
    AbandonIsStep(AfterReserve(s, a.from, nonce), id, a.(nonce := Some(nonce)));
  }

  lemma ResumeIsPath(s: State, id: Id, a: Attempt, receipt: Receipt)
    requires id in s.workers
    ensures WorkerPath(s, ResumeDone(s, id, a, receipt), id)
  {
    hide WorkerStep, WorkerPath, Settle, Fail, At, Sent;
    SelfStep(s, id);
    match receipt {
      case Unreadable(e) => AtIsStep(s, s, id, Returned(Some(e)));
      case Pending =>
        if a.raw.Some? && a.nonce.Some? {
          SentIsStep(s, id, a.raw.value, a.nonce.value);
          AtIsStep(s, Sent(s, id, a.raw.value, a.nonce.value), id, Sending);
        }
      case Settled =>
        if id in s.cols && a.tx.Some? {
          SettleIsStep(s, id, a, a.tx.value);
          AtIsStep(s, Settle(s, id, a, a.tx.value), id, Returned(None));
        }
      case Failed =>
        if id in s.cols && a.tx.Some? {
          FailIsStep(s, id, a, a.tx.value);
          AtIsStep(s, Fail(s, id, a, a.tx.value), id, Returned(None));
        }
    }
    OneStepPath(s, ResumeDone(s, id, a, receipt), id);
  }

  lemma SentIsStep(s: State, id: Id, raw: string, nonce: nat)
    ensures WorkerStep(s, Sent(s, id, raw, nonce), id)
  {
    hide Evolves;
    if id in s.cols {
      EvolvesSelf(s.cols[id], Stored(s, id));
    }
  }

  /** Worker segments touch one collection, and only in the ways a worker may. */
  lemma WorkerEventIsPath(s: State, e: Event)
    requires JournalInv(s) && ChargesInv(s) && IsWorkerEvent(e) && Ready(s, e)
    ensures WorkerPath(s, Step(s, e), e.id)
  {
    hide JournalInv, ChargesInv, WorkerPath, WorkerStart, MonitorOutcall, MonitorDone, PrepareDone, ResumeDone, At;
    match e
    case DoStart(id, now, config) => StartIsPath(s, id, now, config);
    case DoOutcall(id, cycles) => OutcallIsPath(s, id, cycles);
    case DoMonitor(id, now, answer, sameNetwork, prep) =>
      ChannelWellFormed(s, id);
      MonitorIsPath(s, id, now, answer, sameNetwork, prep);
    case DoPrepare(id, outcome) => PrepareIsPath(s, id, outcome);
    case DoResume(id, receipt) => ResumeIsPath(s, id, s.workers[id].attempt, receipt);
    case DoSent(id) =>
      SelfStep(s, id);
      AtIsStep(s, s, id, Returned(None));
      OneStepPath(s, At(s, id, Returned(None)), id);
  }

  lemma ChannelWellFormed(s: State, id: Id)
    requires ChargesInv(s)
    ensures id in s.channels ==> WellFormed(s.channels[id])
  {
    hide WellFormed, CollectionOk;
  }

  lemma PathKeepsCharges(s: State, t: State, id: Id)
    requires ChargesInv(s) && WorkerPath(s, t, id)
    ensures ChargesInv(t)
  {
    hide ChargesInv, WorkerStep;
    var mid :| Between(s, mid, t, id);
    WorkerStepKeeps(s, mid, id);
    WorkerStepKeeps(mid, t, id);
  }
}
