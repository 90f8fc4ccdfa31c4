/** Every step keeps the journal invariant. */
module JournalSteps {
  import opened Accounts
  import opened Wrappers
  import opened Batch
  import opened Collector
  import opened Journal
  import opened Frames

  lemma QuietKeepsTables(s: State, t: State)
    requires JournalInv(s) && Quiet(s, t) && WorkersOk(Attempts(s.cols), t.workers)
    ensures JournalInv(t)
  {
    hide Tables, Attempts, WorkersOk;
  }

  /** A worker moves; the tables do not. */
  lemma WorkerMoves(s: State, t: State, id: Id, w: Worker)
    requires JournalInv(s) && Quiet(s, t) && t.workers == s.workers && WorkerOk(id, w, Attempts(t.cols))
    ensures JournalInv(At(t, id, w))
  {
    hide Tables, Attempts, WorkerOk;
  }

  // ---- the four steps that write the journal -------------------------------------------

  /** Workers of other channels rely on nothing that changed. */
  lemma OthersUnmoved(att: map<Id, Attempt>, att': map<Id, Attempt>, workers: map<Id, Worker>, id: Id, w: Worker)
    requires WorkersOk(att, workers)
    requires forall i :: i != id ==> (i in att' <==> i in att) && (i in att ==> att'[i] == att[i])
    requires WorkerOk(id, w, att')
    ensures WorkersOk(att', workers[id := w])
  {
    var workers' := workers[id := w];
    forall i | i in workers' ensures WorkerOk(i, workers'[i], att') {
      if i != id {
        assert WorkerOk(i, workers[i], att);
      }
    }
  }

  lemma AttemptsWith(cols: map<Id, Collection>, id: Id, c: Collection)
    ensures c.attempt.Some? ==> Attempts(cols[id := c]) == Attempts(cols)[id := c.attempt.value]
    ensures c.attempt.None? ==> Attempts(cols[id := c]) == Attempts(cols) - {id}
  {
  }

  lemma LedgerOwner(s: State, id: Id)
    requires JournalInv(s) && id in Attempts(s.cols)
    ensures Owns(id, Attempts(s.cols)[id], s.locks, s.records, s.hist.log, s.hist.serial)
    ensures id in s.cols && s.cols[id].attempt == Some(Attempts(s.cols)[id])
  {
    hide Owns;
  }

  /** The worker of a channel holds the very attempt the map holds. */
  lemma WorkerHolds(s: State, id: Id)
    requires JournalInv(s) && id in s.workers
    ensures WorkerOk(id, s.workers[id], Attempts(s.cols))
  {
    hide Tables, Attempts, WorkerOk;
  }

  /** A scope locked by another key makes the collection wait; otherwise it was free. */
  lemma ScopeWasFree(s: State, id: Id, p: Prep)
    requires JournalInv(s) && id in s.cols && id in s.channels && s.cols[id].attempt.None?
    ensures var a := NewAttempt(s, id, p); a.scope in s.locks ==> s.locks[a.scope].key != a.key
  {
    hide Seller, Amount, Owns;
    NotAttempting(s.cols, id);
  }

  lemma ReserveKeeps(s: State, id: Id, p: Prep)
    requires JournalInv(s) && id in s.cols && id in s.channels && s.cols[id].attempt.None?
    ensures JournalInv(Reserve(s, id, p))
  {
    hide JournalInv, NewAttempt, Begin, Release, Get;
    var a := NewAttempt(s, id, p);
    ScopeWasFree(s, id, p);
    QuietSelf(s);
    FeeOfPrep(s, id, p);
    WorkerMoves(s, s, id, Returned(Some("settlement_queue_busy")));
    WorkerMoves(s, s, id, Returned(Some("seller credit is below required fee")));
    NothingToRelease(s, a.scope, a.key);
    if a.fee <= Get(s.credit, a.scope.seller) && a.scope !in s.locks {
      BeginKeeps(s, id, p);
    }
  }

  lemma NothingToRelease(s: State, scope: Scope, key: Key)
    requires scope in s.locks ==> s.locks[scope].key != key
    ensures Release(s, scope, key) == s
  {
  }

  lemma FeeOfPrep(s: State, id: Id, p: Prep)
    requires id in s.cols && id in s.channels
    ensures NewAttempt(s, id, p).fee == p.fee
  {
    hide Seller, Amount;
  }

  lemma BeginKeeps(s: State, id: Id, p: Prep)
    requires JournalInv(s) && id in s.cols && id in s.channels && s.cols[id].attempt.None?
    requires var a := NewAttempt(s, id, p); a.fee <= Get(s.credit, a.scope.seller) && a.scope !in s.locks
    ensures var a := NewAttempt(s, id, p); JournalInv(At(Begin(s, id, a), id, Preparing(a)))
  {
    hide Seller, Amount, Enabled, Attempts, Tables, WorkersOk, Get;
    var a := NewAttempt(s, id, p);
    var t := Begin(s, id, a);
    NotAttempting(s.cols, id);
    AttemptsWith(s.cols, id, t.cols[id]);
    Opens(Attempts(s.cols), s.locks, s.records, s.hist.log, s.hist.serial, id, a);
    PreparingOk(Attempts(s.cols), id, a);
    OthersUnmoved(Attempts(s.cols), Attempts(t.cols), s.workers, id, Preparing(a));
  }

  lemma PreparingOk(att: map<Id, Attempt>, id: Id, a: Attempt)
    requires a.raw.None?
    ensures WorkerOk(id, Preparing(a), att[id := a])
  {
  }

  lemma NotAttempting(cols: map<Id, Collection>, id: Id)
    requires id in cols ==> cols[id].attempt.None?
    ensures id !in Attempts(cols)
  {
  }

  /** An attempt without bytes ends: the fee is back, the scope is free, the nonce table is as given. */
  lemma AbandonKeeps(s: State, id: Id, a: Attempt, w: Worker, t0: State, b: Attempt)
    requires JournalInv(s) && id in s.cols && s.cols[id].attempt == Some(a)
    requires Quiet(s, t0.(nonces := s.nonces)) && t0.workers == s.workers && t0.cols == s.cols
    requires b == a.(nonce := b.nonce)
    requires w.Returned?
    ensures JournalInv(At(Abandon(t0, id, b), id, w))
    ensures Attempts(Abandon(t0, id, b).cols) == Attempts(s.cols) - {id}
  {
    hide Seller, Amount, Attempts, WorkersOk, Tables, Norm, SatAdd, Rollback;
    AttemptOf(s.cols, id);
    LedgerOwner(s, id);
    var t := Abandon(t0, id, b);
    AbandonTables(t0, id, b);
    AttemptsWith(s.cols, id, t.cols[id]);
    Closes(Attempts(s.cols), s.locks, s.records, s.hist.log, s.hist.serial, id, t.records, t.hist.log);
    OthersUnmoved(Attempts(s.cols), Attempts(t.cols), s.workers, id, w);
  }

  lemma AttemptOf(cols: map<Id, Collection>, id: Id)
    requires id in cols && cols[id].attempt.Some?
    ensures id in Attempts(cols) && Attempts(cols)[id] == cols[id].attempt.value
  {
  }

  lemma AbandonTables(s: State, id: Id, a: Attempt)
    requires id in s.cols && id in s.hist.serial && s.hist.serial[id] < |s.hist.log|
    requires a.scope in s.locks && s.locks[a.scope].key == a.key
    ensures var t := Abandon(s, id, a);
      && t.cols == s.cols[id := s.cols[id].(attempt := None, force := true)]
      && t.workers == s.workers && t.channels == s.channels
      && t.locks == s.locks - {a.scope} && t.records == s.records - {a.key}
      && t.hist.serial == s.hist.serial
      && t.hist.log == s.hist.log[s.hist.serial[id] := s.hist.log[s.hist.serial[id]].(fate := Refunded)]
  {
    hide Seller, AddCredit, Rollback;
    var s1 := if a.nonce.Some? then RollbackNonce(s, a.from, a.nonce.value) else s;
    CreditOnly(s1, Seller(a.channel), a.fee);
  }

  lemma JournalKeeps(s: State, id: Id, a: Attempt, nonce: nat, raw: string, tx: string)
    requires JournalInv(s) && id in s.cols && s.cols[id].attempt == Some(a) && a.raw.None?
    ensures JournalInv(At(JournalAndSend(s, id, a, nonce, raw, tx), id, Sending))
  {
    hide Seller, Amount, Attempts, WorkersOk, Tables, Norm, SatAdd;
    AttemptOf(s.cols, id);
    LedgerOwner(s, id);
    var t := JournalAndSend(s, id, a, nonce, raw, tx);
    AttemptsWith(s.cols, id, t.cols[id]);
    Writes(Attempts(s.cols), s.locks, s.records, s.hist.log, s.hist.serial, id, nonce, raw, tx);
    OthersUnmoved(Attempts(s.cols), Attempts(t.cols), s.workers, id, Sending);
  }

  lemma SettleKeeps(s: State, id: Id, a: Attempt, tx: string)
    requires JournalInv(s) && id in s.cols && s.cols[id].attempt == Some(a) && a.raw.Some?
    ensures JournalInv(At(Settle(s, id, a, tx), id, Returned(None)))
  {
    hide Seller, Amount, Attempts, WorkersOk, Tables, Reconcile;
    var t := Settle(s, id, a, tx);
    ClosesWithBytes(s, id, a, SettledTx(tx));
    AttemptsWith(s.cols, id, t.cols[id]);
    OthersUnmoved(Attempts(s.cols), Attempts(t.cols), s.workers, id, Returned(None));
  }

  lemma FailKeeps(s: State, id: Id, a: Attempt, tx: string)
    requires JournalInv(s) && id in s.cols && s.cols[id].attempt == Some(a) && a.raw.Some?
    ensures JournalInv(At(Fail(s, id, a, tx), id, Returned(None)))
  {
    hide Seller, Amount, Attempts, WorkersOk, Tables;
    var t := Fail(s, id, a, tx);
    ClosesWithBytes(s, id, a, FailedTx(tx));
    AttemptsWith(s.cols, id, t.cols[id]);
    OthersUnmoved(Attempts(s.cols), Attempts(t.cols), s.workers, id, Returned(None));
  }

  lemma ClosesWithBytes(s: State, id: Id, a: Attempt, r: Record)
    requires JournalInv(s) && id in s.cols && s.cols[id].attempt == Some(a) && a.raw.Some?
    ensures Tables(Attempts(s.cols) - {id}, s.locks - {a.scope}, s.records[a.key := r], s.hist.log, s.hist.serial)
    ensures a.scope in s.locks && s.locks[a.scope].key == a.key
  {
    hide Seller, Attempts, WorkersOk, Tables;
    AttemptOf(s.cols, id);
    LedgerOwner(s, id);
    Closes(Attempts(s.cols), s.locks, s.records, s.hist.log, s.hist.serial, id, s.records[a.key := r], s.hist.log);
  }

  // ---- the worker's segments -----------------------------------------------------------

  lemma StartKeeps(s: State, id: Id, now: u64, config: Option<string>)
    requires JournalInv(s)
    ensures JournalInv(WorkerStart(s, id, now, config))
  {
    hide JournalInv, Abandon, Idle, Attempts, Quiet;
    QuietSelf(s);
    if id in s.cols && s.cols[id].attempt.Some? && s.cols[id].attempt.value.raw.None? {
      AbandonAsStored(s, id, s.cols[id].attempt.value, Returned(None));
    } else {
      if id in s.cols {
        AttemptAgrees(s.cols, id);
        WorkerMoves(s, s, id, Monitoring);
      }
      WorkerMoves(s, s, id, Returned(None));
      WorkerMoves(s, s, id, Returned(Some("collection removed")));
      WorkerMoves(s, s, id, Returned(config));
    }
  }

  lemma AttemptAgrees(cols: map<Id, Collection>, id: Id)
    requires id in cols
    ensures id in Attempts(cols) <==> cols[id].attempt.Some?
    ensures cols[id].attempt.Some? ==> Attempts(cols)[id] == cols[id].attempt.value
  {
  }

  lemma AbandonAsStored(s: State, id: Id, a: Attempt, w: Worker)
    requires JournalInv(s) && id in s.cols && s.cols[id].attempt == Some(a) && w.Returned?
    ensures JournalInv(At(Abandon(s, id, a), id, w))
  {
    hide JournalInv, Abandon, Attempts;
    assert s.(nonces := s.nonces) == s;
    AbandonKeeps(s, id, a, w, s, a);
  }

  lemma MonitorKeeps(s: State, id: Id, now: u64, answer: Result<Answer, string>, sameNetwork: bool,
                     prep: Result<Prep, string>)
    requires JournalInv(s) && id in s.workers && s.workers[id].Monitoring?
    ensures JournalInv(MonitorDone(s, id, now, answer, sameNetwork, prep))
  {
    hide JournalInv, Observed, Attempts, Quiet, Continue, Owns;
    QuietSelf(s);
    WorkerHolds(s, id);
    if answer.Err? {
      WorkerMoves(s, s, id, Returned(Some(answer.error)));
    } else if id !in s.cols {
      WorkerMoves(s, s, id, Returned(Some("collection removed")));
    } else {
      var c := Observed(s.cols[id], answer.value, now);
      ObservedAttempt(s.cols[id], answer.value, now);
      SaveKeeps(s, id, c);
      AttemptAgrees(s.cols, id);
      ContinueKeeps(Save(s, id, c), id, now, sameNetwork, prep);
    }
  }

  lemma ContinueKeeps(s: State, id: Id, now: u64, sameNetwork: bool, prep: Result<Prep, string>)
    requires JournalInv(s) && id in s.cols && (s.cols[id].attempt.Some? ==> s.cols[id].attempt.value.raw.Some?)
    ensures JournalInv(Continue(s, id, now, sameNetwork, prep))
  {
    hide JournalInv, Attempts, Quiet, Reserve, Leave, Blocked, Amount;
    QuietSelf(s);
    AttemptAgrees(s.cols, id);
    var c := s.cols[id];
    if c.attempt.Some? {
      WorkerMoves(s, s, id, Resuming(c.attempt.value));
      WorkerMoves(s, s, id, Returned(Some("auto_claim_network_changed")));
    } else if id !in s.channels {
      LeaveKeeps(s, id, now, c.seed);
    } else if Amount(s.channels[id].charged) <= c.claimed {
      var d := c.(force := false, oldestLegacy := None);
      SaveKeeps(s, id, d);
      LeaveKeeps(Save(s, id, d), id, now, s.channels[id]);
    } else {
      match Blocked(c, Amount(s.channels[id].charged), prep)
      case Some(reason) => WorkerMoves(s, s, id, Returned(reason));
      case None => ReserveKeeps(s, id, prep.value);
    }
  }

  lemma LeaveKeeps(s: State, id: Id, now: u64, channel: Channel)
    requires JournalInv(s) && id in s.cols && s.cols[id].attempt.None?
    ensures JournalInv(Leave(s, id, now, channel))
  {
    hide JournalInv, Attempts, Quiet, Enabled, Live;
    QuietSelf(s);
    RemovalMoves(s, id);
    WorkerMoves(s, s, id, Returned(None));
  }

  lemma ObservedAttempt(c: Collection, answer: Answer, now: u64)
    ensures var d := Observed(c, answer, now); d.attempt == c.attempt && d.seed == c.seed
  {
    hide Unpaid, Larger, Amount;
  }

  lemma SaveKeeps(s: State, id: Id, c: Collection)
    requires JournalInv(s) && SameAttempt(s.cols, id, c)
    ensures JournalInv(Save(s, id, c))
  {
    SaveQuiet(s, id, c);
    hide Tables, Attempts, WorkersOk;
    QuietKeepsTables(s, Save(s, id, c));
  }

  lemma RemovalMoves(s: State, id: Id)
    requires JournalInv(s) && id in s.cols && s.cols[id].attempt.None?
    ensures JournalInv(At(Remove(s, id), id, Returned(None)))
  {
    RemoveQuiet(s, id);
    WorkerMoves(s, Remove(s, id), id, Returned(None));
  }

  lemma PrepareKeeps(s: State, id: Id, outcome: Prepared)
    requires JournalInv(s) && id in s.workers && s.workers[id].Preparing?
    ensures JournalInv(PrepareDone(s, id, s.workers[id].attempt, outcome))
  {
    hide JournalInv, Abandon, Attempts, Quiet, JournalAndSend, Reserved, AfterReserve;
    var a := s.workers[id].attempt;
    WorkerHolds(s, id);
    FindAttempt(s.cols, id);
    match outcome
    case Unprepared(e) => AbandonAsStored(s, id, a, Returned(Some(e)));
    case AlreadyMined => AbandonAsStored(s, id, a, Returned(None));
    case SignFailed(pending, e) =>
      var nonce := Reserved(s.nonces, a.from, pending);
      AbandonReserved(s, id, a, nonce, Returned(Some(e)));
    case Signed(pending, raw, tx) => JournalKeeps(s, id, a, Reserved(s.nonces, a.from, pending), raw, tx);
  }

  lemma FindAttempt(cols: map<Id, Collection>, id: Id)
    requires id in Attempts(cols)
    ensures id in cols && cols[id].attempt == Some(Attempts(cols)[id])
  {
  }

  lemma AbandonReserved(s: State, id: Id, a: Attempt, nonce: nat, w: Worker)
    requires JournalInv(s) && id in s.cols && s.cols[id].attempt == Some(a) && w.Returned?
    ensures JournalInv(At(Abandon(AfterReserve(s, a.from, nonce), id, a.(nonce := Some(nonce))), id, w))
  {
    hide JournalInv, Abandon, Attempts, SatAdd;
    var t0 := AfterReserve(s, a.from, nonce);
    assert t0.(nonces := s.nonces) == s;
    QuietSelf(s);
    AbandonKeeps(s, id, a, w, t0, a.(nonce := Some(nonce)));
  }

  lemma ResumeKeeps(s: State, id: Id, receipt: Receipt)
    requires JournalInv(s) && id in s.workers && s.workers[id].Resuming?
    ensures JournalInv(ResumeDone(s, id, s.workers[id].attempt, receipt))
  {
    hide JournalInv, Attempts, Settle, Fail, Quiet;
    var a := s.workers[id].attempt;
    WorkerHolds(s, id);
    FindAttempt(s.cols, id);
    QuietSelf(s);
    match receipt
    case Unreadable(e) => WorkerMoves(s, s, id, Returned(Some(e)));
    case Pending =>
      if a.nonce.Some? {
        SentMoves(s, id, a.raw.value, a.nonce.value);
      }
    case Settled =>
      if a.tx.Some? {
        SettleKeeps(s, id, a, a.tx.value);
      }
    case Failed =>
      if a.tx.Some? {
        FailKeeps(s, id, a, a.tx.value);
      }
  }

  lemma SentMoves(s: State, id: Id, raw: string, nonce: nat)
    requires JournalInv(s)
    ensures JournalInv(At(Sent(s, id, raw, nonce), id, Sending))
  {
    hide Tables, Attempts, WorkersOk;
    OthersUnmovedSame(Attempts(s.cols), s.workers, id, Sending);
  }

  lemma OthersUnmovedSame(att: map<Id, Attempt>, workers: map<Id, Worker>, id: Id, w: Worker)
    requires WorkersOk(att, workers) && WorkerOk(id, w, att)
    ensures WorkersOk(att, workers[id := w])
  {
    OthersUnmoved(att, att, workers, id, w);
  }

  lemma FireKeeps(s: State, chosen: set<Id>, now: u64)
    requires JournalInv(s)
    ensures JournalInv(Fire(s, chosen, now))
  {
    FireQuiet(s, chosen, now);
    hide Attempts, Tables, Quiet, WorkerOk, NextWakeup, TimerDeadline;
    var t := Fire(s, chosen, now);
    StartingIsOk(Attempts(s.cols), s.workers, t.workers);
    QuietKeepsTables(s, t);
  }

  lemma StartingIsOk(att: map<Id, Attempt>, workers: map<Id, Worker>, workers': map<Id, Worker>)
    requires WorkersOk(att, workers)
    requires forall id :: id in workers' ==> workers'[id].Starting? || (id in workers && workers'[id] == workers[id])
    ensures WorkersOk(att, workers')
  {
  }

  lemma FinishKeeps(s: State, id: Id, now: u64)
    requires JournalInv(s) && id in s.workers && s.workers[id].Returned?
    ensures JournalInv(WorkerFinish(s, id, now))
  {
    FinishQuiet(s, id, now);
    hide Attempts, Tables, Quiet, WorkerOk, WorkerFinish;
    var t := WorkerFinish(s, id, now);
    StartingIsOk(Attempts(s.cols), s.workers, t.workers);
    QuietKeepsTables(s, t);
  }

  lemma UpgradeKeeps(s: State, now: u64)
    requires JournalInv(s)
    ensures JournalInv(Upgrade(s, now))
  {
    UpgradeQuiet(s, now);
    hide Attempts, Tables, Quiet, WorkerOk, Upgrade;
    var t := Upgrade(s, now);
    StartingIsOk(Attempts(s.cols), s.workers, t.workers);
    QuietKeepsTables(s, t);
  }

  lemma ManualKeeps(s: State, scope: Scope, name: string)
    requires JournalInv(s)
    ensures JournalInv(ManualAcquire(s, scope, name)) && JournalInv(Release(s, scope, Manual(name)))
  {
    hide Attempts, Tables, WorkersOk;
    ManualLocks(Attempts(s.cols), s.locks, s.records, s.hist.log, s.hist.serial, scope, name);
  }

  /** What only the ledger, the nonce table or nothing of the journal knows about. */
  lemma LedgerKeeps(s: State, t: State)
    requires JournalInv(s) && t.cols == s.cols && t.locks == s.locks && t.records == s.records && t.workers == s.workers
    requires t.hist.log == s.hist.log && t.hist.serial == s.hist.serial
    ensures JournalInv(t)
  {
    hide Attempts, Tables, WorkersOk;
  }

  /** Write-ahead journal: every step of every message, worker, failure and upgrade keeps attempts,
      locks, records, ledger entries and suspended workers in agreement. */
  lemma StepKeepsJournal(s: State, e: Event)
    requires JournalInv(s) && Ready(s, e)
    ensures JournalInv(Step(s, e))
  {
    hide JournalInv, Quiet, SetEnabled, RequestClaim, UpdateChannel, DeleteChannel, MonitorOutcall, Fire, WorkerStart,
      MonitorDone, PrepareDone, ResumeDone, WorkerFinish, Upgrade, Release, ManualAcquire, Attempts, Earliest, Norm;
    if e.DoSetEnabled? {
      SetEnabledQuiet(s, e.receiver, e.value, e.now, e.accept);
      QuietKeeps(s, Step(s, e));
    } else if e.DoRequestClaim? {
      RequestClaimQuiet(s, e.id, e.now);
      QuietKeeps(s, Step(s, e));
    } else if e.DoUpdate? {
      UpdateQuiet(s, e.id, e.expected, e.next, e.now, e.feeNow, e.signerOk, e.accept);
      QuietKeeps(s, Step(s, e));
    } else if e.DoDelete? {
      DeleteQuiet(s, e.id, e.expected, e.now, e.accept);
      QuietKeeps(s, Step(s, e));
    } else if e.DoFire? {
      FireKeeps(s, e.chosen, e.now);
    } else if e.DoUpgrade? {
      UpgradeKeeps(s, e.now);
    } else {
      RestKeepsJournal(s, e);
    }
  }

  lemma RestKeepsJournal(s: State, e: Event)
    requires JournalInv(s) && Ready(s, e)
    requires !e.DoSetEnabled? && !e.DoRequestClaim? && !e.DoUpdate? && !e.DoDelete? && !e.DoFire? && !e.DoUpgrade?
    ensures JournalInv(Step(s, e))
  {
    hide JournalInv, Quiet, MonitorOutcall, WorkerStart, MonitorDone, PrepareDone, ResumeDone, WorkerFinish, Release,
      ManualAcquire, Deposit, ManualCharge, ManualRefund, ManualNonce, ManualRollback, Attempts;
    if e.DoOutcall? {
      OutcallQuiet(s, e.id, e.cycles);
      QuietKeeps(s, Step(s, e));
    } else if e.DoStart? {
      StartKeeps(s, e.id, e.now, e.config);
    } else if e.DoMonitor? {
      MonitorKeeps(s, e.id, e.now, e.answer, e.sameNetwork, e.prep);
    } else if e.DoPrepare? {
      PrepareKeeps(s, e.id, e.outcome);
    } else if e.DoResume? {
      ResumeKeeps(s, e.id, e.receipt);
    } else if e.DoSent? {
      QuietSelf(s);
      WorkerMoves(s, s, e.id, Returned(None));
    } else if e.DoFinish? {
      FinishKeeps(s, e.id, e.now);
    } else {
      OutsideKeeps(s, e);
    }
  }

  /** The rest of the canister: money, nonces and the locks of manual settlements. */
  lemma OutsideKeeps(s: State, e: Event)
    requires JournalInv(s) && Ready(s, e)
    requires IsLedgerEvent(e)
    ensures JournalInv(Step(s, e))
  {
    hide JournalInv;
    OutsideFrame(s, e);
    if e.DoManualAcquire? || e.DoManualRelease? {
      hide Release, ManualAcquire;
      ManualKeeps(s, e.scope, e.name);
    } else {
      hide Step;
      LedgerKeeps(s, Step(s, e));
    }
  }

  lemma QuietKeeps(s: State, t: State)
    requires JournalInv(s) && Quiet(s, t) && t.workers == s.workers
    ensures JournalInv(t)
  {
    hide Tables, Attempts, WorkersOk;
    QuietKeepsTables(s, t);
  }
}
