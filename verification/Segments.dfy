/** What each segment of a worker leaves, written out field by field for every reachable state
    (rust/facilitator/src/auto_claim.rs:479-791). */
module Segments {
  import opened Accounts
  import opened Wrappers
  import opened Decimal
  import opened HexUtil
  import opened Batch
  import opened Collector
  import opened Journal
  import opened JournalSteps
  import opened Scheduler
  import opened Runs
  import opened AttemptStarts
  import opened Scripts

  // ---- giving an attempt back ----------------------------------------------------------

  /** The attempt is gone with everything it held: lock, record, fee; its entry says so, and the collection
      is forced. Nothing else has changed but the worker and, perhaps, nonces. */
  ghost predicate GivenBack(s: State, t: State, id: Id, a: Attempt, w: Worker) {
    && id in s.cols && id in s.hist.serial && s.hist.serial[id] < |s.hist.log|
    && t.cols == s.cols[id := s.cols[id].(attempt := None, force := true)]
    && t.locks == s.locks - {a.scope} && t.records == s.records - {a.key}
    && t.credit == s.credit[a.scope.seller := SatAdd(Get(s.credit, a.scope.seller), a.fee, U128_MAX)]
    && t.workers == s.workers[id := w]
    && t.channels == s.channels && t.enabled == s.enabled && t.timer == s.timer
    && t.hist.log == s.hist.log[s.hist.serial[id] := s.hist.log[s.hist.serial[id]].(fate := Refunded)]
    && t.hist.serial == s.hist.serial && t.hist.sends == s.hist.sends
  }

  /** The attempt's lock, record and entry before that: it held them. */
  lemma OpenHolds(s: State, id: Id)
    requires JournalInv(s) && id in s.cols && s.cols[id].attempt.Some?
    ensures var a := s.cols[id].attempt.value;
      && a.scope in s.locks && s.locks[a.scope].key == a.key && a.key in s.records && a.scope.seller == Seller(a.channel)
      && id in s.hist.serial && s.hist.serial[id] < |s.hist.log|
      && s.hist.log[s.hist.serial[id]].key == a.key && s.hist.log[s.hist.serial[id]].fee == a.fee
      && (a.raw.None? <==> a.nonce.None?) && (a.raw.None? <==> a.tx.None?)
  {
    hide HeldOk, LocksOk, WorkersOk, Seller;
    AttemptOf(s.cols, id);
    assert Owns(id, Attempts(s.cols)[id], s.locks, s.records, s.hist.log, s.hist.serial);
  }

  lemma AbandonGivesBack(s: State, id: Id, a: Attempt, w: Worker)
    requires id in s.cols && id in s.hist.serial && s.hist.serial[id] < |s.hist.log|
    requires a.scope in s.locks && s.locks[a.scope].key == a.key && a.scope.seller == Seller(a.channel)
    ensures GivenBack(s, At(Abandon(s, id, a), id, w), id, a, w)
    ensures Abandon(s, id, a).nonces == (if a.nonce.Some? then Rollback(s.nonces, a.from, a.nonce.value) else s.nonces)
  {
    hide Seller, Rollback, SatAdd, Get;
    AbandonTables(s, id, a);
    AbandonMoney(s, id, a);
  }

  lemma AbandonMoney(s: State, id: Id, a: Attempt)
    requires id in s.cols
    ensures var t := Abandon(s, id, a);
      && t.credit == s.credit[Seller(a.channel) := SatAdd(Get(s.credit, Seller(a.channel)), a.fee, U128_MAX)]
      && t.enabled == s.enabled && t.timer == s.timer && t.hist.sends == s.hist.sends
      && t.nonces == (if a.nonce.Some? then Rollback(s.nonces, a.from, a.nonce.value) else s.nonces)
  {
    hide Seller, Rollback, SatAdd, Get, Release;
    var s1 := if a.nonce.Some? then RollbackNonce(s, a.from, a.nonce.value) else s;
    ReleaseOnly(AddCredit(s1, Seller(a.channel), a.fee), a.scope, a.key);
  }

  /** An attempt interrupted before its bytes is given back at the next start of its channel's worker, before
      anything is read and whatever the configuration: fee, scope, record and attempt, all at once. */
  lemma InterruptedIsGivenBack(s: State, id: Id, now: u64, config: Option<string>)
    requires Reachable(s) && Ready(s, DoStart(id, now, config))
    requires id in s.cols && s.cols[id].attempt.Some? && s.cols[id].attempt.value.raw.None?
    ensures var a, t := s.cols[id].attempt.value, Step(s, DoStart(id, now, config));
      GivenBack(s, t, id, a, Returned(None)) && t.nonces == s.nonces && a.scope in s.locks && a.key in s.records
  {
    hide Reachable, Inv, JournalInv, Step, GivenBack;
    ReachableInv(s);
    InvJournal(s);
    OpenHolds(s, id);
    StartAbandons(s, id, now, config);
    AbandonGivesBack(s, id, s.cols[id].attempt.value, Returned(None));
    AbandonMoney(s, id, s.cols[id].attempt.value);
  }

  lemma StartAbandons(s: State, id: Id, now: u64, config: Option<string>)
    requires Ready(s, DoStart(id, now, config))
    requires id in s.cols && s.cols[id].attempt.Some? && s.cols[id].attempt.value.raw.None?
    ensures Step(s, DoStart(id, now, config)) == At(Abandon(s, id, s.cols[id].attempt.value), id, Returned(None))
  {
    hide Abandon;
  }

  /** A worker with nothing to give back rests if its collection was monitored, is not forced, and has
      nothing charged above the claimed total and no live reservation; else it reports a missing
      configuration or goes on to monitor. Nothing but the worker changes. */
  lemma StartDecides(s: State, id: Id, now: u64, config: Option<string>)
    requires Ready(s, DoStart(id, now, config)) && id in s.cols
    requires s.cols[id].attempt.Some? ==> s.cols[id].attempt.value.raw.Some?
    ensures var c := s.cols[id];
      var rests := c.attempt.None? && c.monitoredAt.Some? && !c.force && id in s.channels && Charged(s, id) <= c.claimed
        && (s.channels[id].pending.Some? ==> s.channels[id].pending.value.expiresAt <= MillisOf(Seconds(now)));
      Step(s, DoStart(id, now, config)) ==
        s.(workers := s.workers[id := if rests then Returned(None) else if config.Some? then Returned(config) else Monitoring])
  {
    hide Amount, MillisOf, Seconds;
  }

  // ---- prepare -------------------------------------------------------------------------

  lemma PreparingHolds(s: State, id: Id)
    requires Reachable(s) && id in s.workers && s.workers[id].Preparing?
    ensures id in s.cols && s.cols[id].attempt == Some(s.workers[id].attempt)
    ensures s.workers[id].attempt.raw.None? && s.workers[id].attempt.nonce.None? && JournalInv(s)
  {
    hide Reachable, Inv;
    JournalNeverMissing(s, id);
    ReachableInv(s);
    InvJournal(s);
  }

  lemma SignFailedGivesBack(s: State, id: Id, a: Attempt, pending: nat, error: string)
    requires id in s.cols && id in s.hist.serial && s.hist.serial[id] < |s.hist.log| && a.nonce.None?
    requires a.scope in s.locks && s.locks[a.scope].key == a.key && a.scope.seller == Seller(a.channel)
    ensures var t := PrepareDone(s, id, a, SignFailed(pending, error));
      GivenBack(s, t, id, a, Returned(Some(error)))
      && t.nonces == s.nonces[a.from := Reserved(s.nonces, a.from, pending)]
  {
    hide Seller, Abandon, Reserved, SatAdd;
    var nonce := Reserved(s.nonces, a.from, pending);
    AbandonGivesBack(AfterReserve(s, a.from, nonce), id, a.(nonce := Some(nonce)), Returned(Some(error)));
  }

  /** Prepare fails, or the channel turns out to be settled already: everything is given back. A nonce that
      was reserved for a signature that failed stays the sender's next one. */
  lemma UnsentIsGivenBack(s: State, id: Id, outcome: Prepared)
    requires Reachable(s) && Ready(s, DoPrepare(id, outcome)) && !outcome.Signed?
    ensures var a, t := s.workers[id].attempt, Step(s, DoPrepare(id, outcome));
      && id in s.cols && s.cols[id].attempt == Some(a)
      && GivenBack(s, t, id, a, Returned(if outcome.AlreadyMined? then None else Some(outcome.error)))
      && t.nonces == (if outcome.SignFailed? then s.nonces[a.from := Reserved(s.nonces, a.from, outcome.pendingNonce)]
                      else s.nonces)
  {
    hide Reachable, JournalInv, Abandon, GivenBack, Seller, Reserved, Advance;
    var a := s.workers[id].attempt;
    PreparingHolds(s, id);
    OpenHolds(s, id);
    match outcome
    case Unprepared(e) => AbandonGivesBack(s, id, a, Returned(Some(e)));
    case AlreadyMined => AbandonGivesBack(s, id, a, Returned(None));
    case SignFailed(pending, e) => SignFailedGivesBack(s, id, a, pending, e);
  }

  /** Signed: nonce, bytes and hash reach the attempt, its lock and its record, the sender's next nonce moves
      past it, and only then the bytes are sent. */
  lemma SignedIsJournaled(s: State, id: Id, pending: nat, raw: string, tx: string)
    requires Reachable(s) && Ready(s, DoPrepare(id, Signed(pending, raw, tx)))
    ensures var a, t := s.workers[id].attempt, Step(s, DoPrepare(id, Signed(pending, raw, tx)));
      var nonce := Reserved(s.nonces, a.from, pending);
      && id in s.cols && s.cols[id].attempt == Some(a)
      && t.cols == s.cols[id := s.cols[id].(attempt := Some(a.(nonce := Some(nonce), raw := Some(raw), tx := Some(tx))))]
      && t.locks == s.locks[a.scope := Lock(a.key, Some(nonce), Some(tx))] && t.records == s.records[a.key := Broadcast(tx)]
      && t.nonces == s.nonces[a.from := SatAdd(nonce, 1, U128_MAX)] && t.credit == s.credit
      && t.workers == s.workers[id := Sending] && t.channels == s.channels && t.enabled == s.enabled && t.timer == s.timer
      && t.hist.serial == s.hist.serial
      && |t.hist.sends| == |s.hist.sends| + 1 && t.hist.sends[|s.hist.sends|].raw == raw
      && t.hist.sends[|s.hist.sends|].nonce == nonce
  {
    hide Reachable, JournalInv, Reserved, SatAdd;
    PreparingHolds(s, id);
    OpenHolds(s, id);
  }

  // ---- resume --------------------------------------------------------------------------

  lemma ResumingHolds(s: State, id: Id)
    requires Reachable(s) && id in s.workers && s.workers[id].Resuming?
    ensures id in s.cols && s.cols[id].attempt == Some(s.workers[id].attempt) && JournalInv(s)
    ensures var a := s.workers[id].attempt;
      && a.raw.Some? && a.nonce.Some? && a.tx.Some? && id in s.hist.serial
      && a.scope in s.locks && s.locks[a.scope].key == a.key
  {
    hide Reachable, Inv, JournalInv, Seller;
    JournalNeverMissing(s, id);
    ReachableInv(s);
    InvJournal(s);
    OpenHolds(s, id);
  }

  /** A receipt that cannot be read changes nothing: the worker returns the error. */
  lemma UnreadableChangesNothing(s: State, id: Id, error: string)
    requires Ready(s, DoResume(id, Unreadable(error)))
    ensures Step(s, DoResume(id, Unreadable(error))) == s.(workers := s.workers[id := Returned(Some(error))])
  {
  }

  /** No receipt yet: the journaled bytes are sent once more, and nothing else changes. */
  lemma PendingSendsAgain(s: State, id: Id)
    requires Reachable(s) && Ready(s, DoResume(id, Receipt.Pending))
    ensures var a := s.workers[id].attempt;
      && id in s.cols && s.cols[id].attempt == Some(a) && a.raw.Some? && a.nonce.Some? && id in s.hist.serial
      && Step(s, DoResume(id, Receipt.Pending)) ==
         s.(workers := s.workers[id := Sending],
            hist := s.hist.(sends := s.hist.sends + [Send(s.hist.serial[id], a.raw.value, a.nonce.value)]))
  {
    hide Reachable, JournalInv;
    ResumingHolds(s, id);
  }

  /** Settled: everything up to the target is paid, the attempt and its lock are gone, the record says so, and
      nothing else changes. */
  lemma SettledPays(s: State, id: Id)
    requires Reachable(s) && Ready(s, DoResume(id, Receipt.Settled))
    ensures var a := s.workers[id].attempt;
      && id in s.cols && s.cols[id].attempt == Some(a) && a.tx.Some?
      && var c, paid := s.cols[id], Larger(s.cols[id].claimed, a.target);
         Step(s, DoResume(id, Receipt.Settled)) ==
           s.(cols := s.cols[id := c.(claimed := paid, charges := Unpaid(c.charges, paid), oldestLegacy := None, attempt := None)],
              locks := s.locks - {a.scope}, records := s.records[a.key := SettledTx(a.tx.value)],
              workers := s.workers[id := Returned(None)])
  {
    hide Reachable, JournalInv, Unpaid, Amount;
    ResumingHolds(s, id);
  }

  /** Reverted: the attempt and its lock are gone, the record says so, the collection is halted, forced and
      carries the error, and nothing else changes: the fee is spent. */
  lemma FailedHalts(s: State, id: Id)
    requires Reachable(s) && Ready(s, DoResume(id, Receipt.Failed))
    ensures var a := s.workers[id].attempt;
      && id in s.cols && s.cols[id].attempt == Some(a) && a.tx.Some?
      && Step(s, DoResume(id, Receipt.Failed)) ==
           s.(cols := s.cols[id := s.cols[id].(attempt := None, force := true, halted := true,
                                               error := Some("claim_reverted_manual_retry_required"))],
              locks := s.locks - {a.scope}, records := s.records[a.key := FailedTx(a.tx.value)],
              workers := s.workers[id := Returned(None)])
  {
    hide Reachable, JournalInv;
    ResumingHolds(s, id);
  }

  // ---- the monitor's answer ------------------------------------------------------------

  /** What an answer writes, whatever the worker does next. */
  ghost predicate Reads(c: Collection, d: Collection, answer: Answer, now: u64) {
    && d.withdrawalAt == answer.withdrawal && d.balance == answer.balance && d.monitoredAt == Some(Seconds(now))
    && d.error == (if c.halted then c.error else None) && d.halted == c.halted
    && d.claimed == PaidSoFar(c, answer) && d.charges == Unpaid(c.charges, d.claimed)
    && d.seed == c.seed && d.nextDue == c.nextDue
  }

  /** What the answer wrote is left alone. */
  ghost predicate SameReading(c: Collection, d: Collection) {
    && d.withdrawalAt == c.withdrawalAt && d.balance == c.balance && d.monitoredAt == c.monitoredAt
    && d.error == c.error && d.halted == c.halted && d.claimed == c.claimed && d.charges == c.charges
    && d.seed == c.seed && d.nextDue == c.nextDue
  }

  ghost predicate KeepsReading(s: State, t: State, id: Id) {
    id in s.cols && (id in t.cols ==> SameReading(s.cols[id], t.cols[id]))
  }

  lemma ContinueReads(s: State, id: Id, now: u64, sameNetwork: bool, prep: Result<Prep, string>)
    requires id in s.cols
    ensures KeepsReading(s, Continue(s, id, now, sameNetwork, prep), id)
  {
    hide Leave, Amount, Reserve, Blocked, KeepsReading, At;
    var c := s.cols[id];
    StaysRead(s, id);
    if c.attempt.None? && id !in s.channels {
      LeaveReads(s, s, id, now, c.seed);
    } else if c.attempt.None? && Charged(s, id) <= c.claimed {
      SavedReads(s, id);
      LeaveReads(s, Save(s, id, c.(force := false, oldestLegacy := None)), id, now, s.channels[id]);
    } else if c.attempt.None? && prep.Ok? {
      ReserveReads(s, id, prep.value);
    }
  }

  lemma StaysRead(s: State, id: Id)
    requires id in s.cols
    ensures KeepsReading(s, s, id) && forall w: Worker :: KeepsReading(s, At(s, id, w), id)
  {
  }

  lemma SavedReads(s: State, id: Id)
    requires id in s.cols
    ensures KeepsReading(s, Save(s, id, s.cols[id].(force := false, oldestLegacy := None)), id)
  {
  }

  lemma LeaveReads(s: State, mid: State, id: Id, now: u64, channel: Channel)
    requires KeepsReading(s, mid, id)
    ensures KeepsReading(s, Leave(mid, id, now, channel), id)
  {
    hide Enabled, Live, SameReading;
  }

  lemma ReserveReads(s: State, id: Id, p: Prep)
    requires id in s.cols && id in s.channels
    ensures KeepsReading(s, Reserve(s, id, p), id)
  {
    hide NewAttempt, Begin, Release, Get, SameReading;
    var a := NewAttempt(s, id, p);
    FeeOfPrep(s, id, p);
    ReleaseOnly(s, a.scope, a.key);
    SameReadingSelf(s.cols[id]);
    if a.fee <= Get(s.credit, a.scope.seller) {
      BeginReads(s, id, a);
    }
  }

  lemma SameReadingSelf(c: Collection)
    ensures SameReading(c, c)
  {
  }

  lemma BeginReads(s: State, id: Id, a: Attempt)
    requires id in s.cols && a.fee <= Get(s.credit, a.scope.seller)
    ensures id in Begin(s, id, a).cols && SameReading(s.cols[id], Begin(s, id, a).cols[id])
  {
    hide Enabled, Amount, Get;
  }

  /** After every answer whose collection stays registered: withdrawal, balance and time of the reading are
      those of the answer, the error is forgotten unless the collection was halted, the claimed total is the
      larger of the two, and what it covers is off the list. */
  lemma AnswerIsRead(s: State, e: Event)
    requires Ready(s, e) && e.DoMonitor? && e.answer.Ok? && e.id in s.cols && e.id in Step(s, e).cols
    ensures Reads(s.cols[e.id], Step(s, e).cols[e.id], e.answer.value, e.now)
  {
    hide Continue, Unpaid, Amount, Seconds, PaidSoFar;
    var c := Observed(s.cols[e.id], e.answer.value, e.now);
    assert Reads(s.cols[e.id], c, e.answer.value, e.now) by { ObservedReads(s.cols[e.id], e.answer.value, e.now); }
    hide Observed;
    ContinueReads(Save(s, e.id, c), e.id, e.now, e.sameNetwork, e.prep);
    MonitorContinues(s, e);
  }

  lemma ObservedReads(c: Collection, answer: Answer, now: u64)
    ensures Reads(c, Observed(c, answer, now), answer, now)
  {
    hide Unpaid, Amount, Seconds;
  }

  /** Without an answer nothing changes but the worker, which returns the error. */
  lemma NoAnswerChangesNothing(s: State, e: Event)
    requires Ready(s, e) && e.DoMonitor? && e.answer.Err?
    ensures Step(s, e) == s.(workers := s.workers[e.id := Returned(Some(e.answer.error))])
  {
  }

  /** With an attempt in flight the worker resumes that very attempt, or stops if the network has changed. */
  lemma AttemptComesFirst(s: State, e: Event)
    requires Ready(s, e) && e.DoMonitor? && e.answer.Ok? && e.id in s.cols && s.cols[e.id].attempt.Some?
    ensures var t := Step(s, e);
      && t == s.(cols := t.cols, workers := t.workers) && e.id in t.cols && t.cols == s.cols[e.id := t.cols[e.id]]
      && t.cols[e.id].attempt == s.cols[e.id].attempt
      && t.workers == s.workers[e.id := if e.sameNetwork then Resuming(s.cols[e.id].attempt.value)
                                       else Returned(Some("auto_claim_network_changed"))]
  {
    hide Observed;
    ObservedAttempt(s.cols[e.id], e.answer.value, e.now);
  }

  /** The attempt a beginning segment takes, and the words of the one that does not. */
  function TakenAttempt(s: State, e: Event): Attempt
    requires e.DoMonitor? && e.id in s.cols && e.id in s.channels && e.prep.Ok?
  {
    var channel, p := s.channels[e.id], e.prep.value;
    Attempt(Auto(e.id, Charged(s, e.id), s.cols[e.id].attemptSequence + 1), channel, Charged(s, e.id), p.from, p.contract,
            p.chainId, Scope(Lower(p.from), Seller(channel)), p.fee, None, None, None)
  }

  lemma ReserveTakes(s: State, e: Event)
    requires e.DoMonitor? && e.id in s.cols && e.id in s.channels && e.prep.Ok?
    requires TakenAttempt(s, e).scope !in s.locks && e.prep.value.fee <= Get(s.credit, Seller(s.channels[e.id]))
    ensures var a, c, t := TakenAttempt(s, e), s.cols[e.id], Reserve(s, e.id, e.prep.value);
      && t.cols == s.cols[e.id := c.(attempt := Some(a), attemptSequence := c.attemptSequence + 1,
                                     force := !Enabled(s.enabled, s.channels[e.id])
                                              || (c.force && Amount(c.seed.charged) > Charged(s, e.id)))]
      && t.locks == s.locks[a.scope := Lock(a.key, None, None)] && t.records == s.records[a.key := Checking]
      && t.credit == s.credit[a.scope.seller := Get(s.credit, a.scope.seller) - a.fee]
      && t.workers == s.workers[e.id := Preparing(a)]
      && t.channels == s.channels && t.enabled == s.enabled && t.nonces == s.nonces && t.timer == s.timer
  {
    hide Amount, Seller, Lower, Enabled, Get;
  }

  /** A beginning attempt is the channel as stored, for its whole charged total, under the next number; its scope is
      locked, its fee off the seller's credit, its record open, and its worker prepares it. A claim that takes
      everything leaves the collection forced only where the seller is disabled. */
  lemma AttemptTakes(s: State, e: Event)
    requires Reachable(s) && Ready(s, e) && e.DoMonitor? && Starts(s, e)
    ensures var a, c, t := TakenAttempt(s, e), s.cols[e.id], Step(s, e);
      && e.id in t.cols && t.cols[e.id].attempt == Some(a) && t.cols[e.id].attemptSequence == c.attemptSequence + 1
      && t.cols[e.id].force == (Lower(s.channels[e.id].config.receiver) !in s.enabled
           || ((c.force || e.answer.value.withdrawal > 0) && Amount(c.seed.charged) > Charged(s, e.id)))
      && t.locks == s.locks[a.scope := Lock(a.key, None, None)] && t.records == s.records[a.key := Checking]
      && t.credit == s.credit[a.scope.seller := Get(s.credit, a.scope.seller) - a.fee]
      && t.workers == s.workers[e.id := Preparing(a)]
  {
    hide Reachable, Observed, Continue, Amount, Seller, Lower, Get, Unpaid, Blocked, Reserve;
    var s1 := Save(s, e.id, Observed(s.cols[e.id], e.answer.value, e.now));
    ObservedFields(s.cols[e.id], e.answer.value, e.now);
    ObservedSeedIs(s.cols[e.id], e.answer.value, e.now);
    MonitorContinues(s, e);
    StartsIsBegins(s, e);
    ContinueBegins(s1, e);
    ReserveTakes(s1, e);
  }

  lemma ObservedSeedIs(c: Collection, answer: Answer, now: u64)
    ensures Observed(c, answer, now).seed == c.seed
  {
    hide Unpaid, Amount;
  }

  lemma ContinueBegins(s: State, e: Event)
    requires e.DoMonitor? && e.id in s.cols && Begins(s, e.id, e.prep)
    ensures Continue(s, e.id, e.now, e.sameNetwork, e.prep) == Reserve(s, e.id, e.prep.value)
  {
    hide Reserve, Leave, Amount, Blocked, Seller, Lower, Get;
  }

  /** Why a worker with something to collect stops before its scope is locked, in the order of the checks. */
  function StopWord(s: State, e: Event): Option<string>
    requires e.DoMonitor? && e.answer.Ok? && e.id in s.cols && e.id in s.channels
  {
    var c, answer := s.cols[e.id], e.answer.value;
    if c.halted || !(c.force || answer.withdrawal > 0 || |Unpaid(c.charges, PaidSoFar(c, answer))| >= 100) then None
    else if Charged(s, e.id) > answer.balance then Some("insufficient_channel_balance")
    else if e.prep.Err? then Some(e.prep.error)
    else if c.attemptSequence >= U64_MAX then Some("attempt sequence exhausted")
    else if Scope(Lower(e.prep.value.from), Seller(s.channels[e.id])) in s.locks then Some("settlement_queue_busy")
    else Some("seller credit is below required fee")
  }

  /** The same once the answer is written. */
  function StopWordNow(s: State, e: Event): Option<string>
    requires e.DoMonitor? && e.id in s.cols && e.id in s.channels
  {
    var c := s.cols[e.id];
    if c.halted || !(c.force || |c.charges| >= 100) then None
    else if Charged(s, e.id) > c.balance then Some("insufficient_channel_balance")
    else if e.prep.Err? then Some(e.prep.error)
    else if c.attemptSequence >= U64_MAX then Some("attempt sequence exhausted")
    else if Scope(Lower(e.prep.value.from), Seller(s.channels[e.id])) in s.locks then Some("settlement_queue_busy")
    else Some("seller credit is below required fee")
  }

  lemma StopWordIs(s: State, e: Event)
    requires e.DoMonitor? && e.answer.Ok? && e.id in s.cols && e.id in s.channels
    ensures StopWord(s, e) == StopWordNow(Save(s, e.id, Observed(s.cols[e.id], e.answer.value, e.now)), e)
  {
    hide Observed, Amount, Seller, Lower, Unpaid;
    ObservedFields(s.cols[e.id], e.answer.value, e.now);
  }

  /** A worker that has something to collect and begins no attempt says why. */
  lemma StopSaysWhy(s: State, e: Event)
    requires Reachable(s) && Ready(s, e) && e.DoMonitor? && e.answer.Ok? && e.id in s.cols && e.id in s.channels
    requires s.cols[e.id].attempt.None? && PaidSoFar(s.cols[e.id], e.answer.value) < Charged(s, e.id) && !Starts(s, e)
    ensures Step(s, e).workers == s.workers[e.id := Returned(StopWord(s, e))]
    ensures Step(s, e).locks == s.locks && Step(s, e).credit == s.credit
  {
    hide Reachable, Inv, JournalInv, Observed, Continue, Amount, Seller, Lower, Get, Unpaid, Step, StopWord, StopWordNow,
      Starts, Begins;
    ReachableInv(s);
    InvJournal(s);
    var s1 := Save(s, e.id, Observed(s.cols[e.id], e.answer.value, e.now));
    ObservedFields(s.cols[e.id], e.answer.value, e.now);
    ObservedKeepsJournal(s, e);
    MonitorContinues(s, e);
    StartsIsBegins(s, e);
    StopWordIs(s, e);
    StopsWith(s1, e);
  }

  lemma StopsWith(s: State, e: Event)
    requires JournalInv(s) && e.DoMonitor? && e.id in s.cols && e.id in s.channels
    requires s.cols[e.id].attempt.None? && s.cols[e.id].claimed < Charged(s, e.id) && !Begins(s, e.id, e.prep)
    ensures var t := Continue(s, e.id, e.now, e.sameNetwork, e.prep);
      && t.locks == s.locks && t.credit == s.credit
      && t.workers == s.workers[e.id := Returned(StopWordNow(s, e))]
  {
    hide JournalInv, Amount, Seller, Lower, Get, Reserve, Leave, Blocked, StopWordNow, Begins;
    BlockedWord(s, e);
    if Blocked(s.cols[e.id], Charged(s, e.id), e.prep).None? {
      NotBegins(s, e);
      ReserveStops(s, e);
    }
  }

  lemma BlockedWord(s: State, e: Event)
    requires e.DoMonitor? && e.id in s.cols && e.id in s.channels
    ensures var blocked := Blocked(s.cols[e.id], Charged(s, e.id), e.prep);
      StopWordNow(s, e) == if blocked.Some? then blocked.value
                           else if Scope(Lower(e.prep.value.from), Seller(s.channels[e.id])) in s.locks
                           then Some("settlement_queue_busy") else Some("seller credit is below required fee")
  {
    hide Amount, Seller, Lower;
  }

  lemma NotBegins(s: State, e: Event)
    requires e.DoMonitor? && e.id in s.cols && e.id in s.channels && e.prep.Ok?
    requires s.cols[e.id].attempt.None? && s.cols[e.id].claimed < Charged(s, e.id) && !Begins(s, e.id, e.prep)
    requires Blocked(s.cols[e.id], Charged(s, e.id), e.prep).None?
    ensures Scope(Lower(e.prep.value.from), Seller(s.channels[e.id])) !in s.locks ==>
      e.prep.value.fee > Get(s.credit, Seller(s.channels[e.id]))
  {
    hide Amount, Seller, Lower, Get, Blocked;
  }

  lemma StopsKeepCollections(s: State, e: Event)
    requires JournalInv(s) && e.DoMonitor? && e.id in s.cols && e.id in s.channels
    requires s.cols[e.id].attempt.None? && s.cols[e.id].claimed < Charged(s, e.id) && !Begins(s, e.id, e.prep)
    ensures Continue(s, e.id, e.now, e.sameNetwork, e.prep).cols == s.cols
  {
    hide JournalInv, Amount, Seller, Lower, Get, Reserve, Leave, Blocked;
    if Blocked(s.cols[e.id], Charged(s, e.id), e.prep).None? {
      ReserveStops(s, e);
    }
  }

  lemma ReserveStops(s: State, e: Event)
    requires JournalInv(s) && e.DoMonitor? && e.id in s.cols && e.id in s.channels && e.prep.Ok?
    requires s.cols[e.id].attempt.None?
    ensures var p, seller, t := e.prep.value, Seller(s.channels[e.id]), Reserve(s, e.id, e.prep.value);
      && (Scope(Lower(p.from), seller) in s.locks ==>
            t == s.(workers := s.workers[e.id := Returned(Some("settlement_queue_busy"))]))
      && (Scope(Lower(p.from), seller) !in s.locks && p.fee > Get(s.credit, seller) ==>
            t == s.(workers := s.workers[e.id := Returned(Some("seller credit is below required fee"))]))
  {
    hide JournalInv, Amount, Seller, Lower, Get, Enabled;
    ScopeWasFree(s, e.id, e.prep.value);
  }

  /** The collection has nothing in flight and nothing left to collect once the answer is counted. */
  predicate NothingLeft(s: State, e: Event)
    requires e.DoMonitor? && e.answer.Ok? && e.id in s.cols
  {
    && s.cols[e.id].attempt.None?
    && (e.id in s.channels ==> Charged(s, e.id) <= PaidSoFar(s.cols[e.id], e.answer.value))
  }

  /** With nothing left to collect the worker is done, and no longer forced where a channel is stored. */
  lemma NothingLeftRests(s: State, e: Event)
    requires Ready(s, e) && e.DoMonitor? && e.answer.Ok? && e.id in s.cols && NothingLeft(s, e)
    ensures var c, t := s.cols[e.id], Step(s, e);
      && t.workers == s.workers[e.id := Returned(None)]
      && t.locks == s.locks && t.credit == s.credit && t.records == s.records && t.hist == s.hist
      && (e.id in t.cols ==> if e.id in s.channels then !t.cols[e.id].force && t.cols[e.id].oldestLegacy.None?
                             else t.cols[e.id].force == (c.force || e.answer.value.withdrawal > 0))
  {
    hide Observed, Continue, Unpaid, Amount, Leave;
    var c := Observed(s.cols[e.id], e.answer.value, e.now);
    ObservedFields(s.cols[e.id], e.answer.value, e.now);
    MonitorContinues(s, e);
    RestsHere(Save(s, e.id, c), e);
  }

  lemma RestsHere(s: State, e: Event)
    requires e.DoMonitor? && e.id in s.cols && s.cols[e.id].attempt.None?
    requires e.id in s.channels ==> Charged(s, e.id) <= s.cols[e.id].claimed
    ensures var c, t := s.cols[e.id], Continue(s, e.id, e.now, e.sameNetwork, e.prep);
      && t.workers == s.workers[e.id := Returned(None)]
      && t.locks == s.locks && t.credit == s.credit && t.records == s.records && t.hist == s.hist
      && (e.id in t.cols ==>
            t.cols[e.id] == if e.id in s.channels then c.(force := false, oldestLegacy := None) else c)
  {
    hide Amount, Reserve, Blocked, Leave;
    var c := s.cols[e.id];
    if e.id in s.channels {
      LeaveRests(Save(s, e.id, c.(force := false, oldestLegacy := None)), e.id, e.now, s.channels[e.id]);
    } else {
      LeaveRests(s, e.id, e.now, c.seed);
    }
  }

  lemma LeaveRests(s: State, id: Id, now: u64, channel: Channel)
    ensures var t := Leave(s, id, now, channel);
      && t.workers == s.workers[id := Returned(None)]
      && t.locks == s.locks && t.credit == s.credit && t.records == s.records && t.hist == s.hist
      && (id in t.cols ==> id in s.cols && t.cols[id] == s.cols[id])
  {
    hide Enabled, Live;
  }

  /** After every answer whose collection stays registered: forced if it was or a withdrawal is under way, except
      that a claim takes the force along unless the seller is disabled or more than it takes is charged, and that
      nothing to collect ends it. */
  lemma ForceAfterAnswer(s: State, e: Event)
    requires Reachable(s) && Ready(s, e) && e.DoMonitor? && e.answer.Ok? && e.id in s.cols && e.id in Step(s, e).cols
    ensures var c, forced := s.cols[e.id], s.cols[e.id].force || e.answer.value.withdrawal > 0;
      Step(s, e).cols[e.id].force ==
        if NothingLeft(s, e) then e.id !in s.channels && forced
        else if Starts(s, e) then
          Lower(s.channels[e.id].config.receiver) !in s.enabled || (forced && Amount(c.seed.charged) > Charged(s, e.id))
        else forced
  {
    hide Reachable, Inv, JournalInv, Observed, Continue, Amount, Lower, Get, Unpaid, Seller;
    var s1 := Save(s, e.id, Observed(s.cols[e.id], e.answer.value, e.now));
    ObservedFields(s.cols[e.id], e.answer.value, e.now);
    MonitorContinues(s, e);
    if NothingLeft(s, e) {
      NothingLeftRests(s, e);
    } else if Starts(s, e) {
      AttemptTakes(s, e);
    } else if s.cols[e.id].attempt.Some? {
      InFlightContinues(s1, e);
    } else {
      ReachableInv(s);
      InvJournal(s);
      ObservedKeepsJournal(s, e);
      StartsIsBegins(s, e);
      StopsKeepCollections(s1, e);
    }
  }

  lemma InFlightContinues(s: State, e: Event)
    requires e.DoMonitor? && e.id in s.cols && s.cols[e.id].attempt.Some?
    ensures Continue(s, e.id, e.now, e.sameNetwork, e.prep).cols == s.cols
  {
  }

  // ---- outcalls and sends --------------------------------------------------------------

  /** A monitor outcall counts itself and its cycles, each up to its width, and does nothing else. */
  lemma OutcallCounts(s: State, id: Id, cycles: nat)
    requires Ready(s, DoOutcall(id, cycles))
    ensures var t := Step(s, DoOutcall(id, cycles));
      && t == s.(cols := t.cols) && t.cols.Keys == s.cols.Keys && (forall i :: i in s.cols && i != id ==> t.cols[i] == s.cols[i])
      && (id in s.cols ==>
            var c := s.cols[id];
            t.cols[id] == c.(monitorCalls := if c.monitorCalls >= U64_MAX then U64_MAX else c.monitorCalls + 1,
                             monitorCycles := if c.monitorCycles + cycles > U128_MAX then U128_MAX
                                              else c.monitorCycles + cycles))
  {
  }

  /** However a send ends, the journal stays as it is. */
  lemma SendChangesNothing(s: State, id: Id)
    requires Ready(s, DoSent(id))
    ensures Step(s, DoSent(id)) == s.(workers := s.workers[id := Returned(None)])
  {
  }

  // ---- the epilogue --------------------------------------------------------------------

  /** After a worker its slot is free; its error stays on the collection; and the collection sleeps if nothing
      is in flight, forced, unclaimed or reserved, and is due in a minute otherwise. */
  lemma EpilogueWrites(s: State, id: Id, now: u64)
    requires Ready(s, DoFinish(id, now))
    ensures var t := Step(s, DoFinish(id, now));
      && t.workers == s.workers - {id} && t.channels == s.channels && t.locks == s.locks && t.credit == s.credit
      && t.cols.Keys == s.cols.Keys && (forall i :: i in s.cols && i != id ==> t.cols[i] == s.cols[i])
      && (id in s.cols ==>
            var c := s.cols[id];
            var sleeps := c.attempt.None? && !c.force && id in s.channels && Charged(s, id) <= c.claimed
              && (s.channels[id].pending.Some? ==> s.channels[id].pending.value.expiresAt <= MillisOf(Seconds(now)));
            t.cols[id] == c.(error := if s.workers[id].error.Some? then s.workers[id].error else c.error,
                             nextDue := if sleeps then U64_MAX else SatAdd(Seconds(now), 60, U64_MAX)))
  {
    hide WorkerFinish, Rested, TimerOk, MillisOf, Seconds, SatAdd, Amount;
    FinishLeaves(s, id, now);
    if id in s.cols {
      RestedIs(s, id, now);
    }
  }

  lemma RestedIs(s: State, id: Id, now: u64)
    requires id in s.cols && id in s.workers && s.workers[id].Returned?
    ensures var c := s.cols[id];
      var sleeps := c.attempt.None? && !c.force && id in s.channels && Charged(s, id) <= c.claimed
        && (s.channels[id].pending.Some? ==> s.channels[id].pending.value.expiresAt <= MillisOf(Seconds(now)));
      Rested(s, id, now) == c.(error := if s.workers[id].error.Some? then s.workers[id].error else c.error,
                               nextDue := if sleeps then U64_MAX else SatAdd(Seconds(now), 60, U64_MAX))
  {
    hide Amount, MillisOf, Seconds, SatAdd;
  }
}
