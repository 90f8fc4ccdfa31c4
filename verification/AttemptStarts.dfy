/** When a worker begins an attempt, and with what: the exact condition on the state and on the answers
    it gets (rust/facilitator/src/auto_claim.rs:535-622). */
module AttemptStarts {
  import opened Accounts
  import opened Wrappers
  import opened Decimal
  import opened HexUtil
  import opened Batch
  import opened Collector
  import opened Journal
  import opened JournalSteps
  import opened LedgerSteps
  import opened Sequences
  import opened Runs

  /** The claimed total after the monitor's answer. */
  function PaidSoFar(c: Collection, answer: Answer): nat {
    Larger(c.claimed, answer.claimed)
  }

  /** Everything a new attempt needs. */
  predicate Starts(s: State, e: Event)
    requires e.DoMonitor?
  {
    && e.answer.Ok? && e.prep.Ok? && e.id in s.cols && e.id in s.channels
    && var c, answer, p, channel := s.cols[e.id], e.answer.value, e.prep.value, s.channels[e.id];
       && c.attempt.None? && !c.halted && c.attemptSequence < U64_MAX
       && (c.force || answer.withdrawal > 0 || |Unpaid(c.charges, PaidSoFar(c, answer))| >= 100)
       && PaidSoFar(c, answer) < Charged(s, e.id) <= answer.balance
       && Scope(Lower(p.from), Seller(channel)) !in s.locks
       && p.fee <= Get(s.credit, Seller(channel))
  }

  function FirstEntry(s: State, e: Event): Entry
    requires e.DoMonitor? && Starts(s, e)
  {
    var channel, p := s.channels[e.id], e.prep.value;
    Entry(Auto(e.id, Charged(s, e.id), s.cols[e.id].attemptSequence + 1), Seller(channel), p.from, p.fee, Held)
  }

  lemma ObservedFields(c: Collection, answer: Answer, now: u64)
    ensures var d := Observed(c, answer, now);
      && d.attempt == c.attempt && d.halted == c.halted && d.attemptSequence == c.attemptSequence
      && d.balance == answer.balance && d.force == (c.force || answer.withdrawal > 0)
      && d.claimed == PaidSoFar(c, answer) && d.charges == Unpaid(c.charges, PaidSoFar(c, answer))
  {
    hide Unpaid, Amount;
  }

  /** Reserving succeeds exactly when the scope is free and the fee is there. */
  lemma ReserveStarts(s: State, id: Id, p: Prep)
    requires JournalInv(s) && id in s.cols && id in s.channels && s.cols[id].attempt.None?
    ensures var seller, t := Seller(s.channels[id]), Reserve(s, id, p);
      if Scope(Lower(p.from), seller) !in s.locks && p.fee <= Get(s.credit, seller) then
        t.hist.log == s.hist.log + [Entry(Auto(id, Charged(s, id), s.cols[id].attemptSequence + 1), seller, p.from, p.fee, Held)]
        && id in t.cols && t.cols[id].attempt == Some(NewAttempt(s, id, p))
      else t.hist.log == s.hist.log
  {
    hide Seller, Attempts, Tables, WorkersOk, Enabled, Amount, Get, Lower;
    ScopeWasFree(s, id, p);
  }

  lemma ContinueStarts(s: State, e: Event)
    requires JournalInv(s) && e.DoMonitor? && e.id in s.cols
    ensures var id, c, t := e.id, s.cols[e.id], Continue(s, e.id, e.now, e.sameNetwork, e.prep);
      if c.attempt.None? && id in s.channels && c.claimed < Charged(s, id) && Blocked(c, Charged(s, id), e.prep).None?
      then t == Reserve(s, id, e.prep.value) else t.hist.log == s.hist.log
  {
    hide JournalInv, Reserve, Leave, Amount, Blocked;
    LeaveLedger(s, e.id, e.now, s.cols[e.id].seed);
    if e.id in s.channels {
      LeaveLedger(Save(s, e.id, s.cols[e.id].(force := false, oldestLegacy := None)), e.id, e.now, s.channels[e.id]);
    }
  }

  lemma BlockedIff(c: Collection, target: nat, prep: Result<Prep, string>)
    ensures Blocked(c, target, prep).None? <==>
      !c.halted && (c.force || |c.charges| >= 100) && target <= c.balance && prep.Ok? && c.attemptSequence < U64_MAX
  {
  }

  /** The same condition once the answer is stored. */
  predicate Begins(s: State, id: Id, prep: Result<Prep, string>)
    requires id in s.cols
  {
    && prep.Ok? && id in s.channels
    && var c, p, seller := s.cols[id], prep.value, Seller(s.channels[id]);
       && c.attempt.None? && c.claimed < Charged(s, id) && Blocked(c, Charged(s, id), prep).None?
       && Scope(Lower(p.from), seller) !in s.locks && p.fee <= Get(s.credit, seller)
  }

  lemma ContinueStartsIff(s: State, e: Event)
    requires JournalInv(s) && e.DoMonitor? && e.id in s.cols
    ensures var t := Continue(s, e.id, e.now, e.sameNetwork, e.prep);
      if Begins(s, e.id, e.prep) then
        && t.hist.log == s.hist.log + [Entry(Auto(e.id, Charged(s, e.id), s.cols[e.id].attemptSequence + 1),
                                             Seller(s.channels[e.id]), e.prep.value.from, e.prep.value.fee, Held)]
        && e.id in t.cols && t.cols[e.id].attempt.Some?
      else t.hist.log == s.hist.log
  {
    hide JournalInv, Continue, Blocked, Reserve, Amount, Seller, Lower, Get;
    ContinueStarts(s, e);
    if e.prep.Ok? && e.id in s.channels && s.cols[e.id].attempt.None? {
      ReserveStarts(s, e.id, e.prep.value);
    }
  }

  lemma MonitorContinues(s: State, e: Event)
    requires Ready(s, e) && e.DoMonitor?
    ensures if e.answer.Ok? && e.id in s.cols
            then Step(s, e) == Continue(Save(s, e.id, Observed(s.cols[e.id], e.answer.value, e.now)), e.id, e.now,
                                        e.sameNetwork, e.prep)
            else Step(s, e).hist.log == s.hist.log
  {
    hide Continue, Observed;
  }

  lemma StartsIsBegins(s: State, e: Event)
    requires e.DoMonitor? && e.answer.Ok? && e.id in s.cols
    ensures var s1 := Save(s, e.id, Observed(s.cols[e.id], e.answer.value, e.now));
      && (Starts(s, e) <==> Begins(s1, e.id, e.prep)) && s1.hist.log == s.hist.log
      && (Starts(s, e) ==> FirstEntry(s, e) == Entry(Auto(e.id, Charged(s1, e.id), s1.cols[e.id].attemptSequence + 1),
                                                     Seller(s1.channels[e.id]), e.prep.value.from, e.prep.value.fee, Held))
  {
    hide Observed, Blocked, Unpaid, Amount, Seller, Lower, Get;
    var c := Observed(s.cols[e.id], e.answer.value, e.now);
    ObservedFields(s.cols[e.id], e.answer.value, e.now);
    BlockedIff(c, Charged(s, e.id), e.prep);
  }

  lemma ObservedKeepsJournal(s: State, e: Event)
    requires JournalInv(s) && e.DoMonitor? && e.answer.Ok? && e.id in s.cols
    ensures JournalInv(Save(s, e.id, Observed(s.cols[e.id], e.answer.value, e.now)))
    ensures e.id in Save(s, e.id, Observed(s.cols[e.id], e.answer.value, e.now)).cols
  {
    hide Observed, JournalInv;
    ObservedFields(s.cols[e.id], e.answer.value, e.now);
    SaveKeeps(s, e.id, Observed(s.cols[e.id], e.answer.value, e.now));
  }

  lemma StartsNeedsAnswer(s: State, e: Event)
    requires e.DoMonitor? && !(e.answer.Ok? && e.id in s.cols)
    ensures !Starts(s, e)
  {
  }

  /** The segment after the monitor await begins an attempt if and only if: the answer is in, nothing is in
      flight or halted, someone forces it or at least a hundred charges stay unpaid, the charged total is
      above the claimed one and within the balance, everything before the lock succeeded, the scope is
      free, the fee is on credit, and a number is left. The attempt then claims the whole charged total
      under the next number. */
  lemma AttemptStartsIff(s: State, e: Event)
    requires Reachable(s) && Ready(s, e) && e.DoMonitor?
    ensures Starts(s, e) <==> Step(s, e).hist.log != s.hist.log
    ensures Starts(s, e) ==>
      && Step(s, e).hist.log == s.hist.log + [FirstEntry(s, e)]
      && e.id in Step(s, e).cols && Step(s, e).cols[e.id].attempt.Some?
  {
    hide *;
    ReachableInv(s);
    InvJournal(s);
    MonitorContinues(s, e);
    if e.answer.Ok? && e.id in s.cols {
      var s1 := Save(s, e.id, Observed(s.cols[e.id], e.answer.value, e.now));
      StartsIsBegins(s, e);
      ObservedKeepsJournal(s, e);
      ContinueStartsIff(s1, e);
    } else {
      StartsNeedsAnswer(s, e);
    }
  }

  /** No other event begins one. */
  lemma OnlyMonitorStarts(s: State, e: Event)
    requires Reachable(s) && Ready(s, e) && !e.DoMonitor?
    ensures SameKeys(s.hist.log, Step(s, e).hist.log)
  {
    hide Reachable, Inv, JournalInv, Ready, Step, Moves, SameKeys;
    ReachableInv(s);
    InvJournal(s);
    var m := StepMoves(s, e);
    MoveSameKeys(s, m, Step(s, e));
  }
}
