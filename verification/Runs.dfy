/** The protocol over whole runs: any interleaving of messages, worker segments, failed calls and
    upgrades, starting from an empty canister. */
module Runs {
  import opened Accounts
  import opened Wrappers
  import opened Decimal
  import opened Batch
  import opened Collector
  import opened Charges
  import opened Journal
  import opened JournalSteps
  import opened MessageSteps
  import opened Scheduler
  import opened Sequences
  import opened Ledger
  import opened LedgerSteps

  ghost predicate LedgerInv(l: Ledger) {
    (forall seller: Addr :: BalancedFor(l, seller)) && SendsOk(l) && NoncesOk(l)
  }

  ghost predicate Inv(s: State) {
    JournalInv(s) && ChargesInv(s) && SchedInv(s) && KeysInv(s) && LedgerInv(LedgerOf(s))
  }

  lemma EmptyInv()
    ensures Inv(Empty)
  {
    hide SatMul, Fees, SatAdd, Used;
    EmptyLedger();
  }

  lemma EmptyLedger()
    ensures LedgerInv(LedgerOf(Empty))
  {
  }

  lemma StepKeepsLedger(s: State, e: Event)
    requires JournalInv(s) && Ready(s, e) && LedgerInv(LedgerOf(s))
    ensures LedgerInv(LedgerOf(Step(s, e)))
  {
    hide JournalInv, Ready, Step, BalancedFor, SendsOk, NoncesOk, Apply, CanMove;
    var m := StepMoves(s, e);
    var l := LedgerOf(s);
    forall seller: Addr ensures BalancedFor(Apply(l, m), seller) {
      MoveKeepsBalance(l, m, seller);
    }
    MoveKeepsSends(l, m);
    MoveKeepsNonces(l, m);
  }

  lemma StepKeepsInv(s: State, e: Event)
    requires Inv(s) && Ready(s, e)
    ensures Inv(Step(s, e))
  {
    hide JournalInv, ChargesInv, SchedInv, KeysInv, LedgerInv, LedgerOf, Ready, Step;
    StepKeepsJournal(s, e);
    StepKeepsCharges(s, e);
    StepKeepsSched(s, e);
    StepKeepsKeys(s, e);
    StepKeepsLedger(s, e);
  }

  lemma {:induction false} RunKeepsInv(s: State, events: seq<Event>)
    requires Inv(s) && IsRun(s, events)
    ensures Inv(Exec(s, events))
    decreases |events|
  {
    hide Inv, Ready, Step;
    if events != [] {
      StepKeepsInv(s, events[0]);
      RunKeepsInv(Step(s, events[0]), events[1..]);
    }
  }

  /** A state some run from the empty canister ends in. */
  ghost predicate Reachable(s: State) {
    exists events :: IsRun(Empty, events) && Exec(Empty, events) == s
  }

  lemma ReachableInv(s: State)
    requires Reachable(s)
    ensures Inv(s)
  {
    hide Inv, IsRun, Exec;
    EmptyInv();
    var events :| IsRun(Empty, events) && Exec(Empty, events) == s;
    RunKeepsInv(Empty, events);
  }

  // ---- the ledger ----------------------------------------------------------------------

  /** Fee conservation: in every reachable state a seller's credit, the fees held by unsent attempts,
      the fees of attempts with bytes, and what other settlements hold add up to what was paid in,
      exactly so unless more than 2^128 - 1 was paid in. */
  lemma FeeConservation(s: State, seller: Addr)
    requires Reachable(s)
    ensures var lost := Get(s.hist.lost, seller);
      && Get(s.credit, seller) + Fees(s.hist.log, seller, true) + Fees(s.hist.log, seller, false)
         + Get(s.hist.external, seller) + lost == Get(s.hist.paidIn, seller)
      && (Get(s.hist.paidIn, seller) <= U128_MAX ==> lost == 0)
  {
    hide JournalInv, ChargesInv, SchedInv, KeysInv, Fees, SendsOk, NoncesOk, Reachable;
    ReachableInv(s);
    assert BalancedFor(LedgerOf(s), seller);
  }

  /** The held fees are those of the attempts without bytes, one entry each. */
  lemma HeldFeesAreOpenAttempts(s: State, n: nat)
    requires Reachable(s) && n < |s.hist.log|
    ensures s.hist.log[n].fate.Held? <==>
      exists id :: id in Attempts(s.cols) && id in s.hist.serial && s.hist.serial[id] == n && Attempts(s.cols)[id].raw.None?
  {
    hide Inv, Reachable, Attempts, WorkersOk, LocksOk, Seller;
    ReachableInv(s);
    assert JournalInv(s) by { InvJournal(s); }
    if s.hist.log[n].fate.Held? {
      assert EntryOpen(Attempts(s.cols), s.hist.log[n].key, n, s.hist.serial);
      var id := s.hist.log[n].key.id;
      assert Owns(id, Attempts(s.cols)[id], s.locks, s.records, s.hist.log, s.hist.serial);
    }
  }

  lemma InvJournal(s: State)
    requires Inv(s)
    ensures JournalInv(s) && ChargesInv(s) && SchedInv(s) && KeysInv(s) && LedgerInv(LedgerOf(s))
  {
  }

  /** Each fee resolves once: whatever happens later, an entry that was refunded or whose bytes were
      written keeps that fate, and nothing already sent is forgotten. */
  lemma {:induction false} FeesResolveOnce(s: State, events: seq<Event>)
    requires Inv(s) && IsRun(s, events)
    ensures var t := Exec(s, events);
      Extends(s.hist.log, t.hist.log) && |s.hist.sends| <= |t.hist.sends| && t.hist.sends[..|s.hist.sends|] == s.hist.sends
    decreases |events|
  {
    hide Inv, Ready, Step, Extends;
    if events == [] {
      ExtendsSelf(s.hist.log);
    } else {
      var mid, t := Step(s, events[0]), Exec(s, events);
      StepExtends(s, events[0]);
      StepKeepsInv(s, events[0]);
      FeesResolveOnce(mid, events[1..]);
      ExtendsTransitive(s.hist.log, mid.hist.log, t.hist.log);
      assert t.hist.sends[..|mid.hist.sends|][..|s.hist.sends|] == t.hist.sends[..|s.hist.sends|];
    }
  }

  lemma ExtendsSelf(log: seq<Entry>)
    ensures Extends(log, log)
  {
  }

  lemma StepExtends(s: State, e: Event)
    requires Inv(s) && Ready(s, e)
    ensures var t := Step(s, e);
      Extends(s.hist.log, t.hist.log) && |s.hist.sends| <= |t.hist.sends| && t.hist.sends[..|s.hist.sends|] == s.hist.sends
  {
    hide JournalInv, ChargesInv, SchedInv, KeysInv, LedgerInv, Ready, Step, Apply, CanMove, Extends;
    var m := StepMoves(s, e);
    MoveExtends(LedgerOf(s), m);
  }

  /** Every send of one attempt carries the same bytes and nonce, those of its journal entry. */
  lemma SendsAreByteIdentical(s: State, i: nat, j: nat)
    requires Reachable(s) && i < |s.hist.sends| && j < |s.hist.sends|
    ensures var x := s.hist.sends[i];
      x.serial < |s.hist.log| && s.hist.log[x.serial].fate.Journaled?
      && x.raw == s.hist.log[x.serial].fate.raw && x.nonce == s.hist.log[x.serial].fate.nonce
    ensures s.hist.sends[i].serial == s.hist.sends[j].serial ==> s.hist.sends[i] == s.hist.sends[j]
  {
    hide JournalInv, ChargesInv, SchedInv, KeysInv, BalancedFor, NoncesOk, Reachable;
    ReachableInv(s);
    assert SendOk(LedgerOf(s).log, LedgerOf(s).sends[i]) && SendOk(LedgerOf(s).log, LedgerOf(s).sends[j]);
  }

  /** No two attempts of one sender have bytes with the same nonce, below the 128-bit bound. */
  lemma NoncesAreUsedOnce(s: State, m: nat, n: nat)
    requires Reachable(s) && m < |s.hist.log| && n < |s.hist.log|
    requires s.hist.log[m].fate.Journaled? && s.hist.log[n].fate.Journaled?
    requires s.hist.log[m].from == s.hist.log[n].from
    requires s.hist.log[m].fate.nonce == s.hist.log[n].fate.nonce < U128_MAX
    ensures m == n
  {
    hide JournalInv, ChargesInv, SchedInv, KeysInv, BalancedFor, SendsOk, Reachable, Used;
    ReachableInv(s);
    assert Sole(LedgerOf(s), m);
    assert Holds(LedgerOf(s).log[n], s.hist.log[m].from, s.hist.log[m].fate.nonce);
  }

  // ---- locks and the journal -----------------------------------------------------------

  /** Lock and journal agree, both ways. */
  lemma LockIffAttempt(s: State, scope: Scope, key: Key)
    requires Reachable(s) && key.Auto?
    ensures (scope in s.locks && s.locks[scope].key == key) <==>
      (key.id in s.cols && s.cols[key.id].attempt.Some?
       && s.cols[key.id].attempt.value.key == key && s.cols[key.id].attempt.value.scope == scope)
  {
    hide Inv, Reachable, WorkersOk, HeldOk, Seller;
    ReachableInv(s);
    InvJournal(s);
    var att := Attempts(s.cols);
    if scope in s.locks && s.locks[scope].key == key {
      assert HeldBy(att, scope, key);
    } else if key.id in att {
      assert Owns(key.id, att[key.id], s.locks, s.records, s.hist.log, s.hist.serial);
    }
  }

  /** Two channels of one seller and sender are never both in flight. */
  lemma OneInFlightPerScope(s: State, i: Id, j: Id)
    requires Reachable(s) && i in s.cols && j in s.cols && s.cols[i].attempt.Some? && s.cols[j].attempt.Some?
    requires s.cols[i].attempt.value.scope == s.cols[j].attempt.value.scope
    ensures i == j
  {
    hide Inv, Reachable, WorkersOk, HeldOk, LocksOk, Seller;
    ReachableInv(s);
    InvJournal(s);
    var att := Attempts(s.cols);
    assert Owns(i, att[i], s.locks, s.records, s.hist.log, s.hist.serial);
    assert Owns(j, att[j], s.locks, s.records, s.hist.log, s.hist.serial);
  }

  /** No `expect`, `unwrap` or assertion on the journal can fail: a worker that wakes up in prepare or
      resume finds the collection, with the very attempt it holds, in the shape it needs. */
  lemma JournalNeverMissing(s: State, id: Id)
    requires Reachable(s) && id in s.workers
    ensures s.workers[id].Preparing? ==>
      var a := s.workers[id].attempt;
      id in s.cols && s.cols[id].attempt == Some(a) && a.raw.None? && a.nonce.None? && id in s.channels
    ensures s.workers[id].Resuming? ==>
      var a := s.workers[id].attempt;
      id in s.cols && s.cols[id].attempt == Some(a) && a.raw.Some? && a.nonce.Some? && a.tx.Some? && id in s.channels
    ensures s.workers[id].Monitoring? && id in s.cols && s.cols[id].attempt.Some? ==>
      s.cols[id].attempt.value.tx.Some?
  {
    hide Inv, Reachable, HeldOk, LocksOk, Seller, Rising, PaidUpTo, SuffixOf, RoomOk, Amount, WellFormed;
    ReachableInv(s);
    InvJournal(s);
    var att := Attempts(s.cols);
    assert WorkerOk(id, s.workers[id], att);
    if id in att {
      assert Owns(id, att[id], s.locks, s.records, s.hist.log, s.hist.serial);
      assert CollectionOk(s.cols[id], Stored(s, id), s.hist.committed[id]);
    }
  }

  /** What the map, the lock and the settlement record hold for an attempt with bytes. */
  ghost predicate Journals(s: State, id: Id, raw: string, nonce: nat) {
    && id in s.cols && s.cols[id].attempt.Some?
    && var a := s.cols[id].attempt.value;
       && a.raw == Some(raw) && a.nonce == Some(nonce) && a.tx.Some?
       && a.scope in s.locks && s.locks[a.scope] == Lock(a.key, a.nonce, a.tx)
       && a.key in s.records && s.records[a.key] == Broadcast(a.tx.value)
  }

  lemma OwnedJournals(s: State, id: Id)
    requires JournalInv(s) && id in s.cols && s.cols[id].attempt.Some? && s.cols[id].attempt.value.raw.Some?
    ensures var a := s.cols[id].attempt.value; a.nonce.Some? && Journals(s, id, a.raw.value, a.nonce.value)
    ensures id in s.hist.serial && s.hist.serial[id] < |s.hist.log|
  {
    hide HeldOk, LocksOk, WorkersOk, Seller;
    assert Owns(id, Attempts(s.cols)[id], s.locks, s.records, s.hist.log, s.hist.serial);
  }

  lemma FirstSend(s: State, id: Id, pending: nat, raw: string, tx: string)
    requires JournalInv(s) && Ready(s, DoPrepare(id, Signed(pending, raw, tx)))
    ensures var t := Step(s, DoPrepare(id, Signed(pending, raw, tx)));
      && |t.hist.sends| == |s.hist.sends| + 1
      && Journals(t, id, t.hist.sends[|s.hist.sends|].raw, t.hist.sends[|s.hist.sends|].nonce)
  {
    hide JournalInv, Journals, Owns, Attempts, Advance, Reserved, WorkerOk;
    var e := DoPrepare(id, Signed(pending, raw, tx));
    var a := s.workers[id].attempt;
    WorkerHoldsAttempt(s, id);
    StepKeepsJournal(s, e);
    OwnedJournals(Step(s, e), id);
  }

  lemma WorkerHoldsAttempt(s: State, id: Id)
    requires JournalInv(s) && id in s.workers && (s.workers[id].Preparing? || s.workers[id].Resuming?)
    ensures id in s.cols && s.cols[id].attempt == Some(s.workers[id].attempt)
    ensures id in s.hist.serial && s.hist.serial[id] < |s.hist.log|
    ensures s.workers[id].Resuming? ==> s.workers[id].attempt.raw.Some?
  {
    hide HeldOk, LocksOk, Seller;
    var att := Attempts(s.cols);
    assert WorkerOk(id, s.workers[id], att);
    assert Owns(id, att[id], s.locks, s.records, s.hist.log, s.hist.serial);
  }

  lemma Resent(s: State, id: Id)
    requires JournalInv(s) && Ready(s, DoResume(id, Receipt.Pending))
    ensures var t := Step(s, DoResume(id, Receipt.Pending));
      && |t.hist.sends| == |s.hist.sends| + 1
      && Journals(s, id, t.hist.sends[|s.hist.sends|].raw, t.hist.sends[|s.hist.sends|].nonce)
      && Journals(t, id, t.hist.sends[|s.hist.sends|].raw, t.hist.sends[|s.hist.sends|].nonce)
  {
    hide JournalInv, Owns, Attempts, WorkerOk;
    WorkerHoldsAttempt(s, id);
    OwnedJournals(s, id);
  }

  /** Write-ahead journal: the step that first sends an attempt's bytes leaves them, with nonce and
      hash, in the map, on the lock and in the settlement record; a step that sends again finds them
      there. No other step sends. */
  lemma SendsAreJournaled(s: State, e: Event)
    requires Reachable(s) && Ready(s, e) && |Step(s, e).hist.sends| != |s.hist.sends|
    ensures (e.DoPrepare? && e.outcome.Signed?) || (e.DoResume? && e.receipt.Pending?)
    ensures var t := Step(s, e);
      && |t.hist.sends| == |s.hist.sends| + 1
      && var sent := t.hist.sends[|s.hist.sends|];
         && Journals(t, e.id, sent.raw, sent.nonce)
         && (e.DoResume? ==> Journals(s, e.id, sent.raw, sent.nonce))
  {
    hide Inv, Reachable, JournalInv, Step, Ready, Journals, ChargesInv, SchedInv, KeysInv, LedgerInv;
    ReachableInv(s);
    InvJournal(s);
    var m := StepMoves(s, e);
    SendsOnlyThen(s, m, Step(s, e));
    if e.DoPrepare? {
      FirstSend(s, e.id, e.outcome.pendingNonce, e.outcome.raw, e.outcome.tx);
    } else {
      Resent(s, e.id);
    }
  }

  lemma SendsOnlyThen(s: State, m: Move, t: State)
    requires Moves(s, m, t) && |t.hist.sends| != |s.hist.sends|
    ensures m.Write? || m.Resend?
  {
    hide Reserved, Advance, Rollback, SatAdd, Get;
  }

  /** A nonce is given back only for an attempt without bytes, in the segment that reserved it: no worker
      step ever lowers a sender's next nonce. */
  lemma NextNonceNeverFalls(s: State, e: Event, a: Addr)
    requires Reachable(s) && Ready(s, e) && !e.DoManualRollback? && a in s.nonces
    ensures a in Step(s, e).nonces && s.nonces[a] <= Step(s, e).nonces[a]
  {
    hide Reachable, JournalInv, Step, Ready, ChargesInv, SchedInv, KeysInv, BalancedFor, SendsOk, Used, Sole, Apply;
    ReachableInv(s);
    var m := StepMoves(s, e);
    NextNonceStands(LedgerOf(s), m, a);
  }
}
