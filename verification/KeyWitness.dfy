/** How far attempt keys are unique: a run on which a reading below the total a registration left with
    brings an old key back, though no reading ever falls. */
module KeyWitness {
  import opened Accounts
  import opened Wrappers
  import opened Decimal
  import opened HexUtil
  import opened Batch
  import opened Collector
  import opened Charges
  import opened Journal
  import opened Scheduler
  import opened Sequences
  import opened Ledger
  import opened Runs
  import opened Registrations
  import opened AttemptStarts
  import opened KeyRuns
  import opened Admission
  import opened Scripts
  import opened Examples

  /** A charged channel without an open reservation, and its seller's address as the switch takes it. */
  ghost predicate Collectable(channel: Channel, receiver: Addr) {
    && Amount(channel.charged) > 0 && channel.pending.None?
    && receiver == Norm(receiver) && SameAddress(channel.config.receiver, receiver)
    && Lower(channel.config.receiver) == receiver
  }

  /** The channel and what its seller has on credit, in a state of a run. */
  ghost predicate Scene(s: State, id: Id, channel: Channel, left: nat, money: nat) {
    Unasked(s, id, left) && s.channels == map[id := channel] && Get(s.credit, Seller(channel)) == money
  }

  ghost predicate Quiescent(s: State, id: Id, channel: Channel, left: nat, money: nat) {
    Scene(s, id, channel, left, money) && s.workers == map[] && s.cols == map[] && s.locks == map[]
  }

  lemma Stays(s: State, e: Event, id: Id, left: nat)
    requires Unasked(s, id, left) && Ready(s, e) && (id in s.cols ==> id in Step(s, e).cols) && !e.DoRequestClaim?
    ensures Unasked(Step(s, e), id, left)
  {
    hide Unasked, Ready, Step;
    ThenUnasked(s, e, id, left);
  }

  /** Reached by a run on which nobody requested a claim of this channel. */
  ghost predicate Unasked(s: State, id: Id, left: nat) {
    exists events :: IsRun(Empty, events) && Exec(Empty, events) == s && LeftAfter(Empty, events, id, 0) == left
      && NobodyAsks(events, id)
  }

  lemma UnaskedReached(s: State, id: Id, left: nat)
    requires Unasked(s, id, left)
    ensures Reached(s, id, left) && Reachable(s)
  {
    hide IsRun, Exec, LeftAfter, Reachable;
    assert Reached(s, id, left);
    hide Reached;
    ReachedPaid(s, id, left);
  }

  lemma ThenUnasked(s: State, e: Event, id: Id, left: nat)
    requires Unasked(s, id, left) && Ready(s, e) && !e.DoRequestClaim?
    ensures Unasked(Step(s, e), id, Leaving(s, e, id, left))
  {
    hide Ready, Step, IsRun, Exec, LeftAfter, Leaving;
    var events :| IsRun(Empty, events) && Exec(Empty, events) == s && LeftAfter(Empty, events, id, 0) == left
      && NobodyAsks(events, id);
    LeftExtends(Empty, events, e, id, 0);
    assert NobodyAsks(events + [e], id);
  }
  // ---- up to the first segment of an attempt -------------------------------------------

  lemma TouchedFresh(s: State, id: Id, t: u64)
    requires id !in s.cols && id in s.channels && Amount(s.channels[id].charged) > 0
    ensures var c := Touched(s, id, true, t);
      StartsOver(c) && c.force && c.seed == s.channels[id] && c.monitoredAt.None? && c.nextDue == Seconds(t)
  {
    hide Amount, Seconds;
  }

  /** The seller is enabled; a second later the worker monitors. */
  lemma Approaches(s: State, id: Id, channel: Channel, receiver: Addr, t: u64, left: nat, money: nat) returns (b: State)
    requires Quiescent(s, id, channel, left, money) && Collectable(channel, receiver)
    ensures Scene(b, id, channel, left, money) && b.workers == map[id := Monitoring] && b.locks == map[]
    ensures b.cols.Keys == {id} && StartsOver(b.cols[id]) && b.cols[id].force && b.cols[id].seed == channel
    ensures b.hist.log == s.hist.log && b.records == s.records
  {
    hide Unasked, Norm, SameAddress, Amount, Seller, Ready, Step, Touched, TimerOk, Lower, Get, Seconds;
    var on, fire, start := DoSetEnabled(receiver, true, t, true), DoFire({id}, Tick(t)), DoStart(id, Tick(t), None);
    Switched(s, id, receiver, true, t);
    Stays(s, on, id, left);
    var a := Step(s, on);
    TouchedFresh(s, id, t);
    DueNow(a, id, t);
    Fires(a, id, Tick(t));
    Stays(a, fire, id, left);
    var u := Step(a, fire);
    GoesOn(u, id, Tick(t));
    Stays(u, start, id, left);
    b := Step(u, start);
    OnlyKey(u.workers, id, Monitoring);
  }

  function Try(id: Id, t: u64, total: nat, r: nat, p: Prep): Event {
    DoMonitor(id, t, Ok(Answer(total, r, 0)), true, Ok(p))
  }

  /** A fresh registration begins attempt number one for the charged total. */
  lemma TryStarts(b: State, id: Id, channel: Channel, t: u64, r: nat, p: Prep, left: nat, money: nat)
    requires Scene(b, id, channel, left, money) && b.workers == map[id := Monitoring] && b.locks == map[]
    requires b.cols.Keys == {id} && StartsOver(b.cols[id]) && b.cols[id].force
    requires r < Amount(channel.charged) && p.fee <= money
    ensures var e := Try(id, t, Amount(channel.charged), r, p);
      && Ready(b, e) && Starts(b, e) && PaidSoFar(b.cols[id], e.answer.value) == r
      && FirstEntry(b, e).key == Auto(id, Amount(channel.charged), 1)
  {
    hide Unasked, Amount, Seller, Lower, Get, Unpaid;
  }

  // ---- the attempt ---------------------------------------------------------------------

  /** The journaled attempt, alone with its lock, the claimed total as read. */
  ghost predicate Flying(s: State, id: Id, channel: Channel, r: nat) {
    && s.cols.Keys == {id} && s.cols[id].seed == channel && s.cols[id].claimed == r && s.cols[id].attempt.Some?
    && var a := s.cols[id].attempt.value;
       && a.raw.Some? && a.nonce.Some? && a.tx.Some? && a.target == Amount(channel.charged) && a.key == Auto(id, a.target, 1)
       && s.locks.Keys == {a.scope} && s.locks[a.scope].key == a.key
  }

  /** What the segment that begins the attempt leaves. */
  lemma TryLeaves(b: State, id: Id, channel: Channel, t: u64, r: nat, p: Prep)
    requires b.workers == map[id := Monitoring] && b.locks == map[] && b.channels == map[id := channel]
    requires b.cols.Keys == {id} && StartsOver(b.cols[id]) && b.cols[id].force && b.cols[id].seed == channel
    requires r < Amount(channel.charged) && p.fee <= Get(b.credit, Seller(channel))
    ensures var total := Amount(channel.charged);
      var u := MonitorDone(b, id, t, Ok(Answer(total, r, 0)), true, Ok(p));
      && u.workers.Keys == {id} && u.workers[id].Preparing? && u.channels == b.channels && u.cols.Keys == {id}
      && var a := u.workers[id].attempt;
         && u.cols[id].attempt == Some(a) && u.cols[id].seed == channel && u.cols[id].claimed == r && a.target == total
         && a.key == Auto(id, total, 1)
         && u.locks == map[a.scope := Lock(a.key, None, None)]
         && Get(u.credit, Seller(channel)) == Get(b.credit, Seller(channel)) - p.fee
         && a.from == p.from && u.nonces == b.nonces && id in u.hist.serial && u.hist.serial[id] == |b.hist.log|
  {
    hide Amount, Seller, Lower, Enabled;
    var total := Amount(channel.charged);
    var c := Observed(b.cols[id], Answer(total, r, 0), t);
    TriedFields(b.cols[id], total, r, t);
    var s1 := Save(b, id, c);
    var a := NewAttempt(s1, id, p);
    assert a.scope.seller == Seller(channel);
    assert MonitorDone(b, id, t, Ok(Answer(total, r, 0)), true, Ok(p)) == At(Begin(s1, id, a), id, Preparing(a)) by {
      hide Observed, NewAttempt, Begin;
    }
  }

  lemma TriedFields(c: Collection, total: nat, r: nat, t: u64)
    requires StartsOver(c) && c.force
    ensures var d := Observed(c, Answer(total, r, 0), t);
      && d.attempt.None? && d.claimed == r && d.force && !d.halted && d.balance == total && d.attemptSequence == 0
      && d.seed == c.seed
  {
    hide Unpaid, Amount;
  }

  lemma JournalLeaves(u: State, id: Id, a: Attempt, nonce: nat, raw: string, tx: string)
    requires id in u.cols && u.locks == map[a.scope := Lock(a.key, None, None)]
    ensures var v := JournalAndSend(u, id, a, nonce, raw, tx);
      && v.cols == u.cols[id := u.cols[id].(attempt := Some(a.(nonce := Some(nonce), raw := Some(raw), tx := Some(tx))))]
      && v.locks == map[a.scope := Lock(a.key, Some(nonce), Some(tx))]
      && v.workers == u.workers && v.channels == u.channels && v.credit == u.credit
      && v.hist.log == SetFate(u, id, Journaled(nonce, raw, tx)).hist.log
  {
    hide Advance;
    OnlyScope(u.locks, a.scope, Lock(a.key, Some(nonce), Some(tx)));
  }

  lemma OnlyScope(m: map<Scope, Lock>, scope: Scope, value: Lock)
    requires m.Keys == {scope}
    ensures m[scope := value] == map[scope := value]
  {
  }

  lemma SignedLeaves(u: State, id: Id, channel: Channel, r: nat, nonce: nat, raw: string, tx: string)
    requires u.workers.Keys == {id} && u.workers[id].Preparing? && u.cols.Keys == {id}
    requires var a := u.workers[id].attempt;
      && u.cols[id].attempt == Some(a) && u.cols[id].seed == channel && u.cols[id].claimed == r
      && a.target == Amount(channel.charged) && a.key == Auto(id, a.target, 1)
      && u.locks == map[a.scope := Lock(a.key, None, None)]
    ensures var v := PrepareDone(u, id, u.workers[id].attempt, Signed(nonce, raw, tx));
      && Flying(v, id, channel, r) && v.workers == map[id := Sending] && v.channels == u.channels && v.credit == u.credit
      && v.hist.log == SetFate(u, id, Journaled(Reserved(u.nonces, u.workers[id].attempt.from, nonce), raw, tx)).hist.log
  {
    hide Amount, Reserved, JournalAndSend, SetFate;
    var a := u.workers[id].attempt;
    JournalLeaves(u, id, a, Reserved(u.nonces, a.from, nonce), raw, tx);
    OnlyKey(u.workers, id, Sending);
  }

  /** What the log holds of attempt number one once it is sent. */
  function SentEntry(id: Id, channel: Channel, p: Prep, nonce: nat): Entry {
    Entry(Auto(id, Amount(channel.charged), 1), Seller(channel), p.from, p.fee, Journaled(nonce, "raw", "hash"))
  }

  /** Attempt number one begins, is signed and sent, and the worker rests. */
  lemma TakesOff(b: State, id: Id, channel: Channel, t: u64, r: nat, p: Prep, nonce: nat, left: nat, money: nat)
    returns (v: State)
    requires Scene(b, id, channel, left, money) && b.workers == map[id := Monitoring] && b.locks == map[]
    requires b.cols.Keys == {id} && StartsOver(b.cols[id]) && b.cols[id].force && b.cols[id].seed == channel
    requires r < Amount(channel.charged) && p.fee <= money && nonce <= U128_MAX
    ensures Scene(v, id, channel, left, money - p.fee) && Flying(v, id, channel, r) && v.workers == map[]
    ensures v.hist.log == b.hist.log + [SentEntry(id, channel, p, Reserved(b.nonces, p.from, nonce))]
  {
    hide Unasked, Amount, Seller, Get, Starts, FirstEntry, StartsOver, MonitorDone, PrepareDone, Rested, TimerOk, Reserved,
      SetFate;
    var try := Try(id, t, Amount(channel.charged), r, p);
    TryStarts(b, id, channel, t, r, p, left, money);
    TryLeaves(b, id, channel, t, r, p);
    assert Reachable(b) by { UnaskedReached(b, id, left); }
    AttemptStartsIff(b, try);
    Stays(b, try, id, left);
    var u := Step(b, try);
    var x := GoesOut(u, id, channel, r, nonce, left, money - p.fee);
    v := TakenOff(x, id, channel, t, r, left, money - p.fee);
    TryEntry(b, try, channel, p);
    FateOfLast(u, id, b.hist.log, FirstEntry(b, try), Journaled(Reserved(b.nonces, p.from, nonce), "raw", "hash"));
  }

  lemma TryEntry(b: State, e: Event, channel: Channel, p: Prep)
    requires e.DoMonitor? && Starts(b, e) && e.prep == Ok(p) && b.channels == map[e.id := channel]
    requires StartsOver(b.cols[e.id])
    ensures FirstEntry(b, e) == Entry(Auto(e.id, Amount(channel.charged), 1), Seller(channel), p.from, p.fee, Held)
  {
    hide Amount, Seller, Unpaid, Lower, Get;
  }

  lemma FateOfLast(u: State, id: Id, log: seq<Entry>, e: Entry, fate: Fate)
    requires u.hist.log == log + [e] && id in u.hist.serial && u.hist.serial[id] == |log|
    ensures SetFate(u, id, fate).hist.log == log + [e.(fate := fate)]
  {
    assert (log + [e])[|log| := e.(fate := fate)] == log + [e.(fate := fate)];
  }

  lemma GoesOut(u: State, id: Id, channel: Channel, r: nat, nonce: nat, left: nat, money: nat) returns (v: State)
    requires Scene(u, id, channel, left, money) && nonce <= U128_MAX
    requires u.workers.Keys == {id} && u.workers[id].Preparing? && u.cols.Keys == {id}
    requires var a := u.workers[id].attempt;
      && u.cols[id].attempt == Some(a) && u.cols[id].seed == channel && u.cols[id].claimed == r
      && a.target == Amount(channel.charged) && a.key == Auto(id, a.target, 1)
      && u.locks == map[a.scope := Lock(a.key, None, None)]
    ensures Scene(v, id, channel, left, money) && Flying(v, id, channel, r) && v.workers == map[id := Returned(None)]
    ensures v.hist.log ==
      SetFate(u, id, Journaled(Reserved(u.nonces, u.workers[id].attempt.from, nonce), "raw", "hash")).hist.log
  {
    hide Unasked, Amount, Seller, Get, PrepareDone, SetFate, Reserved;
    var sign, sent := DoPrepare(id, Signed(nonce, "raw", "hash")), DoSent(id);
    SignedLeaves(u, id, channel, r, nonce, "raw", "hash");
    Stays(u, sign, id, left);
    var x := Step(u, sign);
    Stays(x, sent, id, left);
    v := Step(x, sent);
    OnlyKey(x.workers, id, Returned(None));
  }

  /** The worker of a journaled attempt ends. */
  lemma TakenOff(u: State, id: Id, channel: Channel, t: u64, r: nat, left: nat, money: nat) returns (v: State)
    requires Scene(u, id, channel, left, money) && Flying(u, id, channel, r) && u.workers == map[id := Returned(None)]
    ensures Scene(v, id, channel, left, money) && Flying(v, id, channel, r) && v.workers == map[]
    ensures v.hist.log == u.hist.log
  {
    hide Unasked, Amount, Seller, Get, Rested, TimerOk;
    Ends(u, id, t);
    Stays(u, DoFinish(id, t), id, left);
    RestedKeeps(u, id, t);
    v := Step(u, DoFinish(id, t));
  }

  lemma RestedKeeps(s: State, id: Id, t: u64)
    requires id in s.cols && id in s.workers && s.workers[id].Returned?
    ensures var c, d := s.cols[id], Rested(s, id, t);
      && d.seed == c.seed && d.attempt == c.attempt && d.claimed == c.claimed && d.force == c.force && d.charges == c.charges
      && d.monitoredAt == c.monitoredAt && d.halted == c.halted && d.attemptSequence == c.attemptSequence
      && (c.attempt.Some? || c.force ==> d.nextDue == SatAdd(Seconds(t), INTERVAL, U64_MAX))
  {
    hide Amount, Live, Seconds, SatAdd;
  }

  // ---- the claim is mined, the collection leaves ---------------------------------------

  lemma TouchedOff(s: State, id: Id, t: u64)
    requires id in s.cols
    ensures var c := Touched(s, id, false, t); c == s.cols[id].(force := true, nextDue := Seconds(t))
  {
    hide Seconds;
  }

  /** The seller is disabled while the attempt is in flight; a second later the worker resumes it. */
  lemma Resumes(v: State, id: Id, channel: Channel, receiver: Addr, t: u64, r: nat, left: nat, money: nat)
    returns (w: State)
    requires Scene(v, id, channel, left, money) && Flying(v, id, channel, r) && v.workers == map[]
    requires Collectable(channel, receiver)
    ensures Scene(w, id, channel, left, money) && Flying(w, id, channel, r) && w.cols[id].force
    ensures w.workers == map[id := Resuming(w.cols[id].attempt.value)] && receiver !in w.enabled
    ensures w.hist.log == v.hist.log
  {
    hide Unasked, Norm, SameAddress, Amount, Seller, Touched, TimerOk, Lower, Get, Ready, Step, Seconds;
    var off, fire, start := DoSetEnabled(receiver, false, t, true), DoFire({id}, Tick(t)), DoStart(id, Tick(t), None);
    var total := Amount(channel.charged);
    var monitor := DoMonitor(id, Tick(t), Ok(Answer(total, r, 0)), true, Err("unused"));
    Switched(v, id, receiver, false, t);
    Stays(v, off, id, left);
    var a := Step(v, off);
    TouchedOff(v, id, t);
    DueNow(a, id, t);
    Fires(a, id, Tick(t));
    Stays(a, fire, id, left);
    var b := Step(a, fire);
    GoesOn(b, id, Tick(t));
    Stays(b, start, id, left);
    var c := Step(b, start);
    OnlyKey(b.workers, id, Monitoring);
    ReadsInFlight(c, id, Tick(t), total, r);
    Stays(c, monitor, id, left);
    w := Step(c, monitor);
  }

  lemma ReadsInFlight(s: State, id: Id, t: u64, total: nat, r: nat)
    requires s.workers == map[id := Monitoring] && s.cols.Keys == {id} && s.cols[id].attempt.Some? && s.cols[id].force
    ensures var e := DoMonitor(id, t, Ok(Answer(total, r, 0)), true, Err("unused"));
      && Ready(s, e)
      && var u := Step(s, e);
         && u == s.(workers := map[id := Resuming(s.cols[id].attempt.value)], cols := u.cols) && u.cols.Keys == {id}
         && u.cols[id].seed == s.cols[id].seed && u.cols[id].attempt == s.cols[id].attempt && u.cols[id].force
         && u.cols[id].claimed == Larger(s.cols[id].claimed, r)
  {
    hide Unpaid, Amount;
    OnlyKey(s.workers, id, Resuming(s.cols[id].attempt.value));
  }

  lemma SettleWrites(w: State, id: Id, a: Attempt, tx: string)
    requires id in w.cols && a.scope in w.locks && w.locks[a.scope].key == a.key
    ensures var u := Settle(w, id, a, tx);
      && u == w.(cols := w.cols[id := u.cols[id]], locks := w.locks - {a.scope}, records := w.records[a.key := SettledTx(tx)])
      && u.cols[id].seed == w.cols[id].seed && u.cols[id].attempt.None? && u.cols[id].force == w.cols[id].force
      && u.cols[id].claimed == Larger(w.cols[id].claimed, a.target)
  {
    hide Unpaid, Amount;
  }

  lemma SettledLeaves(w: State, id: Id, channel: Channel, r: nat)
    requires Flying(w, id, channel, r) && w.cols[id].force && w.workers == map[id := Resuming(w.cols[id].attempt.value)]
    ensures var e := DoResume(id, Receipt.Settled);
      && Ready(w, e)
      && var u := Step(w, e);
         && u.workers == map[id := Returned(None)] && u.locks == map[] && u.cols.Keys == {id}
         && u.channels == w.channels && u.credit == w.credit && u.enabled == w.enabled && u.hist == w.hist
         && u.cols[id].seed == channel && u.cols[id].attempt.None? && u.cols[id].force
         && u.cols[id].claimed == Larger(r, Amount(channel.charged))
  {
    hide Amount, Settle;
    OnlyKey(w.workers, id, Returned(None));
    var a := w.cols[id].attempt.value;
    SettleWrites(w, id, a, a.tx.value);
    assert w.locks - {a.scope} == map[];
  }

  /** The receipt settles the attempt; the worker rests. */
  lemma Lands(w: State, id: Id, channel: Channel, receiver: Addr, t: u64, r: nat, left: nat, money: nat)
    returns (x: State)
    requires Scene(w, id, channel, left, money) && Flying(w, id, channel, r) && w.cols[id].force && receiver !in w.enabled
    requires w.workers == map[id := Resuming(w.cols[id].attempt.value)]
    ensures Scene(x, id, channel, left, money) && x.workers == map[] && x.locks == map[] && receiver !in x.enabled
    ensures x.cols.Keys == {id} && x.cols[id].seed == channel && x.cols[id].attempt.None? && x.cols[id].force
    ensures x.cols[id].claimed == Larger(r, Amount(channel.charged))
    ensures x.cols[id].nextDue == SatAdd(Seconds(t), INTERVAL, U64_MAX) && TimerOk(x) && x.hist.lastArm == t
    ensures x.hist.log == w.hist.log
  {
    hide Unasked, Amount, Seller, Get, Rested, TimerOk, Ready, Step, Flying, Seconds, SatAdd;
    var settle, end := DoResume(id, Receipt.Settled), DoFinish(id, t);
    SettledLeaves(w, id, channel, r);
    Stays(w, settle, id, left);
    var u := Step(w, settle);
    Ends(u, id, t);
    RestedKeeps(u, id, t);
    Stays(u, end, id, left);
    x := Step(u, end);
  }

  /** Drained, its seller disabled: the next reading, however late, removes the collection. */
  lemma DrainedLeaves(s: State, id: Id, channel: Channel, t: u64, total: nat, r: nat)
    requires s.workers == map[id := Monitoring] && s.cols.Keys == {id} && s.channels == map[id := channel]
    requires s.cols[id].attempt.None? && channel.pending.None? && !Enabled(s.enabled, channel)
    requires Amount(channel.charged) <= Larger(s.cols[id].claimed, r)
    ensures var e := DoMonitor(id, t, Ok(Answer(total, r, 0)), true, Err("unused"));
      Ready(s, e) && Step(s, e) == s.(workers := map[id := Returned(None)], cols := map[])
  {
    hide Amount, Enabled;
    var c := Observed(s.cols[id], Answer(total, r, 0), t);
    ReadLow(s.cols[id], total, r, t);
    var s1 := Save(s, id, c);
    var s2 := Save(s1, id, c.(force := false, oldestLegacy := None));
    assert s2.cols - {id} == map[];
    OnlyKey(s.workers, id, Returned(None));
  }

  lemma ReadLow(c: Collection, total: nat, r: nat, t: u64)
    ensures var d := Observed(c, Answer(total, r, 0), t); d.attempt == c.attempt && d.claimed == Larger(c.claimed, r)
  {
    hide Unpaid, Amount;
  }

  /** The timer starts the worker once more, and the collection leaves. */
  lemma Departs(x: State, id: Id, channel: Channel, receiver: Addr, t: u64, r: nat, left: nat, money: nat)
    returns (q: State)
    requires Scene(x, id, channel, left, money) && Collectable(channel, receiver) && receiver !in x.enabled
    requires x.workers == map[] && x.locks == map[]
    requires x.cols.Keys == {id} && x.cols[id].attempt.None? && x.cols[id].force
    requires Amount(channel.charged) <= Larger(x.cols[id].claimed, r)
    requires x.cols[id].nextDue == SatAdd(Seconds(t), INTERVAL, U64_MAX) && TimerOk(x) && x.hist.lastArm == t
    requires t + 61 * SECOND <= U64_MAX
    ensures Quiescent(q, id, channel, Larger(left, Larger(x.cols[id].claimed, r)), money) && q.hist.log == x.hist.log
    ensures q.records == x.records && q.enabled == x.enabled
  {
    hide Unasked, Norm, SameAddress, Amount, Seller, TimerOk, Get, Ready, Step, Seconds, SatAdd;
    var t1: u64 := t + 61 * SECOND;
    var fire, start, end := DoFire({id}, t1), DoStart(id, t1, None), DoFinish(id, t1);
    var total := Amount(channel.charged);
    var monitor := DoMonitor(id, t1, Ok(Answer(total, r, 0)), true, Err("unused"));
    DueLater(x, id, t);
    Fires(x, id, t1);
    Stays(x, fire, id, left);
    var a := Step(x, fire);
    GoesOn(a, id, t1);
    Stays(a, start, id, left);
    var b := Step(a, start);
    OnlyKey(a.workers, id, Monitoring);
    DrainedLeaves(b, id, channel, t1, total, r);
    ThenUnasked(b, monitor, id, left);
    var c := Step(b, monitor);
    Ends(c, id, t1);
    Stays(c, end, id, Larger(left, Larger(x.cols[id].claimed, r)));
    q := Step(c, end);
  }

  // ---- the key comes back --------------------------------------------------------------

  lemma NextIsBounded(b: State, id: Id, channel: Channel, left: nat, money: nat, sender: Addr, nonce: nat)
    requires Scene(b, id, channel, left, money) && nonce <= U128_MAX
    ensures nonce <= Reserved(b.nonces, sender, nonce) <= U128_MAX
  {
    hide Unasked, Reachable, JournalInv, ChargesInv, SchedInv, KeysInv, BalancedFor, SendsOk, Sole, Used, Seller;
    UnaskedReached(b, id, left);
    ReachableInv(b);
  }

  /** One registration of the channel: attempt number one is sent, settles, and the collection leaves with
      the charged total, while the reading stays at `r`. */
  lemma OneRegistration(a: State, id: Id, channel: Channel, receiver: Addr, t: u64, r: nat, p: Prep, nonce: nat, left: nat,
                        money: nat) returns (q: State, used: nat)
    requires Quiescent(a, id, channel, left, money) && Collectable(channel, receiver) && t + 100 * SECOND <= U64_MAX
    requires r < Amount(channel.charged) && p.fee <= money && nonce <= U128_MAX
    ensures Quiescent(q, id, channel, Larger(left, Amount(channel.charged)), money - p.fee)
    ensures q.hist.log == a.hist.log + [SentEntry(id, channel, p, used)] && nonce <= used <= U128_MAX
  {
    hide Scene, SentEntry, Reserved, Quiescent, Flying, Collectable, Amount, TimerOk, StartsOver, Seconds, SatAdd;
    var b := Approaches(a, id, channel, receiver, t, left, money);
    used := Reserved(b.nonces, p.from, nonce);
    NextIsBounded(b, id, channel, left, money, p.from, nonce);
    var v := TakesOff(b, id, channel, t, r, p, nonce, left, money);
    var w := Resumes(v, id, channel, receiver, t, r, left, money - p.fee);
    var x := Lands(w, id, channel, receiver, t, r, left, money - p.fee);
    q := Departs(x, id, channel, receiver, t, r, left, money - p.fee);
  }

  /** The fee of two attempts is paid in, the channel opened and charged while nobody collects for its
      seller. */
  lemma FirstCharge(id: Id, created: Channel, charged: Channel, t: u64, money: nat) returns (s: State)
    requires Accepted(None, created, Seconds(t)) && money <= U128_MAX
    requires Accepted(Some(created.(channelId := id, revision := 1)), charged, Seconds(t))
    ensures Quiescent(s, id, charged.(channelId := id, revision := 2), 0, money) && s.hist.log == []
  {
    hide Unasked, Accepted, Seller, Norm, Ready, Step, Get;
    var paid := DoDeposit(charged.config.receiver, money);
    var open := DoUpdate(id, None, created, t, None, true, true);
    var rise := DoUpdate(id, Some(1), charged, t, None, true, true);
    EmptyUnasked(id);
    Deposits(charged.config.receiver, money);
    Stays(Empty, paid, id, 0);
    var a := Step(Empty, paid);
    Stores(a, id, None, created, t);
    Stays(a, open, id, 0);
    var b := Step(a, open);
    Stores(b, id, Some(1), charged, t);
    Stays(b, rise, id, 0);
    s := Step(b, rise);
    assert Seller(charged.(channelId := id, revision := 2)) == Norm(charged.config.receiver) by { SellerOf(charged, id); }
  }

  lemma SellerOf(c: Channel, id: Id)
    ensures Seller(c.(channelId := id, revision := 2)) == Norm(c.config.receiver)
  {
    hide Norm;
  }

  lemma EmptyUnasked(id: Id)
    ensures Unasked(Empty, id, 0)
  {
    assert IsRun(Empty, []) && Exec(Empty, []) == Empty && LeftAfter(Empty, [], id, 0) == 0 && NobodyAsks([], id);
  }

  /** The bound of KeyIsFresh is tight. Take any channel that is opened and charged, any fee, and any
      reading `r` below the charged total that the monitor gives every time. Enable the seller; the attempt
      is sent; disable the seller; the receipt settles the attempt; the collection leaves with the charged
      total. Enable the seller again: the attempt that begins then has the key of the first one. */
  lemma KeyReturnsBelowTheBound(id: Id, created: Channel, charged: Channel, receiver: Addr, t: u64, r: nat, p: Prep,
                                nonce: nat) returns (s: State, e: Event)
    requires Accepted(None, created, Seconds(t))
    requires Accepted(Some(created.(channelId := id, revision := 1)), charged, Seconds(t))
    requires Collectable(charged.(channelId := id, revision := 2), receiver)
    requires r < Amount(charged.charged) && 2 * p.fee <= U128_MAX && nonce <= U128_MAX && t + 200 * SECOND <= U64_MAX
    ensures e.DoMonitor? && e.id == id && Ready(s, e) && Starts(s, e)
    ensures Reached(s, id, Amount(charged.charged)) && PaidSoFar(s.cols[id], e.answer.value) == r
    ensures exists n :: 0 <= n < |s.hist.log| && s.hist.log[n].key == FirstEntry(s, e).key
  {
    hide Unasked, Reached, Accepted, Amount, Quiescent, Collectable, Starts, FirstEntry, Ready, StartsOver, Seconds;
    var channel := charged.(channelId := id, revision := 2);
    var a := FirstCharge(id, created, charged, t, 2 * p.fee);
    var q, used := OneRegistration(a, id, channel, receiver, t, r, p, nonce, 0, 2 * p.fee);
    var later: u64 := t + 100 * SECOND;
    s := Approaches(q, id, channel, receiver, later, Amount(channel.charged), p.fee);
    e := Try(id, later, Amount(channel.charged), r, p);
    TryStarts(s, id, channel, later, r, p, Amount(channel.charged), p.fee);
    UnaskedReached(s, id, Amount(channel.charged));
    assert s.hist.log[0] == SentEntry(id, channel, p, used);
  }

  /** The bound of Runs.NoncesAreUsedOnce is tight as well: if a node reports 2^128 - 1 as the pending nonce,
      two attempts of one sender, registered one after the other, both carry it. The second begins because
      the node's reading is still below the target the first one's receipt settled. */
  lemma LastNonceRepeats(id: Id, created: Channel, charged: Channel, receiver: Addr, t: u64, r: nat, p: Prep)
    returns (s: State, m: nat, n: nat)
    requires Accepted(None, created, Seconds(t))
    requires Accepted(Some(created.(channelId := id, revision := 1)), charged, Seconds(t))
    requires Collectable(charged.(channelId := id, revision := 2), receiver)
    requires r < Amount(charged.charged) && 2 * p.fee <= U128_MAX && t + 200 * SECOND <= U64_MAX
    ensures Reachable(s) && m < n < |s.hist.log| && s.hist.log[m].from == s.hist.log[n].from
    ensures s.hist.log[m].fate.Journaled? && s.hist.log[n].fate.Journaled?
    ensures s.hist.log[m].fate.nonce == s.hist.log[n].fate.nonce == U128_MAX
  {
    hide Unasked, Reachable, Accepted, Amount, Quiescent, Collectable, Seconds;
    var channel := charged.(channelId := id, revision := 2);
    var a := FirstCharge(id, created, charged, t, 2 * p.fee);
    var b, used := OneRegistration(a, id, channel, receiver, t, r, p, U128_MAX, 0, 2 * p.fee);
    var later: u64 := t + 100 * SECOND;
    var again: nat;
    s, again := OneRegistration(b, id, channel, receiver, later, r, p, U128_MAX, Amount(channel.charged), p.fee);
    m, n := 0, 1;
    assert s.hist.log[0] == SentEntry(id, channel, p, used) && s.hist.log[1] == SentEntry(id, channel, p, again);
    QuiescentReachable(s, id, channel, Amount(channel.charged), 0);
  }

  /** The bound of Runs.FeeConservation is exact too: two pay-ins that exceed 2^128 - 1 together leave exactly
      that on credit, and the rest is dropped. */
  lemma PayInsPastTheBound(seller: Addr, first: nat, second: nat) returns (s: State)
    requires first <= U128_MAX && second <= U128_MAX && first + second > U128_MAX
    ensures Reachable(s) && Get(s.hist.paidIn, Norm(seller)) == first + second
    ensures Get(s.credit, Norm(seller)) == U128_MAX
    ensures Get(s.hist.lost, Norm(seller)) == first + second - U128_MAX
  {
    hide Reachable, Norm;
    EmptyReachable();
    Then(Empty, DoDeposit(seller, first));
    var a := Step(Empty, DoDeposit(seller, first));
    Then(a, DoDeposit(seller, second));
    s := Step(a, DoDeposit(seller, second));
  }

  lemma QuiescentReachable(s: State, id: Id, channel: Channel, left: nat, money: nat)
    requires Quiescent(s, id, channel, left, money)
    ensures Reachable(s)
  {
    hide Unasked, Reachable, Seller, Get;
    UnaskedReached(s, id, left);
  }

  // ---- a concrete instance -------------------------------------------------------------

  lemma ExampleCollectable()
    ensures Collectable(CHARGED.(channelId := Hex(64, '2'), revision := 2), Hex(40, '1'))
  {
    hide Amount, Value, Norm, Lower, Hex;
    ExampleAmounts();
    LowerReceiver('1');
  }

  /** One channel, opened and charged five at time zero, with fee one and every reading zero: a new attempt
      with a key used before. */
  lemma KeyReturnsExample() returns (s: State, e: Event)
    ensures e.DoMonitor? && Reached(s, e.id, 5) && Ready(s, e) && Starts(s, e)
    ensures PaidSoFar(s.cols[e.id], e.answer.value) == 0
    ensures exists n :: 0 <= n < |s.hist.log| && s.hist.log[n].key == FirstEntry(s, e).key
  {
    hide Accepted, Reached, Collectable, Hex, ExampleChannel, Starts, FirstEntry, Ready, Amount;
    LowerReceiver('1');
    Creates(Hex(40, '1'), 1, 0);
    ChargesFive(Hex(40, '1'), 1, 0);
    ExampleCollectable();
    ExampleAmounts();
    ExampleCharged();
    var from := Hex(40, '6');
    s, e := KeyReturnsBelowTheBound(Hex(64, '2'), OPENED, CHARGED, Hex(40, '1'), 0, 0, Prep(1, from, from, 137), 0);
  }

  const OPENED := OpenChannel(Hex(40, '1'), 1)
  const CHARGED := ExampleChannel(Hex(40, '1'), "5", None)

  lemma ExampleCharged()
    ensures CHARGED.charged == "5"
  {
  }
}
