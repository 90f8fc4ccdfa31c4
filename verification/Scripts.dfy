/** Runs of one channel, event by event: what each event needs and what it leaves. The lemmas that show
    where a promise ends are built from these. */
module Scripts {
  import opened Accounts
  import opened Wrappers
  import opened Decimal
  import opened HexUtil
  import opened Batch
  import opened Collector
  import opened Scheduler
  import opened Runs
  import opened Examples

  lemma {:induction false} RunExtends(s: State, events: seq<Event>, e: Event)
    requires IsRun(s, events) && Ready(Exec(s, events), e)
    ensures IsRun(s, events + [e]) && Exec(s, events + [e]) == Step(Exec(s, events), e)
    decreases |events|
  {
    hide Ready, Step;
    if events == [] {
      assert events + [e] == [e];
      assert [e][1..] == [];
    } else {
      RunExtends(Step(s, events[0]), events[1..], e);
      assert (events + [e])[1..] == events[1..] + [e];
    }
  }

  lemma Then(s: State, e: Event)
    requires Reachable(s) && Ready(s, e)
    ensures Reachable(Step(s, e))
  {
    hide Ready, Step, IsRun, Exec;
    var events :| IsRun(Empty, events) && Exec(Empty, events) == s;
    RunExtends(Empty, events, e);
  }

  lemma EmptyReachable()
    ensures Reachable(Empty)
  {
    assert IsRun(Empty, []) && Exec(Empty, []) == Empty;
  }

  function Tick(t: u64): u64 {
    SatAdd(t, SECOND, U64_MAX)
  }

  // ---- money and channels --------------------------------------------------------------

  lemma Deposits(seller: Addr, amount: nat)
    requires amount <= U128_MAX
    ensures Ready(Empty, DoDeposit(seller, amount))
    ensures var s := Step(Empty, DoDeposit(seller, amount));
      && Get(s.credit, Norm(seller)) == amount && s.cols == map[] && s.workers == map[] && s.locks == map[]
      && s.channels == map[] && s.enabled == {} && s.hist.log == []
  {
    hide Norm;
  }

  /** Without a collection or an enabled seller an accepted update is just stored. */
  lemma Stores(s: State, id: Id, expected: Option<nat>, next: Channel, t: u64)
    requires s.cols == map[] && s.enabled == {} && s.channels.Keys <= {id}
    requires Accepted(Stored(s, id), next, Seconds(t))
    requires expected == (if id in s.channels then Some(s.channels[id].revision) else None)
    requires id in s.channels ==> s.channels[id].revision == 1
    ensures var e := DoUpdate(id, expected, next, t, None, true, true);
      && Ready(s, e)
      && Step(s, e) == s.(channels := map[id := next.(channelId := id, revision := if id in s.channels then 2 else 1)])
  {
    hide Accepted, Amount, Lower;
    var revision := if id in s.channels then 2 else 1;
    assert NextRevision(Stored(s, id)) == revision;
    assert s.channels[id := next.(channelId := id, revision := revision)]
      == map[id := next.(channelId := id, revision := revision)];
  }

  // ---- the switch ----------------------------------------------------------------------

  /** What the scheduler's events leave alone. */
  ghost predicate Rest(s: State, t: State) {
    && t.channels == s.channels && t.locks == s.locks && t.records == s.records && t.credit == s.credit
    && t.hist.log == s.hist.log
  }

  /** The collection the switch leaves, the timer armed for it. */
  lemma Switched(s: State, id: Id, receiver: Addr, value: bool, t: u64)
    requires s.workers == map[] && s.channels.Keys == {id} && receiver == Norm(receiver)
    requires SameAddress(s.channels[id].config.receiver, receiver)
    requires if value then s.cols == map[] else s.cols.Keys == {id} && s.cols[id].seed == s.channels[id]
    ensures var e := DoSetEnabled(receiver, value, t, true);
      && Ready(s, e)
      && var u := Step(s, e);
         && Rest(s, u) && u.workers == map[] && TimerOk(u) && u.hist.lastArm == t
         && u.enabled == (if value then s.enabled + {receiver} else s.enabled - {receiver})
         && u.cols == map[id := Touched(s, id, value, t)]
  {
    hide Norm, SameAddress, Touched, Arm, TimerOk, Targets;
    OnlyTarget(s, id, receiver, value);
    SwitchedTo(s, id, receiver, value, t);
    var mid := Switch(s, receiver, value, t);
    ArmIsOnTime(mid, t);
    ArmWrites(mid, t);
  }

  lemma SwitchedTo(s: State, id: Id, receiver: Addr, value: bool, t: u64)
    requires Targets(s.channels, s.cols, receiver, value) == {id} && s.cols.Keys <= {id}
    ensures var mid := Switch(s, receiver, value, t);
      && mid.cols == map[id := Touched(s, id, value, t)]
      && Rest(s, mid) && mid.workers == s.workers
      && mid.enabled == (if value then s.enabled + {receiver} else s.enabled - {receiver})
  {
    hide Touched, Targets, Retouched;
    RetouchedOne(s, id, value, t);
  }

  lemma RetouchedOne(s: State, id: Id, value: bool, t: u64)
    requires s.cols.Keys <= {id} && (id in s.cols || id in s.channels)
    ensures Retouched(s, {id}, value, t) == map[id := Touched(s, id, value, t)]
  {
    hide Touched;
  }

  lemma OnlyTarget(s: State, id: Id, receiver: Addr, value: bool)
    requires s.channels.Keys == {id} && SameAddress(s.channels[id].config.receiver, receiver)
    requires if value then s.cols == map[] else s.cols.Keys == {id} && s.cols[id].seed == s.channels[id]
    ensures Targets(s.channels, s.cols, receiver, value) == {id}
    ensures |s.cols| + |{id} - s.cols.Keys| <= 1
  {
    hide SameAddress;
  }

  lemma ArmWrites(s: State, t: u64)
    ensures Arm(s, t) == s.(timer := Arm(s, t).timer, hist := s.hist.(lastArm := t))
  {
    hide NextWakeup, TimerDeadline;
  }

  // ---- the timer and the worker's frame ------------------------------------------------

  /** The timer starts the only collection's worker. */
  lemma Fires(s: State, id: Id, now: u64)
    requires s.workers == map[] && s.cols.Keys == {id} && s.cols[id].nextDue <= Seconds(now)
    requires s.timer.Some? && s.timer.value <= now
    ensures var e := DoFire({id}, now);
      && Ready(s, e)
      && var u := Step(s, e);
         u == s.(workers := map[id := Starting], timer := u.timer, hist := s.hist.(lastArm := now))
  {
    hide Arm, Earliest, DueIdle, Seconds;
    OneIsEarliest(s, id, now);
    var started := s.(timer := None, workers := s.workers + Spawned({id}));
    assert started.workers == map[id := Starting];
    ArmWrites(started, now);
  }

  lemma OneIsEarliest(s: State, id: Id, now: u64)
    requires s.workers == map[] && s.cols.Keys == {id} && s.cols[id].nextDue <= Seconds(now)
    ensures Earliest(s.cols, DueIdle(s, now), {id}, Capacity(s))
  {
    hide Before, Seconds;
    assert DueIdle(s, now) == {id};
  }

  /** A collection due at once is started a second after the timer was armed. */
  lemma DueNow(s: State, id: Id, t: u64)
    requires id !in s.workers && id in s.cols && s.cols[id].nextDue == Seconds(t)
    requires TimerOk(s) && s.hist.lastArm == t
    ensures s.timer.Some? && s.timer.value <= Tick(t) && s.cols[id].nextDue <= Seconds(Tick(t))
  {
    hide SatMul;
    assert Wakes(s.cols, s.workers.Keys, id);
    WholeSeconds(t);
  }

  lemma WholeSeconds(t: u64)
    ensures SatMul(Seconds(t)) <= t && Seconds(t) <= Seconds(Tick(t))
  {
  }

  /** A collection that rested at `t` is started sixty-one seconds later. */
  lemma DueLater(s: State, id: Id, t: u64)
    requires s.workers == map[] && id in s.cols && s.cols[id].nextDue == SatAdd(Seconds(t), INTERVAL, U64_MAX)
    requires TimerOk(s) && s.hist.lastArm == t && t + 61 * SECOND <= U64_MAX
    ensures s.timer.Some? && s.timer.value <= t + 61 * SECOND && s.cols[id].nextDue <= Seconds(t + 61 * SECOND)
  {
    hide SatMul;
    MinuteLater(t);
    assert Wakes(s.cols, s.workers.Keys, id);
  }

  lemma MinuteLater(t: u64)
    requires t + 61 * SECOND <= U64_MAX
    ensures SatAdd(Seconds(t), INTERVAL, U64_MAX) == Seconds(t) + 60
    ensures SatMul(Seconds(t) + 60) <= t + 60 * SECOND && Seconds(t + 61 * SECOND) == Seconds(t) + 61
  {
  }

  /** The worker monitors unless the collection is idle or its attempt has no bytes. */
  lemma GoesOn(s: State, id: Id, t: u64)
    requires id in s.workers && s.workers[id].Starting? && id in s.cols
    requires if s.cols[id].attempt.Some? then s.cols[id].attempt.value.raw.Some?
             else s.cols[id].monitoredAt.None? || s.cols[id].force
    ensures Ready(s, DoStart(id, t, None)) && Step(s, DoStart(id, t, None)) == At(s, id, Monitoring)
  {
    hide Amount, Live;
  }

  /** The only worker ends; the timer is armed for what it left. */
  lemma Ends(s: State, id: Id, t: u64)
    requires s.workers.Keys == {id} && s.workers[id].Returned? && s.cols.Keys <= {id}
    ensures var e := DoFinish(id, t);
      && Ready(s, e)
      && var u := Step(s, e);
         && u == s.(workers := map[], cols := u.cols, timer := u.timer, hist := s.hist.(lastArm := t)) && TimerOk(u)
         && u.cols == (if id in s.cols then map[id := Rested(s, id, t)] else map[])
  {
    hide Arm, Rested, TimerOk, WorkerFinish;
    assert s.workers - {id} == map[];
    FinishLeaves(s, id, t);
    if id in s.cols {
      OnlyKey(s.cols, id, Rested(s, id, t));
    } else {
      NoKeys(s.cols);
    }
  }

  lemma FinishLeaves(s: State, id: Id, t: u64)
    requires id in s.workers && s.workers[id].Returned?
    ensures var u := WorkerFinish(s, id, t);
      && u == s.(workers := s.workers - {id}, cols := u.cols, timer := u.timer, hist := s.hist.(lastArm := t))
      && TimerOk(u) && u.cols == (if id in s.cols then s.cols[id := Rested(s, id, t)] else s.cols)
  {
    hide Arm, Rested, TimerOk;
    var done := s.(workers := s.workers - {id});
    var last := if id in s.cols then Save(done, id, Rested(s, id, t)) else done;
    ArmWrites(last, t);
    ArmIsOnTime(last, t);
  }

  lemma OnlyKey<T>(m: map<Id, T>, id: Id, value: T)
    requires m.Keys == {id}
    ensures m[id := value] == map[id := value]
  {
  }

  lemma NoKeys<T>(m: map<Id, T>)
    ensures m.Keys == {} ==> m == map[]
  {
  }

  // ---- the first visit of a worker -----------------------------------------------------

  /** A new channel's collection: owes nothing, not monitored yet. */
  predicate Blank(c: Collection, channel: Channel) {
    && c.seed == channel && c.charges == [] && c.claimed == 0 && c.attempt.None? && c.monitoredAt.None? && !c.halted
    && c.withdrawalAt == 0 && c.error.None?
  }

  lemma TouchedBlank(s: State, id: Id, t: u64)
    requires id !in s.cols && id in s.channels
    ensures Blank(Touched(s, id, true, t), s.channels[id]) && Touched(s, id, true, t).nextDue == Seconds(t)
  {
    hide Amount, Seconds;
  }

  lemma TouchedAgain(s: State, id: Id, t: u64)
    requires id in s.cols
    ensures Touched(s, id, false, t) == s.cols[id].(force := true, nextDue := Seconds(t))
  {
    hide Seconds;
  }

  /** Monitored while its reservation is live: nothing forces it any more, and it stays. */
  lemma StaysReserved(s: State, id: Id, channel: Channel, t: u64)
    requires s.workers == map[id := Monitoring] && s.cols.Keys == {id} && s.channels == map[id := channel]
    requires Blank(s.cols[id], channel) && Amount(channel.charged) == 0 && Live(channel.pending, Seconds(t))
    ensures var e := DoMonitor(id, t, Ok(Answer(0, 0, 0)), true, Err("unused"));
      && Ready(s, e)
      && var u := Step(s, e);
         && u == s.(workers := map[id := Returned(None)], cols := u.cols) && u.cols.Keys == {id}
         && u.cols[id].seed == channel && u.cols[id].claimed == 0 && u.cols[id].attempt.None? && !u.cols[id].force
         && u.cols[id].monitoredAt == Some(Seconds(t)) && u.cols[id].charges == [] && u.cols[id].withdrawalAt == 0
         && u.cols[id].error.None?
  {
    hide Amount, Enabled, Live, Seconds, Unpaid;
    OnlyKey(s.workers, id, Returned(None));
  }

  lemma RestsReserved(s: State, id: Id, channel: Channel, t: u64)
    requires id in s.cols && s.workers == map[id := Returned(None)] && s.channels == map[id := channel]
    requires Live(channel.pending, Seconds(t))
    ensures Rested(s, id, t) == s.cols[id].(nextDue := SatAdd(Seconds(t), INTERVAL, U64_MAX))
  {
    hide Amount, Live, Seconds, SatAdd;
  }

  lemma BlankAgain(c: Collection, d: Collection, channel: Channel, t: u64)
    requires Blank(c, channel) && d == c.(force := true, nextDue := Seconds(t))
    ensures Blank(d, channel) && d.nextDue == Seconds(t) && c.seed == channel
  {
    hide Seconds;
  }

  lemma CreatedFresh(created: Channel, id: Id, t: u64)
    requires Accepted(None, created, Seconds(t))
    ensures Amount(created.(channelId := id, revision := 1).charged) == 0
  {
    hide ValidateChannel, Live;
    assert ParseU128("0") == Some(0) by { assert "0"[..0] == ""; }
  }

  /** The worker's first visit, while the reservation is live. */
  lemma FirstVisit(c: State, id: Id, channel: Channel, t: u64) returns (d: State)
    requires Reachable(c) && c.workers == map[] && c.cols.Keys == {id} && c.channels == map[id := channel]
    requires Blank(c.cols[id], channel) && c.cols[id].nextDue == Seconds(t) && TimerOk(c) && c.hist.lastArm == t
    requires Amount(channel.charged) == 0 && Live(channel.pending, Seconds(Tick(t)))
    ensures Reachable(d) && d.workers == map[] && d.cols.Keys == {id} && d.channels == map[id := channel]
    ensures d.enabled == c.enabled && d.credit == c.credit && TimerOk(d) && d.hist.lastArm == Tick(t)
    ensures var r := d.cols[id];
      && r.seed == channel && r.charges == [] && r.claimed == 0 && r.attempt.None? && !r.force
      && r.monitoredAt == Some(Seconds(Tick(t))) && r.withdrawalAt == 0 && r.error.None?
      && r.nextDue == SatAdd(Seconds(Tick(t)), INTERVAL, U64_MAX)
  {
    hide Reachable, Amount, Ready, Step, TimerOk, Live, Seconds, SatAdd, Rested;
    var now := Tick(t);
    var fire, start, end := DoFire({id}, now), DoStart(id, now, None), DoFinish(id, now);
    var monitor := DoMonitor(id, now, Ok(Answer(0, 0, 0)), true, Err("unused"));
    DueNow(c, id, t);
    Fires(c, id, now);
    Then(c, fire);
    var x := Step(c, fire);
    GoesOn(x, id, now);
    Then(x, start);
    var y := Step(x, start);
    OnlyKey(x.workers, id, Monitoring);
    StaysReserved(y, id, channel, now);
    Then(y, monitor);
    var z := Step(y, monitor);
    Ends(z, id, now);
    RestsReserved(z, id, channel, now);
    Then(z, end);
    d := Step(z, end);
  }

  // ---- a concrete receiver -------------------------------------------------------------

  /** A text of equal decimal digits is its own normal form. */
  lemma LowerReceiver(digit: char)
    requires '1' <= digit <= '9'
    ensures var a := Hex(40, digit);
      IsAddress(a) && Norm(a) == a && Lower(a) == a && SameAddress(a, a)
  {
    HexAddress(digit);
    HexIsHex(40, digit);
    var a := Hex(40, digit);
    assert Lower(a) == a && Lower(a[2..]) == a[2..];
    assert a == "0x" + a[2..];
  }
}
