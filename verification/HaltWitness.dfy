/** A halt ends without a request: a run on which a claim reverts, the collection leaves because somebody else
    claimed for the channel, the channel is charged again, and the next registration begins an attempt. */
module HaltWitness {
  import opened Accounts
  import opened Wrappers
  import opened Decimal
  import opened HexUtil
  import opened Batch
  import opened Collector
  import opened Scheduler
  import opened Runs
  import opened Registrations
  import opened AttemptStarts
  import opened Scripts
  import opened Examples
  import opened KeyWitness

  // ---- the claim reverts ---------------------------------------------------------------

  lemma FailWrites(w: State, id: Id, a: Attempt, tx: string)
    requires id in w.cols && a.scope in w.locks && w.locks[a.scope].key == a.key
    ensures var u := Fail(w, id, a, tx);
      && u == w.(cols := w.cols[id := u.cols[id]], locks := w.locks - {a.scope}, records := w.records[a.key := FailedTx(tx)])
      && u.cols[id].attempt.None? && u.cols[id].force && u.cols[id].halted && u.cols[id].claimed == w.cols[id].claimed
  {
  }

  lemma FailedLeaves(w: State, id: Id, channel: Channel, r: nat)
    requires Flying(w, id, channel, r) && w.workers == map[id := Resuming(w.cols[id].attempt.value)]
    ensures var e, key := DoResume(id, Receipt.Failed), Auto(id, Amount(channel.charged), 1);
      && Ready(w, e)
      && var u := Step(w, e);
         && u.workers == map[id := Returned(None)] && u.locks == map[] && u.cols.Keys == {id}
         && u.channels == w.channels && u.credit == w.credit && u.enabled == w.enabled && u.hist == w.hist
         && u.cols[id].attempt.None? && u.cols[id].force && u.cols[id].halted && u.cols[id].claimed == r
         && key in u.records && u.records[key].FailedTx?
  {
    hide Amount, Fail;
    OnlyKey(w.workers, id, Returned(None));
    var a := w.cols[id].attempt.value;
    FailWrites(w, id, a, a.tx.value);
    assert w.locks - {a.scope} == map[];
  }

  /** The receipt shows the claim reverted: the collection is halted, and the worker rests. */
  lemma Reverts(w: State, id: Id, channel: Channel, receiver: Addr, t: u64, r: nat, left: nat, money: nat)
    returns (x: State)
    requires Scene(w, id, channel, left, money) && Flying(w, id, channel, r) && receiver !in w.enabled
    requires w.workers == map[id := Resuming(w.cols[id].attempt.value)]
    ensures Scene(x, id, channel, left, money) && x.workers == map[] && x.locks == map[] && receiver !in x.enabled
    ensures x.cols.Keys == {id} && x.cols[id].attempt.None? && x.cols[id].force && x.cols[id].halted
    ensures x.cols[id].claimed == r
    ensures x.cols[id].nextDue == SatAdd(Seconds(t), INTERVAL, U64_MAX) && TimerOk(x) && x.hist.lastArm == t
    ensures var key := Auto(id, Amount(channel.charged), 1); key in x.records && x.records[key].FailedTx?
  {
    hide Unasked, Amount, Seller, Get, Rested, TimerOk, Ready, Step, Flying, Seconds, SatAdd;
    FailedLeaves(w, id, channel, r);
    Stays(w, DoResume(id, Receipt.Failed), id, left);
    var u := Step(w, DoResume(id, Receipt.Failed));
    Ends(u, id, t);
    RestedKeeps(u, id, t);
    Stays(u, DoFinish(id, t), id, left);
    x := Step(u, DoFinish(id, t));
  }

  // ---- the channel is charged again ----------------------------------------------------

  /** An accepted update of a channel nobody collects for is just stored. */
  lemma StoresNext(s: State, id: Id, next: Channel, t: u64)
    requires s.cols == map[] && id in s.channels && s.channels == map[id := s.channels[id]]
    requires !Enabled(s.enabled, next) && Accepted(Some(s.channels[id]), next, Seconds(t))
    ensures var e := DoUpdate(id, Some(s.channels[id].revision), next, t, None, true, true);
      && Ready(s, e)
      && Step(s, e) == s.(channels := map[id := next.(channelId := id, revision := NextRevision(Stored(s, id)))])
  {
    hide Accepted, Amount, Lower, NextRevision;
    OnlyKey(s.channels, id, next.(channelId := id, revision := NextRevision(Stored(s, id))));
    StillOff(s.enabled, next, id);
  }

  lemma StillOff(enabled: set<Addr>, next: Channel, id: Id)
    ensures Enabled(enabled, next.(channelId := id)) == Enabled(enabled, next)
  {
  }

  /** The seller's account is the same for every spelling of the address. */
  lemma OneAccount(channel: Channel, receiver: Addr)
    requires Collectable(channel, receiver)
    ensures Seller(channel) == receiver
  {
    hide Lower, Amount;
  }

  lemma ChargedAgain(q: State, id: Id, channel: Channel, reserved: Channel, again: Channel, receiver: Addr, t: u64,
                     left: nat, money: nat) returns (s: State)
    requires Quiescent(q, id, channel, left, money) && Collectable(channel, receiver) && receiver !in q.enabled
    requires channel.revision == 2 && Lower(reserved.config.receiver) == receiver
    requires Accepted(Some(channel), reserved, Seconds(t))
    requires Accepted(Some(reserved.(channelId := id, revision := 3)), again, Seconds(t))
    requires Collectable(again.(channelId := id, revision := 4), receiver)
    ensures Quiescent(s, id, again.(channelId := id, revision := 4), left, money) && s.records == q.records
  {
    hide Unasked, Accepted, Norm, SameAddress, Lower, Amount, Seller, Get, Ready, Step;
    OneAccount(channel, receiver);
    OneAccount(again.(channelId := id, revision := 4), receiver);
    StoresNext(q, id, reserved, t);
    Stays(q, DoUpdate(id, Some(2), reserved, t, None, true, true), id, left);
    var b := Step(q, DoUpdate(id, Some(2), reserved, t, None, true, true));
    StoresNext(b, id, again, t);
    Stays(b, DoUpdate(id, Some(3), again, t, None, true, true), id, left);
    s := Step(b, DoUpdate(id, Some(3), again, t, None, true, true));
  }

  // ---- the run -------------------------------------------------------------------------

  /** The channel's updates: opened and charged at `t`, reserved and charged again a while later. */
  ghost predicate Chain(id: Id, created: Channel, charged: Channel, reserved: Channel, again: Channel, receiver: Addr,
                        t: u64)
  {
    && t + 200 * SECOND <= U64_MAX
    && Accepted(None, created, Seconds(t))
    && Accepted(Some(created.(channelId := id, revision := 1)), charged, Seconds(t))
    && Accepted(Some(charged.(channelId := id, revision := 2)), reserved, Seconds(Later(t)))
    && Accepted(Some(reserved.(channelId := id, revision := 3)), again, Seconds(Later(t)))
    && Collectable(charged.(channelId := id, revision := 2), receiver)
    && Lower(reserved.config.receiver) == receiver
    && Collectable(again.(channelId := id, revision := 4), receiver)
    && Amount(charged.charged) < Amount(again.charged)
  }

  function Later(t: u64): u64
    requires t + 200 * SECOND <= U64_MAX
  {
    t + 100 * SECOND
  }

  /** Attempt number one reverts, and the reading that shows the whole total claimed takes the collection of
      the disabled seller out of the map. */
  lemma RevertedAndGone(a: State, id: Id, channel: Channel, receiver: Addr, t: u64, r: nat, p: Prep, nonce: nat,
                        money: nat) returns (q: State)
    requires Quiescent(a, id, channel, 0, money) && Collectable(channel, receiver) && t + 100 * SECOND <= U64_MAX
    requires r < Amount(channel.charged) && p.fee <= money && nonce <= U128_MAX
    ensures Quiescent(q, id, channel, Amount(channel.charged), money - p.fee) && receiver !in q.enabled
    ensures var key := Auto(id, Amount(channel.charged), 1); key in q.records && q.records[key].FailedTx?
  {
    hide Scene, Quiescent, Flying, Collectable, Amount, TimerOk, StartsOver, Seconds, SatAdd, SentEntry, Reserved;
    var total := Amount(channel.charged);
    var b := Approaches(a, id, channel, receiver, t, 0, money);
    var v := TakesOff(b, id, channel, t, r, p, nonce, 0, money);
    var w := Resumes(v, id, channel, receiver, t, r, 0, money - p.fee);
    var x := Reverts(w, id, channel, receiver, t, r, 0, money - p.fee);
    q := Departs(x, id, channel, receiver, t, total, 0, money - p.fee);
  }

  /** A halt does not outlive the registration. For every channel with such updates, every fee and every first
      reading below the first total: on a run without a single request for the channel, whose readings only
      rise, its first claim is recorded as reverted, and later an attempt of it begins. */
  lemma HaltEndsByLeaving(id: Id, created: Channel, charged: Channel, reserved: Channel, again: Channel, receiver: Addr,
                          t: u64, r: nat, p: Prep, nonce: nat) returns (s: State, e: Event)
    requires Chain(id, created, charged, reserved, again, receiver, t)
    requires r < Amount(charged.charged) && 2 * p.fee <= U128_MAX && nonce <= U128_MAX
    ensures Unasked(s, id, Amount(charged.charged)) && Reachable(s)
    ensures var key := Auto(id, Amount(charged.charged), 1); key in s.records && s.records[key].FailedTx?
    ensures e.DoMonitor? && e.id == id && Ready(s, e) && Starts(s, e)
    ensures e.answer.value.claimed == Amount(charged.charged)
  {
    hide Unasked, Reachable, Accepted, Amount, Quiescent, Collectable, Starts, Ready, StartsOver, Seconds, Lower;
    var channel, channel' := charged.(channelId := id, revision := 2), again.(channelId := id, revision := 4);
    var total := Amount(charged.charged);
    var a := FirstCharge(id, created, charged, t, 2 * p.fee);
    var q := RevertedAndGone(a, id, channel, receiver, t, r, p, nonce, 2 * p.fee);
    var b := ChargedAgain(q, id, channel, reserved, again, receiver, Later(t), total, p.fee);
    s := Approaches(b, id, channel', receiver, Later(t), total, p.fee);
    e := Try(id, Later(t), Amount(again.charged), total, p);
    TryStarts(s, id, channel', Later(t), total, p, total, p.fee);
    UnaskedReached(s, id, total);
  }

  // ---- a concrete instance -------------------------------------------------------------

  /** Charged five, then reserved and charged up to nine. */
  function Reserved9(receiver: string): Channel {
    ExampleChannel(receiver, "5", Some(Pending.Pending("second", "9", 200_000)))
  }

  function Charged9(receiver: string): Channel {
    ExampleChannel(receiver, "9", None).(signedMax := "9")
  }

  lemma NineParses()
    ensures ParseU128("9") == Some(9) && Amount("9") == 9 && IsDecimal("9") && ParsedU256("9").Some? && Value("9") == 9
  {
    assert "9"[..0] == "";
    ParsesAgree("9");
  }

  lemma NineAccepted(receiver: string)
    requires IsAddress(receiver)
    ensures Accepted(Some(ExampleChannel(receiver, "5", None).(channelId := Hex(64, '2'), revision := 2)),
                     Reserved9(receiver), 100)
    ensures Accepted(Some(Reserved9(receiver).(channelId := Hex(64, '2'), revision := 3)), Charged9(receiver), 100)
  {
    hide IsAddress, IsHexOf, ParseU128, Amount, IsDecimal, ParsedU256, Value, Hex, RequireMonotonic;
    ExampleTexts();
    ExampleAmounts();
    NineParses();
    MonotonicIsNumeric("0", "0");
    MonotonicIsNumeric("5", "5");
    MonotonicIsNumeric("5", "9");
    HexAddress('1');
  }

  lemma NineChain()
    ensures var a := Hex(40, '1');
      Chain(Hex(64, '2'), OpenChannel(a, 1), ExampleChannel(a, "5", None), Reserved9(a), Charged9(a), a, 0)
  {
    hide Accepted, Amount, Value, Norm, Lower, Hex, IsAddress, SameAddress;
    ExampleAmounts();
    NineParses();
    LowerReceiver('1');
    Creates(Hex(40, '1'), 1, 0);
    ChargesFive(Hex(40, '1'), 1, 0);
    NineAccepted(Hex(40, '1'));
  }

  /** One channel, charged five and later nine, with fee one and first reading zero. */
  lemma HaltEndsExample() returns (s: State, e: Event)
    ensures e.DoMonitor? && Unasked(s, e.id, 5) && Reachable(s) && Ready(s, e) && Starts(s, e)
    ensures var key := Auto(e.id, 5, 1); key in s.records && s.records[key].FailedTx?
  {
    hide Chain, Unasked, Reachable, Starts, Ready, Hex, Amount, ExampleChannel;
    NineChain();
    ExampleAmounts();
    ChargedFive(Hex(40, '1'));
    var a := Hex(40, '1');
    s, e := HaltEndsByLeaving(Hex(64, '2'), OpenChannel(a, 1), ExampleChannel(a, "5", None), Reserved9(a), Charged9(a), a,
                              0, 0, Prep(1, a, a, 137), 0);
  }

  lemma ChargedFive(receiver: string)
    ensures ExampleChannel(receiver, "5", None).charged == "5"
  {
  }
}
