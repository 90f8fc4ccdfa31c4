/** Seller credit is booked under normalised addresses, but a new reservation looks it up under the
    channel's receiver text as stored (rust/facilitator/src/auto_claim.rs:238-243). */
module CreditText {
  import opened Accounts
  import opened Wrappers
  import opened Decimal
  import opened Batch
  import opened Collector
  import opened Ledger
  import opened LedgerSteps
  import opened Scheduler
  import opened Runs
  import opened Admission
  import opened Scripts
  import opened Examples
  import opened HexUtil

  /** Every credit account and every ledger entry names a normalised address. */
  ghost predicate Booked(l: Ledger) {
    && (forall a :: a in l.credit ==> Norm(a) == a)
    && (forall n :: 0 <= n < |l.log| ==> Norm(l.log[n].seller) == l.log[n].seller)
  }

  lemma MoveBooks(l: Ledger, m: Move)
    requires CanMove(l, m) && Booked(l) && NormalMove(m)
    ensures Booked(Apply(l, m))
  {
    hide Norm, Get, SatAdd, Reserved, Advance, Rollback;
  }

  lemma {:induction false} RunBooks(s: State, events: seq<Event>)
    requires Inv(s) && IsRun(s, events) && Booked(LedgerOf(s))
    ensures Booked(LedgerOf(Exec(s, events)))
    decreases |events|
  {
    hide Inv, Ready, Step, Booked, Apply, CanMove, NormalMove;
    if events != [] {
      InvJournal(s);
      var m := StepMoves(s, events[0]);
      MoveBooks(LedgerOf(s), m);
      StepKeepsInv(s, events[0]);
      RunBooks(Step(s, events[0]), events[1..]);
    }
  }

  /** A reservation sees a channel's credit if and only if the receiver text is the normalised one, or
      there is none: for any other text it sees zero. */
  lemma ReservationSeesCredit(s: State, c: Channel)
    requires Reachable(s)
    ensures Get(s.credit, c.config.receiver) ==
      (if Norm(c.config.receiver) == c.config.receiver then Get(s.credit, Seller(c)) else 0)
  {
    hide Inv, IsRun, Exec, Norm;
    var events :| IsRun(Empty, events) && Exec(Empty, events) == s;
    EmptyInv();
    RunBooks(Empty, events);
  }

  /** So with a positive fee a receiver stored in any other spelling can never open a reservation. */
  lemma OtherSpellingIsRefused(s: State, c: Collection, now: u64, fee: nat)
    requires Reachable(s) && fee > 0 && Norm(c.seed.config.receiver) != c.seed.config.receiver
    ensures StopReason(s, c, now, Some(fee)).Some?
  {
    hide Reachable, Norm, Enabled, IsStale;
    ReservationSeesCredit(s, c.seed);
  }

  // ---- a run on which it happens -------------------------------------------------------

  /** The channel stores its receiver in another spelling than the account the credit is booked under. */
  ghost predicate OtherSpelling(channel: Channel, receiver: Addr) {
    && receiver == Norm(receiver) && SameAddress(channel.config.receiver, receiver)
    && Lower(channel.config.receiver) == receiver && Norm(channel.config.receiver) != channel.config.receiver
  }

  /** Money is paid in, the channel opened and its seller enabled; a second later its worker has monitored. */
  lemma Monitored(id: Id, created: Channel, receiver: Addr, t: u64, money: nat) returns (s: State)
    requires Accepted(None, created, Seconds(t)) && OtherSpelling(created, receiver) && money <= U128_MAX
    requires Live(created.pending, Seconds(Tick(t)))
    ensures Reachable(s) && s.channels == map[id := created.(channelId := id, revision := 1)] && s.cols.Keys == {id}
    ensures Get(s.credit, Norm(created.config.receiver)) == money && receiver in s.enabled
    ensures var c := s.cols[id];
      && c.seed == s.channels[id] && c.charges == [] && c.withdrawalAt == 0 && c.error.None?
      && c.monitoredAt == Some(Seconds(Tick(t)))
  {
    hide Reachable, Accepted, Norm, SameAddress, Lower, Amount, Ready, Step, Touched, TimerOk, Live, Seconds, Blank, SatAdd,
      Get;
    var channel := created.(channelId := id, revision := 1);
    var paid, open, on := DoDeposit(created.config.receiver, money), DoUpdate(id, None, created, t, None, true, true),
      DoSetEnabled(receiver, true, t, true);
    CreatedFresh(created, id, t);
    EmptyReachable();
    Deposits(created.config.receiver, money);
    Then(Empty, paid);
    var a := Step(Empty, paid);
    Stores(a, id, None, created, t);
    Then(a, open);
    var b := Step(a, open);
    Switched(b, id, receiver, true, t);
    Then(b, on);
    var c := Step(b, on);
    TouchedBlank(b, id, t);
    s := FirstVisit(c, id, channel, t);
  }

  /** It happens: in a reachable state the seller's account has the fee, the collection is healthy if the
      lookup used that account, the update is accepted by the channel rules, and the reservation is
      refused all the same. */
  lemma OtherSpellingHappens(id: Id, created: Channel, next: Channel, receiver: Addr, t: u64, money: nat, fee: nat)
    returns (s: State, e: Event)
    requires Accepted(None, created, Seconds(t)) && OtherSpelling(created, receiver) && 0 < fee <= money <= U128_MAX
    requires Live(created.pending, Seconds(Tick(t)))
    requires Accepted(Some(created.(channelId := id, revision := 1)), next, Seconds(Tick(t)))
    requires CreatesPending(Some(created), next)
    ensures e == DoUpdate(id, Some(1), next, Tick(t), Some(fee), true, true) && Reachable(s) && Ready(s, e)
    ensures id in s.channels && id in s.cols && s.channels[id] == created.(channelId := id, revision := 1)
    ensures Get(s.credit, Seller(s.channels[id])) == money
    ensures Healthy(s.(credit := s.credit[created.config.receiver := money]), s.cols[id], e.now, e.feeNow)
    ensures Step(s, e).channels == s.channels
  {
    hide Reachable, Accepted, Norm, SameAddress, Lower, Live, Seconds, Step;
    s := Monitored(id, created, receiver, t, money);
    e := DoUpdate(id, Some(1), next, Tick(t), Some(fee), true, true);
    ReservationSeesCredit(s, s.channels[id]);
    RefusedThen(s, e);
  }

  /** For one: a receiver of forty upper-case A, ten paid in, a fee of one. */
  lemma UpperCaseIsRefused() returns (s: State, e: Event)
    ensures Reachable(s) && e.DoUpdate? && Ready(s, e) && e.id in s.channels && e.id in s.cols
    ensures e.accept && e.signerOk && e.expected == Some(s.channels[e.id].revision)
    ensures Accepted(Stored(s, e.id), e.next, Seconds(e.now)) && CreatesPending(Stored(s, e.id), e.next)
    ensures s.channels[e.id].config.receiver == Hex(40, 'A') && Get(s.credit, Seller(s.channels[e.id])) == 10
    ensures Healthy(s.(credit := s.credit[Hex(40, 'A') := 10]), s.cols[e.id], e.now, e.feeNow)
    ensures Step(s, e).channels == s.channels
  {
    hide Reachable, Accepted, Hex, Lower, Norm, SameAddress, Healthy, Step, IsAddress;
    var created := OpenChannel(Hex(40, 'A'), 5000);
    var next := created.(pending := Some(Pending.Pending("second", "5", 9000)));
    UpperSpelling();
    HexAddress('A');
    Creates(Hex(40, 'A'), 5000, 0);
    Reserves(created, next);
    s, e := OtherSpellingHappens(Hex(64, '2'), created, next, Hex(40, 'a'), 0, 10, 1);
  }

  lemma UpperSpelling()
    ensures OtherSpelling(OpenChannel(Hex(40, 'A'), 5000), Hex(40, 'a'))
  {
    HexIsHex(40, 'A');
    HexIsHex(40, 'a');
    var a, b := Hex(40, 'A'), Hex(40, 'a');
    assert Lower(a[2..]) == b[2..] && Lower(b[2..]) == b[2..] && Lower(a) == b;
    assert b == "0x" + b[2..] && a[2] != b[2];
  }

  lemma Reserves(created: Channel, next: Channel)
    requires created == OpenChannel(Hex(40, 'A'), 5000)
    requires next == created.(pending := Some(Pending.Pending("second", "5", 9000)))
    ensures Accepted(Some(created.(channelId := Hex(64, '2'), revision := 1)), next, 1)
  {
    hide IsAddress, IsHexOf, ParseU128, Amount, IsDecimal, ParsedU256, Value, Hex, RequireMonotonic;
    ExampleTexts();
    ExampleAmounts();
    MonotonicIsNumeric("0", "0");
    MonotonicIsNumeric("5", "5");
    HexAddress('1');
    HexAddress('A');
  }
}
