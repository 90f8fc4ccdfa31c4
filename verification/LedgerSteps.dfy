/** Every step of the protocol is one move of the fee ledger. */
module LedgerSteps {
  import opened Accounts
  import opened Wrappers
  import opened Decimal
  import opened HexUtil
  import opened Batch
  import opened Collector
  import opened Journal
  import opened Frames
  import opened JournalSteps
  import opened Ledger

  function LedgerOf(s: State): Ledger {
    Ledger(s.credit, s.hist.log, s.hist.sends, s.nonces, s.hist.manualNonces, s.hist.paidIn, s.hist.external, s.hist.lost)
  }

  /** `t` is `s` after the move. */
  ghost predicate Moves(s: State, m: Move, t: State) {
    CanMove(LedgerOf(s), m) && LedgerOf(t) == Apply(LedgerOf(s), m)
  }

  /** Money is booked under normalised addresses. */
  predicate NormalMove(m: Move) {
    m.Take? || m.PayIn? || m.Spend? || m.Unspend? ==> Norm(m.seller) == m.seller
  }

  lemma NormIsNormal(a: Addr)
    ensures Norm(Norm(a)) == Norm(a)
  {
    var x := Lower(Strip0x(a));
    assert ("0x" + x)[..2] == "0x" && ("0x" + x)[2..] == x;
    assert Lower(x) == x;
  }

  lemma QuietStays(s: State, t: State)
    requires Quiet(s, t)
    ensures Moves(s, Stay, t)
  {
    hide Attempts;
  }

  lemma AbandonMoves(s: State, id: Id, a: Attempt)
    requires JournalInv(s) && id in s.cols && s.cols[id].attempt == Some(a) && a.raw.None?
    ensures id in s.hist.serial && Moves(s, GiveBack(s.hist.serial[id], None), Abandon(s, id, a))
  {
    hide Seller, Attempts, Rollback, SatAdd, Get, Tables, WorkersOk, Release;
    AttemptOf(s.cols, id);
    LedgerOwner(s, id);
    ReleaseOnly(AddCredit(s, Seller(a.channel), a.fee), a.scope, a.key);
  }

  lemma AbandonReservedMoves(s: State, id: Id, a: Attempt, pending: nat)
    requires JournalInv(s) && id in s.cols && s.cols[id].attempt == Some(a) && a.raw.None? && pending <= U128_MAX
    ensures var nonce := Reserved(s.nonces, a.from, pending);
      id in s.hist.serial
      && Moves(s, GiveBack(s.hist.serial[id], Some(pending)),
               Abandon(AfterReserve(s, a.from, nonce), id, a.(nonce := Some(nonce))))
  {
    hide Seller, Attempts, Rollback, Advance, Reserved, SatAdd, Get, Tables, WorkersOk, Release;
    AttemptOf(s.cols, id);
    LedgerOwner(s, id);
    var nonce := Reserved(s.nonces, a.from, pending);
    var s1 := RollbackNonce(AfterReserve(s, a.from, nonce), a.from, nonce);
    ReleaseOnly(AddCredit(s1, Seller(a.channel), a.fee), a.scope, a.key);
  }

  lemma JournalMoves(s: State, id: Id, a: Attempt, pending: nat, raw: string, tx: string)
    requires JournalInv(s) && id in s.cols && s.cols[id].attempt == Some(a) && a.raw.None? && pending <= U128_MAX
    ensures id in s.hist.serial
      && Moves(s, Write(s.hist.serial[id], pending, raw, tx),
               JournalAndSend(s, id, a, Reserved(s.nonces, a.from, pending), raw, tx))
  {
    hide Seller, Attempts, Advance, Reserved, Tables, WorkersOk;
    AttemptOf(s.cols, id);
    LedgerOwner(s, id);
  }

  lemma ResendMoves(s: State, id: Id, a: Attempt)
    requires JournalInv(s) && id in s.cols && s.cols[id].attempt == Some(a) && a.raw.Some? && a.nonce.Some?
    ensures id in s.hist.serial && Moves(s, Resend(s.hist.serial[id]), Sent(s, id, a.raw.value, a.nonce.value))
  {
    hide Seller, Attempts, Tables, WorkersOk;
    AttemptOf(s.cols, id);
    LedgerOwner(s, id);
  }

  lemma ReserveMoves(s: State, id: Id, p: Prep) returns (m: Move)
    requires JournalInv(s) && id in s.cols && id in s.channels && s.cols[id].attempt.None?
    ensures Moves(s, m, Reserve(s, id, p)) && (m.Stay? || m.Take?) && NormalMove(m)
  {
    hide Seller, Norm, Attempts, Tables, WorkersOk, Enabled, Amount;
    var a := NewAttempt(s, id, p);
    ScopeWasFree(s, id, p);
    SellerIsNormal(s.channels[id]);
    m := if Reserve(s, id, p).cols == s.cols then Stay else Take(a.key, a.scope.seller, a.from, a.fee);
  }

  lemma SellerIsNormal(c: Channel)
    ensures Norm(Seller(c)) == Seller(c)
  {
    hide Norm;
    NormIsNormal(c.config.receiver);
  }

  lemma StartMoves(s: State, id: Id, now: u64, config: Option<string>) returns (m: Move)
    requires JournalInv(s)
    ensures Moves(s, m, WorkerStart(s, id, now, config)) && (m.Stay? || m.GiveBack?)
  {
    hide Abandon, JournalInv, Idle, Apply, CanMove;
    if id in s.cols && s.cols[id].attempt.Some? && s.cols[id].attempt.value.raw.None? {
      AbandonMoves(s, id, s.cols[id].attempt.value);
      m := GiveBack(s.hist.serial[id], None);
    } else {
      m := Stay;
      SameLedgerStays(s, WorkerStart(s, id, now, config));
    }
  }

  lemma SameLedgerStays(s: State, t: State)
    requires LedgerOf(t) == LedgerOf(s)
    ensures Moves(s, Stay, t)
  {
  }

  lemma MonitorMoves(s: State, id: Id, now: u64, answer: Result<Answer, string>, sameNetwork: bool,
                     prep: Result<Prep, string>) returns (m: Move)
    requires JournalInv(s)
    ensures Moves(s, m, MonitorDone(s, id, now, answer, sameNetwork, prep)) && (m.Stay? || m.Take?) && NormalMove(m)
  {
    hide JournalInv, Observed, Continue, Moves, Norm;
    var t := MonitorDone(s, id, now, answer, sameNetwork, prep);
    if answer.Ok? && id in s.cols {
      var c := Observed(s.cols[id], answer.value, now);
      ObservedAttempt(s.cols[id], answer.value, now);
      SaveKeeps(s, id, c);
      m := ContinueMoves(Save(s, id, c), id, now, sameNetwork, prep);
      MovesFrom(s, Save(s, id, c), m, t);
    } else {
      m := Stay;
      SameLedgerStays(s, t);
    }
  }

  lemma MovesFrom(s: State, s1: State, m: Move, t: State)
    requires LedgerOf(s1) == LedgerOf(s) && Moves(s1, m, t)
    ensures Moves(s, m, t)
  {
  }

  lemma ContinueMoves(s: State, id: Id, now: u64, sameNetwork: bool, prep: Result<Prep, string>) returns (m: Move)
    requires JournalInv(s) && id in s.cols
    ensures Moves(s, m, Continue(s, id, now, sameNetwork, prep)) && (m.Stay? || m.Take?) && NormalMove(m)
  {
    hide JournalInv, Reserve, Leave, Amount, Moves, Blocked, Norm;
    var c, t := s.cols[id], Continue(s, id, now, sameNetwork, prep);
    if c.attempt.None? && id in s.channels && Amount(s.channels[id].charged) > c.claimed
      && Blocked(c, Amount(s.channels[id].charged), prep).None?
    {
      m := ReserveMoves(s, id, prep.value);
    } else {
      m := Stay;
      LeaveLedger(s, id, now, c.seed);
      if id in s.channels {
        LeaveLedger(Save(s, id, c.(force := false, oldestLegacy := None)), id, now, s.channels[id]);
      }
      SameLedgerStays(s, t);
    }
  }

  lemma LeaveLedger(s: State, id: Id, now: u64, channel: Channel)
    ensures LedgerOf(Leave(s, id, now, channel)) == LedgerOf(s)
  {
    hide Enabled, Live;
  }

  lemma PrepareMoves(s: State, id: Id, outcome: Prepared) returns (m: Move)
    requires JournalInv(s) && Ready(s, DoPrepare(id, outcome))
    ensures Moves(s, m, PrepareDone(s, id, s.workers[id].attempt, outcome))
    ensures m.GiveBack? || m.Write?
    ensures m.Write? ==> outcome.Signed?
  {
    hide JournalInv, Abandon, Attempts, JournalAndSend, Reserved, AfterReserve, Apply, CanMove;
    var a := s.workers[id].attempt;
    WorkerHolds(s, id);
    FindAttempt(s.cols, id);
    match outcome
    case SignFailed(pending, e) =>
      AbandonReservedMoves(s, id, a, pending);
      m := GiveBack(s.hist.serial[id], Some(pending));
    case Signed(pending, raw, tx) =>
      JournalMoves(s, id, a, pending, raw, tx);
      m := Write(s.hist.serial[id], pending, raw, tx);
    case _ =>
      AbandonMoves(s, id, a);
      m := GiveBack(s.hist.serial[id], None);
  }

  lemma ResumeMoves(s: State, id: Id, receipt: Receipt) returns (m: Move)
    requires JournalInv(s) && Ready(s, DoResume(id, receipt))
    ensures Moves(s, m, ResumeDone(s, id, s.workers[id].attempt, receipt)) && (m.Stay? || m.Resend?)
    ensures m.Resend? ==> receipt.Pending?
  {
    hide JournalInv, Attempts, Apply, CanMove, Reconcile, Sent;
    var a := s.workers[id].attempt;
    WorkerHolds(s, id);
    FindAttempt(s.cols, id);
    if receipt.Pending? && a.nonce.Some? {
      ResendMoves(s, id, a);
      m := Resend(s.hist.serial[id]);
    } else {
      m := Stay;
      SameLedgerStays(s, ResumeDone(s, id, a, receipt));
    }
  }

  lemma OtherMoves(s: State, e: Event) returns (m: Move)
    requires Ready(s, e)
    requires IsLedgerEvent(e) || e.DoSent?
    ensures Moves(s, m, Step(s, e)) && !m.Take? && !m.Write? && !m.Resend? && (m.GiveNonce? ==> e.DoManualRollback?)
    ensures NormalMove(m)
  {
    hide Norm, Moves, Deposit, ManualCharge, ManualRefund, ManualNonce, ManualRollback, Get, NormalMove;
    if e.DoDeposit? || e.DoManualCharge? || e.DoManualRefund? {
      m := MoneyMoves(s, e);
    } else if e.DoManualNonce? {
      m := TakeNonce(e.from, e.pending);
      NonceMoves(s, e.from, e.pending);
      NonceIsNormal(m);
    } else if e.DoManualRollback? {
      m := GiveNonce(e.from, e.nonce);
      NonceMoves(s, e.from, e.nonce);
      NonceIsNormal(m);
    } else {
      m := Stay;
      SameLedgerStays(s, Step(s, e));
      NonceIsNormal(m);
    }
  }

  lemma NonceIsNormal(m: Move)
    requires m.TakeNonce? || m.GiveNonce? || m.Stay?
    ensures NormalMove(m)
  {
    hide Norm;
  }

  lemma MoneyMoves(s: State, e: Event) returns (m: Move)
    requires Ready(s, e) && (e.DoDeposit? || e.DoManualCharge? || e.DoManualRefund?)
    ensures Moves(s, m, Step(s, e)) && (m.PayIn? || m.Spend? || m.Unspend? || m.Stay?) && NormalMove(m)
  {
    hide Norm, Moves, Deposit, ManualCharge, ManualRefund, Get;
    NormIsNormal(e.seller);
    match e
    case DoDeposit(seller, amount) =>
      m := PayIn(Norm(seller), amount);
      DepositMoves(s, seller, amount);
    case DoManualCharge(seller, amount) =>
      m := if Get(s.credit, Norm(seller)) < amount then Stay else Spend(Norm(seller), amount);
      ChargeMoves(s, seller, amount);
    case DoManualRefund(seller, amount) =>
      m := Unspend(Norm(seller), amount);
      RefundMoves(s, seller, amount);
  }

  lemma DepositMoves(s: State, seller: Addr, amount: nat)
    ensures Moves(s, PayIn(Norm(seller), amount), Deposit(s, seller, amount))
  {
    hide Norm, SatAdd, Get;
  }

  lemma ChargeMoves(s: State, seller: Addr, amount: nat)
    ensures Moves(s, if Get(s.credit, Norm(seller)) < amount then Stay else Spend(Norm(seller), amount),
                  ManualCharge(s, seller, amount))
  {
    hide Norm, Get;
  }

  lemma RefundMoves(s: State, seller: Addr, amount: nat)
    requires amount <= Get(s.hist.external, Norm(seller))
    ensures Moves(s, Unspend(Norm(seller), amount), ManualRefund(s, seller, amount))
  {
    hide Norm, SatAdd, Get;
  }

  lemma NonceMoves(s: State, sender: Addr, x: nat)
    ensures x <= U128_MAX ==> Moves(s, TakeNonce(sender, x), ManualNonce(s, sender, x))
    ensures (sender, x) in s.hist.manualNonces ==> Moves(s, GiveNonce(sender, x), ManualRollback(s, sender, x))
  {
    hide Rollback, Advance, Reserved;
  }

  /** Fee conservation, once over: whatever the step, the ledger makes one of its moves, and each
      move has its segment. */
  lemma StepMoves(s: State, e: Event) returns (m: Move)
    requires JournalInv(s) && Ready(s, e)
    ensures Moves(s, m, Step(s, e))
    ensures m.Take? ==> e.DoMonitor?
    ensures m.Write? ==> e.DoPrepare? && e.outcome.Signed?
    ensures m.Resend? ==> e.DoResume? && e.receipt.Pending?
    ensures m.GiveNonce? ==> e.DoManualRollback?
    ensures NormalMove(m)
  {
    hide JournalInv, Quiet, Moves, SetEnabled, RequestClaim, UpdateChannel, DeleteChannel, MonitorOutcall, Fire,
      WorkerStart, MonitorDone, PrepareDone, ResumeDone, WorkerFinish, Upgrade, Earliest, Norm;
    match e
    case DoStart(id, now, config) => m := StartMoves(s, id, now, config);
    case DoMonitor(id, now, answer, sameNetwork, prep) => m := MonitorMoves(s, id, now, answer, sameNetwork, prep);
    case DoPrepare(id, outcome) => m := PrepareMoves(s, id, outcome);
    case DoResume(id, receipt) => m := ResumeMoves(s, id, receipt);
    case DoSetEnabled(_, _, _, _) => m := QuietMoves(s, e);
    case DoRequestClaim(_, _) => m := QuietMoves(s, e);
    case DoUpdate(_, _, _, _, _, _, _) => m := QuietMoves(s, e);
    case DoDelete(_, _, _, _) => m := QuietMoves(s, e);
    case DoFire(_, _) => m := QuietMoves(s, e);
    case DoOutcall(_, _) => m := QuietMoves(s, e);
    case DoFinish(_, _) => m := QuietMoves(s, e);
    case DoUpgrade(_) => m := QuietMoves(s, e);
    case _ => m := OtherMoves(s, e);
  }

  lemma QuietMoves(s: State, e: Event) returns (m: Move)
    requires Ready(s, e)
    requires e.DoSetEnabled? || e.DoRequestClaim? || e.DoUpdate? || e.DoDelete? || e.DoFire? || e.DoOutcall?
      || e.DoFinish? || e.DoUpgrade?
    ensures m == Stay && Moves(s, m, Step(s, e)) && Quiet(s, Step(s, e))
  {
    hide Quiet, Moves, SetEnabled, RequestClaim, UpdateChannel, DeleteChannel, MonitorOutcall, Fire, WorkerFinish, Upgrade,
      Earliest, Norm;
    m := Stay;
    match e {
      case DoSetEnabled(receiver, value, now, accept) => SetEnabledQuiet(s, receiver, value, now, accept);
      case DoRequestClaim(id, now) => RequestClaimQuiet(s, id, now);
      case DoUpdate(id, expected, next, now, feeNow, signerOk, accept) =>
        UpdateQuiet(s, id, expected, next, now, feeNow, signerOk, accept);
      case DoDelete(id, expected, now, accept) => DeleteQuiet(s, id, expected, now, accept);
      case DoFire(chosen, now) => FireQuiet(s, chosen, now);
      case DoOutcall(id, cycles) => OutcallQuiet(s, id, cycles);
      case DoFinish(id, now) => FinishQuiet(s, id, now);
      case DoUpgrade(now) => UpgradeQuiet(s, now);
    }
    QuietStays(s, Step(s, e));
  }
}
