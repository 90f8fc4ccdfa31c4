/** The fee ledger on its own: a machine whose moves take a fee, give it back, write the bytes that
    spend it, or move money and nonces for the rest of the canister. LedgerSteps shows that the
    collection protocol makes no other moves. */
module Ledger {
  import opened Wrappers
  import opened Accounts
  import opened Decimal
  import opened Collector

  datatype Ledger = Ledger(
    credit: map<Addr, nat>,
    log: seq<Entry>,
    sends: seq<Send>,
    nonces: map<Addr, nat>,
    manualNonces: set<(Addr, nat)>,
    paidIn: map<Addr, nat>,
    external: map<Addr, nat>,
    lost: map<Addr, nat>)

  datatype Move =
    | Stay
    | Take(key: Key, seller: Addr, from: Addr, fee: nat)
    | GiveBack(serial: nat, tried: Option<nat>)
    | Write(serial: nat, pending: nat, raw: string, tx: string)
    | Resend(serial: nat)
    | PayIn(seller: Addr, amount: nat)
    | Spend(seller: Addr, amount: nat)
    | Unspend(seller: Addr, amount: nat)
    | TakeNonce(sender: Addr, pending: nat)
    | GiveNonce(sender: Addr, nonce: nat)

  // ---- moves ---------------------------------------------------------------------------

  function Credited(l: Ledger, seller: Addr, amount: nat): Ledger {
    var kept := SatAdd(Get(l.credit, seller), amount, U128_MAX);
    l.(credit := l.credit[seller := kept],
       lost := l.lost[seller := Get(l.lost, seller) + (Get(l.credit, seller) + amount - kept)])
  }

  predicate CanMove(l: Ledger, m: Move) {
    match m
    case Take(_, seller, _, fee) => fee <= Get(l.credit, seller)
    case GiveBack(n, tried) => n < |l.log| && l.log[n].fate.Held? && (tried.Some? ==> tried.value <= U128_MAX)
    case Write(n, pending, _, _) => n < |l.log| && l.log[n].fate.Held? && pending <= U128_MAX
    case Resend(n) => n < |l.log| && l.log[n].fate.Journaled?
    case Spend(seller, amount) => amount <= Get(l.credit, seller)
    case Unspend(seller, amount) => amount <= Get(l.external, seller)
    case TakeNonce(_, pending) => pending <= U128_MAX
    case GiveNonce(sender, nonce) => (sender, nonce) in l.manualNonces
    case _ => true
  }

  function Fated(log: seq<Entry>, n: nat, fate: Fate): seq<Entry>
    requires n < |log|
  {
    log[n := log[n].(fate := fate)]
  }

  function Apply(l: Ledger, m: Move): Ledger
    requires CanMove(l, m)
  {
    match m
    case Stay => l
    case Take(key, seller, from, fee) =>
      l.(credit := l.credit[seller := Get(l.credit, seller) - fee], log := l.log + [Entry(key, seller, from, fee, Held)])
    case GiveBack(n, tried) =>
      var nonces := if tried.None? then l.nonces
                    else var nonce := Reserved(l.nonces, l.log[n].from, tried.value);
                      Rollback(Advance(l.nonces, l.log[n].from, nonce), l.log[n].from, nonce);
      Credited(l.(nonces := nonces, log := Fated(l.log, n, Refunded)), l.log[n].seller, l.log[n].fee)
    case Write(n, pending, raw, tx) =>
      var nonce := Reserved(l.nonces, l.log[n].from, pending);
      l.(nonces := Advance(l.nonces, l.log[n].from, nonce), log := Fated(l.log, n, Journaled(nonce, raw, tx)),
         sends := l.sends + [Send(n, raw, nonce)])
    case Resend(n) => l.(sends := l.sends + [Send(n, l.log[n].fate.raw, l.log[n].fate.nonce)])
    case PayIn(seller, amount) =>
      Credited(l, seller, amount).(paidIn := l.paidIn[seller := Get(l.paidIn, seller) + amount])
    case Spend(seller, amount) =>
      l.(credit := l.credit[seller := Get(l.credit, seller) - amount],
         external := l.external[seller := Get(l.external, seller) + amount])
    case Unspend(seller, amount) =>
      Credited(l, seller, amount).(external := l.external[seller := Get(l.external, seller) - amount])
    case TakeNonce(sender, pending) =>
      var nonce := Reserved(l.nonces, sender, pending);
      l.(nonces := Advance(l.nonces, sender, nonce), manualNonces := l.manualNonces + {(sender, nonce)})
    case GiveNonce(sender, nonce) =>
      l.(nonces := Rollback(l.nonces, sender, nonce), manualNonces := l.manualNonces - {(sender, nonce)})
  }

  // ---- conservation --------------------------------------------------------------------

  /** Fees of a seller's attempts that are held (`true`), or spent on bytes (`false`). */
  function FeeOf(e: Entry, seller: Addr, held: bool): nat {
    if e.seller == seller && (if held then e.fate.Held? else e.fate.Journaled?) then e.fee else 0
  }

  function Fees(log: seq<Entry>, seller: Addr, held: bool): nat {
    if log == [] then 0 else Fees(log[..|log| - 1], seller, held) + FeeOf(log[|log| - 1], seller, held)
  }

  lemma {:induction false} FeesUpdated(log: seq<Entry>, n: nat, e: Entry, seller: Addr, held: bool)
    requires n < |log|
    ensures Fees(log[n := e], seller, held) + FeeOf(log[n], seller, held) == Fees(log, seller, held) + FeeOf(e, seller, held)
    decreases |log|
  {
    hide FeeOf;
    if n == |log| - 1 {
      assert log[n := e][..n] == log[..n];
    } else {
      FeesUpdated(log[..|log| - 1], n, e, seller, held);
      assert log[n := e][..|log| - 1] == log[..|log| - 1][n := e];
    }
  }

  lemma FeesAppended(log: seq<Entry>, e: Entry, seller: Addr, held: bool)
    ensures Fees(log + [e], seller, held) == Fees(log, seller, held) + FeeOf(e, seller, held)
  {
    assert (log + [e])[..|log|] == log;
  }

  lemma {:induction false} FeeAmongFees(log: seq<Entry>, n: nat, seller: Addr, held: bool)
    requires n < |log|
    ensures FeeOf(log[n], seller, held) <= Fees(log, seller, held)
    decreases |log|
  {
    if n < |log| - 1 {
      FeeAmongFees(log[..|log| - 1], n, seller, held);
    }
  }

  /** Credit, held fees, spent fees, what other settlements spent and what saturation dropped add up
      to everything paid in; saturation drops something only past the 128-bit bound. */
  ghost predicate BalancedFor(l: Ledger, seller: Addr) {
    && Get(l.credit, seller) + Fees(l.log, seller, true) + Fees(l.log, seller, false) + Get(l.external, seller)
       + Get(l.lost, seller) == Get(l.paidIn, seller)
    && (Get(l.lost, seller) > 0 ==> Get(l.paidIn, seller) > U128_MAX)
  }

  lemma MoveKeepsBalance(l: Ledger, m: Move, seller: Addr)
    requires CanMove(l, m) && BalancedFor(l, seller)
    ensures BalancedFor(Apply(l, m), seller)
  {
    match m
    case Take(key, to, from, fee) => TakeBalances(l, m, seller);
    case GiveBack(n, tried) => GiveBackBalances(l, m, seller);
    case Write(n, pending, raw, tx) =>
      hide Fees, Reserved, Advance, BalancedFor;
      FateMoves(l.log, n, Journaled(Reserved(l.nonces, l.log[n].from, pending), raw, tx), seller);
      SameMoney(l, Apply(l, m), seller);
    case PayIn(to, amount) => CreditBalances(l, m, to, amount, seller);
    case Unspend(to, amount) => CreditBalances(l, m, to, amount, seller);
    case _ =>
      hide Fees, Reserved, Advance, Rollback;
  }

  lemma SameMoney(l: Ledger, l': Ledger, seller: Addr)
    requires BalancedFor(l, seller)
    requires l'.credit == l.credit && l'.external == l.external && l'.lost == l.lost && l'.paidIn == l.paidIn
    requires Fees(l'.log, seller, true) + Fees(l'.log, seller, false) == Fees(l.log, seller, true) + Fees(l.log, seller, false)
    ensures BalancedFor(l', seller)
  {
    hide Fees;
  }

  lemma TakeBalances(l: Ledger, m: Move, seller: Addr)
    requires m.Take? && CanMove(l, m) && BalancedFor(l, seller)
    ensures BalancedFor(Apply(l, m), seller)
  {
    hide Fees;
    FeesAppended(l.log, Entry(m.key, m.seller, m.from, m.fee, Held), seller, true);
    FeesAppended(l.log, Entry(m.key, m.seller, m.from, m.fee, Held), seller, false);
  }

  lemma GiveBackBalances(l: Ledger, m: Move, seller: Addr)
    requires m.GiveBack? && CanMove(l, m) && BalancedFor(l, seller)
    ensures BalancedFor(Apply(l, m), seller)
  {
    hide Fees, SatAdd, Reserved, Advance, Rollback;
    var n := m.serial;
    FateMoves(l.log, n, Refunded, seller);
    FeeAmongFees(l.log, n, seller, true);
    Kept(Get(l.credit, l.log[n].seller), l.log[n].fee);
  }

  lemma CreditBalances(l: Ledger, m: Move, to: Addr, amount: nat, seller: Addr)
    requires m == PayIn(to, amount) || m == Unspend(to, amount)
    requires CanMove(l, m) && BalancedFor(l, seller)
    ensures BalancedFor(Apply(l, m), seller)
  {
    hide Fees, SatAdd;
    Kept(Get(l.credit, to), amount);
    if to != seller {
      hide Credited;
      OthersUncredited(l, to, amount, seller);
    }
  }

  lemma OthersUncredited(l: Ledger, to: Addr, amount: nat, seller: Addr)
    requires to != seller
    ensures var l' := Credited(l, to, amount);
      Get(l'.credit, seller) == Get(l.credit, seller) && Get(l'.lost, seller) == Get(l.lost, seller)
      && l'.log == l.log && l'.paidIn == l.paidIn && l'.external == l.external
  {
    hide SatAdd;
  }

  lemma Kept(credit: nat, amount: nat)
    ensures var kept := SatAdd(credit, amount, U128_MAX);
      kept <= credit + amount && (kept < credit + amount ==> credit + amount > U128_MAX)
  {
  }

  lemma FateMoves(log: seq<Entry>, n: nat, fate: Fate, seller: Addr)
    requires n < |log|
    ensures Fees(Fated(log, n, fate), seller, true) + FeeOf(log[n], seller, true)
      == Fees(log, seller, true) + FeeOf(log[n].(fate := fate), seller, true)
    ensures Fees(Fated(log, n, fate), seller, false) + FeeOf(log[n], seller, false)
      == Fees(log, seller, false) + FeeOf(log[n].(fate := fate), seller, false)
  {
    hide Fees, FeeOf;
    FeesUpdated(log, n, log[n].(fate := fate), seller, true);
    FeesUpdated(log, n, log[n].(fate := fate), seller, false);
  }

  // ---- each fee resolves once ----------------------------------------------------------

  /** Later ledgers extend earlier ones: no entry is dropped, and once an entry is refunded or has
      its bytes it never changes again. */
  ghost predicate Extends(log: seq<Entry>, log': seq<Entry>) {
    && |log| <= |log'|
    && forall n :: 0 <= n < |log| ==> log'[n] == log[n].(fate := log'[n].fate) && (log[n].fate.Held? || log'[n] == log[n])
  }

  lemma MoveExtends(l: Ledger, m: Move)
    requires CanMove(l, m)
    ensures Extends(l.log, Apply(l, m).log)
    ensures |l.sends| <= |Apply(l, m).sends| && Apply(l, m).sends[..|l.sends|] == l.sends
  {
    hide Credited, Reserved, Advance, Rollback;
    if m.GiveBack? || m.PayIn? || m.Unspend? {
      CreditedKeeps(l, m);
    }
  }

  lemma CreditedKeeps(l: Ledger, m: Move)
    requires CanMove(l, m) && (m.GiveBack? || m.PayIn? || m.Unspend?)
    ensures Apply(l, m).log == (if m.GiveBack? then Fated(l.log, m.serial, Refunded) else l.log)
    ensures Apply(l, m).sends == l.sends
  {
    hide Get, SatAdd, Reserved, Advance, Rollback;
  }

  lemma ExtendsTransitive(a: seq<Entry>, b: seq<Entry>, c: seq<Entry>)
    requires Extends(a, b) && Extends(b, c)
    ensures Extends(a, c)
  {
  }

  // ---- every send carries journaled bytes ----------------------------------------------

  ghost predicate SendOk(log: seq<Entry>, x: Send) {
    && x.serial < |log| && log[x.serial].fate.Journaled?
    && log[x.serial].fate.raw == x.raw && log[x.serial].fate.nonce == x.nonce
  }

  ghost predicate SendsOk(l: Ledger) {
    forall k :: 0 <= k < |l.sends| ==> SendOk(l.log, l.sends[k])
  }

  lemma MoveKeepsSends(l: Ledger, m: Move)
    requires CanMove(l, m) && SendsOk(l)
    ensures SendsOk(Apply(l, m))
  {
    MoveExtends(l, m);
    NewSends(l, m);
    hide Apply;
    var l' := Apply(l, m);
    forall k | 0 <= k < |l'.sends| ensures SendOk(l'.log, l'.sends[k]) {
      if k < |l.sends| {
        assert l'.sends[..|l.sends|][k] == l.sends[k];
        assert SendOk(l.log, l.sends[k]);
      }
    }
  }

  lemma NewSends(l: Ledger, m: Move)
    requires CanMove(l, m)
    ensures var l' := Apply(l, m); forall k :: |l.sends| <= k < |l'.sends| ==> SendOk(l'.log, l'.sends[k])
  {
    hide Reserved, Advance, Rollback;
    if m.GiveBack? || m.PayIn? || m.Unspend? {
      CreditedKeeps(l, m);
    }
  }

  // ---- nonces --------------------------------------------------------------------------

  /** The nonce is written into bytes, or handed to a manual settlement. */
  ghost predicate Used(l: Ledger, from: Addr, nonce: nat) {
    (from, nonce) in l.manualNonces || exists n :: 0 <= n < |l.log| && Holds(l.log[n], from, nonce)
  }

  ghost predicate Holds(e: Entry, from: Addr, nonce: nat) {
    e.from == from && e.fate.Journaled? && e.fate.nonce == nonce
  }

  /** Below the 128-bit bound no nonce is used twice, and the next one is above all used ones. */
  ghost predicate NoncesOk(l: Ledger) {
    && (forall a :: a in l.nonces ==> l.nonces[a] <= U128_MAX)
    && (forall p :: p in l.manualNonces ==> p.1 <= U128_MAX)
    && (forall a: Addr, x: nat :: x < U128_MAX && Used(l, a, x) ==> a in l.nonces && x < l.nonces[a])
    && (forall n :: 0 <= n < |l.log| && l.log[n].fate.Journaled? && l.log[n].fate.nonce < U128_MAX ==> Sole(l, n))
  }

  ghost predicate Sole(l: Ledger, n: nat)
    requires n < |l.log| && l.log[n].fate.Journaled?
  {
    var from, nonce := l.log[n].from, l.log[n].fate.nonce;
    && (from, nonce) !in l.manualNonces
    && forall k :: 0 <= k < |l.log| && Holds(l.log[k], from, nonce) ==> k == n
  }

  lemma MoveKeepsNonces(l: Ledger, m: Move)
    requires CanMove(l, m) && NoncesOk(l)
    ensures NoncesOk(Apply(l, m))
  {
    hide NoncesOk, Apply, CanMove;
    match m
    case Write(n, pending, raw, tx) => WriteKeepsNonces(l, m);
    case GiveBack(n, tried) => GiveBackKeepsNonces(l, m);
    case TakeNonce(sender, pending) => TakeKeepsNonces(l, m);
    case GiveNonce(sender, nonce) => GiveKeepsNonces(l, m);
    case _ => OthersKeepNonces(l, m);
  }

  /** No bytes appear, none change: the used nonces are the same. */
  ghost predicate SameBytes(log: seq<Entry>, log': seq<Entry>) {
    && |log| <= |log'|
    && forall n :: 0 <= n < |log'| && log'[n].fate.Journaled? ==> n < |log| && log'[n] == log[n]
  }

  lemma NoncesGrow(l: Ledger, l': Ledger)
    requires NoncesOk(l) && SameBytes(l.log, l'.log) && l'.manualNonces <= l.manualNonces
    requires forall a :: a in l.nonces ==> a in l'.nonces && l.nonces[a] <= l'.nonces[a]
    requires forall a :: a in l'.nonces ==> l'.nonces[a] <= U128_MAX
    ensures NoncesOk(l')
  {
    forall a: Addr, x: nat | x < U128_MAX && Used(l', a, x) ensures a in l'.nonces && x < l'.nonces[a] {
      assert Used(l, a, x);
    }
    forall n | 0 <= n < |l'.log| && l'.log[n].fate.Journaled? && l'.log[n].fate.nonce < U128_MAX ensures Sole(l', n) {
      assert Sole(l, n);
    }
  }

  lemma OthersKeepNonces(l: Ledger, m: Move)
    requires CanMove(l, m) && NoncesOk(l)
    requires !m.Write? && !m.GiveBack? && !m.TakeNonce? && !m.GiveNonce?
    ensures NoncesOk(Apply(l, m))
  {
    hide NoncesOk, Get, SatAdd;
    NoncesBounded(l);
    NoncesGrow(l, Apply(l, m));
  }

  lemma NoncesBounded(l: Ledger)
    requires NoncesOk(l)
    ensures forall a :: a in l.nonces ==> l.nonces[a] <= U128_MAX
  {
    hide Sole, Used;
  }

  /** Reserving and at once giving back leaves the next nonce where the network put it. */
  lemma GiveBackKeepsNonces(l: Ledger, m: Move)
    requires m.GiveBack? && CanMove(l, m) && NoncesOk(l)
    ensures NoncesOk(Apply(l, m))
  {
    hide NoncesOk, Get, Used, Sole;
    NoncesBounded(l);
    NoncesGrow(l, Apply(l, m));
  }

  lemma JournaledIsUsed(l: Ledger, n: nat)
    requires NoncesOk(l) && n < |l.log| && l.log[n].fate.Journaled? && l.log[n].fate.nonce < U128_MAX
    ensures l.log[n].from in l.nonces && l.log[n].fate.nonce < l.nonces[l.log[n].from] && Sole(l, n)
  {
    hide Sole;
    assert Holds(l.log[n], l.log[n].from, l.log[n].fate.nonce);
    assert Used(l, l.log[n].from, l.log[n].fate.nonce);
  }

  lemma WriteKeepsNonces(l: Ledger, m: Move)
    requires m.Write? && CanMove(l, m) && NoncesOk(l)
    ensures NoncesOk(Apply(l, m))
  {
    var from := l.log[m.serial].from;
    var nonce := Reserved(l.nonces, from, m.pending);
    var l' := Apply(l, m);
    forall a: Addr, x: nat | x < U128_MAX && Used(l', a, x) ensures a in l'.nonces && x < l'.nonces[a] {
      assert Used(l, a, x) || (a == from && x == nonce);
    }
    forall n | 0 <= n < |l'.log| && l'.log[n].fate.Journaled? && l'.log[n].fate.nonce < U128_MAX ensures Sole(l', n) {
      WriteKeepsSole(l, m, n);
    }
  }

  /** The new nonce is at least the next one, so above every used one. */
  lemma WriteKeepsSole(l: Ledger, m: Move, n: nat)
    requires m.Write? && CanMove(l, m) && NoncesOk(l) && n < |l.log|
    requires Apply(l, m).log[n].fate.Journaled? && Apply(l, m).log[n].fate.nonce < U128_MAX
    ensures Sole(Apply(l, m), n)
  {
    var l' := Apply(l, m);
    var from, nonce := l'.log[n].from, l'.log[n].fate.nonce;
    if n == m.serial {
      assert !Used(l, from, nonce);
      forall k | 0 <= k < |l'.log| && k != n ensures !Holds(l'.log[k], from, nonce) {
        assert !Holds(l.log[k], from, nonce);
      }
    } else {
      JournaledIsUsed(l, n);
      forall k | 0 <= k < |l'.log| && Holds(l'.log[k], from, nonce) ensures k == n {
        assert k != m.serial ==> Holds(l.log[k], from, nonce);
      }
    }
  }

  lemma TakeKeepsNonces(l: Ledger, m: Move)
    requires m.TakeNonce? && CanMove(l, m) && NoncesOk(l)
    ensures NoncesOk(Apply(l, m))
  {
    var nonce := Reserved(l.nonces, m.sender, m.pending);
    var l' := Apply(l, m);
    forall a: Addr, x: nat | x < U128_MAX && Used(l', a, x) ensures a in l'.nonces && x < l'.nonces[a] {
      assert Used(l, a, x) || (a == m.sender && x == nonce);
    }
    forall n | 0 <= n < |l'.log| && l'.log[n].fate.Journaled? && l'.log[n].fate.nonce < U128_MAX ensures Sole(l', n) {
      JournaledIsUsed(l, n);
    }
  }

  lemma GiveKeepsNonces(l: Ledger, m: Move)
    requires m.GiveNonce? && CanMove(l, m) && NoncesOk(l)
    ensures NoncesOk(Apply(l, m))
  {
    var l' := Apply(l, m);
    forall a: Addr, x: nat | x < U128_MAX && Used(l', a, x) ensures a in l'.nonces && x < l'.nonces[a] {
      assert Used(l, a, x);
      if a == m.sender && x == m.nonce {
        NotBoth(l, x, a);
      }
    }
    forall n | 0 <= n < |l'.log| && l'.log[n].fate.Journaled? && l'.log[n].fate.nonce < U128_MAX ensures Sole(l', n) {
      JournaledIsUsed(l, n);
    }
  }

  /** A nonce handed to a manual settlement is in no attempt's bytes. */
  lemma NotBoth(l: Ledger, x: nat, from: Addr)
    requires NoncesOk(l) && x < U128_MAX && (from, x) in l.manualNonces
    ensures forall n :: 0 <= n < |l.log| ==> !Holds(l.log[n], from, x)
  {
    forall n | 0 <= n < |l.log| ensures !Holds(l.log[n], from, x) {
      assert l.log[n].fate.Journaled? && l.log[n].fate.nonce < U128_MAX ==> Sole(l, n);
    }
  }

  /** Giving a nonce back in the segment that reserved it never lowers the next one. */
  lemma NextNonceStands(l: Ledger, m: Move, a: Addr)
    requires CanMove(l, m) && !m.GiveNonce? && a in l.nonces && l.nonces[a] <= U128_MAX
    ensures a in Apply(l, m).nonces && l.nonces[a] <= Apply(l, m).nonces[a]
  {
    hide Get;
  }
}
