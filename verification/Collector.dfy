/** The durable collection protocol as a transition system: the state every message sees, and one
    step function per atomic segment (rust/facilitator/src/auto_claim.rs). A worker is suspended
    between segments, so any other message may run there; an upgrade drops all workers.

    `History` is bookkeeping for the theorems only. No step reads it. */
module Collector {
  import opened Wrappers
  import opened Accounts
  import opened Decimal
  import opened HexUtil
  import opened Batch

  const THRESHOLD := 100
  const MAX_OUTSTANDING := 200
  const INTERVAL := 60
  const STALE := 120
  const CONCURRENCY := 8
  const CAPACITY := 1000
  const MAX_CHANNELS := 1000
  const SECOND := 1_000_000_000

  type u64 = x: nat | x <= U64_MAX
  type Id = string
  type Addr = string

  datatype Charge = Charge(amount: nat, at: nat)

  /** The settlement key text is injective (Keys.AttemptKeyInjective); manual settlements never use
      the `auto-claim:` prefix. */
  datatype Key = Auto(id: Id, target: nat, sequence: nat) | Manual(name: string)

  datatype Scope = Scope(from: Addr, seller: Addr)

  datatype Attempt = Attempt(
    key: Key,
    channel: Channel,
    target: nat,
    from: Addr,
    contract: Addr,
    chainId: nat,
    scope: Scope,
    fee: nat,
    nonce: Option<nat>,
    raw: Option<string>,
    tx: Option<string>)

  datatype Collection = Collection(
    seed: Channel,
    charges: seq<Charge>,
    claimed: nat,
    oldestLegacy: Option<nat>,
    force: bool,
    nextDue: u64,
    monitoredAt: Option<nat>,
    withdrawalAt: nat,
    balance: nat,
    monitorCalls: nat,
    monitorCycles: nat,
    error: Option<string>,
    attempt: Option<Attempt>,
    halted: bool,
    attemptSequence: nat)

  /** Where a worker is suspended; `Preparing` and `Resuming` carry its local copy of the attempt. */
  datatype Worker =
    | Starting
    | Monitoring
    | Preparing(attempt: Attempt)
    | Resuming(attempt: Attempt)
    | Sending
    | Returned(error: Option<string>)

  datatype Lock = Lock(key: Key, nonce: Option<nat>, tx: Option<string>)

  datatype Record = Checking | Broadcast(tx: string) | SettledTx(tx: string) | FailedTx(tx: string)

  // ---- history -------------------------------------------------------------------------

  datatype Fate = Held | Refunded | Journaled(nonce: nat, raw: string, tx: string)

  /** One entry per attempt ever reserved. */
  datatype Entry = Entry(key: Key, seller: Addr, from: Addr, fee: nat, fate: Fate)

  datatype Send = Send(serial: nat, raw: string, nonce: nat)

  datatype History = History(
    log: seq<Entry>,
    serial: map<Id, nat>,
    birth: map<Id, nat>,
    committed: map<Id, seq<Charge>>,
    sends: seq<Send>,
    paidIn: map<Addr, nat>,
    external: map<Addr, nat>,
    lost: map<Addr, nat>,
    manualNonces: set<(Addr, nat)>,
    lastArm: nat)

  datatype State = State(
    enabled: set<Addr>,
    channels: map<Id, Channel>,
    cols: map<Id, Collection>,
    workers: map<Id, Worker>,
    timer: Option<nat>,
    credit: map<Addr, nat>,
    locks: map<Scope, Lock>,
    records: map<Key, Record>,
    nonces: map<Addr, nat>,
    hist: History)

  // ---- small reads ---------------------------------------------------------------------

  function Seconds(now: u64): (s: u64)
    ensures s < U64_MAX
  {
    now / SECOND
  }

  /** normalize_evm_address on a text that parses. */
  function Norm(a: Addr): Addr {
    "0x" + Lower(Strip0x(a))
  }

  function Seller(c: Channel): Addr {
    Norm(c.config.receiver)
  }

  /** `enabled` lower-cases but does not normalise. */
  predicate Enabled(enabled: set<Addr>, c: Channel) {
    Lower(c.config.receiver) in enabled
  }

  function Charged(s: State, id: Id): nat {
    if id in s.channels then Amount(s.channels[id].charged) else 0
  }

  function NewCollection(channel: Channel, now: u64): Collection {
    var owed := Amount(channel.charged) > 0;
    Collection(channel, [], 0, if owed then Some(Seconds(now)) else None, owed, Seconds(now), None, 0, 0, 0, 0, None,
               None, false, 0)
  }

  predicate IsStale(c: Collection, now: u64) {
    c.monitoredAt.None? || (Seconds(now) >= c.monitoredAt.value && Seconds(now) - c.monitoredAt.value >= STALE)
  }

  /** stop_reason. The credit lookup uses the receiver text as stored. */
  function StopReason(s: State, c: Collection, now: u64, fee: Option<nat>): Option<string> {
    if !Enabled(s.enabled, c.seed) then Some("auto_claim_draining")
    else if c.withdrawalAt > 0 then Some("withdrawal_requested")
    else if IsStale(c, now) then Some("monitor_stale")
    else if |c.charges| >= MAX_OUTSTANDING then Some("collection_backlog")
    else if fee.None? || Get(s.credit, c.seed.config.receiver) < fee.value then Some("seller_insufficient_credit")
    else if c.error.Some? && c.error.value != "settlement_queue_busy" then c.error
    else None
  }

  /** What reconcile retains: the charges above the claimed total, in their order. */
  function Unpaid(charges: seq<Charge>, claimed: nat): (r: seq<Charge>)
    ensures |r| <= |charges|
  {
    if charges == [] then []
    else
      var front := Unpaid(charges[..|charges| - 1], claimed);
      if charges[|charges| - 1].amount > claimed then front + [charges[|charges| - 1]] else front
  }

  /** reconcile. */
  function Reconcile(c: Collection, claimed: nat): Collection {
    var total := Larger(c.claimed, claimed);
    c.(claimed := total,
       charges := Unpaid(c.charges, total),
       oldestLegacy := if total >= Amount(c.seed.charged) then None else c.oldestLegacy)
  }

  // ---- the scheduler -------------------------------------------------------------------

  /** A collection the timer has to wake: finite due time, nobody working on it. */
  predicate Wakes(cols: map<Id, Collection>, busy: set<Id>, id: Id) {
    id in cols && id !in busy && cols[id].nextDue < U64_MAX
  }

  ghost function WakeTimes(cols: map<Id, Collection>, busy: set<Id>): set<nat> {
    set id | id in cols && Wakes(cols, busy, id) :: cols[id].nextDue
  }

  /** next_wakeup: the least finite due time over channels not being worked on. */
  ghost function NextWakeup(cols: map<Id, Collection>, busy: set<Id>): (r: Option<nat>)
    ensures r.None? <==> forall id :: !Wakes(cols, busy, id)
    ensures r.Some? ==> r.value < U64_MAX && forall id :: Wakes(cols, busy, id) ==> r.value <= cols[id].nextDue
    ensures r.Some? ==> exists id :: Wakes(cols, busy, id) && cols[id].nextDue == r.value
  {
    var times := WakeTimes(cols, busy);
    if times == {} then
      assert forall id :: Wakes(cols, busy, id) ==> cols[id].nextDue in times;
      None
    else
      var m := Least(times);
      assert forall id :: Wakes(cols, busy, id) ==> cols[id].nextDue in times;
      Some(m)
  }

  ghost function Least(s: set<nat>): (m: nat)
    requires s != {}
    ensures m in s && forall x :: x in s ==> m <= x
  {
    var x :| x in s;
    if s == {x} then x
    else
      var m := Least(s - {x});
      assert forall y :: y in s ==> y == x || y in s - {x};
      if x < m then x else m
  }

  /** timer_deadline, in nanoseconds: an armed deadline is only ever brought forward. */
  function TimerDeadline(armed: Option<nat>, next: Option<nat>, now: u64): Option<nat> {
    if next.None? then None
    else
      var requested := Larger(SatMul(next.value), SatAdd(now, SECOND, U64_MAX));
      Some(if armed.Some? && armed.value < requested then armed.value else requested)
  }

  function SatMul(seconds: nat): nat {
    if seconds * SECOND > U64_MAX then U64_MAX else seconds * SECOND
  }

  /** start_timer. */
  ghost function Arm(s: State, now: u64): State {
    s.(timer := TimerDeadline(s.timer, NextWakeup(s.cols, s.workers.Keys), now),
       hist := s.hist.(lastArm := now))
  }

  predicate Before(cols: map<Id, Collection>, a: Id, b: Id)
    requires a in cols && b in cols
  {
    cols[a].nextDue < cols[b].nextDue || (cols[a].nextDue == cols[b].nextDue && LexLess(a, b))
  }

  ghost function DueIdle(s: State, now: u64): set<Id> {
    set id | id in s.cols && id !in s.workers && s.cols[id].nextDue <= Seconds(now)
  }

  /** The earliest min(k, n) of a set of n due collections. */
  ghost predicate Earliest(cols: map<Id, Collection>, eligible: set<Id>, chosen: set<Id>, k: nat)
    requires eligible <= cols.Keys
  {
    && chosen <= eligible
    && |chosen| == (if k < |eligible| then k else |eligible|)
    && forall a, b :: a in chosen && b in eligible - chosen ==> Before(cols, a, b)
  }

  function Capacity(s: State): nat {
    if |s.workers| >= CONCURRENCY then 0 else CONCURRENCY - |s.workers|
  }

  // ---- messages ------------------------------------------------------------------------

  function Save(s: State, id: Id, c: Collection): State {
    s.(cols := s.cols[id := c])
  }

  function Remove(s: State, id: Id): State {
    s.(cols := s.cols - {id})
  }

  /** Registering a collection starts a new incarnation: nothing committed, sequence zero. */
  function Register(s: State, id: Id, c: Collection): State {
    s.(cols := s.cols[id := c],
       hist := s.hist.(committed := s.hist.committed[id := []], birth := s.hist.birth[id := |s.hist.log|]))
  }

  function Touched(s: State, id: Id, value: bool, now: u64): Collection
    requires id in s.cols || id in s.channels
  {
    var c := if id in s.cols then s.cols[id] else NewCollection(s.channels[id], now);
    c.(force := c.force || !value, nextDue := Seconds(now))
  }

  function Targets(channels: map<Id, Channel>, cols: map<Id, Collection>, receiver: Addr, value: bool): (r: set<Id>)
    ensures r <= cols.Keys + channels.Keys
  {
    if value then set id | id in channels && SameAddress(channels[id].config.receiver, receiver)
    else set id | id in cols && SameAddress(cols[id].seed.config.receiver, receiver)
  }

  function Retouched(s: State, targets: set<Id>, value: bool, now: u64): map<Id, Collection>
    requires targets <= s.cols.Keys + s.channels.Keys
  {
    s.cols + (map id | id in targets :: Touched(s, id, value, now))
  }

  /** The policy is written and every collection concerned is registered or woken. */
  function Switch(s: State, receiver: Addr, value: bool, now: u64): State {
    var targets := Targets(s.channels, s.cols, receiver, value);
    var added := targets - s.cols.Keys;
    s.(enabled := if value then s.enabled + {receiver} else s.enabled - {receiver},
       cols := Retouched(s, targets, value, now),
       hist := s.hist.(committed := s.hist.committed + (map id | id in added :: []),
                       birth := s.hist.birth + (map id | id in added :: |s.hist.log|)))
  }

  /** set_enabled; `accept` is the outcome of authorization, configuration and signer checks. */
  ghost function SetEnabled(s: State, receiver: Addr, value: bool, now: u64, accept: bool): State {
    var targets := Targets(s.channels, s.cols, receiver, value);
    if !accept || (value && |s.cols| + |targets - s.cols.Keys| > CAPACITY) then s
    else Arm(Switch(s, receiver, value, now), now)
  }

  /** request_claim, after authorization. */
  ghost function RequestClaim(s: State, id: Id, now: u64): State {
    if id !in s.cols then s
    else Arm(Save(s, id, s.cols[id].(force := true, halted := false, nextDue := Seconds(now))), now)
  }

  predicate CreatesPending(current: Option<Channel>, next: Channel) {
    && next.pending.Some?
    && (current.Some? && current.value.pending.Some? ==>
        current.value.pending.value.pendingId != next.pending.value.pendingId)
  }

  /** before_update: the state it leaves and whether the update may go on. */
  ghost function BeforeUpdate(s: State, id: Id, current: Option<Channel>, next: Channel, now: u64, fee: Option<nat>,
                              signerOk: bool): (State, bool)
  {
    if !Enabled(s.enabled, next) && id !in s.cols then (s, true)
    else if !CreatesPending(current, next) then (s, true)
    else if !signerOk then (s, false)
    else if id !in s.cols && |s.cols| >= CAPACITY then (s, false)
    else
      var s1 := if id in s.cols then s else Arm(Register(s, id, NewCollection(next, now)), now);
      var s2 := Refresh(s1, id, now);
      (s2, StopReason(s2, s2.cols[id], now, fee).None?)
  }

  /** A stale monitor answer is forgotten and asked for again. */
  ghost function Refresh(s: State, id: Id, now: u64): (r: State)
    requires id in s.cols
    ensures id in r.cols
  {
    if IsStale(s.cols[id], now)
    then Arm(Save(s, id, s.cols[id].(monitoredAt := None, nextDue := Seconds(now))), now)
    else s
  }

  function Rise(current: Option<Channel>, next: Channel, now: u64): seq<Charge> {
    var before := if current.None? then 0 else Amount(current.value.charged);
    if Amount(next.charged) > before then [Charge(Amount(next.charged), Seconds(now))] else []
  }

  /** The collection after its channel was stored; a rise adds one charge. */
  function Noted(enabled: set<Addr>, c: Collection, current: Option<Channel>, next: Channel, now: u64): Collection {
    var rise := Rise(current, next, now);
    var wake := (|c.charges| < THRESHOLD && |c.charges + rise| >= THRESHOLD)
      || (c.nextDue == U64_MAX && (rise != [] || Live(next.pending, Seconds(now))));
    c.(seed := next, charges := c.charges + rise, force := c.force || !Enabled(enabled, next),
       nextDue := if wake then Seconds(now) else c.nextDue)
  }

  function Note(s: State, id: Id, current: Option<Channel>, next: Channel, now: u64): State
    requires id in s.cols
  {
    var committed := if id in s.hist.committed
                     then s.hist.committed[id := s.hist.committed[id] + Rise(current, next, now)] else s.hist.committed;
    Save(s, id, Noted(s.enabled, s.cols[id], current, next, now)).(hist := s.hist.(committed := committed))
  }

  /** after_update, once the channel is stored. */
  ghost function AfterUpdate(s: State, id: Id, current: Option<Channel>, next: Channel, now: u64): State {
    if id !in s.cols then s else Arm(Note(s, id, current, next, now), now)
  }

  function Stored(s: State, id: Id): Option<Channel> {
    if id in s.channels then Some(s.channels[id]) else None
  }

  function NextRevision(current: Option<Channel>): nat {
    SatAdd(if current.None? then 0 else current.value.revision, 1, U64_MAX)
  }

  /** batch_update_channel with a channel; `accept` covers authorization, runtime configuration, the
      id hash and the voucher signature. */
  ghost function UpdateChannel(s: State, id: Id, expected: Option<nat>, next: Channel, now: u64, fee: Option<nat>,
                               signerOk: bool, accept: bool): State
  {
    var current := Stored(s, id);
    var revision := if current.None? then None else Some(current.value.revision);
    if expected != revision || !accept || !Accepted(current, next, Seconds(now)) then s
    else
      var (s1, ok) := BeforeUpdate(s, id, current, next.(channelId := id), now, fee, signerOk);
      if !ok || (id !in s.channels && |s.channels| >= MAX_CHANNELS) then s1
      else
        var stored := next.(channelId := id, revision := NextRevision(current));
        AfterUpdate(s1.(channels := s1.channels[id := stored]), id, current, stored, now)
  }

  predicate Provisional(c: Channel, now: u64) {
    Live(c.pending, Seconds(now)) && PendingOnly(c)
  }

  /** before_delete. */
  predicate MayDelete(s: State, id: Id, now: u64) {
    id in s.cols ==>
      var c := s.cols[id];
      var ch := if id in s.channels then s.channels[id] else c.seed;
      && c.attempt.None?
      && Amount(ch.charged) <= c.claimed
      && !Live(ch.pending, Seconds(now))
  }

  /** batch_update_channel without a channel. */
  function DeleteChannel(s: State, id: Id, expected: Option<nat>, now: u64, accept: bool): State {
    if id !in s.channels || expected != Some(s.channels[id].revision) || !accept then s
    else if Live(s.channels[id].pending, Seconds(now)) && !Provisional(s.channels[id], now) then s
    else if !MayDelete(s, id, now) then s
    else Remove(s.(channels := s.channels - {id}), id)
  }

  function Spawned(chosen: set<Id>): map<Id, Worker> {
    map id | id in chosen :: Starting
  }

  /** The timer fires: dispatch starts `chosen` and re-arms. */
  ghost function Fire(s: State, chosen: set<Id>, now: u64): State {
    if s.cols == map[] then s.(timer := None)
    else Arm(s.(timer := None, workers := s.workers + Spawned(chosen)), now)
  }

  function At(s: State, id: Id, w: Worker): State {
    s.(workers := s.workers[id := w])
  }

  // ---- the fee ledger, the lock and the nonce ------------------------------------------

  function AddCredit(s: State, seller: Addr, amount: nat): State {
    var sum := Get(s.credit, seller) + amount;
    var kept := SatAdd(Get(s.credit, seller), amount, U128_MAX);
    s.(credit := s.credit[seller := kept],
       hist := s.hist.(lost := s.hist.lost[seller := Get(s.hist.lost, seller) + (sum - kept)]))
  }

  function Release(s: State, scope: Scope, key: Key): State {
    if scope in s.locks && s.locks[scope].key == key then s.(locks := s.locks - {scope}) else s
  }

  function RollbackNonce(s: State, from: Addr, nonce: nat): State {
    s.(nonces := Rollback(s.nonces, from, nonce))
  }

  function AfterReserve(s: State, from: Addr, nonce: nat): State {
    s.(nonces := Advance(s.nonces, from, nonce))
  }

  function SetFate(s: State, id: Id, fate: Fate): State {
    if id in s.hist.serial && s.hist.serial[id] < |s.hist.log| then
      var n := s.hist.serial[id];
      s.(hist := s.hist.(log := s.hist.log[n := s.hist.log[n].(fate := fate)]))
    else s
  }

  /** abandon_prepared. A missing collection is the `expect` that JournalNeverMissing rules out. */
  function Abandon(s: State, id: Id, a: Attempt): State {
    if id !in s.cols then s
    else
      var s1 := if a.nonce.Some? then RollbackNonce(s, a.from, a.nonce.value) else s;
      var s2 := Release(AddCredit(s1, Seller(a.channel), a.fee), a.scope, a.key);
      var s3 := s2.(records := s2.records - {a.key});
      SetFate(Save(s3, id, s3.cols[id].(attempt := None, force := true)), id, Refunded)
  }

  // ---- worker segments -----------------------------------------------------------------

  /** Nothing to collect and nothing reserved: the worker does not even monitor. */
  predicate Idle(s: State, id: Id, now: u64)
    requires id in s.cols
  {
    var c := s.cols[id];
    && c.attempt.None? && c.monitoredAt.Some? && !c.force
    && id in s.channels
    && Amount(s.channels[id].charged) <= c.claimed
    && !Live(s.channels[id].pending, Seconds(now))
  }

  /** run up to the monitor await; `config` is an error of rpc_config or of the contract address. */
  function WorkerStart(s: State, id: Id, now: u64, config: Option<string>): State {
    if id !in s.cols then At(s, id, Returned(Some("collection removed")))
    else
      var attempt := s.cols[id].attempt;
      if attempt.Some? && attempt.value.raw.None? then At(Abandon(s, id, attempt.value), id, Returned(None))
      else if Idle(s, id, now) then At(s, id, Returned(None))
      else if config.Some? then At(s, id, Returned(config))
      else At(s, id, Monitoring)
  }

  /** record_monitor_outcall. */
  function MonitorOutcall(s: State, id: Id, cycles: nat): State {
    if id !in s.cols then s
    else Save(s, id, s.cols[id].(monitorCalls := SatAdd(s.cols[id].monitorCalls, 1, U64_MAX),
                                 monitorCycles := SatAdd(s.cols[id].monitorCycles, cycles, U128_MAX)))
  }

  datatype Answer = Answer(balance: nat, claimed: nat, withdrawal: nat)

  /** Everything that has to succeed before a scope is locked, or the first error. */
  datatype Prep = Prep(fee: nat, from: Addr, contract: Addr, chainId: nat)

  function Observed(c: Collection, answer: Answer, now: u64): Collection {
    var seen := c.(monitoredAt := Some(Seconds(now)), withdrawalAt := answer.withdrawal, balance := answer.balance,
                   error := if c.halted then c.error else None);
    var settled := Reconcile(seen, answer.claimed);
    settled.(force := settled.force || answer.withdrawal > 0)
  }

  /** The code after the monitor await, up to the first await of prepare or resume. */
  function MonitorDone(s: State, id: Id, now: u64, answer: Result<Answer, string>, sameNetwork: bool,
                       prep: Result<Prep, string>): State
  {
    if answer.Err? then At(s, id, Returned(Some(answer.error)))
    else if id !in s.cols then At(s, id, Returned(Some("collection removed")))
    else Continue(Save(s, id, Observed(s.cols[id], answer.value, now)), id, now, sameNetwork, prep)
  }

  /** What a monitored collection does next: resolve its journal, leave, or collect. */
  function Continue(s: State, id: Id, now: u64, sameNetwork: bool, prep: Result<Prep, string>): State
    requires id in s.cols
  {
    var c := s.cols[id];
    if c.attempt.Some? then
      At(s, id, if sameNetwork then Resuming(c.attempt.value) else Returned(Some("auto_claim_network_changed")))
    else if id !in s.channels then Leave(s, id, now, c.seed)
    else if Amount(s.channels[id].charged) <= c.claimed then
      Leave(Save(s, id, c.(force := false, oldestLegacy := None)), id, now, s.channels[id])
    else
      match Blocked(c, Amount(s.channels[id].charged), prep)
      case Some(reason) => At(s, id, Returned(reason))
      case None => Reserve(s, id, prep.value)
  }

  /** A collection with nothing to collect leaves the map once its seller is disabled and no
      reservation is open; without a stored channel either reason is enough. */
  function Leave(s: State, id: Id, now: u64, channel: Channel): State {
    var off, closed := !Enabled(s.enabled, channel), !Live(channel.pending, Seconds(now));
    At(if (id in s.channels && off && closed) || (id !in s.channels && (off || closed)) then Remove(s, id) else s, id,
       Returned(None))
  }

  /** Why a worker stops before it locks the scope, if it does. */
  function Blocked(c: Collection, target: nat, prep: Result<Prep, string>): (r: Option<Option<string>>)
    ensures r.None? ==> prep.Ok?
  {
    if c.halted || (!c.force && |c.charges| < THRESHOLD) then Some(None)
    else if target > c.balance then Some(Some("insufficient_channel_balance"))
    else if prep.Err? then Some(Some(prep.error))
    else if c.attemptSequence + 1 > U64_MAX then Some(Some("attempt sequence exhausted"))
    else None
  }

  function NewAttempt(s: State, id: Id, p: Prep): Attempt
    requires id in s.cols && id in s.channels
  {
    var channel := s.channels[id];
    var target := Amount(channel.charged);
    Attempt(Auto(id, target, s.cols[id].attemptSequence + 1), channel, target, p.from, p.contract, p.chainId,
            Scope(Lower(p.from), Seller(channel)), p.fee, None, None, None)
  }

  /** Lock the scope, take the fee, journal the attempt: all or nothing, in one segment. */
  function Reserve(s: State, id: Id, p: Prep): State
    requires id in s.cols && id in s.channels
  {
    var a := NewAttempt(s, id, p);
    if a.scope in s.locks && s.locks[a.scope].key != a.key then At(s, id, Returned(Some("settlement_queue_busy")))
    else if Get(s.credit, a.scope.seller) < p.fee then
      At(Release(s, a.scope, a.key), id, Returned(Some("seller credit is below required fee")))
    else At(Begin(s, id, a), id, Preparing(a))
  }

  function Holding(s: State, c: Collection, a: Attempt): Collection {
    c.(attemptSequence := c.attemptSequence + 1, attempt := Some(a),
       force := !Enabled(s.enabled, a.channel) || (c.force && Amount(c.seed.charged) > a.target))
  }

  function Begin(s: State, id: Id, a: Attempt): State
    requires id in s.cols && a.fee <= Get(s.credit, a.scope.seller)
  {
    s.(cols := s.cols[id := Holding(s, s.cols[id], a)],
       locks := if a.scope in s.locks then s.locks else s.locks[a.scope := Lock(a.key, None, None)],
       credit := s.credit[a.scope.seller := Get(s.credit, a.scope.seller) - a.fee],
       records := s.records[a.key := Checking],
       hist := s.hist.(log := s.hist.log + [Entry(a.key, a.scope.seller, a.from, a.fee, Held)],
                       serial := s.hist.serial[id := |s.hist.log|]))
  }

  datatype Prepared =
    | Unprepared(error: string)
    | AlreadyMined
    | SignFailed(pendingNonce: nat, error: string)
    | Signed(pendingNonce: nat, raw: string, tx: string)

  /** The rest of prepare: give everything back, or reserve the nonce, sign, journal, then send. */
  function PrepareDone(s: State, id: Id, a: Attempt, outcome: Prepared): State {
    match outcome
    case Unprepared(e) => At(Abandon(s, id, a), id, Returned(Some(e)))
    case AlreadyMined => At(Abandon(s, id, a), id, Returned(None))
    case SignFailed(pending, e) =>
      var nonce := Reserved(s.nonces, a.from, pending);
      At(Abandon(AfterReserve(s, a.from, nonce), id, a.(nonce := Some(nonce))), id, Returned(Some(e)))
    case Signed(pending, raw, tx) => At(JournalAndSend(s, id, a, Reserved(s.nonces, a.from, pending), raw, tx), id, Sending)
  }

  /** store_attempt, update_active_broadcast, record, and only then the send. */
  function JournalAndSend(s: State, id: Id, a: Attempt, nonce: nat, raw: string, tx: string): State {
    if id !in s.cols then s
    else
      var journaled := a.(nonce := Some(nonce), raw := Some(raw), tx := Some(tx));
      var s1 := Save(AfterReserve(s, a.from, nonce), id, s.cols[id].(attempt := Some(journaled)));
      var s2 := s1.(locks := if a.scope in s.locks && s.locks[a.scope].key == a.key
                             then s.locks[a.scope := Lock(a.key, Some(nonce), Some(tx))] else s.locks,
                    records := s.records[a.key := Broadcast(tx)]);
      Sent(SetFate(s2, id, Journaled(nonce, raw, tx)), id, raw, nonce)
  }

  function Sent(s: State, id: Id, raw: string, nonce: nat): State {
    if id in s.hist.serial
    then s.(hist := s.hist.(sends := s.hist.sends + [Send(s.hist.serial[id], raw, nonce)])) else s
  }

  datatype Receipt = Unreadable(error: string) | Pending | Settled | Failed

  /** The claim is final: everything up to its target is paid. */
  function Settle(s: State, id: Id, a: Attempt, tx: string): State
    requires id in s.cols
  {
    var c := Reconcile(s.cols[id], a.target);
    Release(Save(s, id, c.(oldestLegacy := None, attempt := None)).(records := s.records[a.key := SettledTx(tx)]),
            a.scope, a.key)
  }

  /** The claim reverted: the fee is spent, and nothing more is sent until someone asks. */
  function Fail(s: State, id: Id, a: Attempt, tx: string): State
    requires id in s.cols
  {
    var c := s.cols[id].(attempt := None, force := true, halted := true,
                         error := Some("claim_reverted_manual_retry_required"));
    Release(Save(s, id, c).(records := s.records[a.key := FailedTx(tx)]), a.scope, a.key)
  }

  /** resume after the receipt read. */
  function ResumeDone(s: State, id: Id, a: Attempt, receipt: Receipt): State {
    match receipt
    case Unreadable(e) => At(s, id, Returned(Some(e)))
    case Pending =>
      if a.raw.None? || a.nonce.None? then s
      else At(Sent(s, id, a.raw.value, a.nonce.value), id, Sending)
    case Settled => if id !in s.cols || a.tx.None? then s else At(Settle(s, id, a, a.tx.value), id, Returned(None))
    case Failed => if id !in s.cols || a.tx.None? then s else At(Fail(s, id, a, a.tx.value), id, Returned(None))
  }

  /** The collection after a worker: asleep when nothing is left to do, else due again. */
  function Rested(s: State, id: Id, now: u64): Collection
    requires id in s.cols && id in s.workers && s.workers[id].Returned?
  {
    var c := s.cols[id];
    var sleeps := c.attempt.None? && !c.force && id in s.channels
      && Amount(s.channels[id].charged) <= c.claimed && !Live(s.channels[id].pending, Seconds(now));
    c.(error := if s.workers[id].error.Some? then s.workers[id].error else c.error,
       nextDue := if sleeps then U64_MAX else SatAdd(Seconds(now), INTERVAL, U64_MAX))
  }

  /** The worker epilogue and the guard's drop. */
  ghost function WorkerFinish(s: State, id: Id, now: u64): State
    requires id in s.workers && s.workers[id].Returned?
  {
    var done := s.(workers := s.workers - {id});
    if id !in s.cols then Arm(done, now) else Arm(Save(done, id, Rested(s, id, now)), now)
  }

  /** post_upgrade: workers, busy set and timer are gone; the stable maps are not. */
  ghost function Upgrade(s: State, now: u64): State {
    Arm(s.(workers := map[], timer := None), now)
  }

  // ---- the rest of the canister --------------------------------------------------------

  function Deposit(s: State, seller: Addr, amount: nat): State {
    var s1 := AddCredit(s, Norm(seller), amount);
    s1.(hist := s1.hist.(paidIn := s1.hist.paidIn[Norm(seller) := Get(s1.hist.paidIn, Norm(seller)) + amount]))
  }

  /** A manual settlement reserving its own fee. */
  function ManualCharge(s: State, seller: Addr, amount: nat): State {
    if Get(s.credit, Norm(seller)) < amount then s
    else s.(credit := s.credit[Norm(seller) := Get(s.credit, Norm(seller)) - amount],
            hist := s.hist.(external := s.hist.external[Norm(seller) := Get(s.hist.external, Norm(seller)) + amount]))
  }

  /** A manual settlement giving its fee back. */
  function ManualRefund(s: State, seller: Addr, amount: nat): State
    requires amount <= Get(s.hist.external, Norm(seller))
  {
    var s1 := AddCredit(s, Norm(seller), amount);
    s1.(hist := s1.hist.(external := s1.hist.external[Norm(seller) := Get(s.hist.external, Norm(seller)) - amount]))
  }

  function ManualAcquire(s: State, scope: Scope, name: string): State {
    if scope in s.locks then s else s.(locks := s.locks[scope := Lock(Manual(name), None, None)])
  }

  function ManualNonce(s: State, from: Addr, pending: nat): State {
    var nonce := Reserved(s.nonces, from, pending);
    var s1 := AfterReserve(s, from, nonce);
    s1.(hist := s1.hist.(manualNonces := s1.hist.manualNonces + {(from, nonce)}))
  }

  function ManualRollback(s: State, from: Addr, nonce: nat): State {
    var s1 := RollbackNonce(s, from, nonce);
    s1.(hist := s1.hist.(manualNonces := s1.hist.manualNonces - {(from, nonce)}))
  }

  // ---- the transition system -----------------------------------------------------------

  datatype Event =
    | DoSetEnabled(receiver: Addr, value: bool, now: u64, accept: bool)
    | DoRequestClaim(id: Id, now: u64)
    | DoUpdate(id: Id, expected: Option<nat>, next: Channel, now: u64, feeNow: Option<nat>, signerOk: bool, accept: bool)
    | DoDelete(id: Id, expected: Option<nat>, now: u64, accept: bool)
    | DoFire(chosen: set<Id>, now: u64)
    | DoStart(id: Id, now: u64, config: Option<string>)
    | DoOutcall(id: Id, cycles: nat)
    | DoMonitor(id: Id, now: u64, answer: Result<Answer, string>, sameNetwork: bool, prep: Result<Prep, string>)
    | DoPrepare(id: Id, outcome: Prepared)
    | DoResume(id: Id, receipt: Receipt)
    | DoSent(id: Id)
    | DoFinish(id: Id, now: u64)
    | DoUpgrade(now: u64)
    | DoDeposit(seller: Addr, amount: nat)
    | DoManualCharge(seller: Addr, amount: nat)
    | DoManualRefund(seller: Addr, amount: nat)
    | DoManualAcquire(scope: Scope, name: string)
    | DoManualRelease(scope: Scope, name: string)
    | DoManualNonce(from: Addr, pending: nat)
    | DoManualRollback(from: Addr, nonce: nat)

  /** When a message can run. Messages of users and of the rest of the canister always can. */
  ghost predicate Ready(s: State, e: Event) {
    match e
    case DoSetEnabled(receiver, _, _, _) => receiver == Norm(receiver)
    case DoFire(chosen, now) =>
      && s.timer.Some? && s.timer.value <= now
      && Earliest(s.cols, DueIdle(s, now), chosen, Capacity(s))
    case DoStart(id, _, _) => id in s.workers && s.workers[id].Starting?
    case DoOutcall(id, _) => id in s.workers && s.workers[id].Monitoring?
    case DoMonitor(id, _, _, _, _) => id in s.workers && s.workers[id].Monitoring?
    case DoPrepare(id, outcome) => id in s.workers && s.workers[id].Preparing?
      && (outcome.SignFailed? || outcome.Signed? ==> outcome.pendingNonce <= U128_MAX)
    case DoResume(id, _) => id in s.workers && s.workers[id].Resuming?
    case DoSent(id) => id in s.workers && s.workers[id].Sending?
    case DoFinish(id, _) => id in s.workers && s.workers[id].Returned?
    case DoManualRefund(seller, amount) => amount <= Get(s.hist.external, Norm(seller))
    case DoManualNonce(_, pending) => pending <= U128_MAX
    case DoManualRollback(from, nonce) => (from, nonce) in s.hist.manualNonces
    case _ => true
  }

  ghost function Step(s: State, e: Event): State
    requires Ready(s, e)
  {
    match e
    case DoSetEnabled(receiver, value, now, accept) => SetEnabled(s, receiver, value, now, accept)
    case DoRequestClaim(id, now) => RequestClaim(s, id, now)
    case DoUpdate(id, expected, next, now, feeNow, signerOk, accept) =>
      UpdateChannel(s, id, expected, next, now, feeNow, signerOk, accept)
    case DoDelete(id, expected, now, accept) => DeleteChannel(s, id, expected, now, accept)
    case DoFire(chosen, now) => Fire(s, chosen, now)
    case DoStart(id, now, config) => WorkerStart(s, id, now, config)
    case DoOutcall(id, cycles) => MonitorOutcall(s, id, cycles)
    case DoMonitor(id, now, answer, sameNetwork, prep) => MonitorDone(s, id, now, answer, sameNetwork, prep)
    case DoPrepare(id, outcome) => PrepareDone(s, id, s.workers[id].attempt, outcome)
    case DoResume(id, receipt) => ResumeDone(s, id, s.workers[id].attempt, receipt)
    case DoSent(id) => At(s, id, Returned(None))
    case DoFinish(id, now) => WorkerFinish(s, id, now)
    case DoUpgrade(now) => Upgrade(s, now)
    case DoDeposit(seller, amount) => Deposit(s, seller, amount)
    case DoManualCharge(seller, amount) => ManualCharge(s, seller, amount)
    case DoManualRefund(seller, amount) => ManualRefund(s, seller, amount)
    case DoManualAcquire(scope, name) => ManualAcquire(s, scope, name)
    case DoManualRelease(scope, name) => Release(s, scope, Manual(name))
    case DoManualNonce(from, pending) => ManualNonce(s, from, pending)
    case DoManualRollback(from, nonce) => ManualRollback(s, from, nonce)
  }

  const Empty := State({}, map[], map[], map[], None, map[], map[], map[], map[],
                       History([], map[], map[], map[], [], map[], map[], map[], {}, 0))

  /** A run: every event ready in the state it meets. */
  ghost predicate IsRun(s: State, events: seq<Event>)
    decreases |events|
  {
    events == [] || (Ready(s, events[0]) && IsRun(Step(s, events[0]), events[1..]))
  }

  ghost function Exec(s: State, events: seq<Event>): State
    requires IsRun(s, events)
    decreases |events|
  {
    if events == [] then s else Exec(Step(s, events[0]), events[1..])
  }
}
