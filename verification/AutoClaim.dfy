/** The collector as the canister runs it: stable maps, the sorted due queue, the busy set and the
    timer, changed in place by one method per message and per worker segment. Each method is proved
    to make the step of the transition system in Collector. */
module AutoClaim {
  import opened Accounts
  import opened Wrappers
  import opened Decimal
  import opened HexUtil
  import opened Batch
  import opened Keys
  import opened Collector
  import opened DueQueue
  import opened Dispatch

  class Facilitator {
    var policies: map<Addr, bool>
    var collections: map<Id, Collection>
    var due: seq<string>
    var busy: set<Id>
    var timer: Option<nat>
    var channels: map<Id, Channel>
    var credit: map<Addr, nat>
    var locks: map<Scope, Lock>
    var records: map<Key, Record>
    var nonces: map<Addr, nat>
    /** The suspended worker futures. */
    var workers: map<Id, Worker>
    ghost var hist: History

    /** The queue mirrors the map, and a channel is busy exactly while its worker lives. */
    ghost predicate Valid()
      reads this
    {
      && QueueOf(due, collections) && busy == workers.Keys
      && (forall id :: id in collections ==> IsId(id)) && (forall id :: id in channels ==> IsId(id))
    }

    function Policies(): set<Addr>
      reads `policies
    {
      set a | a in policies && policies[a]
    }

    ghost function State(): State
      reads this
    {
      Collector.State.State(Policies(), channels, collections, workers, timer, credit, locks, records, nonces, hist)
    }

    constructor ()
      ensures Valid() && State() == Empty
    {
      policies, collections, due, busy, timer := map[], map[], [], {}, None;
      channels, credit, locks, records, nonces, workers := map[], map[], map[], map[], map[], map[];
      hist := Empty.hist;
    }

    // ---- the queue ---------------------------------------------------------------------

    method Save(id: Id, c: Collection)
      requires Valid() && IsId(id)
      modifies `collections, `due
      ensures Valid() && State() == Collector.Save(old(State()), id, c)
    {
      SavedQueue(due, collections, id, c);
      if id in collections {
        due := Drop(due, DueKey(collections[id].nextDue, id));
      }
      collections := collections[id := c];
      due := Put(due, DueKey(c.nextDue, id));
    }

    method Remove(id: Id)
      requires Valid()
      modifies `collections, `due
      ensures Valid() && State() == Collector.Remove(old(State()), id)
    {
      RemovedQueue(due, collections, id);
      if id in collections {
        due := Drop(due, DueKey(collections[id].nextDue, id));
      }
      collections := collections - {id};
    }

    /** next_wakeup scans the queue in order; the first key that is neither asleep nor busy is the
        least finite due time of the map. */
    method FirstWakeup() returns (r: Option<nat>)
      requires Valid()
      ensures r == NextWakeup(collections, busy)
    {
      hide QueueOf, NextWakeup, Passed, IsNever, IsId;
      var i := 0;
      assert Passed(due, collections, busy, 0) by { PassedNone(due, collections, busy); }
      while i < |due|
        invariant 0 <= i <= |due| && Passed(due, collections, busy, i)
      {
        QueueEntry(due, collections, i);
        if !IsNever(due[i]) && KeyId(due[i]) !in busy {
          FoundLeast(due, collections, busy, i);
          return Some(KeyTime(due[i]));
        }
        PassedOne(due, collections, busy, i);
        i := i + 1;
      }
      NoneWakes(due, collections, busy);
      return None;
    }

    method StartTimer(now: u64)
      requires Valid()
      modifies `timer, `hist
      ensures Valid() && State() == Arm(old(State()), now)
    {
      hide QueueOf, IsId, NextWakeup, TimerDeadline;
      var next := FirstWakeup();
      timer := TimerDeadline(timer, next, now);
      hist := hist.(lastArm := now);
    }

    /** The timer callback: forget the timer, then dispatch. */
    method Fire(now: u64) returns (ghost chosen: set<Id>)
      requires Valid()
      modifies `timer, `busy, `workers, `hist
      ensures Valid() && Earliest(collections, DueIdle(old(State()), now), chosen, Capacity(old(State())))
      ensures State() == Collector.Fire(old(State()), chosen, now)
    {
      hide QueueOf, IsId, Earliest, DueIdle, Capacity, Arm, Spawned;
      timer := None;
      if collections == map[] {
        chosen := {};
        NobodyDue(old(State()), now);
        return;
      }
      chosen := StartDue(now);
      SameDispatch(old(State()), now);
      StartTimer(now);
    }

    /** How many keys the dispatcher takes from the queue. */
    method TakeDue(now: u64) returns (n: nat)
      ensures Window(due, n, now)
    {
      hide LexLess, LexLeq, DueKey;
      n := 0;
      while n < |due| && n < WINDOW && LexLeq(due[n], DueKey(Seconds(now), "~"))
        invariant n <= |due| && n <= WINDOW
        invariant forall j :: 0 <= j < n ==> LexLeq(due[j], DueKey(Seconds(now), "~"))
      {
        n := n + 1;
      }
    }

    /** dispatch up to its final start_timer. */
    method StartDue(now: u64) returns (ghost chosen: set<Id>)
      requires Valid()
      modifies `busy, `workers
      ensures Valid() && Earliest(collections, DueIdle(old(State()), now), chosen, Capacity(old(State())))
      ensures workers == old(workers) + Spawned(chosen)
    {
      hide QueueOf, IsId, Started, Earliest, DueIdle, Window, Capacity, Spawned;
      var capacity := FreeSlots();
      var n := TakeDue(now);
      WindowBound(due, n, now);
      ghost var i: nat;
      i, chosen := StartWindow(n, capacity);
      DispatchIsEarliest(old(State()), due, i, n, chosen, now);
    }

    /** Skip the busy channels, start the others until the slots are used up. */
    method StartWindow(n: nat, capacity: nat) returns (ghost looked: nat, ghost chosen: set<Id>)
      requires QueueOf(due, collections) && busy == workers.Keys && n <= |due|
      modifies `busy, `workers
      ensures busy == workers.Keys && workers == old(workers) + Spawned(chosen)
      ensures looked <= n && Started(due, collections, old(busy), looked, chosen)
      ensures |chosen| <= capacity && (looked == n || |chosen| == capacity)
    {
      hide QueueOf, Started, Spawning, Current, Spawned, KeyId;
      ghost var busy0, workers0 := busy, workers;
      var i, count := 0, 0;
      chosen := {};
      StartNone(due, collections, busy);
      SpawnNone(busy, workers);
      while i < n && count < capacity
        invariant i <= n && count == |chosen| <= capacity
        invariant Started(due, collections, busy0, i, chosen)
        invariant Spawning(busy, workers, busy0, workers0, chosen)
      {
        QueueEntry(due, collections, i);
        chosen, count := StartNextOf(due[i], busy0, workers0, chosen, count, i);
        i := i + 1;
      }
      SpawnDone(busy, workers, busy0, workers0, chosen);
      looked := i;
    }

    /** Start the channel of one key unless it is busy. */
    method StartNextOf(key: string, ghost busy0: set<Id>, ghost workers0: map<Id, Worker>, ghost chosen: set<Id>, count: nat,
                       ghost i: nat)
      returns (ghost chosen': set<Id>, count': nat)
      requires i < |due| && due[i] == key && |key| >= 21 && Current(collections, key) && count == |chosen|
      requires Started(due, collections, busy0, i, chosen) && Spawning(busy, workers, busy0, workers0, chosen)
      modifies `busy, `workers
      ensures Started(due, collections, busy0, i + 1, chosen') && Spawning(busy, workers, busy0, workers0, chosen')
      ensures count' == |chosen'| <= count + 1
    {
      hide Started, Spawning, Current, Spawned, KeyId;
      StartNext(due, collections, busy0, i, chosen);
      SpawnBusy(busy, workers, busy0, workers0, chosen);
      var id := KeyId(key);
      if id in busy {
        return chosen, count;
      }
      SpawnOne(busy, workers, busy0, workers0, chosen, id);
      busy, workers := busy + {id}, workers[id := Starting];
      return chosen + {id}, count + 1;
    }

    method FreeSlots() returns (capacity: nat)
      requires busy == workers.Keys
      ensures capacity == Capacity(State())
    {
      capacity := if |busy| >= CONCURRENCY then 0 else CONCURRENCY - |busy|;
    }

    // ---- messages ----------------------------------------------------------------------

    method SetEnabled(receiver: Addr, value: bool, now: u64, accept: bool)
      requires Valid()
      modifies `policies, `collections, `due, `timer, `hist
      ensures Valid() && State() == Collector.SetEnabled(old(State()), receiver, value, now, accept)
    {
      hide QueueOf, IsId, Arm, Targets, Collector.Switch;
      var targets := Targets(channels, collections, receiver, value);
      if !accept || (value && |collections| + |targets - collections.Keys| > CAPACITY) {
        return;
      }
      Switch(receiver, value, now);
      StartTimer(now);
    }

    method Switch(receiver: Addr, value: bool, now: u64)
      requires Valid()
      modifies `policies, `collections, `due, `hist
      ensures Valid() && State() == Collector.Switch(old(State()), receiver, value, now)
    {
      hide QueueOf, IsId, Touched, Targets, Retouched;
      ghost var s := State();
      var targets := Targets(channels, collections, receiver, value);
      SetPolicy(receiver, value);
      TouchAll(targets, value, now, s);
      hist := Collector.Switch(s, receiver, value, now).hist;
    }

    method SetPolicy(receiver: Addr, value: bool)
      modifies `policies
      ensures Policies() == if value then old(Policies()) + {receiver} else old(Policies()) - {receiver}
    {
      policies := policies[receiver := value];
    }

    /** Every collection concerned is registered or woken, one after the other. */
    method TouchAll(targets: set<Id>, value: bool, now: u64, ghost s: State)
      requires Valid() && s.cols == collections && s.channels == channels && targets <= collections.Keys + channels.Keys
      modifies `collections, `due
      ensures Valid() && collections == Retouched(s, targets, value, now)
    {
      hide QueueOf, Touched, Retouched, IsId;
      var todo := targets;
      RetouchNone(s, value, now);
      assert targets - todo == {};
      while todo != {}
        invariant todo <= targets && Valid()
        invariant collections == Retouched(s, targets - todo, value, now)
      {
        var id :| id in todo;
        RetouchOne(s, targets - todo, id, value, now);
        assert targets - (todo - {id}) == targets - todo + {id};
        TouchOne(id, value, now, s);
        todo := todo - {id};
      }
      assert targets - todo == targets;
    }

    method TouchOne(id: Id, value: bool, now: u64, ghost s: State)
      requires Valid() && s.channels == channels && (id in collections || id in channels)
      requires (id in collections <==> id in s.cols) && (id in s.cols ==> collections[id] == s.cols[id])
      modifies `collections, `due
      ensures Valid() && collections == old(collections)[id := Touched(s, id, value, now)]
    {
      hide QueueOf, IsId, NewCollection;
      var c := if id in collections then collections[id] else NewCollection(channels[id], now);
      if !value {
        c := c.(force := true);
      }
      c := c.(nextDue := Seconds(now));
      Save(id, c);
    }

    method RequestClaim(id: Id, now: u64)
      requires Valid()
      modifies `collections, `due, `timer, `hist
      ensures Valid() && State() == Collector.RequestClaim(old(State()), id, now)
    {
      hide QueueOf, IsId, Arm, Policies;
      if id !in collections {
        return;
      }
      Save(id, collections[id].(force := true, halted := false, nextDue := Seconds(now)));
      StartTimer(now);
    }

    method BeforeUpdate(id: Id, current: Option<Channel>, next: Channel, now: u64, fee: Option<nat>, signerOk: bool)
      returns (ok: bool)
      requires Valid() && IsId(id)
      modifies `collections, `due, `timer, `hist
      ensures Valid() && (State(), ok) == Collector.BeforeUpdate(old(State()), id, current, next, now, fee, signerOk)
    {
      hide QueueOf, IsId, Arm, Policies, Collector.Refresh, StopReason, Enabled, CreatesPending, NewCollection;
      if !Enabled(Policies(), next) && id !in collections {
        return true;
      }
      if !CreatesPending(current, next) {
        return true;
      }
      if !signerOk {
        return false;
      }
      if id !in collections {
        if |collections| >= CAPACITY {
          return false;
        }
        Register(id, next, now);
      }
      RefreshMonitor(id, now);
      var reason := Stop(collections[id], now, fee);
      ok := reason.None?;
    }

    method Register(id: Id, next: Channel, now: u64)
      requires Valid() && IsId(id)
      modifies `collections, `due, `timer, `hist
      ensures Valid() && State() == Arm(Collector.Register(old(State()), id, NewCollection(next, now)), now)
      ensures id in collections
    {
      hide QueueOf, IsId, Policies, NewCollection, Arm;
      Save(id, NewCollection(next, now));
      hist := hist.(committed := hist.committed[id := []], birth := hist.birth[id := |hist.log|]);
      StartTimer(now);
    }

    method RefreshMonitor(id: Id, now: u64)
      requires Valid() && id in collections
      modifies `collections, `due, `timer, `hist
      ensures Valid() && State() == Collector.Refresh(old(State()), id, now) && id in collections
    {
      hide QueueOf, IsId, Arm, Policies, IsStale;
      if IsStale(collections[id], now) {
        Save(id, collections[id].(monitoredAt := None, nextDue := Seconds(now)));
        StartTimer(now);
      }
    }

    /** stop_reason. */
    method Stop(c: Collection, now: u64, fee: Option<nat>) returns (r: Option<string>)
      ensures r == StopReason(State(), c, now, fee)
    {
      hide IsStale;
      if !Enabled(Policies(), c.seed) { return Some("auto_claim_draining"); }
      if c.withdrawalAt > 0 { return Some("withdrawal_requested"); }
      if IsStale(c, now) { return Some("monitor_stale"); }
      if |c.charges| >= MAX_OUTSTANDING { return Some("collection_backlog"); }
      if fee.None? || Get(credit, c.seed.config.receiver) < fee.value { return Some("seller_insufficient_credit"); }
      if c.error.Some? && c.error.value != "settlement_queue_busy" { return c.error; }
      return None;
    }

    method AfterUpdate(id: Id, current: Option<Channel>, next: Channel, now: u64)
      requires Valid()
      modifies `collections, `due, `timer, `hist
      ensures Valid() && State() == Collector.AfterUpdate(old(State()), id, current, next, now)
    {
      hide QueueOf, IsId, Arm, Enabled, Live, Amount;
      if id !in collections {
        return;
      }
      ghost var s := State();
      var c := NotedCollection(collections[id], current, next, now);
      Save(id, c);
      hist := Note(s, id, current, next, now).hist;
      StartTimer(now);
    }

    /** The body of after_update on the collection's fields. */
    method NotedCollection(was: Collection, current: Option<Channel>, next: Channel, now: u64) returns (c: Collection)
      ensures c == Noted(Policies(), was, current, next, now)
    {
      hide Enabled, Live, Amount;
      c := was.(seed := next);
      if !Enabled(Policies(), next) {
        c := c.(force := true);
      }
      var before := if current.None? then 0 else Amount(current.value.charged);
      var total := Amount(next.charged);
      if total > before {
        c := c.(charges := c.charges + [Charge(total, Seconds(now))]);
      }
      if (|was.charges| < THRESHOLD && |c.charges| >= THRESHOLD)
        || (c.nextDue == U64_MAX && (total > before || Live(next.pending, Seconds(now))))
      {
        c := c.(nextDue := Seconds(now));
      }
    }

    method UpdateChannel(id: Id, expected: Option<nat>, next: Channel, now: u64, fee: Option<nat>, signerOk: bool,
                         accept: bool)
      requires Valid() && IsId(id)
      modifies `collections, `due, `timer, `hist, `channels
      ensures Valid()
      ensures State() == Collector.UpdateChannel(old(State()), id, expected, next, now, fee, signerOk, accept)
    {
      hide QueueOf, IsId, Accepted, Collector.BeforeUpdate, Collector.AfterUpdate;
      var current := if id in channels then Some(channels[id]) else None;
      if expected != (if current.None? then None else Some(current.value.revision)) || !accept
        || !Accepted(current, next, Seconds(now))
      {
        return;
      }
      var ok := BeforeUpdate(id, current, next.(channelId := id), now, fee, signerOk);
      if !ok || (id !in channels && |channels| >= MAX_CHANNELS) {
        return;
      }
      var stored := next.(channelId := id, revision := NextRevision(current));
      channels := channels[id := stored];
      AfterUpdate(id, current, stored, now);
    }

    method DeleteChannel(id: Id, expected: Option<nat>, now: u64, accept: bool)
      requires Valid()
      modifies `collections, `due, `channels
      ensures Valid() && State() == Collector.DeleteChannel(old(State()), id, expected, now, accept)
    {
      hide QueueOf, IsId, Live, Provisional, Amount;
      if id !in channels || expected != Some(channels[id].revision) || !accept {
        return;
      }
      var channel := channels[id];
      if Live(channel.pending, Seconds(now)) && !Provisional(channel, now) {
        return;
      }
      if id in collections && (collections[id].attempt.Some? || Amount(channel.charged) > collections[id].claimed
                               || Live(channel.pending, Seconds(now)))
      {
        return;
      }
      channels := channels - {id};
      Remove(id);
    }

    // ---- the worker --------------------------------------------------------------------

    /** The worker suspends itself, or returns. */
    method Suspend(id: Id, w: Worker)
      requires Valid() && id in workers
      modifies `workers
      ensures Valid() && State() == At(old(State()), id, w)
    {
      hide QueueOf, IsId;
      workers := workers[id := w];
      assert workers.Keys == old(workers.Keys);
    }

    method RefundSellerCredit(seller: Addr, amount: nat)
      requires Valid()
      modifies `credit, `hist
      ensures Valid() && State() == AddCredit(old(State()), seller, amount)
    {
      hide QueueOf, IsId, SatAdd;
      ghost var s := State();
      credit := credit[seller := SatAdd(Get(credit, seller), amount, U128_MAX)];
      hist := AddCredit(s, seller, amount).hist;
    }

    method ReleaseScope(scope: Scope, key: Key)
      requires Valid()
      modifies `locks
      ensures Valid() && State() == Release(old(State()), scope, key)
    {
      hide QueueOf, IsId;
      if scope in locks && locks[scope].key == key {
        locks := locks - {scope};
      }
    }

    method AbandonPrepared(id: Id, a: Attempt)
      requires Valid() && id in collections
      modifies `collections, `due, `credit, `locks, `records, `nonces, `hist
      ensures Valid() && State() == Abandon(old(State()), id, a)
    {
      hide QueueOf, IsId, AddCredit, Release, SetFate, Seller, Rollback;
      if a.nonce.Some? {
        nonces := Rollback(nonces, a.from, a.nonce.value);
      }
      RefundSellerCredit(Seller(a.channel), a.fee);
      ReleaseScope(a.scope, a.key);
      records := records - {a.key};
      Save(id, collections[id].(attempt := None, force := true));
      Resolve(id, Refunded);
    }

    /** Bookkeeping of an attempt's fate. */
    ghost method Resolve(id: Id, fate: Fate)
      requires Valid()
      modifies `hist
      ensures Valid() && State() == SetFate(old(State()), id, fate)
    {
      hide QueueOf, IsId;
      hist := SetFate(State(), id, fate).hist;
    }

    /** run up to the monitor await. */
    method Start(id: Id, now: u64, config: Option<string>)
      requires Valid() && id in workers && workers[id].Starting?
      modifies `collections, `due, `credit, `locks, `records, `nonces, `workers, `hist
      ensures Valid() && State() == WorkerStart(old(State()), id, now, config)
    {
      hide QueueOf, IsId, Abandon, Live, Amount, At;
      if id !in collections {
        Suspend(id, Returned(Some("collection removed")));
        return;
      }
      var c := collections[id];
      if c.attempt.Some? && c.attempt.value.raw.None? {
        AbandonPrepared(id, c.attempt.value);
        Suspend(id, Returned(None));
      } else if c.attempt.None? && c.monitoredAt.Some? && !c.force && id in channels
        && Amount(channels[id].charged) <= c.claimed && !Live(channels[id].pending, Seconds(now))
      {
        Suspend(id, Returned(None));
      } else if config.Some? {
        Suspend(id, Returned(config));
      } else {
        Suspend(id, Monitoring);
      }
    }

    method RecordMonitorOutcall(id: Id, cycles: nat)
      requires Valid()
      modifies `collections, `due
      ensures Valid() && State() == MonitorOutcall(old(State()), id, cycles)
    {
      hide QueueOf, IsId, SatAdd;
      if id in collections {
        var c := collections[id];
        Save(id, c.(monitorCalls := SatAdd(c.monitorCalls, 1, U64_MAX),
                    monitorCycles := SatAdd(c.monitorCycles, cycles, U128_MAX)));
      }
    }

    /** run after the monitor await, up to the first await of prepare or resume. */
    method Monitored(id: Id, now: u64, answer: Result<Answer, string>, sameNetwork: bool, prep: Result<Prep, string>)
      requires Valid() && id in workers && workers[id].Monitoring?
      modifies `collections, `due, `credit, `locks, `records, `workers, `hist
      ensures Valid() && State() == MonitorDone(old(State()), id, now, answer, sameNetwork, prep)
    {
      hide QueueOf, IsId, At, Collector.Continue, Reconcile;
      if answer.Err? {
        Suspend(id, Returned(Some(answer.error)));
        return;
      }
      if id !in collections {
        Suspend(id, Returned(Some("collection removed")));
        return;
      }
      var c := collections[id];
      c := c.(monitoredAt := Some(Seconds(now)), withdrawalAt := answer.value.withdrawal, balance := answer.value.balance);
      if !c.halted {
        c := c.(error := None);
      }
      c := Reconcile(c, answer.value.claimed);
      if answer.value.withdrawal > 0 {
        c := c.(force := true);
      }
      Save(id, c);
      Continue(id, now, sameNetwork, prep);
    }

    /** Resolve the journal first; otherwise leave or collect. */
    method Continue(id: Id, now: u64, sameNetwork: bool, prep: Result<Prep, string>)
      requires Valid() && id in workers && id in collections
      modifies `collections, `due, `credit, `locks, `records, `workers, `hist
      ensures Valid() && State() == Collector.Continue(old(State()), id, now, sameNetwork, prep)
    {
      hide QueueOf, IsId, At, Collector.Leave, Collector.Reserve, Amount;
      var c := collections[id];
      if c.attempt.Some? {
        if sameNetwork {
          Suspend(id, Resuming(c.attempt.value));
        } else {
          Suspend(id, Returned(Some("auto_claim_network_changed")));
        }
        return;
      }
      if id !in channels {
        Leave(id, now, c.seed);
        return;
      }
      var target := Amount(channels[id].charged);
      if target <= c.claimed {
        Save(id, c.(force := false, oldestLegacy := None));
        Leave(id, now, channels[id]);
      } else if c.halted || (!c.force && |c.charges| < THRESHOLD) {
        Suspend(id, Returned(None));
      } else if target > c.balance {
        Suspend(id, Returned(Some("insufficient_channel_balance")));
      } else if prep.Err? {
        Suspend(id, Returned(Some(prep.error)));
      } else if c.attemptSequence + 1 > U64_MAX {
        Suspend(id, Returned(Some("attempt sequence exhausted")));
      } else {
        Reserve(id, prep.value);
      }
    }

    method Leave(id: Id, now: u64, channel: Channel)
      requires Valid() && id in workers
      modifies `collections, `due, `workers
      ensures Valid() && State() == Collector.Leave(old(State()), id, now, channel)
    {
      hide QueueOf, IsId, Enabled, Live;
      var off, closed := !Enabled(Policies(), channel), !Live(channel.pending, Seconds(now));
      if (id in channels && off && closed) || (id !in channels && (off || closed)) {
        Remove(id);
      }
      Suspend(id, Returned(None));
    }

    /** Lock the scope, reserve the fee, persist the attempt; nothing can run in between. */
    method Reserve(id: Id, p: Prep)
      requires Valid() && id in workers && id in collections && id in channels
      modifies `collections, `due, `credit, `locks, `records, `workers, `hist
      ensures Valid() && State() == Collector.Reserve(old(State()), id, p)
    {
      hide QueueOf, IsId, At, Collector.Release, Collector.Begin, Seller, Amount, Lower;
      var channel := channels[id];
      var target := Amount(channel.charged);
      var scope := Scope(Lower(p.from), Seller(channel));
      var key := Auto(id, target, collections[id].attemptSequence + 1);
      if scope in locks && locks[scope].key != key {
        Suspend(id, Returned(Some("settlement_queue_busy")));
        return;
      }
      if Get(credit, scope.seller) < p.fee {
        ReleaseScope(scope, key);
        Suspend(id, Returned(Some("seller credit is below required fee")));
        return;
      }
      var a := Attempt(key, channel, target, p.from, p.contract, p.chainId, scope, p.fee, None, None, None);
      Begin(id, a);
      Suspend(id, Preparing(a));
    }

    method Begin(id: Id, a: Attempt)
      requires Valid() && id in collections && a.fee <= Get(credit, a.scope.seller)
      modifies `collections, `due, `credit, `locks, `records, `hist
      ensures Valid() && State() == Collector.Begin(old(State()), id, a)
    {
      hide QueueOf, IsId, Holding, Get;
      var c := Held(id, a);
      Save(id, c);
      TakeFee(a);
      records := records[a.key := Checking];
      Log(id, a);
    }

    /** Bookkeeping of a new attempt. */
    ghost method Log(id: Id, a: Attempt)
      modifies `hist
      ensures hist == old(hist).(log := old(hist).log + [Entry(a.key, a.scope.seller, a.from, a.fee, Fate.Held)],
                                 serial := old(hist).serial[id := |old(hist).log|])
    {
      hist := hist.(log := hist.log + [Entry(a.key, a.scope.seller, a.from, a.fee, Fate.Held)],
                    serial := hist.serial[id := |hist.log|]);
    }

    method TakeFee(a: Attempt)
      requires a.fee <= Get(credit, a.scope.seller)
      modifies `credit, `locks
      ensures locks == if a.scope in old(locks) then old(locks) else old(locks)[a.scope := Lock(a.key, None, None)]
      ensures credit == old(credit)[a.scope.seller := Get(old(credit), a.scope.seller) - a.fee]
    {
      if a.scope !in locks {
        locks := locks[a.scope := Lock(a.key, None, None)];
      }
      credit := credit[a.scope.seller := Get(credit, a.scope.seller) - a.fee];
    }

    method Held(id: Id, a: Attempt) returns (c: Collection)
      requires id in collections
      ensures c == Holding(State(), collections[id], a)
    {
      hide Enabled, Amount;
      c := collections[id];
      c := c.(attemptSequence := c.attemptSequence + 1, attempt := Some(a),
              force := !Enabled(Policies(), a.channel) || (c.force && Amount(c.seed.charged) > a.target));
    }

    /** prepare after its awaits: give everything back, or write the journal and only then send. */
    method Prepared(id: Id, outcome: Collector.Prepared)
      requires Valid() && id in workers && workers[id].Preparing? && id in collections
      modifies `collections, `due, `credit, `locks, `records, `nonces, `workers, `hist
      ensures Valid() && State() == PrepareDone(old(State()), id, old(workers[id].attempt), outcome)
    {
      hide QueueOf, IsId, At, Abandon, Collector.JournalAndSend, Reserved, Advance;
      var a := workers[id].attempt;
      match outcome {
        case Unprepared(e) =>
          AbandonPrepared(id, a);
          Suspend(id, Returned(Some(e)));
        case AlreadyMined =>
          AbandonPrepared(id, a);
          Suspend(id, Returned(None));
        case SignFailed(pending, e) =>
          var nonce := ReserveNonce(a.from, pending);
          AbandonPrepared(id, a.(nonce := Some(nonce)));
          Suspend(id, Returned(Some(e)));
        case Signed(pending, raw, tx) =>
          JournalAndSend(id, a, pending, raw, tx);
          Suspend(id, Sending);
      }
    }

    method ReserveNonce(from: Addr, pending: nat) returns (nonce: nat)
      requires Valid()
      modifies `nonces
      ensures Valid() && nonce == Reserved(old(nonces), from, pending) && State() == AfterReserve(old(State()), from, nonce)
    {
      hide QueueOf, IsId;
      nonce := pending;
      if from in nonces && nonces[from] > nonce {
        nonce := nonces[from];
      }
      nonces := nonces[from := SatAdd(nonce, 1, U128_MAX)];
    }

    method JournalAndSend(id: Id, a: Attempt, pending: nat, raw: string, tx: string)
      requires Valid() && id in collections
      modifies `collections, `due, `locks, `records, `nonces, `hist
      ensures Valid()
      ensures State() == Collector.JournalAndSend(old(State()), id, a, Reserved(old(nonces), a.from, pending), raw, tx)
    {
      hide QueueOf, IsId, Reserved, Advance, SetFate, Sent;
      var nonce := ReserveNonce(a.from, pending);
      Save(id, collections[id].(attempt := Some(a.(nonce := Some(nonce), raw := Some(raw), tx := Some(tx)))));
      if a.scope in locks && locks[a.scope].key == a.key {
        locks := locks[a.scope := Lock(a.key, Some(nonce), Some(tx))];
      }
      records := records[a.key := Broadcast(tx)];
      Resolve(id, Journaled(nonce, raw, tx));
      Resend(id, raw, nonce);
    }

    /** resume after the receipt read. */
    method Resumed(id: Id, receipt: Receipt)
      requires Valid() && id in workers && workers[id].Resuming? && id in collections
      requires var a := workers[id].attempt; a.raw.Some? && a.nonce.Some? && a.tx.Some?
      modifies `collections, `due, `locks, `records, `workers, `hist
      ensures Valid() && State() == ResumeDone(old(State()), id, old(workers[id].attempt), receipt)
    {
      hide QueueOf, IsId, At, Collector.Settle, Collector.Fail, Sent;
      var a := workers[id].attempt;
      match receipt {
        case Unreadable(e) => Suspend(id, Returned(Some(e)));
        case Pending =>
          Resend(id, a.raw.value, a.nonce.value);
          Suspend(id, Sending);
        case Settled =>
          Settle(id, a, a.tx.value);
          Suspend(id, Returned(None));
        case Failed =>
          Fail(id, a, a.tx.value);
          Suspend(id, Returned(None));
      }
    }

    /** Bookkeeping of a repeated send. */
    ghost method Resend(id: Id, raw: string, nonce: nat)
      requires Valid()
      modifies `hist
      ensures Valid() && State() == Sent(old(State()), id, raw, nonce)
    {
      hide QueueOf, IsId;
      hist := Sent(State(), id, raw, nonce).hist;
    }

    method Settle(id: Id, a: Attempt, tx: string)
      requires Valid() && id in collections
      modifies `collections, `due, `locks, `records
      ensures Valid() && State() == Collector.Settle(old(State()), id, a, tx)
    {
      hide QueueOf, IsId, Reconcile;
      records := records[a.key := SettledTx(tx)];
      ReleaseScope(a.scope, a.key);
      var c := Reconcile(collections[id], a.target);
      Save(id, c.(oldestLegacy := None, attempt := None));
    }

    method Fail(id: Id, a: Attempt, tx: string)
      requires Valid() && id in collections
      modifies `collections, `due, `locks, `records
      ensures Valid() && State() == Collector.Fail(old(State()), id, a, tx)
    {
      hide QueueOf, IsId;
      records := records[a.key := FailedTx(tx)];
      ReleaseScope(a.scope, a.key);
      Save(id, collections[id].(attempt := None, force := true, halted := true,
                                error := Some("claim_reverted_manual_retry_required")));
    }

    /** The epilogue of the spawned future, then the guard's drop. */
    method Finish(id: Id, now: u64)
      requires Valid() && id in workers && workers[id].Returned?
      modifies `collections, `due, `busy, `workers, `timer, `hist
      ensures Valid() && State() == WorkerFinish(old(State()), id, now)
    {
      hide QueueOf, IsId, Arm, Live, Amount, SatAdd;
      if id in collections {
        var c := collections[id];
        if workers[id].error.Some? {
          c := c.(error := workers[id].error);
        }
        var sleeps := c.attempt.None? && !c.force && id in channels
          && Amount(channels[id].charged) <= c.claimed && !Live(channels[id].pending, Seconds(now));
        c := c.(nextDue := if sleeps then U64_MAX else SatAdd(Seconds(now), INTERVAL, U64_MAX));
        Save(id, c);
      }
      busy, workers := busy - {id}, workers - {id};
      StartTimer(now);
    }

    /** post_upgrade: the stable maps survive, everything else starts over. */
    method Upgrade(now: u64)
      requires Valid()
      modifies `busy, `workers, `timer, `hist
      ensures Valid() && State() == Collector.Upgrade(old(State()), now)
    {
      hide QueueOf, IsId, Arm;
      busy, workers, timer := {}, map[], None;
      StartTimer(now);
    }
  }
}
