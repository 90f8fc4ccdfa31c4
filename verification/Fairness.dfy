/** Nobody starves: a collection that is due is started after finitely many dispatches, because the
    collections ahead of it only become fewer (rust/facilitator/src/auto_claim.rs:452-497). */
module Fairness {
  import opened Wrappers
  import opened Decimal
  import opened Batch
  import opened Collector
  import opened Frames
  import opened ChargeSteps
  import opened MessageSteps
  import opened Runs
  import opened Drained

  // ---- who is ahead --------------------------------------------------------------------

  /** The collections nobody works on that come before `id` in the queue. */
  ghost function Ahead(s: State, id: Id): set<Id>
    requires id in s.cols
  {
    set x | x in s.cols && x !in s.workers && Before(s.cols, x, id)
  }

  /** Whoever is idle afterwards was so before with the same due time, or comes after `bound`. */
  ghost predicate Settles(s: State, t: State, x: Id, bound: nat) {
    x in t.cols && x !in t.workers ==>
      t.cols[x].nextDue > bound || (x in s.cols && x !in s.workers && t.cols[x].nextDue == s.cols[x].nextDue)
  }

  ghost predicate Orderly(s: State, t: State, bound: nat) {
    forall x :: Settles(s, t, x, bound)
  }

  lemma OrderlySelf(s: State, bound: nat)
    ensures Orderly(s, s, bound)
  {
  }

  lemma OrderlyTransitive(s: State, mid: State, t: State, bound: nat)
    requires Orderly(s, mid, bound) && Orderly(mid, t, bound)
    ensures Orderly(s, t, bound)
  {
    forall x ensures Settles(s, t, x, bound) {
      assert Settles(s, mid, x, bound) && Settles(mid, t, x, bound);
    }
  }

  lemma ArmOrderly(s: State, mid: State, now: u64, bound: nat)
    requires Orderly(s, mid, bound)
    ensures Orderly(s, Arm(mid, now), bound)
  {
    hide Arm;
    ArmRest(mid, now);
    ArmQuiet(mid, now);
    forall x ensures Settles(s, Arm(mid, now), x, bound) {
      assert Settles(s, mid, x, bound);
    }
  }

  lemma SaveOrderly(s: State, i: Id, c: Collection, bound: nat)
    requires c.nextDue > bound || (i in s.cols && c.nextDue == s.cols[i].nextDue)
    ensures Orderly(s, Save(s, i, c), bound)
  {
  }

  lemma SwitchOrderly(s: State, receiver: Addr, value: bool, now: u64, accept: bool, bound: nat)
    requires Seconds(now) > bound
    ensures Orderly(s, SetEnabled(s, receiver, value, now, accept), bound)
  {
    hide Targets, NewCollection, Arm, Seconds;
    ArmOrderly(s, Switch(s, receiver, value, now), now, bound);
  }

  lemma UpdateOrderly(s: State, e: Event, bound: nat)
    requires e.DoUpdate? && Seconds(e.now) > bound
    ensures Orderly(s, UpdateChannel(s, e.id, e.expected, e.next, e.now, e.feeNow, e.signerOk, e.accept), bound)
  {
    hide BeforeUpdate, AfterUpdate, Accepted, NextRevision, Orderly, Seconds;
    var current := Stored(s, e.id);
    OrderlySelf(s, bound);
    BeforeOrderly(s, e.id, current, e.next.(channelId := e.id), e.now, e.feeNow, e.signerOk, bound);
    var s1 := BeforeUpdate(s, e.id, current, e.next.(channelId := e.id), e.now, e.feeNow, e.signerOk).0;
    var stored := e.next.(channelId := e.id, revision := NextRevision(current));
    AfterOrderly(s1, s1.channels[e.id := stored], e.id, current, stored, e.now, bound);
    OrderlyTransitive(s, s1, AfterUpdate(s1.(channels := s1.channels[e.id := stored]), e.id, current, stored, e.now), bound);
  }

  lemma BeforeOrderly(s: State, i: Id, current: Option<Channel>, next: Channel, now: u64, fee: Option<nat>, signerOk: bool,
                      bound: nat)
    requires Seconds(now) > bound
    ensures Orderly(s, BeforeUpdate(s, i, current, next, now, fee, signerOk).0, bound)
  {
    hide Arm, StopReason, Enabled, CreatesPending, NewCollection, Refresh, Seconds, Orderly, Register;
    OrderlySelf(s, bound);
    if i in s.cols {
      RefreshOrderly(s, i, now, bound);
    } else {
      var r := Register(s, i, NewCollection(next, now));
      RegisterOrderly(s, i, next, now, bound);
      RegisterColumns(s, i, NewCollection(next, now));
      ArmOrderly(s, r, now, bound);
      ArmKeepsCols(r, now);
      RefreshOrderly(Arm(r, now), i, now, bound);
      OrderlyTransitive(s, Arm(r, now), Refresh(Arm(r, now), i, now), bound);
    }
  }

  lemma RegisterOrderly(s: State, i: Id, next: Channel, now: u64, bound: nat)
    requires Seconds(now) > bound
    ensures Orderly(s, Register(s, i, NewCollection(next, now)), bound)
  {
    hide Amount, Seconds;
  }

  lemma RefreshOrderly(s: State, i: Id, now: u64, bound: nat)
    requires i in s.cols && Seconds(now) > bound
    ensures Orderly(s, Refresh(s, i, now), bound)
  {
    hide Arm, IsStale, Seconds, Orderly;
    OrderlySelf(s, bound);
    var c := s.cols[i].(monitoredAt := None, nextDue := Seconds(now));
    SaveOrderly(s, i, c, bound);
    ArmOrderly(s, Save(s, i, c), now, bound);
  }

  lemma AfterOrderly(s: State, channels: map<Id, Channel>, i: Id, current: Option<Channel>, next: Channel, now: u64,
                     bound: nat)
    requires Seconds(now) > bound
    ensures Orderly(s, AfterUpdate(s.(channels := channels), i, current, next, now), bound)
  {
    hide Arm, Rise, Enabled, Live, Seconds;
    var s2 := s.(channels := channels);
    if i in s.cols {
      ArmOrderly(s, Note(s2, i, current, next, now), now, bound);
    }
  }

  lemma RequestOrderly(s: State, i: Id, now: u64, bound: nat)
    requires Seconds(now) > bound
    ensures Orderly(s, RequestClaim(s, i, now), bound)
  {
    hide Arm, Seconds, Orderly;
    OrderlySelf(s, bound);
    if i in s.cols {
      var c := s.cols[i].(force := true, halted := false, nextDue := Seconds(now));
      SaveOrderly(s, i, c, bound);
      ArmOrderly(s, Save(s, i, c), now, bound);
    }
  }

  /** A worker that ends puts its collection behind. */
  lemma FinishOrderly(s: State, i: Id, now: u64, bound: nat)
    requires i in s.workers && s.workers[i].Returned? && Seconds(now) > bound
    ensures Orderly(s, WorkerFinish(s, i, now), bound)
  {
    hide Arm, Live, Amount;
    var done := s.(workers := s.workers - {i});
    if i in s.cols {
      ArmOrderly(s, Save(done, i, Rested(s, i, now)), now, bound);
    } else {
      ArmOrderly(s, done, now, bound);
    }
  }

  lemma FireOrderly(s: State, chosen: set<Id>, now: u64, bound: nat)
    ensures Orderly(s, Fire(s, chosen, now), bound)
  {
    hide Arm;
    if s.cols != map[] {
      ArmOrderly(s, s.(timer := None, workers := s.workers + Spawned(chosen)), now, bound);
    }
  }

  lemma PathOrderly(s: State, t: State, i: Id, bound: nat)
    requires WorkerPath(s, t, i) && i in s.workers
    ensures Orderly(s, t, bound)
  {
    hide WorkerStep, Orderly;
    var mid :| Between(s, mid, t, i);
    StepOrderly(s, mid, i, bound);
    StepOrderly(mid, t, i, bound);
    OrderlyTransitive(s, mid, t, bound);
  }

  lemma StepOrderly(s: State, t: State, i: Id, bound: nat)
    requires WorkerStep(s, t, i) && i in s.workers
    ensures Orderly(s, t, bound) && i in t.workers
  {
    hide Evolves;
    assert t.workers.Keys == s.workers.Keys;
    assert forall x :: x in t.workers.Keys <==> x in s.workers.Keys;
  }

  lemma DeleteOrderly(s: State, e: Event, bound: nat)
    requires e.DoDelete?
    ensures Orderly(s, DeleteChannel(s, e.id, e.expected, e.now, e.accept), bound)
  {
    hide Live, Provisional, MayDelete;
  }

  lemma OutsideOrderly(s: State, e: Event, bound: nat)
    requires Ready(s, e) && IsLedgerEvent(e)
    ensures Orderly(s, Step(s, e), bound)
  {
    hide Step;
    OutsideFrame(s, e);
  }

  // ---- clocks --------------------------------------------------------------------------

  function ClockOf(e: Event): Option<u64> {
    match e
    case DoSetEnabled(_, _, now, _) => Some(now)
    case DoRequestClaim(_, now) => Some(now)
    case DoUpdate(_, _, _, now, _, _, _) => Some(now)
    case DoDelete(_, _, now, _) => Some(now)
    case DoFire(_, now) => Some(now)
    case DoStart(_, now, _) => Some(now)
    case DoMonitor(_, now, _, _, _) => Some(now)
    case DoFinish(_, now) => Some(now)
    case DoUpgrade(now) => Some(now)
    case _ => None
  }

  /** The event's clock has passed `bound`. */
  predicate After(e: Event, bound: nat) {
    ClockOf(e).Some? ==> Seconds(ClockOf(e).value) > bound
  }

  lemma EventOrderly(s: State, e: Event, bound: nat)
    requires Inv(s) && Ready(s, e) && After(e, bound) && !e.DoUpgrade?
    ensures Orderly(s, Step(s, e), bound)
  {
    hide Inv, Orderly, SetEnabled, RequestClaim, UpdateChannel, DeleteChannel, Fire, WorkerFinish, WorkerStart,
      MonitorOutcall, MonitorDone, PrepareDone, ResumeDone, WorkerPath, Earliest, Norm, Seconds, Deposit, ManualCharge,
      ManualRefund, ManualNonce, ManualRollback, ManualAcquire, Release;
    if IsWorkerEvent(e) {
      InvJournal(s);
      WorkerEventIsPath(s, e);
      PathOrderly(s, Step(s, e), e.id, bound);
    } else if e.DoSetEnabled? {
      SwitchOrderly(s, e.receiver, e.value, e.now, e.accept, bound);
    } else if e.DoUpdate? {
      UpdateOrderly(s, e, bound);
    } else if e.DoDelete? {
      DeleteOrderly(s, e, bound);
    } else if e.DoRequestClaim? {
      RequestOrderly(s, e.id, e.now, bound);
    } else if e.DoFinish? {
      FinishOrderly(s, e.id, e.now, bound);
    } else if e.DoFire? {
      FireOrderly(s, e.chosen, e.now, bound);
    } else {
      OutsideOrderly(s, e, bound);
    }
  }

  /** Nobody gets ahead of a collection that is due. */
  lemma AheadShrinks(s: State, t: State, id: Id)
    requires id in s.cols && id in t.cols && t.cols[id] == s.cols[id] && Orderly(s, t, s.cols[id].nextDue)
    ensures Ahead(t, id) <= Ahead(s, id)
  {
    hide LexLess;
    forall x | x in Ahead(t, id) ensures x in Ahead(s, id) {
      assert Settles(s, t, x, s.cols[id].nextDue);
    }
  }

  // ---- dispatches ----------------------------------------------------------------------

  /** The event neither names the collection nor drops the workers, and its clock has passed the due time. */
  predicate Quietly(s: State, e: Event, id: Id)
    requires id in s.cols
  {
    !Names(s, e, id) && !e.DoUpgrade? && After(e, s.cols[id].nextDue)
  }

  lemma IdleUntouched(s: State, e: Event, id: Id)
    requires Inv(s) && Ready(s, e) && id in s.cols && id !in s.workers && !Names(s, e, id) && !e.DoUpgrade?
    requires e.DoFire? ==> id !in e.chosen
    ensures Untouched(s, Step(s, e), id)
  {
    hide Inv, Untouched, SetEnabled, RequestClaim, UpdateChannel, DeleteChannel, Fire, WorkerFinish, WorkerStart,
      MonitorOutcall, MonitorDone, PrepareDone, ResumeDone, Earliest, Norm, Targets, Deposit, ManualCharge, ManualRefund,
      ManualNonce, ManualRollback, ManualAcquire, Release, At;
    if IsWorkerEvent(e) {
      SegmentUntouched(s, e, id);
    } else if e.DoSetEnabled? {
      SwitchUntouched(s, e.receiver, e.value, e.now, e.accept, id);
    } else if e.DoUpdate? {
      UpdateUntouched(s, e, id);
    } else if e.DoDelete? {
      DeleteUntouched(s, e, id);
    } else if e.DoRequestClaim? {
      RequestUntouched(s, e.id, e.now, id);
    } else if e.DoFinish? {
      FinishUntouched(s, e.id, e.now, id);
    } else if e.DoFire? {
      SkippedUntouched(s, e.chosen, e.now, id);
    } else {
      OutsideUntouched(s, e, id);
    }
  }

  lemma SkippedUntouched(s: State, chosen: set<Id>, now: u64, id: Id)
    requires id in s.cols && id !in s.workers && id !in chosen
    ensures Untouched(s, Fire(s, chosen, now), id)
  {
    hide Arm;
    ArmUntouched(s, s.(timer := None, workers := s.workers + Spawned(chosen)), now, id);
  }

  lemma Spawns(s: State, chosen: set<Id>, now: u64, x: Id)
    requires s.cols != map[] && x in chosen
    ensures x in Fire(s, chosen, now).workers
  {
    hide Arm;
    ArmQuiet(s.(timer := None, workers := s.workers + Spawned(chosen)), now);
  }

  /** A dispatch with a free slot starts the due collection, or one ahead of it. */
  lemma DispatchServes(s: State, e: Event, id: Id)
    requires Ready(s, e) && e.DoFire? && id in s.cols && id !in s.workers && id !in e.chosen
    requires s.cols[id].nextDue <= Seconds(e.now) && Capacity(s) > 0
    ensures exists x :: x in e.chosen && x in Ahead(s, id) && x in Step(s, e).workers
  {
    hide Fire, Before, Capacity, Seconds;
    assert id in DueIdle(s, e.now);
    NotAll(DueIdle(s, e.now), e.chosen, id);
    var x :| x in e.chosen;
    assert Before(s.cols, x, id);
    Spawns(s, e.chosen, e.now, x);
  }

  lemma NotAll(all: set<Id>, some: set<Id>, id: Id)
    requires some <= all && id in all && id !in some
    ensures |some| < |all|
  {
    assert |all - {id}| == |all| - 1;
    assert some <= all - {id};
    SubsetSize(some, all - {id});
  }

  lemma OneFewer(a: set<Id>, b: set<Id>, x: Id)
    requires a <= b && x in b && x !in a
    ensures |a| < |b|
  {
    NotAll(b, a, x);
  }

  // ---- runs ----------------------------------------------------------------------------

  /** Dispatches with a free slot along a run. */
  ghost function FreeDispatches(s: State, events: seq<Event>): nat
    requires IsRun(s, events)
    decreases |events|
  {
    if events == [] then 0
    else (if events[0].DoFire? && Capacity(s) > 0 then 1 else 0) + FreeDispatches(Step(s, events[0]), events[1..])
  }

  /** Until the collection is started, every event of the run is quiet for it. */
  ghost predicate QuietUntilStarted(s: State, events: seq<Event>, id: Id)
    requires IsRun(s, events)
    decreases |events|
  {
    events != [] && id in s.cols && !StartsNow(events[0], id) ==>
      Quietly(s, events[0], id) && QuietUntilStarted(Step(s, events[0]), events[1..], id)
  }

  predicate StartsNow(e: Event, id: Id) {
    e.DoFire? && id in e.chosen
  }

  lemma QuietStep(s: State, e: Event, id: Id)
    requires Inv(s) && Ready(s, e) && id in s.cols && id !in s.workers && !StartsNow(e, id) && Quietly(s, e, id)
    ensures var t := Step(s, e);
      && id in t.cols && id !in t.workers && t.cols[id] == s.cols[id] && Ahead(t, id) <= Ahead(s, id)
      && |Ahead(t, id)| + (if e.DoFire? && Capacity(s) > 0 then 1 else 0) <= |Ahead(s, id)|
  {
    hide Inv, Ready, Step, Ahead, Orderly, Capacity, Seconds, Names;
    var t := Step(s, e);
    IdleUntouched(s, e, id);
    EventOrderly(s, e, s.cols[id].nextDue);
    AheadShrinks(s, t, id);
    if e.DoFire? && Capacity(s) > 0 {
      DispatchServes(s, e, id);
      var x :| x in e.chosen && x in Ahead(s, id) && x in t.workers;
      BusyNotAhead(t, id, x);
      OneFewer(Ahead(t, id), Ahead(s, id), x);
    } else {
      SubsetSize(Ahead(t, id), Ahead(s, id));
    }
  }

  lemma BusyNotAhead(t: State, id: Id, x: Id)
    requires id in t.cols && x in t.workers
    ensures x !in Ahead(t, id)
  {
  }

  /** Nobody starves. Take an idle collection whose due time all clocks of the run have passed, and a run that
      neither names it nor upgrades the canister: if the run holds more dispatches with a free slot than
      there are idle collections ahead of it, one of them starts it. */
  lemma {:induction false} DueIsServed(s: State, events: seq<Event>, id: Id)
    requires Inv(s) && IsRun(s, events) && id in s.cols && id !in s.workers && QuietUntilStarted(s, events, id)
    requires FreeDispatches(s, events) > |Ahead(s, id)|
    ensures exists i :: 0 <= i < |events| && StartsNow(events[i], id)
    decreases |events|
  {
    hide Inv, Ready, Step, Ahead, Quietly, StartsNow, Capacity;
    if events != [] {
      if StartsNow(events[0], id) {
      } else {
        QuietStep(s, events[0], id);
        StepKeepsInv(s, events[0]);
        DueIsServed(Step(s, events[0]), events[1..], id);
        var i :| 0 <= i < |events[1..]| && StartsNow(events[1..][i], id);
        assert StartsNow(events[i + 1], id);
      }
    }
  }
}
