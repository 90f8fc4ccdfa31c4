/** The class against the theorems: whatever event comes, the handler makes the step, and the state stays
    one that a run of the transition system reaches. */
module Canister {
  import opened Wrappers
  import opened Decimal
  import opened Keys
  import opened Collector
  import opened Frames
  import opened ChargeSteps
  import opened Runs
  import opened Scripts
  import opened DueQueue
  import opened AutoClaim

  // ---- the choice of a dispatch --------------------------------------------------------

  lemma {:induction false} LexLessOneWay(a: string, b: string)
    requires LexLess(a, b)
    ensures !LexLess(b, a)
  {
    if a != [] && b != [] && a[0] == b[0] {
      LexLessOneWay(a[1..], b[1..]);
    }
  }

  lemma SameSize(a: set<Id>, b: set<Id>)
    requires a <= b && |a| == |b|
    ensures a == b
  {
    assert b == a + (b - a) && |b| == |a| + |b - a|;
  }

  lemma SomeoneElse(a: set<Id>, b: set<Id>)
    requires |a| == |b| && a != b
    ensures exists x :: x in a && x !in b
  {
    if a <= b {
      SameSize(a, b);
    }
  }

  /** Due order is total, so there is only one earliest choice. */
  lemma EarliestIsUnique(cols: map<Id, Collection>, eligible: set<Id>, a: set<Id>, b: set<Id>, k: nat)
    requires eligible <= cols.Keys && Earliest(cols, eligible, a, k) && Earliest(cols, eligible, b, k)
    ensures a == b
  {
    hide LexLess;
    if a != b {
      SomeoneElse(a, b);
      SomeoneElse(b, a);
      var x :| x in a && x !in b;
      var y :| y in b && y !in a;
      assert Before(cols, x, y) && Before(cols, y, x);
      if LexLess(x, y) {
        LexLessOneWay(x, y);
      }
      assert false;
    }
  }

  lemma DueInMap(s: State, now: u64)
    ensures DueIdle(s, now) <= s.cols.Keys
  {
  }

  // ---- events --------------------------------------------------------------------------

  /** Any message, timer firing, worker segment, epilogue or upgrade, in any reachable state: the handler
      makes the step of the transition system, and the new state is reachable again. What prepare and
      resume unwrap is there. */
  method Perform(f: Facilitator, e: Event)
    requires f.Valid() && Reachable(f.State()) && Ready(f.State(), e)
    requires !IsLedgerEvent(e) && (e.DoUpdate? ==> IsId(e.id))
    modifies f
    ensures f.Valid() && f.State() == Step(old(f.State()), e) && Reachable(f.State())
  {
    hide Reachable, Earliest, DueIdle, Capacity, SetEnabled, RequestClaim, UpdateChannel, DeleteChannel, Fire, WorkerStart,
      MonitorOutcall, MonitorDone, PrepareDone, ResumeDone, WorkerFinish, Upgrade, QueueOf, IsId, Norm;
    Then(f.State(), e);
    if IsWorkerEvent(e) {
      PerformSegment(f, e);
      return;
    }
    match e
    case DoSetEnabled(receiver, value, now, accept) => f.SetEnabled(receiver, value, now, accept);
    case DoRequestClaim(id, now) => f.RequestClaim(id, now);
    case DoUpdate(id, expected, next, now, feeNow, signerOk, accept) =>
      f.UpdateChannel(id, expected, next, now, feeNow, signerOk, accept);
    case DoDelete(id, expected, now, accept) => f.DeleteChannel(id, expected, now, accept);
    case DoFire(chosen, now) =>
      ghost var s := f.State();
      ghost var started := f.Fire(now);
      DueInMap(s, now);
      EarliestIsUnique(s.cols, DueIdle(s, now), started, chosen, Capacity(s));
    case DoFinish(id, now) => f.Finish(id, now);
    case DoUpgrade(now) => f.Upgrade(now);
  }

  /** The segments of a worker. */
  method PerformSegment(f: Facilitator, e: Event)
    requires f.Valid() && Reachable(f.State()) && Ready(f.State(), e) && IsWorkerEvent(e)
    modifies f
    ensures f.Valid() && f.State() == Step(old(f.State()), e)
  {
    hide Reachable, WorkerStart, MonitorOutcall, MonitorDone, PrepareDone, ResumeDone, QueueOf, IsId;
    JournalNeverMissing(f.State(), e.id);
    match e
    case DoStart(id, now, config) => f.Start(id, now, config);
    case DoOutcall(id, cycles) => f.RecordMonitorOutcall(id, cycles);
    case DoMonitor(id, now, answer, sameNetwork, prep) => f.Monitored(id, now, answer, sameNetwork, prep);
    case DoPrepare(id, outcome) => f.Prepared(id, outcome);
    case DoResume(id, receipt) => f.Resumed(id, receipt);
    case DoSent(id) => f.Suspend(id, Returned(None));
  }

  /** A new canister, before anything happens. */
  method Install() returns (f: Facilitator)
    ensures f.Valid() && Reachable(f.State()) && fresh(f)
  {
    f := new Facilitator();
    EmptyReachable();
  }
}
