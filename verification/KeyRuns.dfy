/** Attempt keys over runs: distinct within one registration of a channel, and across registrations
    wherever the monitor's reading has caught up with what was claimed before. */
module KeyRuns {
  import opened Accounts
  import opened Collector
  import opened Charges
  import opened Journal
  import opened ChargeSteps
  import opened Scheduler
  import opened Sequences
  import opened Runs
  import opened Scripts
  import opened Registrations
  import opened ChargeRuns
  import opened AttemptStarts

  /** The attempts of a channel since it was last registered have pairwise different keys. */
  lemma KeysDifferWithinRegistration(s: State, id: Id, m: nat, n: nat)
    requires Reachable(s) && id in s.cols && id in s.hist.birth
    requires s.hist.birth[id] <= m < n < |s.hist.log| && Of(s.hist.log, m, id) && Of(s.hist.log, n, id)
    ensures s.hist.log[m].key != s.hist.log[n].key
  {
    hide JournalInv, ChargesInv, SchedInv, LedgerInv, Reachable;
    ReachableInv(s);
    assert KeysOk(s, id);
  }

  // ---- what a registration leaves with -------------------------------------------------

  /** The claimed total of a collection as a step finds it, the step's own reading included. */
  function LastClaimed(c: Collection, e: Event): nat {
    if e.DoMonitor? && e.answer.Ok? then PaidSoFar(c, e.answer.value) else c.claimed
  }

  ghost function Leaving(s: State, e: Event, id: Id, left: nat): nat
    requires Ready(s, e)
  {
    if id in s.cols && id !in Step(s, e).cols then Larger(left, LastClaimed(s.cols[id], e)) else left
  }

  /** The highest claimed total any registration of the channel left the map with, along a run. */
  ghost function LeftAfter(s: State, events: seq<Event>, id: Id, left: nat): nat
    requires IsRun(s, events)
    decreases |events|
  {
    if events == [] then left else LeftAfter(Step(s, events[0]), events[1..], id, Leaving(s, events[0], id, left))
  }

  /** Some run from the empty canister ends here, and `left` is what the channel's registrations left with. */
  ghost predicate Reached(s: State, id: Id, left: nat) {
    exists events :: IsRun(Empty, events) && Exec(Empty, events) == s && LeftAfter(Empty, events, id, 0) == left
  }

  // ---- targets of earlier registrations ------------------------------------------------

  /** Entry `n` is an attempt of the registration that stands. */
  ghost predicate Standing(s: State, id: Id, n: nat) {
    id in s.cols && id in s.hist.birth && s.hist.birth[id] <= n
  }

  /** What an attempt asked for is still charged, or was paid when its registration left. */
  ghost predicate TargetsPaid(s: State, id: Id, left: nat) {
    forall n :: 0 <= n < |s.hist.log| && Of(s.hist.log, n, id) ==>
      s.hist.log[n].key.target <= (if Standing(s, id, n) then Charged(s, id) else left)
  }

  lemma SameOf(log: seq<Entry>, log': seq<Entry>, id: Id)
    requires SameKeys(log, log')
    ensures |log| == |log'|
    ensures forall n :: 0 <= n < |log| ==>
      (Of(log', n, id) <==> Of(log, n, id)) && (Of(log, n, id) ==> log'[n].key.target == log[n].key.target)
  {
  }

  /** No attempt begins: the registration stands, ends, begins, or there is none. */
  lemma PaidStays(s: State, t: State, id: Id, left: nat, left': nat)
    requires TargetsPaid(s, id, left) && SameKeys(s.hist.log, t.hist.log) && left <= left'
    requires id in s.cols && id in s.hist.birth ==> s.hist.birth[id] <= |s.hist.log|
    requires id in s.cols && id in t.cols ==>
      id in s.hist.birth && id in t.hist.birth && t.hist.birth[id] == s.hist.birth[id] && Charged(s, id) <= Charged(t, id)
    requires id in s.cols && id !in t.cols ==> Charged(s, id) <= left'
    requires id !in s.cols && id in t.cols ==> id in t.hist.birth && t.hist.birth[id] == |s.hist.log|
    ensures TargetsPaid(t, id, left')
  {
    hide Charged, SameKeys;
    SameOf(s.hist.log, t.hist.log, id);
    forall n | 0 <= n < |t.hist.log| && Of(t.hist.log, n, id)
      ensures t.hist.log[n].key.target <= (if Standing(t, id, n) then Charged(t, id) else left')
    {
      assert Of(s.hist.log, n, id);
    }
  }

  /** An attempt begins: its target is charged. */
  lemma PaidExtends(s: State, t: State, e: Entry, id: Id, left: nat)
    requires TargetsPaid(s, id, left) && t.hist.log == s.hist.log + [e]
    requires id in s.cols <==> id in t.cols
    requires id in s.cols ==>
      && id in s.hist.birth && id in t.hist.birth && t.hist.birth[id] == s.hist.birth[id] <= |s.hist.log|
      && Charged(s, id) <= Charged(t, id)
    requires e.key.Auto? && (e.key.id == id ==> id in t.cols && e.key.target <= Charged(t, id))
    ensures TargetsPaid(t, id, left)
  {
    hide Charged;
    forall n | 0 <= n < |t.hist.log| && Of(t.hist.log, n, id)
      ensures t.hist.log[n].key.target <= (if Standing(t, id, n) then Charged(t, id) else left)
    {
      if n < |s.hist.log| {
        assert t.hist.log[n] == s.hist.log[n] && Of(s.hist.log, n, id);
      }
    }
  }

  /** The registration stands before `n` entries end, and across a step. */
  lemma StandsAcross(s: State, e: Event, id: Id)
    requires Reachable(s) && Ready(s, e)
    ensures id in s.cols && id in s.hist.birth ==> s.hist.birth[id] <= |s.hist.log|
    ensures var t := Step(s, e);
      && (id in s.cols && id in t.cols ==>
            id in s.hist.birth && id in t.hist.birth && t.hist.birth[id] == s.hist.birth[id] && Charged(s, id) <= Charged(t, id))
      && (id !in s.cols && id in t.cols ==> id in t.hist.birth && t.hist.birth[id] == |s.hist.log|)
  {
    hide JournalInv, ChargesInv, SchedInv, LedgerInv, Reachable, Ready, Step, Charged;
    ReachableInv(s);
    if id in s.cols {
      assert KeysOk(s, id);
    }
    hide Inv;
    if id in Step(s, e).cols {
      RegistrationStands(s, e, id);
      if id in s.cols {
        ChargedGrows(s, e, id);
      }
    }
  }

  lemma StepKeepsPaid(s: State, e: Event, id: Id, left: nat)
    requires Reachable(s) && Ready(s, e) && TargetsPaid(s, id, left)
    ensures TargetsPaid(Step(s, e), id, Leaving(s, e, id, left))
  {
    hide Reachable, Ready, Step, Charged, TargetsPaid, Starts, FirstEntry, SameKeys, PaidSoFar;
    var t := Step(s, e);
    StandsAcross(s, e, id);
    if id in s.cols && id !in t.cols {
      LeavesPaid(s, e, id, left);
    }
    if e.DoMonitor? && Starts(s, e) {
      AttemptStartsIff(s, e);
      FirstEntryIs(s, e);
      StaysPut(s, e, id);
      PaidExtends(s, t, FirstEntry(s, e), id, left);
    } else {
      if e.DoMonitor? {
        AttemptStartsIff(s, e);
        SameIsSame(s.hist.log);
      } else {
        OnlyMonitorStarts(s, e);
      }
      PaidStays(s, t, id, left, Leaving(s, e, id, left));
    }
  }

  lemma LeavesPaid(s: State, e: Event, id: Id, left: nat)
    requires Reachable(s) && Ready(s, e) && id in s.cols && id !in Step(s, e).cols
    ensures Charged(s, id) <= Leaving(s, e, id, left) && (e.DoMonitor? ==> e.id == id)
  {
    hide Reachable, Ready, Step, Charged;
    DrainSafety(s, e, id);
  }

  lemma FirstEntryIs(s: State, e: Event)
    requires e.DoMonitor? && Starts(s, e)
    ensures FirstEntry(s, e).key == Auto(e.id, Charged(s, e.id), s.cols[e.id].attemptSequence + 1)
    ensures e.answer.Ok? && e.id in s.cols && PaidSoFar(s.cols[e.id], e.answer.value) < Charged(s, e.id)
  {
    hide PaidSoFar, Charged;
  }

  /** The segment that begins an attempt takes no collection in or out of the map. */
  lemma StaysPut(s: State, e: Event, id: Id)
    requires Reachable(s) && Ready(s, e) && e.DoMonitor? && e.id in s.cols && e.id in Step(s, e).cols
    ensures id in s.cols <==> id in Step(s, e).cols
  {
    hide JournalInv, SchedInv, KeysInv, LedgerInv, Reachable, MonitorDone, ChargesInv, WorkerPath;
    ReachableInv(s);
    if id in s.cols && id !in Step(s, e).cols {
      DrainSafety(s, e, id);
    }
    WorkerEventIsPath(s, e);
    PathBirths(s, Step(s, e), e.id, id);
  }

  lemma {:induction false} RunKeepsPaid(s: State, events: seq<Event>, id: Id, left: nat)
    requires Reachable(s) && IsRun(s, events) && TargetsPaid(s, id, left)
    ensures TargetsPaid(Exec(s, events), id, LeftAfter(s, events, id, left))
    decreases |events|
  {
    hide Reachable, Ready, Step, TargetsPaid, Leaving;
    if events != [] {
      StepKeepsPaid(s, events[0], id, left);
      Then(s, events[0]);
      RunKeepsPaid(Step(s, events[0]), events[1..], id, Leaving(s, events[0], id, left));
    }
  }

  lemma ReachedPaid(s: State, id: Id, left: nat)
    requires Reached(s, id, left)
    ensures Reachable(s) && TargetsPaid(s, id, left)
  {
    hide IsRun, Exec, LeftAfter, Step, Ready;
    var events :| IsRun(Empty, events) && Exec(Empty, events) == s && LeftAfter(Empty, events, id, 0) == left;
    EmptyReachable();
    hide Reachable;
    RunKeepsPaid(Empty, events, id, 0);
  }

  /** A new attempt has a key never used before if the claimed total, the monitor's reading included, is at
      least the highest total with which a registration of the channel ever left: what was asked for
      earlier was paid by then, and the new target is above the reading. */
  lemma KeyIsFresh(s: State, e: Event, left: nat)
    requires e.DoMonitor? && Reached(s, e.id, left) && Ready(s, e) && Starts(s, e)
    requires left <= PaidSoFar(s.cols[e.id], e.answer.value)
    ensures forall n :: 0 <= n < |s.hist.log| ==> s.hist.log[n].key != FirstEntry(s, e).key
  {
    hide JournalInv, ChargesInv, SchedInv, LedgerInv, Reachable, Reached, Starts, FirstEntry, Charged, PaidSoFar, Ready;
    ReachedPaid(s, e.id, left);
    ReachableInv(s);
    FirstEntryIs(s, e);
    assert KeysOk(s, e.id);
    forall n | 0 <= n < |s.hist.log| ensures s.hist.log[n].key != FirstEntry(s, e).key {
      if Of(s.hist.log, n, e.id) {
        assert Standing(s, e.id, n) || s.hist.log[n].key.target <= left;
      }
    }
  }

  // ---- whole runs ----------------------------------------------------------------------

  /** Whenever an attempt of the channel begins, the reading has caught up with what earlier
      registrations left with. */
  ghost predicate ReadingsCatchUp(s: State, events: seq<Event>, id: Id, left: nat)
    requires IsRun(s, events)
    decreases |events|
  {
    events != [] ==>
      && (events[0].DoMonitor? && events[0].id == id && Starts(s, events[0]) ==>
            left <= PaidSoFar(s.cols[id], events[0].answer.value))
      && ReadingsCatchUp(Step(s, events[0]), events[1..], id, Leaving(s, events[0], id, left))
  }

  ghost predicate DistinctKeys(log: seq<Entry>, id: Id) {
    forall m, n :: 0 <= m < n < |log| && Of(log, m, id) && Of(log, n, id) ==> log[m].key != log[n].key
  }

  lemma DistinctStays(log: seq<Entry>, log': seq<Entry>, id: Id)
    requires DistinctKeys(log, id) && SameKeys(log, log')
    ensures DistinctKeys(log', id)
  {
    hide SameKeys;
    SameOf(log, log', id);
    forall m, n | 0 <= m < n < |log'| && Of(log', m, id) && Of(log', n, id) ensures log'[m].key != log'[n].key {
      KeyAt(log, log', m);
      KeyAt(log, log', n);
    }
  }

  lemma KeyAt(log: seq<Entry>, log': seq<Entry>, m: nat)
    requires SameKeys(log, log') && m < |log|
    ensures |log| == |log'| && log'[m].key == log[m].key
  {
  }

  lemma DistinctExtends(log: seq<Entry>, e: Entry, id: Id)
    requires DistinctKeys(log, id)
    requires e.key.Auto? && e.key.id == id ==> forall n :: 0 <= n < |log| ==> log[n].key != e.key
    ensures DistinctKeys(log + [e], id)
  {
    var log' := log + [e];
    assert forall n :: 0 <= n < |log| ==> log'[n] == log[n] && (Of(log', n, id) <==> Of(log, n, id));
  }

  lemma StepKeepsDistinct(s: State, e: Event, id: Id, left: nat)
    requires Reached(s, id, left) && Ready(s, e) && DistinctKeys(s.hist.log, id)
    requires e.DoMonitor? && e.id == id && Starts(s, e) ==> left <= PaidSoFar(s.cols[id], e.answer.value)
    ensures DistinctKeys(Step(s, e).hist.log, id)
  {
    hide Reached, Reachable, Ready, Step, Starts, FirstEntry, PaidSoFar, DistinctKeys, SameKeys, Charged;
    assert Reachable(s) by { ReachedPaid(s, id, left); }
    if e.DoMonitor? {
      AttemptStartsIff(s, e);
      if Starts(s, e) {
        FirstEntryIs(s, e);
        if e.id == id {
          KeyIsFresh(s, e, left);
        }
        DistinctExtends(s.hist.log, FirstEntry(s, e), id);
      }
    } else {
      OnlyMonitorStarts(s, e);
      DistinctStays(s.hist.log, Step(s, e).hist.log, id);
    }
  }

  /** Along any run on which the readings catch up, no two attempts of the channel ever share a key,
      however often it was registered. */
  lemma {:induction false} KeysNeverRepeat(s: State, events: seq<Event>, id: Id, left: nat)
    requires Reached(s, id, left) && IsRun(s, events) && ReadingsCatchUp(s, events, id, left)
    requires DistinctKeys(s.hist.log, id)
    ensures DistinctKeys(Exec(s, events).hist.log, id)
    decreases |events|
  {
    hide Reached, Ready, Step, Starts, DistinctKeys, Leaving;
    if events != [] {
      StepKeepsDistinct(s, events[0], id, left);
      ThenReached(s, events[0], id, left);
      KeysNeverRepeat(Step(s, events[0]), events[1..], id, Leaving(s, events[0], id, left));
    }
  }

  // ---- longer runs ---------------------------------------------------------------------

  lemma {:induction false} LeftExtends(s: State, events: seq<Event>, e: Event, id: Id, left: nat)
    requires IsRun(s, events) && Ready(Exec(s, events), e)
    ensures IsRun(s, events + [e]) && Exec(s, events + [e]) == Step(Exec(s, events), e)
    ensures LeftAfter(s, events + [e], id, left) == Leaving(Exec(s, events), e, id, LeftAfter(s, events, id, left))
    decreases |events|
  {
    hide Ready, Step, Leaving;
    RunExtends(s, events, e);
    if events == [] {
      assert events + [e] == [e];
      assert [e][1..] == [];
      assert LeftAfter(Step(s, e), [], id, Leaving(s, e, id, left)) == Leaving(s, e, id, left);
    } else {
      LeftExtends(Step(s, events[0]), events[1..], e, id, Leaving(s, events[0], id, left));
      assert (events + [e])[1..] == events[1..] + [e];
    }
  }

  lemma ThenReached(s: State, e: Event, id: Id, left: nat)
    requires Reached(s, id, left) && Ready(s, e)
    ensures Reached(Step(s, e), id, Leaving(s, e, id, left))
  {
    hide Ready, Step, IsRun, Exec, LeftAfter, Leaving;
    var events :| IsRun(Empty, events) && Exec(Empty, events) == s && LeftAfter(Empty, events, id, 0) == left;
    LeftExtends(Empty, events, e, id, 0);
  }
}
