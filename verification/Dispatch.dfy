/** Reading the due queue: the next wakeup, and which collections a dispatch starts. */
module Dispatch {
  import opened Wrappers
  import opened Decimal
  import opened Keys
  import opened Collector
  import opened DueQueue

  lemma SleepsOrWorks(cols: map<Id, Collection>, busy: set<Id>, key: string)
    requires Current(cols, key) && (IsNever(key) || KeyId(key) in busy)
    ensures !Wakes(cols, busy, KeyId(key))
  {
    hide DueKey, IsNever;
    KeyParts(cols[KeyId(key)].nextDue, KeyId(key));
  }

  /** The first `i` keys belong to sleepers and busy channels. */
  ghost predicate Passed(q: seq<string>, cols: map<Id, Collection>, busy: set<Id>, i: nat) {
    i <= |q| && forall j :: 0 <= j < i ==> Current(cols, q[j]) && (IsNever(q[j]) || KeyId(q[j]) in busy)
  }

  lemma PassedNone(q: seq<string>, cols: map<Id, Collection>, busy: set<Id>)
    ensures Passed(q, cols, busy, 0)
  {
  }

  lemma PassedOne(q: seq<string>, cols: map<Id, Collection>, busy: set<Id>, i: nat)
    requires Passed(q, cols, busy, i) && i < |q| && Current(cols, q[i]) && (IsNever(q[i]) || KeyId(q[i]) in busy)
    ensures Passed(q, cols, busy, i + 1)
  {
    hide Current, IsNever, KeyId;
  }

  lemma NoneWakes(q: seq<string>, cols: map<Id, Collection>, busy: set<Id>)
    requires QueueOf(q, cols)
    requires Passed(q, cols, busy, |q|)
    ensures NextWakeup(cols, busy) == None
  {
    hide DueKey, IsNever, NextWakeup, QueueOf, Current;
    forall id ensures !Wakes(cols, busy, id) {
      if id in cols {
        var n := PlaceOf(q, cols, id);
        SleepsOrWorks(cols, busy, q[n]);
      }
    }
  }

  lemma FoundLeast(q: seq<string>, cols: map<Id, Collection>, busy: set<Id>, i: nat)
    requires QueueOf(q, cols) && i < |q|
    requires Passed(q, cols, busy, i)
    requires Current(cols, q[i]) && !IsNever(q[i]) && KeyId(q[i]) !in busy
    ensures IsDigits(q[i][..20]) && NextWakeup(cols, busy) == Some(KeyTime(q[i]))
  {
    hide DueKey, IsNever, NextWakeup, QueueOf;
    var first := KeyId(q[i]);
    KeyParts(cols[first].nextDue, first);
    forall id | Wakes(cols, busy, id) ensures cols[first].nextDue <= cols[id].nextDue {
      NotBefore(q, cols, busy, i, id);
    }
    assert Wakes(cols, busy, first);
  }

  lemma NotBefore(q: seq<string>, cols: map<Id, Collection>, busy: set<Id>, i: nat, id: Id)
    requires QueueOf(q, cols) && i < |q| && Current(cols, q[i]) && Wakes(cols, busy, id)
    requires Passed(q, cols, busy, i)
    ensures cols[KeyId(q[i])].nextDue <= cols[id].nextDue
  {
    hide DueKey, IsNever, QueueOf, LexLess;
    var n := PlaceOf(q, cols, id);
    if n < i {
      SleepsOrWorks(cols, busy, q[n]);
    } else if i < n {
      QueueOrder(q, cols, i, n);
    }
  }

  // ---- dispatch ------------------------------------------------------------------------

  const WINDOW := 2 * CONCURRENCY

  /** The channels of the first `n` keys. */
  ghost function IdsOf(q: seq<string>, n: nat): set<Id>
    requires n <= |q| && forall i :: 0 <= i < |q| ==> |q[i]| >= 21
  {
    if n == 0 then {} else IdsOf(q, n - 1) + {KeyId(q[n - 1])}
  }

  lemma {:induction false} IdsAt(q: seq<string>, n: nat, id: Id)
    requires n <= |q| && forall i :: 0 <= i < |q| ==> |q[i]| >= 21
    ensures id in IdsOf(q, n) <==> exists i :: 0 <= i < n && KeyId(q[i]) == id
  {
    hide KeyId;
    if n > 0 {
      IdsAt(q, n - 1, id);
    }
  }

  lemma {:induction false} DistinctIds(q: seq<string>, cols: map<Id, Collection>, n: nat)
    requires QueueOf(q, cols) && n <= |q|
    ensures forall i :: 0 <= i < |q| ==> |q[i]| >= 21
    ensures |IdsOf(q, n)| == n
  {
    hide DueKey, LexLess, KeyId, Sorted;
    assert forall i :: 0 <= i < |q| ==> Current(cols, q[i]);
    if n > 0 {
      DistinctIds(q, cols, n - 1);
      IdsAt(q, n - 1, KeyId(q[n - 1]));
      forall i | 0 <= i < n - 1 ensures KeyId(q[i]) != KeyId(q[n - 1]) {
        QueueOrder(q, cols, i, n - 1);
      }
    }
  }

  /** The prefix of the queue a dispatch looks at: due keys, at most sixteen. */
  ghost predicate Window(q: seq<string>, n: nat, now: u64) {
    && n <= |q| && n <= WINDOW
    && (forall j :: 0 <= j < n ==> LexLeq(q[j], DueKey(Seconds(now), "~")))
    && (n < |q| && n < WINDOW ==> !LexLeq(q[n], DueKey(Seconds(now), "~")))
  }

  /** What a dispatch has started after looking at `i` of the window's keys. */
  ghost predicate Started(q: seq<string>, cols: map<Id, Collection>, busy: set<Id>, i: nat, chosen: set<Id>) {
    && i <= |q|
    && (forall j :: 0 <= j < i ==> Current(cols, q[j]) && (KeyId(q[j]) in busy || KeyId(q[j]) in chosen))
    && (forall id :: id in chosen ==> id !in busy && exists j :: 0 <= j < i && |q[j]| >= 21 && KeyId(q[j]) == id)
  }

  /** Keys in the window are due, and every due key outside it comes after sixteen others. */
  lemma DueAt(q: seq<string>, cols: map<Id, Collection>, j: nat, now: u64)
    requires QueueOf(q, cols) && j < |q| && IsId(KeyIdOf(q[j]))
    ensures Current(cols, q[j])
    ensures LexLeq(q[j], DueKey(Seconds(now), "~")) <==> cols[KeyId(q[j])].nextDue <= Seconds(now)
  {
    hide DueKey, LexLess, LexLeq, Sorted;
    assert Current(cols, q[j]);
    DueBound(cols[KeyId(q[j])].nextDue, KeyId(q[j]), Seconds(now));
  }

  function KeyIdOf(key: string): string {
    if |key| >= 21 then KeyId(key) else ""
  }

  lemma ChosenAreDue(s: State, q: seq<string>, i: nat, n: nat, chosen: set<Id>, now: u64)
    requires QueueOf(q, s.cols) && Window(q, n, now) && i <= n && Started(q, s.cols, s.workers.Keys, i, chosen)
    requires forall id :: id in s.cols ==> IsId(id)
    ensures chosen <= DueIdle(s, now)
  {
    hide DueKey, LexLess, LexLeq, Sorted, KeyId;
    forall id | id in chosen ensures id in DueIdle(s, now) {
      var j :| 0 <= j < i && |q[j]| >= 21 && KeyId(q[j]) == id;
      DueAt(q, s.cols, j, now);
    }
  }

  /** Whoever is due, idle and not started has its key after all that were looked at. */
  lemma Skipped(s: State, q: seq<string>, i: nat, chosen: set<Id>, b: Id, now: u64) returns (m: nat)
    requires QueueOf(q, s.cols) && Started(q, s.cols, s.workers.Keys, i, chosen)
    requires b in DueIdle(s, now) && b !in chosen
    ensures i <= m < |q| && KeyIdOf(q[m]) == b && |q[m]| >= 21
  {
    hide DueKey, LexLess, Sorted, KeyId;
    m := PlaceOf(q, s.cols, b);
    assert Current(s.cols, q[m]);
  }

  lemma ChosenComeFirst(s: State, q: seq<string>, i: nat, chosen: set<Id>, a: Id, b: Id, now: u64)
    requires QueueOf(q, s.cols) && Started(q, s.cols, s.workers.Keys, i, chosen)
    requires a in chosen && b in DueIdle(s, now) && b !in chosen
    ensures a in s.cols && Before(s.cols, a, b)
  {
    hide DueKey, LexLess, Sorted, KeyId, Before, DueIdle;
    var j :| 0 <= j < i && |q[j]| >= 21 && KeyId(q[j]) == a;
    var m := Skipped(s, q, i, chosen, b, now);
    QueueOrder(q, s.cols, j, m);
  }

  /** Truncation loses nothing: sixteen keys hold enough idle channels for eight slots. */
  lemma WindowSuffices(s: State, q: seq<string>, n: nat, chosen: set<Id>, now: u64)
    requires QueueOf(q, s.cols) && Window(q, n, now) && Started(q, s.cols, s.workers.Keys, n, chosen)
    requires forall id :: id in s.cols ==> IsId(id)
    requires |chosen| < Capacity(s)
    ensures DueIdle(s, now) <= chosen
  {
    hide DueKey, LexLess, LexLeq, Sorted, KeyId, IdsOf, DueIdle, Started, QueueOf;
    forall b | b in DueIdle(s, now) ensures b in chosen {
      if b !in chosen {
        var m := Skipped(s, q, n, chosen, b, now);
        if n == WINDOW {
          FullWindow(s, q, n, chosen);
        } else {
          PastWindow(s, q, n, m, b, now);
        }
      }
    }
  }

  lemma FullWindow(s: State, q: seq<string>, n: nat, chosen: set<Id>)
    requires QueueOf(q, s.cols) && n == WINDOW && Started(q, s.cols, s.workers.Keys, n, chosen)
    ensures |chosen| >= Capacity(s)
  {
    hide DueKey, LexLess, Sorted, KeyId;
    DistinctIds(q, s.cols, n);
    var ids := IdsOf(q, n);
    hide IdsOf;
    forall id | id in ids ensures id in chosen + s.workers.Keys {
      IdsAt(q, n, id);
    }
    SubsetSize(ids, chosen + s.workers.Keys);
    assert |chosen + s.workers.Keys| <= |chosen| + |s.workers.Keys|;
  }

  lemma PastWindow(s: State, q: seq<string>, n: nat, m: nat, b: Id, now: u64)
    requires QueueOf(q, s.cols) && Window(q, n, now) && n < WINDOW && n <= m < |q| && KeyIdOf(q[m]) == b && |q[m]| >= 21
    requires forall id :: id in s.cols ==> IsId(id)
    ensures b !in DueIdle(s, now)
  {
    hide DueKey, LexLess, LexLeq, Sorted, KeyId;
    assert Current(s.cols, q[n]) && Current(s.cols, q[m]);
    DueAt(q, s.cols, n, now);
    if n < m {
      QueueOrder(q, s.cols, n, m);
    }
  }

  /** Each dispatch starts exactly the earliest of the due and idle channels, as many as there are free
      slots, though it looks at sixteen keys only. */
  lemma DispatchIsEarliest(s: State, q: seq<string>, i: nat, n: nat, chosen: set<Id>, now: u64)
    requires QueueOf(q, s.cols) && Window(q, n, now) && i <= n && Started(q, s.cols, s.workers.Keys, i, chosen)
    requires forall id :: id in s.cols ==> IsId(id)
    requires |chosen| <= Capacity(s) && (i == n || |chosen| == Capacity(s))
    ensures Earliest(s.cols, DueIdle(s, now), chosen, Capacity(s))
  {
    hide DueKey, LexLess, LexLeq, Sorted, KeyId, Started, QueueOf, Before, Window, Capacity;
    var eligible := DueIdle(s, now);
    ChosenAreDue(s, q, i, n, chosen, now);
    forall a, b | a in chosen && b in eligible - chosen ensures Before(s.cols, a, b) {
      ChosenComeFirst(s, q, i, chosen, a, b, now);
    }
    if |chosen| < Capacity(s) {
      WindowSuffices(s, q, n, chosen, now);
      assert chosen == eligible;
    } else {
      SubsetSize(chosen, eligible);
    }
  }

  lemma NobodyDue(s: State, now: u64)
    requires s.cols == map[]
    ensures Earliest(s.cols, DueIdle(s, now), {}, Capacity(s))
  {
    assert DueIdle(s, now) == {};
  }

  lemma StartNone(q: seq<string>, cols: map<Id, Collection>, busy: set<Id>)
    ensures Started(q, cols, busy, 0, {})
  {
  }

  lemma StartNext(q: seq<string>, cols: map<Id, Collection>, busy: set<Id>, i: nat, chosen: set<Id>)
    requires i < |q| && Current(cols, q[i]) && Started(q, cols, busy, i, chosen)
    ensures var id := KeyId(q[i]);
      Started(q, cols, busy, i + 1, if id in busy + chosen then chosen else chosen + {id})
  {
    hide KeyOf, KeyId;
  }

  lemma WindowBound(q: seq<string>, n: nat, now: u64)
    requires Window(q, n, now)
    ensures n <= |q|
  {
  }

  lemma QueueEntry(q: seq<string>, cols: map<Id, Collection>, i: nat)
    requires QueueOf(q, cols) && i < |q|
    ensures |q[i]| >= 21 && Current(cols, q[i])
  {
    hide Sorted, KeyOf;
    assert Current(cols, q[i]);
  }

  /** The busy set and the workers while a dispatch goes on. */
  ghost predicate Spawning(busy: set<Id>, workers: map<Id, Worker>, busy0: set<Id>, workers0: map<Id, Worker>,
                           chosen: set<Id>)
  {
    busy == workers.Keys && busy == busy0 + chosen && workers == workers0 + Spawned(chosen)
  }

  lemma SpawnNone(busy: set<Id>, workers: map<Id, Worker>)
    requires busy == workers.Keys
    ensures Spawning(busy, workers, busy, workers, {})
  {
  }

  lemma SpawnOne(busy: set<Id>, workers: map<Id, Worker>, busy0: set<Id>, workers0: map<Id, Worker>, chosen: set<Id>, id: Id)
    requires Spawning(busy, workers, busy0, workers0, chosen) && id !in busy
    ensures Spawning(busy + {id}, workers[id := Starting], busy0, workers0, chosen + {id})
    ensures |chosen + {id}| == |chosen| + 1
  {
    SpawnedOne(workers0, chosen, id);
    hide Spawned;
    assert busy0 + (chosen + {id}) == busy0 + chosen + {id};
  }

  lemma SpawnedOne(workers0: map<Id, Worker>, chosen: set<Id>, id: Id)
    ensures (workers0 + Spawned(chosen))[id := Starting] == workers0 + Spawned(chosen + {id})
  {
  }

  lemma SpawnBusy(busy: set<Id>, workers: map<Id, Worker>, busy0: set<Id>, workers0: map<Id, Worker>, chosen: set<Id>)
    requires Spawning(busy, workers, busy0, workers0, chosen)
    ensures forall id :: id in busy <==> id in busy0 + chosen
  {
  }

  lemma SpawnDone(busy: set<Id>, workers: map<Id, Worker>, busy0: set<Id>, workers0: map<Id, Worker>, chosen: set<Id>)
    requires Spawning(busy, workers, busy0, workers0, chosen)
    ensures busy == workers.Keys && workers == workers0 + Spawned(chosen)
  {
  }

  /** Forgetting the timer changes neither who is due nor how many slots are free. */
  lemma SameDispatch(s: State, now: u64)
    ensures var t := s.(timer := None); DueIdle(t, now) == DueIdle(s, now) && Capacity(t) == Capacity(s)
  {
  }

  /** The queue has exactly as many keys as there are collections. */
  lemma OneKeyEach(q: seq<string>, cols: map<Id, Collection>)
    requires QueueOf(q, cols)
    ensures |q| == |cols|
  {
    hide DueKey, LexLess, Sorted, KeyId;
    DistinctIds(q, cols, |q|);
    var ids := IdsOf(q, |q|);
    hide IdsOf;
    forall id ensures id in ids <==> id in cols {
      IdsAt(q, |q|, id);
      if id in cols {
        var n := PlaceOf(q, cols, id);
      }
    }
    assert ids == cols.Keys;
  }

  // ---- switching a seller --------------------------------------------------------------

  lemma RetouchNone(s: State, value: bool, now: u64)
    ensures Retouched(s, {}, value, now) == s.cols
  {
  }

  lemma RetouchOne(s: State, done: set<Id>, id: Id, value: bool, now: u64)
    requires done <= s.cols.Keys + s.channels.Keys && (id in s.cols || id in s.channels) && id !in done
    ensures var cols := Retouched(s, done, value, now);
      && Retouched(s, done + {id}, value, now) == cols[id := Touched(s, id, value, now)]
      && (id in cols <==> id in s.cols) && (id in s.cols ==> cols[id] == s.cols[id])
  {
    hide Touched;
  }
}
