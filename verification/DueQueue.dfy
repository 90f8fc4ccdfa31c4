/** The durable DUE queue: a sorted set of text keys, one per collection
    (rust/facilitator/src/auto_claim.rs:83-101). The stable B-tree is a sorted sequence here. */
module DueQueue {
  import opened Decimal
  import opened Keys
  import opened Collector

  ghost predicate Sorted(q: seq<string>) {
    forall i, j :: 0 <= i < j < |q| ==> LexLess(q[i], q[j])
  }

  function Put(q: seq<string>, key: string): seq<string> {
    if q == [] || LexLess(key, q[0]) then [key] + q
    else if key == q[0] then q
    else [q[0]] + Put(q[1..], key)
  }

  function Drop(q: seq<string>, key: string): seq<string> {
    if q == [] then [] else if q[0] == key then q[1..] else [q[0]] + Drop(q[1..], key)
  }

  lemma {:induction false} PutMembers(q: seq<string>, key: string, k: string)
    ensures k in Put(q, key) <==> k in q || k == key
  {
    if q != [] {
      PutMembers(q[1..], key, k);
      assert q == [q[0]] + q[1..];
    }
  }

  lemma {:induction false} PutSorted(q: seq<string>, key: string)
    requires Sorted(q)
    ensures Sorted(Put(q, key))
  {
    hide LexLess;
    if q != [] {
      LexTotal(q[0], key);
      PutSorted(q[1..], key);
      var r := Put(q, key);
      forall i, j | 0 <= i < j < |r| ensures LexLess(r[i], r[j]) {
        PutPair(q, key, i, j);
      }
    }
  }

  lemma PutPair(q: seq<string>, key: string, i: nat, j: nat)
    requires Sorted(q) && q != [] && Sorted(Put(q[1..], key)) && i < j < |Put(q, key)|
    requires q[0] == key || LexLess(q[0], key) || LexLess(key, q[0])
    ensures LexLess(Put(q, key)[i], Put(q, key)[j])
  {
    hide LexLess;
    var r := Put(q, key);
    if LexLess(key, q[0]) {
      if i == 0 && j > 1 {
        LexTransitive(key, q[0], q[j - 1]);
      }
    } else if key != q[0] && i == 0 {
      PutMembers(q[1..], key, r[j]);
      assert r[j] in Put(q[1..], key);
      assert r[j] == key || exists n :: 0 < n < |q| && q[n] == r[j];
    }
  }

  lemma {:induction false} DropMembers(q: seq<string>, key: string, k: string)
    requires Sorted(q)
    ensures k in Drop(q, key) <==> k in q && k != key
  {
    hide LexLess;
    if q != [] {
      assert q == [q[0]] + q[1..];
      if q[0] == key {
        LexIrreflexive(key);
        assert forall n :: 0 < n < |q| ==> q[n] != key;
      } else {
        DropMembers(q[1..], key, k);
      }
    }
  }

  lemma {:induction false} DropSorted(q: seq<string>, key: string)
    requires Sorted(q)
    ensures Sorted(Drop(q, key))
  {
    hide LexLess;
    if q != [] && q[0] != key {
      DropSorted(q[1..], key);
      var r := Drop(q, key);
      forall j | 0 < j < |r| ensures LexLess(r[0], r[j]) {
        DropMembers(q[1..], key, r[j]);
        assert r[j] in Drop(q[1..], key);
        assert exists n :: 0 < n < |q| && q[n] == r[j];
      }
    }
  }

  // ---- the queue of a collection map ---------------------------------------------------

  function KeyOf(cols: map<Id, Collection>, id: Id): string
    requires id in cols
  {
    DueKey(cols[id].nextDue, id)
  }

  /** An entry that is the key of a registered collection at its current due time. */
  ghost predicate Current(cols: map<Id, Collection>, key: string) {
    && |key| >= 21 && KeyId(key) in cols && key == KeyOf(cols, KeyId(key))
  }

  /** Exactly one key per collection, at its current due time, in text order. */
  ghost predicate QueueOf(q: seq<string>, cols: map<Id, Collection>) {
    && Sorted(q)
    && (forall i :: 0 <= i < |q| ==> Current(cols, q[i]))
    && (forall id :: id in cols ==> KeyOf(cols, id) in q)
  }

  lemma CurrentKey(cols: map<Id, Collection>, id: Id)
    requires id in cols
    ensures Current(cols, KeyOf(cols, id)) && KeyId(KeyOf(cols, id)) == id
  {
    hide DueKey;
    KeyParts(cols[id].nextDue, id);
  }

  /** save: the old key goes, the new one comes. */
  lemma SavedQueue(q: seq<string>, cols: map<Id, Collection>, id: Id, c: Collection)
    requires QueueOf(q, cols)
    ensures var rest := if id in cols then Drop(q, KeyOf(cols, id)) else q;
      QueueOf(Put(rest, DueKey(c.nextDue, id)), cols[id := c])
  {
    hide DueKey, LexLess, Put, Drop;
    var key := DueKey(c.nextDue, id);
    var rest := if id in cols then Drop(q, KeyOf(cols, id)) else q;
    var cols', q' := cols[id := c], Put(rest, key);
    RemovedQueue(q, cols, id);
    PutSorted(rest, key);
    assert KeyOf(cols', id) == key;
    forall i | 0 <= i < |q'| ensures Current(cols', q'[i]) {
      PutMembers(rest, key, q'[i]);
      CurrentKey(cols', id);
      assert q'[i] in q';
    }
    forall k | k in cols' ensures KeyOf(cols', k) in q' {
      PutMembers(rest, key, KeyOf(cols', k));
      if k != id {
        assert KeyOf(cols - {id}, k) in rest;
      }
    }
  }

  /** remove. */
  lemma RemovedQueue(q: seq<string>, cols: map<Id, Collection>, id: Id)
    requires QueueOf(q, cols)
    ensures QueueOf(if id in cols then Drop(q, KeyOf(cols, id)) else q, cols - {id})
  {
    hide DueKey, LexLess, Drop;
    if id in cols {
      var key := KeyOf(cols, id);
      var q' := Drop(q, key);
      CurrentKey(cols, id);
      DropSorted(q, key);
      forall i | 0 <= i < |q'| ensures Current(cols - {id}, q'[i]) {
        DropMembers(q, key, q'[i]);
        assert q'[i] in q';
        assert exists n :: 0 <= n < |q| && q[n] == q'[i];
      }
      forall k | k in cols - {id} ensures KeyOf(cols - {id}, k) in q' {
        CurrentKey(cols, k);
        DropMembers(q, key, KeyOf(cols, k));
      }
    } else {
      assert cols - {id} == cols;
    }
  }

  /** The order of the queue is the order of due times, then of channels. */
  lemma QueueOrder(q: seq<string>, cols: map<Id, Collection>, i: nat, j: nat)
    requires QueueOf(q, cols) && i < j < |q|
    ensures Current(cols, q[i]) && Current(cols, q[j])
    ensures Before(cols, KeyId(q[i]), KeyId(q[j])) && KeyId(q[i]) != KeyId(q[j])
  {
    hide DueKey, LexLess;
    var a, b := KeyId(q[i]), KeyId(q[j]);
    assert Current(cols, q[i]) && Current(cols, q[j]);
    KeyOrder(cols[a].nextDue, a, cols[b].nextDue, b);
    LexIrreflexive(q[i]);
  }

  /** Every collection has its place in the queue. */
  lemma PlaceOf(q: seq<string>, cols: map<Id, Collection>, id: Id) returns (n: nat)
    requires QueueOf(q, cols) && id in cols
    ensures n < |q| && q[n] == KeyOf(cols, id) && KeyId(q[n]) == id
  {
    hide DueKey, LexLess;
    CurrentKey(cols, id);
    n :| 0 <= n < |q| && q[n] == KeyOf(cols, id);
  }
}
