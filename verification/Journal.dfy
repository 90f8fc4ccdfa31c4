/** The write-ahead journal: attempts, locks, records, workers and the ledger agree in every state. */
module Journal {
  import opened Accounts
  import opened Wrappers
  import opened Collector

  ghost function Attempts(cols: map<Id, Collection>): map<Id, Attempt> {
    map id | id in cols && cols[id].attempt.Some? :: cols[id].attempt.value
  }

  /** The lock on the attempt's scope, its settlement record and its ledger entry all say what the
      journal says. */
  ghost predicate Owns(id: Id, a: Attempt, locks: map<Scope, Lock>, records: map<Key, Record>, log: seq<Entry>,
                       serial: map<Id, nat>)
  {
    && a.key.Auto? && a.key.id == id && a.key.target == a.target
    && a.scope.seller == Seller(a.channel)
    && (a.raw.Some? <==> a.nonce.Some?) && (a.raw.Some? <==> a.tx.Some?)
    && a.scope in locks && locks[a.scope] == Lock(a.key, a.nonce, a.tx)
    && a.key in records && records[a.key] == (if a.tx.Some? then Broadcast(a.tx.value) else Checking)
    && id in serial && serial[id] < |log|
    && log[serial[id]] == Entry(a.key, a.scope.seller, a.from, a.fee, FateOf(a))
  }

  function FateOf(a: Attempt): Fate {
    if a.raw.Some? && a.nonce.Some? && a.tx.Some? then Journaled(a.nonce.value, a.raw.value, a.tx.value) else Held
  }

  /** What a suspended worker may rely on when it wakes up. */
  ghost predicate WorkerOk(id: Id, w: Worker, att: map<Id, Attempt>) {
    match w
    case Monitoring => id in att ==> att[id].raw.Some?
    case Preparing(a) => id in att && att[id] == a && a.raw.None?
    case Resuming(a) => id in att && att[id] == a && a.raw.Some?
    case _ => true
  }

  ghost predicate AttemptsOk(att: map<Id, Attempt>, locks: map<Scope, Lock>, records: map<Key, Record>,
                             log: seq<Entry>, serial: map<Id, nat>)
  {
    forall id :: id in att ==> Owns(id, att[id], locks, records, log, serial)
  }

  ghost predicate LocksOk(att: map<Id, Attempt>, locks: map<Scope, Lock>) {
    forall sc :: sc in locks && locks[sc].key.Auto? ==> HeldBy(att, sc, locks[sc].key)
  }

  ghost predicate HeldBy(att: map<Id, Attempt>, scope: Scope, key: Key)
    requires key.Auto?
  {
    key.id in att && att[key.id].key == key && att[key.id].scope == scope
  }

  ghost predicate HeldOk(att: map<Id, Attempt>, log: seq<Entry>, serial: map<Id, nat>) {
    forall n :: 0 <= n < |log| && log[n].fate.Held? ==> EntryOpen(att, log[n].key, n, serial)
  }

  ghost predicate EntryOpen(att: map<Id, Attempt>, key: Key, n: nat, serial: map<Id, nat>) {
    key.Auto? && key.id in att && key.id in serial && serial[key.id] == n
  }

  ghost predicate WorkersOk(att: map<Id, Attempt>, workers: map<Id, Worker>) {
    forall id :: id in workers ==> WorkerOk(id, workers[id], att)
  }

  ghost predicate Tables(att: map<Id, Attempt>, locks: map<Scope, Lock>, records: map<Key, Record>, log: seq<Entry>,
                         serial: map<Id, nat>)
  {
    AttemptsOk(att, locks, records, log, serial) && LocksOk(att, locks) && HeldOk(att, log, serial)
  }

  ghost predicate JournalInv(s: State) {
    && Tables(Attempts(s.cols), s.locks, s.records, s.hist.log, s.hist.serial)
    && WorkersOk(Attempts(s.cols), s.workers)
  }

  // ---- one table change at a time ------------------------------------------------------

  lemma Opens(att: map<Id, Attempt>, locks: map<Scope, Lock>, records: map<Key, Record>, log: seq<Entry>,
              serial: map<Id, nat>, id: Id, a: Attempt)
    requires Tables(att, locks, records, log, serial)
    requires id !in att && a.scope !in locks
    requires a.key.Auto? && a.key.id == id && a.key.target == a.target && a.scope.seller == Seller(a.channel)
    requires a.raw.None? && a.nonce.None? && a.tx.None?
    ensures Tables(att[id := a], locks[a.scope := Lock(a.key, None, None)], records[a.key := Checking],
                   log + [Entry(a.key, a.scope.seller, a.from, a.fee, Held)], serial[id := |log|])
  {
    hide Seller;
    var att', locks', records' := att[id := a], locks[a.scope := Lock(a.key, None, None)], records[a.key := Checking];
    var log', serial' := log + [Entry(a.key, a.scope.seller, a.from, a.fee, Held)], serial[id := |log|];
    forall i | i in att' ensures Owns(i, att'[i], locks', records', log', serial') {
      if i != id {
        assert Owns(i, att[i], locks, records, log, serial);
      }
    }
    forall n | 0 <= n < |log'| && log'[n].fate.Held? ensures EntryOpen(att', log'[n].key, n, serial') {
      if n < |log| {
        assert EntryOpen(att, log[n].key, n, serial);
      }
    }
  }

  /** The attempt ends: lock freed, record replaced or dropped, entry no longer held. */
  lemma Closes(att: map<Id, Attempt>, locks: map<Scope, Lock>, records: map<Key, Record>, log: seq<Entry>,
               serial: map<Id, nat>, id: Id, records': map<Key, Record>, log': seq<Entry>)
    requires Tables(att, locks, records, log, serial) && id in att
    requires forall k :: k in records && k != att[id].key ==> k in records' && records'[k] == records[k]
    requires id in serial && serial[id] < |log| == |log'|
    requires forall n :: 0 <= n < |log| && n != serial[id] ==> log'[n] == log[n]
    requires !log'[serial[id]].fate.Held?
    ensures Tables(att - {id}, locks - {att[id].scope}, records', log', serial)
  {
    var att', locks' := att - {id}, locks - {att[id].scope};
    assert Owns(id, att[id], locks, records, log, serial);
    forall i | i in att' ensures Owns(i, att'[i], locks', records', log', serial) {
      assert Owns(i, att[i], locks, records, log, serial);
    }
    forall sc | sc in locks' && locks'[sc].key.Auto? ensures HeldBy(att', sc, locks'[sc].key) {
      assert HeldBy(att, sc, locks[sc].key);
    }
    forall n | 0 <= n < |log'| && log'[n].fate.Held? ensures EntryOpen(att', log'[n].key, n, serial) {
      assert EntryOpen(att, log[n].key, n, serial);
    }
  }

  /** The bytes are written: attempt, lock, record and entry change together. */
  lemma Writes(att: map<Id, Attempt>, locks: map<Scope, Lock>, records: map<Key, Record>, log: seq<Entry>,
               serial: map<Id, nat>, id: Id, nonce: nat, raw: string, tx: string)
    requires Tables(att, locks, records, log, serial) && id in att && att[id].raw.None?
    ensures var a := att[id];
      && id in serial && serial[id] < |log|
      && Tables(att[id := a.(nonce := Some(nonce), raw := Some(raw), tx := Some(tx))],
                locks[a.scope := Lock(a.key, Some(nonce), Some(tx))], records[a.key := Broadcast(tx)],
                log[serial[id] := log[serial[id]].(fate := Journaled(nonce, raw, tx))], serial)
  {
    hide Seller;
    var a := att[id];
    var b := a.(nonce := Some(nonce), raw := Some(raw), tx := Some(tx));
    assert Owns(id, a, locks, records, log, serial);
    var att', locks', records' := att[id := b], locks[a.scope := Lock(a.key, Some(nonce), Some(tx))],
      records[a.key := Broadcast(tx)];
    var log' := log[serial[id] := log[serial[id]].(fate := Journaled(nonce, raw, tx))];
    forall i | i in att' ensures Owns(i, att'[i], locks', records', log', serial) {
      if i != id {
        assert Owns(i, att[i], locks, records, log, serial);
      }
    }
    forall sc | sc in locks' && locks'[sc].key.Auto? ensures HeldBy(att', sc, locks'[sc].key) {
      assert HeldBy(att, sc, locks[sc].key);
    }
    forall n | 0 <= n < |log'| && log'[n].fate.Held? ensures EntryOpen(att', log'[n].key, n, serial) {
      assert EntryOpen(att, log[n].key, n, serial);
    }
  }

  /** A manual settlement takes or frees a scope no attempt holds. */
  lemma ManualLocks(att: map<Id, Attempt>, locks: map<Scope, Lock>, records: map<Key, Record>, log: seq<Entry>,
                    serial: map<Id, nat>, scope: Scope, name: string)
    requires Tables(att, locks, records, log, serial)
    ensures scope !in locks ==> Tables(att, locks[scope := Lock(Manual(name), None, None)], records, log, serial)
    ensures scope in locks && locks[scope].key == Manual(name) ==> Tables(att, locks - {scope}, records, log, serial)
  {
    hide Seller;
    forall l: map<Scope, Lock> |
      && (l == locks[scope := Lock(Manual(name), None, None)] || l == locks - {scope})
      && (scope in locks ==> locks[scope].key == Manual(name))
      ensures Tables(att, l, records, log, serial)
    {
      forall i | i in att ensures Owns(i, att[i], l, records, log, serial) {
        assert Owns(i, att[i], locks, records, log, serial);
      }
      forall sc | sc in l && l[sc].key.Auto? ensures HeldBy(att, sc, l[sc].key) {
        assert HeldBy(att, sc, locks[sc].key);
      }
    }
  }

  lemma CreditOnly(s: State, seller: Addr, amount: nat)
    ensures var t := AddCredit(s, seller, amount);
      t == s.(credit := t.credit, hist := s.hist.(lost := t.hist.lost))
  {
    hide SatAdd, Get;
  }

  lemma ReleaseOnly(s: State, scope: Scope, key: Key)
    ensures Release(s, scope, key) == s.(locks := Release(s, scope, key).locks)
  {
  }
}
