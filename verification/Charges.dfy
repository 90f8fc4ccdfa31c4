/** What a collection owes: its charge list against everything committed since it was registered. */
module Charges {
  import opened Wrappers
  import opened Batch
  import opened Collector

  function StoredAmount(stored: Option<Channel>): nat {
    if stored.None? then 0 else Amount(stored.value.charged)
  }

  ghost predicate Rising(charges: seq<Charge>) {
    forall i, j :: 0 <= i < j < |charges| ==> charges[i].amount < charges[j].amount
  }

  ghost predicate PaidUpTo(charges: seq<Charge>, n: nat, total: nat)
    requires n <= |charges|
  {
    forall i :: 0 <= i < n ==> charges[i].amount <= total
  }

  /** The list is the committed charges without a paid prefix. */
  ghost predicate SuffixOf(charges: seq<Charge>, committed: seq<Charge>, claimed: nat) {
    && |charges| <= |committed|
    && charges == committed[|committed| - |charges|..]
    && PaidUpTo(committed, |committed| - |charges|, claimed)
  }

  /** At most 200 charges, and room for one more while a reservation is open. */
  ghost predicate RoomOk(count: nat, stored: Option<Channel>) {
    && count <= MAX_OUTSTANDING
    && (stored.Some? && stored.value.pending.Some? ==> count < MAX_OUTSTANDING)
  }

  /** An attempt claims what its copy of the channel had charged, and the channel still has. */
  ghost predicate TargetOk(attempt: Option<Attempt>, stored: Option<Channel>) {
    attempt.Some? ==>
      && stored.Some? && attempt.value.target <= StoredAmount(stored)
      && WellFormed(attempt.value.channel) && attempt.value.target == Amount(attempt.value.channel.charged)
  }

  ghost predicate CollectionOk(c: Collection, stored: Option<Channel>, committed: seq<Charge>) {
    && ParseU128(c.seed.charged).Some? && Amount(c.seed.charged) == StoredAmount(stored)
    && Rising(committed) && PaidUpTo(committed, |committed|, StoredAmount(stored))
    && SuffixOf(c.charges, committed, c.claimed)
    && RoomOk(|c.charges|, stored)
    && TargetOk(c.attempt, stored)
  }

  ghost predicate ChannelsOk(channels: map<Id, Channel>) {
    forall id :: id in channels ==> WellFormed(channels[id])
  }

  ghost predicate ChargesInv(s: State) {
    && ChannelsOk(s.channels)
    && forall id :: id in s.cols ==> id in s.hist.committed && CollectionOk(s.cols[id], Stored(s, id), s.hist.committed[id])
  }

  // ---- reconciliation ------------------------------------------------------------------

  /** On rising amounts, keeping what is above the claimed total drops a prefix. */
  lemma {:induction false} UnpaidIsSuffix(charges: seq<Charge>, claimed: nat)
    requires Rising(charges)
    ensures var k := |charges| - |Unpaid(charges, claimed)|;
      && Unpaid(charges, claimed) == charges[k..]
      && PaidUpTo(charges, k, claimed)
      && forall i :: k <= i < |charges| ==> charges[i].amount > claimed
    decreases |charges|
  {
    if charges != [] {
      var front := charges[..|charges| - 1];
      UnpaidIsSuffix(front, claimed);
      var k := |front| - |Unpaid(front, claimed)|;
      assert k < |front| ==> front[k].amount > claimed && charges[k] == front[k];
      if charges[|charges| - 1].amount > claimed {
        assert charges[k..] == front[k..] + [charges[|charges| - 1]];
      } else {
        assert Unpaid(charges, claimed) == charges[|charges|..];
      }
    }
  }

  /** Whatever was dropped before, reconciling the list gives what reconciling everything committed
      gives. */
  lemma UnpaidOfSuffix(charges: seq<Charge>, committed: seq<Charge>, claimed: nat, total: nat)
    requires Rising(committed) && SuffixOf(charges, committed, claimed) && claimed <= total
    ensures Unpaid(charges, total) == Unpaid(committed, total)
    ensures SuffixOf(Unpaid(charges, total), committed, total)
  {
    hide Unpaid;
    UnpaidIsSuffix(committed, total);
    var d := |committed| - |charges|;
    SuffixRises(charges, committed, d);
    UnpaidIsSuffix(charges, total);
    var k := |charges| - |Unpaid(charges, total)|;
    var m := |committed| - |Unpaid(committed, total)|;
    SuffixPaid(charges, committed, claimed, d, k, total);
    CutUnique(committed, d + k, m, total);
    assert committed[m..] == committed[d..][k..];
  }

  lemma SuffixRises(charges: seq<Charge>, committed: seq<Charge>, d: nat)
    requires Rising(committed) && d <= |committed| && charges == committed[d..]
    ensures Rising(charges)
  {
    assert forall i :: 0 <= i < |charges| ==> charges[i] == committed[d + i];
  }

  ghost predicate CutAt(charges: seq<Charge>, k: nat, total: nat) {
    k <= |charges| && PaidUpTo(charges, k, total) && forall i :: k <= i < |charges| ==> charges[i].amount > total
  }

  lemma SuffixPaid(charges: seq<Charge>, committed: seq<Charge>, claimed: nat, d: nat, k: nat, total: nat)
    requires d <= |committed| && charges == committed[d..] && claimed <= total
    requires PaidUpTo(committed, d, claimed) && CutAt(charges, k, total)
    ensures CutAt(committed, d + k, total)
  {
    assert forall i :: d <= i < |committed| ==> committed[i] == charges[i - d];
  }

  lemma CutUnique(charges: seq<Charge>, a: nat, b: nat, total: nat)
    requires CutAt(charges, a, total) && CutAt(charges, b, total)
    ensures a == b
  {
    var i := if a < b then a else b;
    assert i < |charges| ==> (charges[i].amount <= total || charges[i].amount > total);
  }
}
