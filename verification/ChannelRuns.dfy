/** Whole histories of one stored channel: a create followed by accepted updates. */
module ChannelRuns {
  import opened Wrappers
  import opened Batch

  /** `states[0]` was created and each later state was accepted on top of the one before, at clock
      readings `nows`. */
  ghost predicate Run(states: seq<Channel>, nows: seq<nat>) {
    && states != [] && |nows| == |states|
    && Accepted(None, states[0], nows[0])
    && forall i :: 0 < i < |states| ==> StepOk(states, nows, i)
  }

  ghost predicate StepOk(states: seq<Channel>, nows: seq<nat>, i: nat)
    requires 0 < i < |states| == |nows|
  {
    Accepted(Some(states[i - 1]), states[i], nows[i])
  }

  lemma {:induction false} AllWellFormed(states: seq<Channel>, nows: seq<nat>, i: nat)
    requires Run(states, nows) && i < |states|
    ensures WellFormed(states[i])
    decreases i
  {
    hide Accepted, WellFormed;
    if i == 0 {
      AcceptedCreate(states[0], nows[0]);
    } else {
      AllWellFormed(states, nows, i - 1);
      assert StepOk(states, nows, i);
      AcceptedStep(states[i - 1], states[i], nows[i]);
    }
  }

  /** Along any run the charged, signed, claimed and refund-nonce totals and the timestamp never
      fall, however far apart the two states are, and every state keeps the amount bounds. */
  lemma {:induction false} TotalsNeverFall(states: seq<Channel>, nows: seq<nat>, i: nat, j: nat)
    requires Run(states, nows) && i <= j < |states|
    ensures NeverFalls(states[i], states[j])
    ensures WellFormed(states[j])
    decreases j
  {
    hide Accepted, WellFormed, Amount, NonceValue;
    AllWellFormed(states, nows, j);
    if i < j {
      TotalsNeverFall(states, nows, i, j - 1);
      AllWellFormed(states, nows, j - 1);
      assert StepOk(states, nows, j);
      AcceptedStep(states[j - 1], states[j], nows[j]);
    }
  }

  predicate Rose(states: seq<Channel>, i: nat)
    requires 0 < i < |states|
  {
    Amount(states[i].charged) > Amount(states[i - 1].charged)
  }

  /** A reservation opens when none was open before. */
  predicate Opened(states: seq<Channel>, i: nat)
    requires i < |states|
  {
    states[i].pending.Some? && (i == 0 || states[i - 1].pending.None?)
  }

  function Rises(states: seq<Channel>, n: nat): nat
    requires n <= |states|
  {
    if n <= 1 then 0 else Rises(states, n - 1) + (if Rose(states, n - 1) then 1 else 0)
  }

  function Openings(states: seq<Channel>, n: nat): nat
    requires n <= |states|
  {
    if n == 0 then 0 else Openings(states, n - 1) + (if Opened(states, n - 1) then 1 else 0)
  }

  /** Each rise consumes a live reservation of its own, so rises plus the reservation still open
      never outnumber the reservations opened. */
  lemma {:induction false} RisesPaidForByOpenings(states: seq<Channel>, nows: seq<nat>, n: nat)
    requires Run(states, nows) && 1 <= n <= |states|
    ensures Rises(states, n) + (if states[n - 1].pending.Some? then 1 else 0) <= Openings(states, n)
    decreases n
  {
    hide Accepted, WellFormed, Amount;
    if n == 1 {
      AcceptedCreate(states[0], nows[0]);
      assert Openings(states, 0) == 0;
    } else {
      RisesPaidForByOpenings(states, nows, n - 1);
      RiseAt(states, nows, n - 1);
    }
  }

  /** The text of a risen total is the text of the reservation it consumed. */
  lemma RiseAt(states: seq<Channel>, nows: seq<nat>, i: nat)
    requires Run(states, nows) && 0 < i < |states|
    ensures Rose(states, i) ==>
      && Live(states[i - 1].pending, nows[i])
      && states[i].pending.None?
      && states[i].charged == states[i - 1].pending.value.signedMaxClaimable == states[i].signedMax
  {
    hide Accepted, WellFormed, Amount;
    AllWellFormed(states, nows, i - 1);
    assert StepOk(states, nows, i);
    AcceptedStep(states[i - 1], states[i], nows[i]);
  }
}
