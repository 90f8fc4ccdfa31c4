/** Compare-and-swap on revisions (rust/facilitator/src/lib.rs:5531-5538, 5601): what an equal revision
    says about the record, over runs. */
module Revisions {
  import opened Wrappers
  import opened Decimal
  import opened HexUtil
  import opened Batch
  import opened Collector
  import opened Scheduler
  import opened Runs
  import opened Registrations
  import opened Scripts
  import opened Examples
  import ChannelStorage
  import ClientUpdates

  /** The record is the same, or its revision is higher, up to the 64-bit bound. */
  ghost predicate Newer(c: Channel, d: Channel) {
    c.revision <= d.revision <= U64_MAX && (d == c || c.revision < d.revision || d.revision == U64_MAX)
  }

  lemma NewerTransitive(a: Channel, b: Channel, c: Channel)
    requires Newer(a, b) && Newer(b, c)
    ensures Newer(a, c)
  {
  }

  lemma UpdateIsNewer(s: State, e: Event, id: Id)
    requires e.DoUpdate? && id in s.channels && s.channels[id].revision <= U64_MAX
    ensures var t := UpdateChannel(s, e.id, e.expected, e.next, e.now, e.feeNow, e.signerOk, e.accept);
      id in t.channels && Newer(s.channels[id], t.channels[id])
  {
    hide BeforeUpdate, AfterUpdate, Accepted, Seconds;
    var current := Stored(s, e.id);
    BeforeUpdateChannels(s, e.id, current, e.next.(channelId := e.id), e.now, e.feeNow, e.signerOk);
    var s1 := BeforeUpdate(s, e.id, current, e.next.(channelId := e.id), e.now, e.feeNow, e.signerOk).0;
    var stored := e.next.(channelId := e.id, revision := NextRevision(current));
    AfterUpdateChannels(s1.(channels := s1.channels[e.id := stored]), e.id, current, stored, e.now);
  }

  /** The channel is stored at every point of the run. */
  ghost predicate StaysStored(s: State, events: seq<Event>, id: Id)
    requires IsRun(s, events)
    decreases |events|
  {
    id in s.channels && (events != [] ==> StaysStored(Step(s, events[0]), events[1..], id))
  }

  lemma StepIsNewer(s: State, e: Event, id: Id)
    requires Inv(s) && Ready(s, e) && id in s.channels && id in Step(s, e).channels
    requires s.channels[id].revision <= U64_MAX
    ensures Newer(s.channels[id], Step(s, e).channels[id])
  {
    hide Inv, Ready, Step;
    if e.DoUpdate? {
      UpdateStepIsNewer(s, e, id);
    } else if e.DoDelete? {
      DeleteStepKeeps(s, e, id);
    } else {
      StepChannels(s, e);
    }
  }

  lemma UpdateStepIsNewer(s: State, e: Event, id: Id)
    requires e.DoUpdate? && id in s.channels && s.channels[id].revision <= U64_MAX && Ready(s, e)
    ensures id in Step(s, e).channels && Newer(s.channels[id], Step(s, e).channels[id])
  {
    hide UpdateChannel, Newer;
    UpdateIsNewer(s, e, id);
  }

  lemma DeleteStepKeeps(s: State, e: Event, id: Id)
    requires e.DoDelete? && id in s.channels && Ready(s, e)
    ensures id in Step(s, e).channels ==> Step(s, e).channels[id] == s.channels[id]
  {
    hide Live, Provisional, MayDelete;
  }

  /** While a channel is not deleted its revision identifies its record: an update that names the current
      revision was computed from the record it replaces. */
  lemma {:induction false} RevisionIdentifiesRecord(s: State, events: seq<Event>, id: Id)
    requires Inv(s) && IsRun(s, events) && StaysStored(s, events, id) && s.channels[id].revision <= U64_MAX
    ensures var t := Exec(s, events);
      id in t.channels && Newer(s.channels[id], t.channels[id])
      && (t.channels[id].revision == s.channels[id].revision < U64_MAX ==> t.channels[id] == s.channels[id])
    decreases |events|
  {
    hide Inv, Ready, Step;
    if events != [] {
      var mid := Step(s, events[0]);
      StepIsNewer(s, events[0], id);
      StepKeepsInv(s, events[0]);
      RevisionIdentifiesRecord(mid, events[1..], id);
      NewerTransitive(s.channels[id], mid.channels[id], Exec(s, events).channels[id]);
    }
  }

  /** A client round around a run: it reads at the start, and its write arrives at the end. */
  ghost predicate Around(s: State, events: seq<Event>, id: Id, round: ClientUpdates.Round)
    requires IsRun(s, events)
  {
    round.read == Stored(s, id) && round.stored == Stored(Exec(s, events), id)
  }

  /** Compare-and-swap is sound between two deletions: if the channel is stored from the read to the write,
      below the 64-bit bound, the write meets the revision it names if and only if it meets the record it was
      computed from. */
  lemma RevisionMeansRecord(s: State, events: seq<Event>, id: Id, round: ClientUpdates.Round)
    requires Inv(s) && IsRun(s, events) && Around(s, events, id, round)
    requires id in s.channels ==> StaysStored(s, events, id) && s.channels[id].revision < U64_MAX
    ensures ClientUpdates.Revision(round.read) == ClientUpdates.Revision(round.stored) <==> round.read == round.stored
  {
    hide Inv, IsRun, Exec, StaysStored;
    if id in s.channels {
      RevisionIdentifiesRecord(s, events, id);
    }
  }

  /** So an answer that says the update was stored, or the channel deleted, was given over the record that was
      read. */
  lemma AnsweredOverTheRead(s: State, events: seq<Event>, id: Id, round: ClientUpdates.Round, update: ClientUpdates.Update)
    requires Inv(s) && IsRun(s, events) && Around(s, events, id, round)
    requires id in s.channels ==> StaysStored(s, events, id) && s.channels[id].revision < U64_MAX
    requires ClientUpdates.Request(id, round, update(ClientUpdates.Snapshot(round.read))).Some?
    ensures !ClientUpdates.Reply(id, round, update).Conflict? <==> round.read == round.stored
  {
    hide Inv, IsRun, Exec, StaysStored, Around, Accepted, Live, PendingOnly, ClientUpdates.Request;
    RevisionMeansRecord(s, events, id, round);
  }

  /** Across a deletion it does not: every channel is created with revision one. For any two accepted
      creates of one id there are reachable states holding the one, then the other, both at revision one. */
  lemma RevisionsRepeat(id: Id, first: Channel, second: Channel, t: u64) returns (a: State, events: seq<Event>)
    requires Accepted(None, first, Seconds(t)) && Accepted(None, second, Seconds(t))
    ensures Reachable(a) && IsRun(a, events)
    ensures id in a.channels && a.channels[id] == first.(channelId := id, revision := 1)
    ensures var b := Exec(a, events); id in b.channels && b.channels[id] == second.(channelId := id, revision := 1)
  {
    hide Accepted, Reachable;
    var create := DoUpdate(id, None, first, t, None, true, true);
    var delete := DoDelete(id, Some(1), t, true);
    var again := DoUpdate(id, None, second, t, None, true, true);
    EmptyReachable();
    Stores(Empty, id, None, first, t);
    Then(Empty, create);
    a := Step(Empty, create);
    FreshIsProvisional(first, id, t);
    Deletes(a, id, first.(channelId := id, revision := 1), t);
    var b := Step(a, delete);
    Stores(b, id, None, second, t);
    events := [delete, again];
    TwoSteps(a, delete, again);
  }

  lemma TwoSteps(s: State, e: Event, f: Event)
    requires Ready(s, e) && Ready(Step(s, e), f)
    ensures IsRun(s, [e, f]) && Exec(s, [e, f]) == Step(Step(s, e), f)
  {
    hide Ready, Step;
    assert [e, f][1..] == [f];
    assert [f][1..] == [];
    assert IsRun(Step(s, e), [f]) && IsRun(s, [e, f]);
    assert Exec(Step(s, e), [f]) == Step(Step(s, e), f);
  }

  /** A channel just created may be deleted at once. */
  lemma FreshIsProvisional(c: Channel, id: Id, t: u64)
    requires Accepted(None, c, Seconds(t))
    ensures Provisional(c.(channelId := id, revision := 1), t)
  {
    hide ValidateChannel;
  }

  lemma Deletes(s: State, id: Id, c: Channel, t: u64)
    requires s.cols == map[] && s.channels == map[id := c] && c.revision == 1 && Provisional(c, t)
    ensures var e := DoDelete(id, Some(1), t, true);
      Ready(s, e) && Step(s, e) == s.(channels := map[])
  {
    hide Provisional, Live;
    assert s.channels - {id} == map[] && s.cols - {id} == map[];
  }

  /** The collector's store is the compare-and-swap the client sees: whatever it stores, `Serve` answers. */
  lemma StoreServes(s: State, e: Event)
    requires e.DoUpdate?
    requires Stored(UpdateChannel(s, e.id, e.expected, e.next, e.now, e.feeNow, e.signerOk, e.accept), e.id)
      != Stored(s, e.id)
    ensures var t := UpdateChannel(s, e.id, e.expected, e.next, e.now, e.feeNow, e.signerOk, e.accept);
      && e.id in t.channels
      && ClientUpdates.Serve(Stored(s, e.id), e.expected, Some(e.next), Seconds(e.now), true)
         == ClientUpdates.Updated(t.channels[e.id].(channelId := e.next.channelId))
  {
    hide BeforeUpdate, AfterUpdate, Accepted, Seconds;
    var current := Stored(s, e.id);
    BeforeUpdateChannels(s, e.id, current, e.next.(channelId := e.id), e.now, e.feeNow, e.signerOk);
    var s1 := BeforeUpdate(s, e.id, current, e.next.(channelId := e.id), e.now, e.feeNow, e.signerOk).0;
    var stored := e.next.(channelId := e.id, revision := NextRevision(current));
    AfterUpdateChannels(s1.(channels := s1.channels[e.id := stored]), e.id, current, stored, e.now);
  }

  /** And whatever it deletes. */
  lemma DeleteServes(s: State, e: Event)
    requires e.DoDelete? && Ready(s, e) && e.id in s.channels && e.id !in Step(s, e).channels
    ensures ClientUpdates.Serve(Stored(s, e.id), e.expected, None, Seconds(e.now), true) == ClientUpdates.Deleted
  {
    hide Live, PendingOnly, MayDelete, Seconds;
  }

  // ---- a new channel taken for the one that was read -----------------------------------

  /** The caller stamps the record it gets. */
  const STAMP: ClientUpdates.Update := (read: Option<ChannelStorage.ClientChannel>) =>
    match read
    case None => ClientUpdates.Choice(true, None)
    case Some(c) => ClientUpdates.Choice(false, Some(c.(lastRequestTimestamp := 1)))

  lemma Stamps(c: Channel)
    requires c == OpenChannel(Hex(40, '1'), 5000).(channelId := Hex(64, '2'), revision := 1)
    ensures ChannelStorage.FromIc(c).Some? && ClientUpdates.Matches(ChannelStorage.FromIc(c).value, Hex(64, '2'))
    ensures var d := ChannelStorage.FromIc(c).value.(lastRequestTimestamp := 1);
      && ClientUpdates.Matches(d, Hex(64, '2')) && ChannelStorage.UpdateGuard(ChannelStorage.FromIc(c), d, 0)
      && ChannelStorage.ToIc(d, 1) == Some(c.(lastRequestTimestamp := 1))
  {
    hide Hex, Lower, Value, IsHex, ChannelStorage.HexBytes, ChannelStorage.ConfigText;
    ClientUpdates.ZeroIsSafe();
    ClientUpdates.ExampleReads(c);
    assert Print(0) == "0";
  }

  lemma StampAccepted(stored: Channel, d: Channel)
    requires stored == OpenChannel(Hex(40, '1'), 6000).(channelId := Hex(64, '2'), revision := 1)
    requires d == OpenChannel(Hex(40, '1'), 5000).(channelId := Hex(64, '2'), revision := 1, lastRequestTimestamp := 1)
    ensures Accepted(Some(stored), d, 0)
  {
    hide IsAddress, IsHexOf, ParseU128, Amount, IsDecimal, ParsedU256, Value, Hex, RequireMonotonic;
    ExampleTexts();
    ExampleAmounts();
    MonotonicIsNumeric("0", "0");
    MonotonicIsNumeric("5", "5");
    HexAddress('1');
  }

  lemma ReplyUpdates(round: ClientUpdates.Round, read: Channel, stored: Channel)
    requires read == OpenChannel(Hex(40, '1'), 5000).(channelId := Hex(64, '2'), revision := 1)
    requires stored == OpenChannel(Hex(40, '1'), 6000).(channelId := Hex(64, '2'), revision := 1)
    requires round == ClientUpdates.Round(Some(read), Some(stored), 0, true)
    ensures ClientUpdates.Readable(Hex(64, '2'), round) && read != stored
    ensures ClientUpdates.Request(Hex(64, '2'), round, STAMP(ClientUpdates.Snapshot(round.read))).Some?
    ensures ClientUpdates.Reply(Hex(64, '2'), round, STAMP).Updated?
  {
    hide Hex, Accepted, ChannelStorage.FromIc, ChannelStorage.ToIc, ChannelStorage.UpdateGuard, ClientUpdates.Matches;
    Stamps(read);
    StampAccepted(stored, read.(lastRequestTimestamp := 1));
  }

  /** Across a deletion the swap can succeed over another record: the client reads a new channel, the channel
      is deleted and opened again with another expiry, and the client's write, computed from the old one, is
      answered as stored. */
  lemma NewChannelIsTakenForOld() returns (a: State, events: seq<Event>, round: ClientUpdates.Round)
    ensures Reachable(a) && IsRun(a, events) && Around(a, events, Hex(64, '2'), round) && round.read != round.stored
    ensures ClientUpdates.Readable(Hex(64, '2'), round) && round.read.Some?
    ensures ClientUpdates.Request(Hex(64, '2'), round, STAMP(ClientUpdates.Snapshot(round.read))).Some?
    ensures ClientUpdates.Reply(Hex(64, '2'), round, STAMP).Updated?
  {
    hide Reachable, IsRun, Exec, Hex, Accepted, IsAddress, ClientUpdates.Readable, ClientUpdates.Request,
      ClientUpdates.Reply;
    var first, second := OpenChannel(Hex(40, '1'), 5000), OpenChannel(Hex(40, '1'), 6000);
    HexAddress('1');
    Creates(Hex(40, '1'), 5000, 0);
    Creates(Hex(40, '1'), 6000, 0);
    a, events := RevisionsRepeat(Hex(64, '2'), first, second, 0);
    var read, stored := a.channels[Hex(64, '2')], Exec(a, events).channels[Hex(64, '2')];
    round := ClientUpdates.Round(Some(read), Some(stored), 0, true);
    ReplyUpdates(round, read, stored);
  }
}
