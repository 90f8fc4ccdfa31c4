/** Settled amounts read from a receipt's logs (rust/facilitator/src/rpc.rs:956-1045), and what they
    come to for the logs of events. */
module RpcReceipt {
  import opened Wrappers
  import opened Decimal
  import opened HexUtil
  import opened RpcDecimal
  import opened SettledEvents

  function TopicAddress(topic: Option<string>): Option<string> {
    if topic.None? || |Strip0x(topic.value)| != 64 then None
    else Some("0x" + Strip0x(topic.value)[24..])
  }

  predicate TopicIs(topic: Option<string>, address: string) {
    TopicAddress(topic).Some? && SameAddress(TopicAddress(topic).value, address)
  }

  /** The conditions of settled_log_amount other than a readable amount. */
  predicate Matches(log: Log, expected: Expected) {
    && !log.removed
    && log.address.Some? && SameAddress(log.address.value, expected.contract)
    && log.topics.Some? && |log.topics.value| >= 4
    && log.topics.value[0].Some? && Lower(log.topics.value[0].value) == Lower(SETTLED_TOPIC)
    && TopicIs(log.topics.value[1], expected.receiver)
    && TopicIs(log.topics.value[2], expected.token)
    && TopicIs(log.topics.value[3], expected.sender)
  }

  /** The number a matching log carries. */
  function LogValue(log: Log, expected: Expected): Option<nat> {
    if Matches(log, expected) && log.data.Some? && ParseU256Hex(log.data.value).Some?
    then Some(BE(ParseU256Hex(log.data.value).value)) else None
  }

  /** The amounts of the matching logs, in log order. */
  function Amounts(logs: seq<Log>, expected: Expected): seq<nat> {
    if logs == [] then []
    else
      var front := Amounts(logs[..|logs| - 1], expected);
      match LogValue(logs[|logs| - 1], expected)
      case None => front
      case Some(v) => front + [v]
  }

  function Sum(xs: seq<nat>): nat {
    if xs == [] then 0 else Sum(xs[..|xs| - 1]) + xs[|xs| - 1]
  }

  lemma AmountsStep(logs: seq<Log>, k: nat, expected: Expected)
    requires k < |logs|
    ensures var now, next := Amounts(logs[..k], expected), Amounts(logs[..k + 1], expected);
      match LogValue(logs[k], expected)
      case None => next == now
      case Some(v) => next == now + [v] && Sum(next) == Sum(now) + v
  {
    assert logs[..k + 1][..k] == logs[..k];
    var now := Amounts(logs[..k], expected);
    match LogValue(logs[k], expected)
    case None =>
    case Some(v) => assert (now + [v])[..|now|] == now;
  }

  // ---- what the logs of events amount to -----------------------------------------------

  lemma TopicMatches(a: string, expected: string)
    requires AddressDigits(a)
    ensures TopicIs(Some(AddressTopic(a)), expected) <==> Spells(expected, a)
  {
    var raw := "000000000000000000000000" + a;
    assert AddressTopic(a) == "0x" + raw;
    PrefixStripped(raw);
    assert raw[24..] == a;
    PrefixStripped(a);
    SpellsIs(expected, a);
  }

  lemma MatchesIs(ev: Event, expected: Expected)
    requires EventFits(ev)
    ensures Matches(PrintedLog(ev), expected) <==> Counts(ev, expected)
  {
    hide TopicIs, Spells, Strip0x, Lower, SameButCase, AddressTopic, IsHex;
    TopicMatches(ev.receiver, expected.receiver);
    TopicMatches(ev.token, expected.token);
    TopicMatches(ev.sender, expected.sender);
    LowerMerges(ev.topic, SETTLED_TOPIC);
    PrefixStripped(ev.contract);
    SpellsIs(expected.contract, ev.contract);
  }

  lemma TopicIsIff(topic: Option<string>, address: string)
    ensures TopicIs(topic, address) <==> EndsIn(topic, address)
  {
    hide Lower;
    if topic.Some? && |Strip0x(topic.value)| == 64 {
      var tail := Strip0x(topic.value)[24..];
      PrefixStripped(tail);
      LowerMerges(tail, Strip0x(address));
    }
  }

  /** Any log counts with `n` if and only if it shows the expected settlement of `n`. */
  lemma LogCountsIff(log: Log, expected: Expected, n: nat)
    ensures LogValue(log, expected) == Some(n) <==> Shows(log, expected, n)
  {
    hide TopicIs, EndsIn, Strip0x, Lower, SameButCase, IsHex, HexValue, ParseU256Hex;
    if log.address.Some? {
      LowerMerges(Strip0x(log.address.value), Strip0x(expected.contract));
    }
    if log.topics.Some? && |log.topics.value| >= 4 {
      TopicIsIff(log.topics.value[1], expected.receiver);
      TopicIsIff(log.topics.value[2], expected.token);
      TopicIsIff(log.topics.value[3], expected.sender);
      if log.topics.value[0].Some? {
        LowerMerges(log.topics.value[0].value, SETTLED_TOPIC);
      }
    }
    if log.data.Some? {
      ParseU256HexExact(log.data.value);
    }
    assert log.address.Some? ==> log.address == Some(log.address.value);
    assert log.topics.Some? ==> log.topics == Some(log.topics.value);
    assert log.data.Some? ==> log.data == Some(log.data.value);
  }

  /** The log of an event counts with exactly its amount, if the event counts. */
  lemma EventValue(ev: Event, expected: Expected)
    requires EventFits(ev)
    ensures LogValue(PrintedLog(ev), expected) == if Counts(ev, expected) then Some(ev.amount) else None
  {
    hide Matches, Counts, HexDigits, IsHex, HexValue, ParseU256Hex, Pow16;
    MatchesIs(ev, expected);
    Pow16Is(32);
    DigitsSpell(ev.amount, 64);
    PrefixStripped(HexDigits(ev.amount, 64));
    ParseU256HexExact("0x" + HexDigits(ev.amount, 64));
  }

  lemma {:induction false} EventAmounts(events: seq<Event>, expected: Expected)
    requires AllFit(events)
    ensures var amounts := Amounts(PrintedLogs(events), expected);
      Sum(amounts) == CountedTotal(events, expected) && (amounts != [] <==> AnyCounts(events, expected))
  {
    hide LogValue, Counts, PrintedLog, EventFits;
    if events != [] {
      var front, last := events[..|events| - 1], events[|events| - 1];
      EventAmounts(front, expected);
      EventValue(last, expected);
      assert PrintedLogs(events) == PrintedLogs(front) + [PrintedLog(last)];
      AmountsStep(PrintedLogs(events), |front|, expected);
      assert PrintedLogs(events)[..|front|] == PrintedLogs(front);
      assert PrintedLogs(events)[..|front| + 1] == PrintedLogs(events);
      assert events == front + [last];
    }
  }

  lemma AllEventAmounts(expected: Expected)
    ensures forall events :: AllFit(events) ==>
      var amounts := Amounts(PrintedLogs(events), expected);
      Sum(amounts) == CountedTotal(events, expected) && (amounts != [] <==> AnyCounts(events, expected))
  {
    hide *;
    forall events | AllFit(events)
      ensures var amounts := Amounts(PrintedLogs(events), expected);
        Sum(amounts) == CountedTotal(events, expected) && (amounts != [] <==> AnyCounts(events, expected))
    {
      EventAmounts(events, expected);
    }
  }

  lemma NoAmounts(logs: seq<Log>, expected: Expected)
    ensures Amounts(logs[..0], expected) == [] && Sum([]) == 0
  {
  }

  // ---- the readers ---------------------------------------------------------------------

  /** settled_log_amount: the log of an event has an amount, and it is the event's, exactly when it is not
      removed and its contract, receiver, token and sender are the expected ones. */
  method SettledLogAmount(log: Log, expected: Expected) returns (r: Option<string>)
    ensures r == match LogValue(log, expected) case None => None case Some(v) => Some(Print(v))
    ensures forall ev :: EventFits(ev) && log == PrintedLog(ev) ==>
      r == if Counts(ev, expected) then Some(Print(ev.amount)) else None
  {
    hide Counts, PrintedLog, EventFits, Print;
    forall ev | EventFits(ev)
      ensures LogValue(PrintedLog(ev), expected) == if Counts(ev, expected) then Some(ev.amount) else None
    {
      EventValue(ev, expected);
    }
    if !Matches(log, expected) || log.data.None? {
      return None;
    }
    var word := ParseU256Hex(log.data.value);
    if word.None? {
      return None;
    }
    var text := UintDecimal(word.value);
    r := Some(text);
  }

  /** settled_event_amount: the canonical decimal of the sum over the matching logs, or nothing
      when no log matches. A log that does not match cannot change it. */
  method SettledEventAmount(logs: Option<seq<Log>>, sender: Option<string>, contract: string, receiver: string,
                            token: string)
    returns (r: Option<string>)
    ensures r.Some? ==> logs.Some? && sender.Some?
    ensures logs.Some? && sender.Some? ==>
      var amounts := Amounts(logs.value, Expected(contract, receiver, token, sender.value));
      r == if amounts == [] then None else Some(Print(Sum(amounts)))
    ensures forall events :: logs == Some(PrintedLogs(events)) && sender.Some? && AllFit(events) ==>
        var expected := Expected(contract, receiver, token, sender.value);
        r == if AnyCounts(events, expected) then Some(Print(CountedTotal(events, expected))) else None
  {
    hide Amounts, Sum, LogValue, Print, Value, AllFit, AnyCounts, CountedTotal, PrintedLogs;
    if logs.None? || sender.None? {
      return None;
    }
    var expected := Expected(contract, receiver, token, sender.value);
    var total, matched := "0", false;
    ZeroPrinted();
    NoAmounts(logs.value, expected);
    for k := 0 to |logs.value|
      invariant total == Print(Sum(Amounts(logs.value[..k], expected)))
      invariant matched <==> Amounts(logs.value[..k], expected) != []
    {
      var amount := SettledLogAmount(logs.value[k], expected);
      AmountsStep(logs.value, k, expected);
      if amount.Some? {
        ghost var v := LogValue(logs.value[k], expected).value;
        PrintedAmount(Sum(Amounts(logs.value[..k], expected)));
        PrintedAmount(v);
        var sum := DecimalAdd(total, amount.value);
        if sum.None? { return None; }
        total, matched := sum.value, true;
      }
    }
    assert logs.value[..|logs.value|] == logs.value;
    AllEventAmounts(expected);
    r := if matched then Some(total) else None;
  }

  lemma PrintedAmount(n: nat)
    ensures Canonical(Print(n)) && Value(Print(n)) == n
  {
    PrintCanonical(n);
    ValuePrint(n);
  }

  /** uint128_hex_decimal_word: refuses exactly the words above 2^128 - 1. What it returns always
      parses as a u128, so the collector's `amount` cannot panic on a monitor answer. */
  method Uint128Decimal(word: seq<byte>) returns (r: Option<string>)
    requires |word| == WORD
    ensures r.Some? <==> BE(word) <= U128_MAX
    ensures r.Some? ==> Canonical(r.value) && Value(r.value) == BE(word)
  {
    var high := word[..16];
    HighHalf(word);
    if exists i :: 0 <= i < |high| && high[i] != 0 {
      return None;
    }
    PrintedAmount(BE(word));
    var text := UintDecimal(word);
    r := Some(text);
  }

  lemma {:induction false} AllZero(s: seq<byte>)
    ensures BE(s) == 0 <==> forall i :: 0 <= i < |s| ==> s[i] == 0
  {
    if s != [] {
      AllZero(s[..|s| - 1]);
      if BE(s) == 0 {
        forall i | 0 <= i < |s| ensures s[i] == 0 {
          assert i < |s| - 1 ==> s[..|s| - 1][i] == 0;
        }
      }
    }
  }

  lemma HighHalf(word: seq<byte>)
    requires |word| == WORD
    ensures BE(word) <= U128_MAX <==> forall i :: 0 <= i < 16 ==> word[i] == 0
  {
    var high, low := word[..16], word[16..];
    assert word == high + low;
    BEConcat(high, low);
    BEBound(low);
    Pow256Constants();
    AllZero(high);
    if BE(high) > 0 {
      assert BE(high) * Pow256(16) >= Pow256(16);
    }
    assert forall i :: 0 <= i < 16 ==> word[i] == high[i];
  }
}
