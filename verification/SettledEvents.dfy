/** The contract's settled events, as the RPC prints them into a receipt's logs. */
module SettledEvents {
  import opened Wrappers
  import opened HexUtil

  const SETTLED_TOPIC := "0x7337b4386b690fdb8ba66905b92b9d45d33bc6626ee2620c905fb150ec0cc47d"

  /** JSON members are optional: a log of the wrong shape is skipped, not refused. */
  datatype Log = Log(
    removed: bool,
    address: Option<string>,
    topics: Option<seq<Option<string>>>,
    data: Option<string>)

  datatype Expected = Expected(contract: string, receiver: string, token: string, sender: string)

  /** An event with three indexed addresses, each of forty hex digits, and a number below 2^256. */
  datatype Event = Event(
    removed: bool,
    contract: string,
    topic: string,
    receiver: string,
    token: string,
    sender: string,
    amount: nat)

  predicate AddressDigits(a: string) {
    |a| == 40 && IsHex(a)
  }

  predicate EventFits(ev: Event) {
    && AddressDigits(ev.contract) && AddressDigits(ev.receiver) && AddressDigits(ev.token) && AddressDigits(ev.sender)
    && ev.amount < Pow256(32)
  }

  predicate AllFit(events: seq<Event>) {
    forall i :: 0 <= i < |events| ==> EventFits(events[i])
  }

  function HexChar(d: nat): char
    requires d < 16
  {
    "0123456789abcdef"[d]
  }

  /** The last `k` hex digits of `n`. */
  function HexDigits(n: nat, k: nat): (s: string)
    ensures |s| == k
  {
    if k == 0 then "" else HexDigits(n / 16, k - 1) + [HexChar(n % 16)]
  }

  function AddressTopic(a: string): string {
    "0x" + "000000000000000000000000" + a
  }

  /** The log of an event: its topic, the padded words of receiver, token and sender, the word of the amount. */
  function PrintedLog(ev: Event): Log {
    Log(ev.removed,
        Some("0x" + ev.contract),
        Some([Some(ev.topic), Some(AddressTopic(ev.receiver)), Some(AddressTopic(ev.token)),
              Some(AddressTopic(ev.sender))]),
        Some("0x" + HexDigits(ev.amount, 64)))
  }

  function PrintedLogs(events: seq<Event>): seq<Log> {
    seq(|events|, i requires 0 <= i < |events| => PrintedLog(events[i]))
  }

  /** The text spells the address, with or without `0x`, letter case aside. */
  predicate Spells(text: string, a: string) {
    SameButCase(text, a) || SameButCase(text, "0x" + a)
  }

  /** The event is the expected settlement. */
  predicate Counts(ev: Event, expected: Expected) {
    && !ev.removed && SameButCase(ev.topic, SETTLED_TOPIC)
    && Spells(expected.contract, ev.contract) && Spells(expected.receiver, ev.receiver)
    && Spells(expected.token, ev.token) && Spells(expected.sender, ev.sender)
  }

  function CountedTotal(events: seq<Event>, expected: Expected): nat {
    if events == [] then 0
    else CountedTotal(events[..|events| - 1], expected)
         + if Counts(events[|events| - 1], expected) then events[|events| - 1].amount else 0
  }

  predicate AnyCounts(events: seq<Event>, expected: Expected) {
    exists i :: 0 <= i < |events| && Counts(events[i], expected)
  }

  /** A topic that ends in the address, whatever it is padded with. */
  predicate EndsIn(topic: Option<string>, address: string) {
    topic.Some? && |Strip0x(topic.value)| == 64 && SameButCase(Strip0x(topic.value)[24..], Strip0x(address))
  }

  /** The log, printed by whomever, is the expected settlement of `n`. */
  ghost predicate Shows(log: Log, expected: Expected, n: nat) {
    && log.removed == false
    && (exists a :: log.address == Some(a) && SameButCase(Strip0x(a), Strip0x(expected.contract)))
    && (exists ts :: log.topics == Some(ts) && 4 <= |ts|
         && (exists t :: ts[0] == Some(t) && SameButCase(t, SETTLED_TOPIC))
         && EndsIn(ts[1], expected.receiver) && EndsIn(ts[2], expected.token) && EndsIn(ts[3], expected.sender))
    && (exists d :: log.data == Some(d) && |Strip0x(d)| <= 64 && IsHex(Strip0x(d)) && HexValue(Strip0x(d)) == n)
  }

  // ---- printing and reading ------------------------------------------------------------

  function Pow16(k: nat): (p: nat)
    ensures p > 0
  {
    if k == 0 then 1 else 16 * Pow16(k - 1)
  }

  lemma {:induction false} Pow16Is(k: nat)
    ensures Pow16(2 * k) == Pow256(k)
  {
    if k > 0 {
      Pow16Is(k - 1);
      assert Pow16(2 * k - 1) == 16 * Pow16(2 * (k - 1));
    }
  }

  /** Enough digits spell the number. */
  lemma {:induction false} DigitsSpell(n: nat, k: nat)
    requires n < Pow16(k)
    ensures IsHex(HexDigits(n, k)) && HexValue(HexDigits(n, k)) == n
  {
    if k > 0 {
      DigitsSpell(n / 16, k - 1);
      var s := HexDigits(n, k);
      assert s[..k - 1] == HexDigits(n / 16, k - 1);
      CharSpells(n % 16);
    }
  }

  lemma CharSpells(d: nat)
    requires d < 16
    ensures IsHexDigit(HexChar(d)) && HexDigit(HexChar(d)) == d
  {
  }

  /** Without its prefix an expected text is the address exactly when it spells it. */
  lemma SpellsIs(text: string, a: string)
    requires AddressDigits(a)
    ensures Lower(Strip0x(text)) == Lower(a) <==> Spells(text, a)
  {
    LowerMerges(Strip0x(text), a);
    if |text| >= 2 {
      assert text[..2] == [text[0], text[1]];
      assert IsHexDigit(a[1]);
      assert ("0x" + a)[0] == '0' && ("0x" + a)[1] == 'x';
      assert forall i :: 0 <= i < |a| ==> ("0x" + a)[i + 2] == a[i];
    }
  }

  lemma PrefixStripped(s: string)
    ensures Strip0x("0x" + s) == s
  {
    assert ("0x" + s)[..2] == "0x";
  }
}
