/** A concrete channel: one that can be opened, charged five, and collected for. */
module Examples {
  import opened Wrappers
  import opened Decimal
  import opened HexUtil
  import opened Batch

  /** `0x` and `n` equal digits. */
  function Hex(n: nat, digit: char): string {
    "0x" + seq(n, _ => digit)
  }

  function ExampleChannel(receiver: string, charged: string, pending: Option<Pending>): Channel {
    var a := Hex(40, '1');
    Channel(Hex(64, '2'), ChannelConfig(a, a, receiver, a, a, 900, Hex(64, '3')), charged, "5", Hex(130, '4'), "0", "0", 0,
            "0", None, 0, pending, 0)
  }

  /** With its first reservation open. */
  function OpenChannel(receiver: string, expiresAt: nat): Channel {
    ExampleChannel(receiver, "0", Some(Pending.Pending("first", "5", expiresAt)))
  }

  lemma HexIsHex(n: nat, digit: char)
    requires IsHexDigit(digit) && digit != '0'
    ensures var h := Hex(n, digit);
      && Strip0x(h) == h[2..] && |h[2..]| == n && IsHex(h[2..])
      && forall i :: 0 <= i < n ==> h[2..][i] == digit
  {
  }

  lemma HexAddress(digit: char)
    requires IsHexDigit(digit) && digit != '0'
    ensures var a := Hex(40, digit); IsAddress(a) && IsHex(Strip0x(a)) && |Strip0x(a)| == 40
  {
    HexIsHex(40, digit);
    assert Strip0x(Hex(40, digit))[0] != '0';
  }

  lemma ExampleTexts()
    ensures IsHexOf(Hex(64, '2'), 32) && IsHexOf(Hex(64, '3'), 32) && IsHexOf(Hex(130, '4'), 65)
  {
    HexIsHex(64, '2');
    HexIsHex(64, '3');
    HexIsHex(130, '4');
  }

  lemma ExampleAmounts()
    ensures ParseU128("0") == Some(0) && ParseU128("5") == Some(5) && Amount("0") == 0 && Amount("5") == 5
    ensures IsDecimal("0") && IsDecimal("5") && ParsedU256("0").Some? && ParsedU256("5").Some?
    ensures Value("0") == 0 && Value("5") == 5
  {
    assert "0"[..0] == "" && "5"[..0] == "";
    ParsesAgree("0");
    ParsesAgree("5");
  }

  lemma Creates(receiver: string, expiresAt: nat, nowSeconds: nat)
    requires IsAddress(receiver) && expiresAt > MillisOf(nowSeconds)
    ensures Accepted(None, OpenChannel(receiver, expiresAt), nowSeconds)
  {
    hide IsAddress, IsHexOf, ParseU128, Amount, IsDecimal, ParsedU256, Value, Hex, RequireMonotonic, MillisOf;
    ExampleTexts();
    ExampleAmounts();
    HexAddress('1');
  }

  lemma ChargesFive(receiver: string, expiresAt: nat, nowSeconds: nat)
    requires IsAddress(receiver) && expiresAt > MillisOf(nowSeconds)
    ensures Accepted(Some(OpenChannel(receiver, expiresAt).(channelId := Hex(64, '2'), revision := 1)),
                     ExampleChannel(receiver, "5", None), nowSeconds)
  {
    hide IsAddress, IsHexOf, ParseU128, Amount, IsDecimal, ParsedU256, Value, Hex, RequireMonotonic, MillisOf;
    ExampleTexts();
    ExampleAmounts();
    MonotonicIsNumeric("0", "5");
    MonotonicIsNumeric("0", "0");
    MonotonicIsNumeric("5", "5");
    HexAddress('1');
  }
}
