/** The text keys of the collector (rust/facilitator/src/auto_claim.rs:83-85, 592-596): due-queue
    keys, whose text order must be the order of the queue, and attempt keys. */
module Keys {
  import opened Decimal

  /** Channel ids are `0x` and hex digits; all that matters is that they sort before `~`. */
  predicate IsId(id: string) {
    id != [] && id[0] < '~'
  }

  function ZeroDigits(n: nat): (s: string)
    ensures |s| == n && IsDigits(s)
  {
    seq(n, _ => '0')
  }

  /** `{at:020}`. */
  function Pad20(at: nat): (s: string)
    requires at <= U64_MAX
    ensures |s| == 20 && IsDigits(s)
  {
    PrintFits(at);
    ZeroDigits(20 - |Print(at)|) + Print(at)
  }

  function DueKey(at: nat, id: string): (key: string)
    requires at <= U64_MAX
    ensures |key| == 21 + |id|
  {
    Pad20(at) + "|" + id
  }

  function KeyTime(key: string): nat
    requires |key| >= 21 && IsDigits(key[..20])
  {
    Value(key[..20])
  }

  function KeyId(key: string): string
    requires |key| >= 21
  {
    key[21..]
  }

  /** The prefix of a collection that sleeps until something happens to it. */
  function NeverPrefix(): string {
    Pad20(U64_MAX) + "|"
  }

  predicate IsNever(key: string)
    requires |key| >= 21
  {
    key[..21] == NeverPrefix()
  }

  lemma PrintFits(n: nat)
    requires n <= U64_MAX
    ensures |Print(n)| <= 20
  {
    PrintCanonical(n);
    ValuePrint(n);
    TwentyDigits(Print(n));
  }

  lemma {:induction false} ZeroDigitsValue(n: nat)
    ensures Value(ZeroDigits(n)) == 0
  {
    if n > 0 {
      ZeroDigitsValue(n - 1);
      assert ZeroDigits(n)[..n - 1] == ZeroDigits(n - 1);
    }
  }

  lemma Pad20Value(at: nat)
    requires at <= U64_MAX
    ensures Value(Pad20(at)) == at
  {
    PrintFits(at);
    var k := 20 - |Print(at)|;
    ZeroDigitsValue(k);
    ValueConcat(ZeroDigits(k), Print(at));
    ValuePrint(at);
    assert 0 * Pow10(|Print(at)|) == 0;
  }

  /** A key spells its time and its channel, so both can be read back. */
  lemma KeyParts(at: nat, id: string)
    requires at <= U64_MAX
    ensures var key := DueKey(at, id);
      && key[..20] == Pad20(at) && IsDigits(key[..20])
      && KeyTime(key) == at
      && KeyId(key) == id
      && (IsNever(key) <==> at == U64_MAX)
  {
    hide Pad20, Value;
    var key := DueKey(at, id);
    assert key[..20] == Pad20(at);
    assert key[..21] == Pad20(at) + "|";
    Pad20Value(at);
    Pad20Value(U64_MAX);
    if IsNever(key) {
      assert key[..21][..20] == Pad20(at) && NeverPrefix()[..20] == Pad20(U64_MAX);
    }
  }

  lemma KeyInjective(a: nat, i: string, b: nat, j: string)
    requires a <= U64_MAX && b <= U64_MAX
    ensures DueKey(a, i) == DueKey(b, j) <==> a == b && i == j
  {
    hide DueKey, KeyTime, KeyId;
    KeyParts(a, i);
    KeyParts(b, j);
  }

  /** Text order of the keys is numeric order of the times, then text order of the channels. */
  lemma KeyOrder(a: nat, i: string, b: nat, j: string)
    requires a <= U64_MAX && b <= U64_MAX
    ensures LexLess(DueKey(a, i), DueKey(b, j)) <==> a < b || (a == b && LexLess(i, j))
  {
    hide Pad20, Value, LexLess;
    assert DueKey(a, i) == Pad20(a) + ("|" + i) && DueKey(b, j) == Pad20(b) + ("|" + j);
    LexPrefix(Pad20(a), Pad20(b), "|" + i, "|" + j);
    LexPrefix("|", "|", i, j);
    BarIrreflexive();
    EqualLengthOrder(Pad20(a), Pad20(b));
    Pad20Value(a);
    Pad20Value(b);
  }

  lemma BarIrreflexive()
    ensures !LexLess("|", "|")
  {
    LexIrreflexive("|");
  }

  /** The dispatcher's upper bound `{now:020}|~` admits exactly the keys due by `now`. */
  lemma DueBound(at: nat, id: string, now: nat)
    requires at <= U64_MAX && now <= U64_MAX && IsId(id)
    ensures LexLeq(DueKey(at, id), DueKey(now, "~")) <==> at <= now
  {
    hide DueKey;
    KeyOrder(at, id, now, "~");
    KeyInjective(at, id, now, "~");
  }

  /** `auto-claim:{id}:{target}:{sequence}`. */
  function AttemptKey(id: string, target: nat, sequence: nat): string {
    "auto-claim:" + (id + (":" + (Print(target) + (":" + Print(sequence)))))
  }

  /** The collector's keys are marked as its own, so no manual settlement shares them. */
  lemma AttemptKeyMarked(id: string, target: nat, sequence: nat)
    ensures |AttemptKey(id, target, sequence)| > 11 && AttemptKey(id, target, sequence)[..11] == "auto-claim:"
  {
    hide Print;
    assert |"auto-claim:"| == 11;
  }

  lemma UpToColon(a: string, x: string, b: string, y: string)
    requires ':' !in a && ':' !in b && a + (":" + x) == b + (":" + y)
    ensures a == b && x == y
  {
    var s := a + (":" + x);
    assert s[|a|] == ':' && s[|b|] == ':';
    assert s[..|a|] == a && s[..|b|] == b;
    assert s[|a| + 1..] == x && s[|b| + 1..] == y;
  }

  /** Different attempts of channels have different key texts; channel ids are hex texts, with or without
      `0x`, so they hold no colon. */
  lemma AttemptKeyInjective(i: string, s: nat, m: nat, j: string, t: nat, n: nat)
    requires ':' !in i && ':' !in j && AttemptKey(i, s, m) == AttemptKey(j, t, n)
    ensures i == j && s == t && m == n
  {
    hide Print;
    var a := i + (":" + (Print(s) + (":" + Print(m))));
    var b := j + (":" + (Print(t) + (":" + Print(n))));
    assert AttemptKey(i, s, m)[11..] == a && AttemptKey(j, t, n)[11..] == b;
    assert a == b;
    UpToColon(i, Print(s) + (":" + Print(m)), j, Print(t) + (":" + Print(n)));
    ValuePrint(s);
    ValuePrint(t);
    UpToColon(Print(s), Print(m), Print(t), Print(n));
    ValuePrint(m);
    ValuePrint(n);
  }
}
