/** What the receipt script accepts as the input of a claim or refund transaction
    (scripts/batch_settlement_receipt.ts:434-448, 514-585), and for which of the facilitator's. */
module ReceiptInputs {
  import opened Wrappers
  import opened Decimal
  import opened HexUtil
  import opened AbiStandard
  import opened Abi
  import opened AbiDecoder

  datatype Options = Options(
    channelId: Bytes,
    token: Bytes,
    receiver: Option<Bytes>,
    receiverAuthorizer: Option<Bytes>,
    withdrawDelay: Option<nat>,
    totalClaimed: Option<nat>)

  /** The channel-id hash for one contract: uninterpreted. */
  type Hash = DecodedConfig -> Bytes

  datatype Proof = Proof(minTotalClaimed: Option<nat>, minRefundNonce: Option<nat>)

  /** verifyChannelConfigScope. */
  predicate InScope(c: DecodedConfig, o: Options) {
    && c.token == o.token
    && (o.receiver.Some? ==> c.receiver == o.receiver.value)
    && (o.receiverAuthorizer.Some? ==> c.receiverAuthorizer == o.receiverAuthorizer.value)
    && (o.withdrawDelay.Some? ==> c.withdrawDelay == o.withdrawDelay.value)
  }

  predicate SameParties(a: DecodedConfig, b: DecodedConfig) {
    a.receiver == b.receiver && a.receiverAuthorizer == b.receiverAuthorizer && a.token == b.token
    && a.withdrawDelay == b.withdrawDelay
  }

  /** `claims.find(...)`. */
  function FirstTotal(claims: seq<DecodedClaim>, h: Hash, id: Bytes): Option<nat> {
    if claims == [] then None
    else if h(claims[0].config) == id then Some(claims[0].totalClaimed)
    else FirstTotal(claims[1..], h, id)
  }

  predicate Uniform(claims: seq<DecodedClaim>, o: Options)
    requires claims != []
  {
    forall i :: 0 <= i < |claims| ==>
      SameParties(claims[i].config, claims[0].config) && InScope(claims[i].config, o)
  }

  /** verifyClaimInputChannel after decoding. */
  function VerifyClaims(claims: seq<DecodedClaim>, h: Hash, o: Options): Option<nat> {
    if claims == [] then None
    else if !Uniform(claims, o) then None
    else
      match FirstTotal(claims, h, o.channelId)
      case None => None
      case Some(total) => if o.totalClaimed.Some? && total < o.totalClaimed.value then None else Some(total)
  }

  function VerifyClaimInput(input: Bytes, h: Hash, o: Options): Option<nat> {
    match Claims(input)
    case None => None
    case Some(claims) => VerifyClaims(claims, h, o)
  }

  function VerifyRefundCall(input: Bytes, h: Hash, o: Options): Option<nat> {
    match CalldataConfig(input)
    case None => None
    case Some(c) => if InScope(c, o) && h(c) == o.channelId then RefundNextNonce(input) else None
  }

  function Best(best: Option<nat>, n: nat): Option<nat> {
    if best.None? || n > best.value then Some(n) else best
  }

  /** One iteration of the multicall loop. */
  function AfterCall(proof: Proof, call: Bytes, h: Hash, o: Options): Option<Proof> {
    if HasSelector(call, CLAIM_SELECTOR) then
      match VerifyClaimInput(call, h, o)
      case None => None
      case Some(total) => Some(proof.(minTotalClaimed := Best(proof.minTotalClaimed, total)))
    else if HasSelector(call, REFUND_SELECTOR) then
      match VerifyRefundCall(call, h, o)
      case None => None
      case Some(nonce) => Some(proof.(minRefundNonce := Best(proof.minRefundNonce, nonce)))
    else None
  }

  function AfterCalls(calls: seq<Bytes>, h: Hash, o: Options): Option<Proof> {
    if calls == [] then Some(Proof(None, None))
    else
      match AfterCalls(calls[..|calls| - 1], h, o)
      case None => None
      case Some(proof) => AfterCall(proof, calls[|calls| - 1], h, o)
  }

  function VerifiedRefund(input: Bytes, h: Hash, o: Options): Option<Proof> {
    if HasSelector(input, REFUND_SELECTOR) then
      match VerifyRefundCall(input, h, o)
      case None => None
      case Some(nonce) => Some(Proof(None, Some(nonce)))
    else
      match Elements(input)
      case None => None
      case Some(calls) =>
        var proof := AfterCalls(calls, h, o);
        if proof.Some? && proof.value.minRefundNonce.Some? then proof else None
  }

  lemma {:induction false} FailedCall(calls: seq<Bytes>, k: nat, h: Hash, o: Options)
    requires k <= |calls| && AfterCalls(calls[..k], h, o).None?
    ensures AfterCalls(calls, h, o).None?
    decreases |calls|
  {
    if k < |calls| {
      var front := calls[..|calls| - 1];
      assert front[..k] == calls[..k];
      FailedCall(front, k, h, o);
    } else {
      assert calls[..k] == calls;
    }
  }

  /** verifyRefundInputChannel. */
  method VerifyRefundInput(input: Bytes, h: Hash, o: Options) returns (r: Option<Proof>)
    ensures r == VerifiedRefund(input, h, o)
  {
    hide AfterCall, VerifyRefundCall, Elements;
    if HasSelector(input, REFUND_SELECTOR) {
      var nonce := VerifyRefundCall(input, h, o);
      return if nonce.None? then None else Some(Proof(None, Some(nonce.value)));
    }
    var calls := MulticallElements(input);
    if calls.None? { return None; }
    var proof := Proof(None, None);
    for k := 0 to |calls.value|
      invariant AfterCalls(calls.value[..k], h, o) == Some(proof)
    {
      assert calls.value[..k + 1][..k] == calls.value[..k];
      var next := AfterCall(proof, calls.value[k], h, o);
      if next.None? {
        FailedCall(calls.value, k + 1, h, o);
        return None;
      }
      proof := next.value;
    }
    assert calls.value[..|calls.value|] == calls.value;
    r := if proof.minRefundNonce.None? then None else Some(proof);
  }

  // ---- what is accepted ----------------------------------------------------------------

  /** The expected token, and the expected receiver, authorizer and delay where there are such. */
  predicate Expected(token: Bytes, receiver: Bytes, authorizer: Bytes, delay: nat, o: Options) {
    && token == o.token
    && (o.receiver == None || o.receiver == Some(receiver))
    && (o.receiverAuthorizer == None || o.receiverAuthorizer == Some(authorizer))
    && (o.withdrawDelay == None || o.withdrawDelay == Some(delay))
  }

  predicate ConfigExpected(c: DecodedConfig, o: Options) {
    Expected(c.token, c.receiver, c.receiverAuthorizer, c.withdrawDelay, o)
  }

  /** The first claim of the expected channel claims `n`. */
  predicate FirstClaims(claims: seq<DecodedClaim>, h: Hash, id: Bytes, n: nat) {
    exists i :: 0 <= i < |claims|
      && h(claims[i].config) == id && claims[i].totalClaimed == n
      && forall j :: 0 <= j < i ==> h(claims[j].config) != id
  }

  /** There are claims, all of the expected parties and all of the same; the first one of the expected channel
      claims `n`, and no less than expected. */
  predicate ClaimsFit(claims: seq<DecodedClaim>, h: Hash, o: Options, n: nat) {
    && claims != []
    && (forall i :: 0 <= i < |claims| ==> ConfigExpected(claims[i].config, o))
    && (forall i, j :: 0 <= i < |claims| && 0 <= j < |claims| ==>
          && claims[i].config.receiver == claims[j].config.receiver
          && claims[i].config.receiverAuthorizer == claims[j].config.receiverAuthorizer
          && claims[i].config.token == claims[j].config.token
          && claims[i].config.withdrawDelay == claims[j].config.withdrawDelay)
    && FirstClaims(claims, h, o.channelId, n)
    && (o.totalClaimed == None || o.totalClaimed.value <= n)
  }

  lemma {:induction false} FirstTotalIs(claims: seq<DecodedClaim>, h: Hash, id: Bytes, n: nat)
    ensures FirstTotal(claims, h, id) == Some(n) <==> FirstClaims(claims, h, id, n)
  {
    if claims != [] && h(claims[0].config) != id {
      var rest := claims[1..];
      FirstTotalIs(rest, h, id, n);
      assert forall i :: 0 <= i < |rest| ==> rest[i] == claims[i + 1];
      if FirstClaims(rest, h, id, n) {
        var i :| 0 <= i < |rest| && h(rest[i].config) == id && rest[i].totalClaimed == n
          && forall j :: 0 <= j < i ==> h(rest[j].config) != id;
        assert forall j :: 0 < j < i + 1 ==> claims[j] == rest[j - 1];
        assert h(claims[i + 1].config) == id;
      }
      if FirstClaims(claims, h, id, n) {
        var i :| 0 <= i < |claims| && h(claims[i].config) == id && claims[i].totalClaimed == n
          && forall j :: 0 <= j < i ==> h(claims[j].config) != id;
        assert rest[i - 1] == claims[i];
      }
    }
  }

  lemma UniformIs(claims: seq<DecodedClaim>, o: Options)
    requires claims != []
    ensures Uniform(claims, o) <==>
      && (forall i :: 0 <= i < |claims| ==> ConfigExpected(claims[i].config, o))
      && (forall i, j :: 0 <= i < |claims| && 0 <= j < |claims| ==>
            && claims[i].config.receiver == claims[j].config.receiver
            && claims[i].config.receiverAuthorizer == claims[j].config.receiverAuthorizer
            && claims[i].config.token == claims[j].config.token
            && claims[i].config.withdrawDelay == claims[j].config.withdrawDelay)
  {
    forall c: DecodedConfig ensures InScope(c, o) <==> ConfigExpected(c, o) {
      ScopeIs(c, o);
    }
    hide InScope, ConfigExpected;
  }

  lemma ScopeIs(c: DecodedConfig, o: Options)
    ensures InScope(c, o) <==> ConfigExpected(c, o)
  {
  }

  /** The claims are accepted with total `n` if and only if they fit with that total. */
  lemma ClaimsVerifiedIff(claims: seq<DecodedClaim>, h: Hash, o: Options, n: nat)
    ensures VerifyClaims(claims, h, o) == Some(n) <==> ClaimsFit(claims, h, o, n)
  {
    hide Uniform, FirstTotal, FirstClaims, ConfigExpected;
    if claims != [] {
      UniformIs(claims, o);
      FirstTotalIs(claims, h, o.channelId, n);
    }
  }

  // ---- the calls of a refund -----------------------------------------------------------

  predicate ClaimCallFits(call: Bytes, h: Hash, o: Options, n: nat) {
    && |call| >= 4 && call[..4] == CLAIM_SELECTOR
    && Claims(call).Some? && ClaimsFit(Claims(call).value, h, o, n)
  }

  predicate RefundCallFits(call: Bytes, h: Hash, o: Options, n: nat) {
    && |call| >= 4 && call[..4] == REFUND_SELECTOR
    && CalldataConfig(call).Some? && ConfigExpected(CalldataConfig(call).value, o)
    && h(CalldataConfig(call).value) == o.channelId
    && RefundNextNonce(call) == Some(n)
  }

  ghost predicate CallFits(call: Bytes, h: Hash, o: Options) {
    exists n :: ClaimCallFits(call, h, o, n) || RefundCallFits(call, h, o, n)
  }

  function ClaimShows(h: Hash, o: Options): (Bytes, nat) -> bool {
    (call: Bytes, n: nat) => ClaimCallFits(call, h, o, n)
  }

  function RefundShows(h: Hash, o: Options): (Bytes, nat) -> bool {
    (call: Bytes, n: nat) => RefundCallFits(call, h, o, n)
  }

  /** The largest number any of the calls shows, if one does. */
  ghost predicate Largest(best: Option<nat>, calls: seq<Bytes>, shows: (Bytes, nat) -> bool) {
    match best
    case None => forall call, n: nat :: call in calls ==> !shows(call, n)
    case Some(m) =>
      && (exists call :: call in calls && shows(call, m))
      && forall call, n: nat :: call in calls && shows(call, n) ==> n <= m
  }

  ghost predicate Reports(proof: Proof, calls: seq<Bytes>, h: Hash, o: Options) {
    && Largest(proof.minTotalClaimed, calls, ClaimShows(h, o))
    && Largest(proof.minRefundNonce, calls, RefundShows(h, o))
  }

  lemma ClaimCallIs(call: Bytes, h: Hash, o: Options, n: nat)
    ensures HasSelector(call, CLAIM_SELECTOR) && VerifyClaimInput(call, h, o) == Some(n) <==> ClaimCallFits(call, h, o, n)
  {
    hide VerifyClaims, ClaimsFit, Claims;
    if Claims(call).Some? {
      ClaimsVerifiedIff(Claims(call).value, h, o, n);
    }
  }

  lemma RefundCallIs(call: Bytes, h: Hash, o: Options, n: nat)
    ensures HasSelector(call, REFUND_SELECTOR) && VerifyRefundCall(call, h, o) == Some(n) <==> RefundCallFits(call, h, o, n)
  {
    hide CalldataConfig, RefundNextNonce, InScope, ConfigExpected;
    if CalldataConfig(call).Some? {
      ScopeIs(CalldataConfig(call).value, o);
    }
  }

  lemma {:induction false} LargestExtends(best: Option<nat>, calls: seq<Bytes>, call: Bytes, n: Option<nat>,
                                          shows: (Bytes, nat) -> bool)
    requires Largest(best, calls, shows) && forall m: nat :: shows(call, m) <==> n == Some(m)
    ensures Largest(if n.None? then best else Best(best, n.value), calls + [call], shows)
  {
    var all := calls + [call];
    assert forall c :: c in all <==> c in calls || c == call;
    var next := if n.None? then best else Best(best, n.value);
    if next.Some? {
      if n.Some? && next == n {
        assert call in all && shows(call, next.value);
      } else {
        var c :| c in calls && shows(c, best.value);
        assert c in all;
      }
    }
  }

  lemma OneCall(proof: Proof, calls: seq<Bytes>, call: Bytes, h: Hash, o: Options)
    requires Reports(proof, calls, h, o)
    ensures var next := AfterCall(proof, call, h, o);
      && (next.Some? <==> CallFits(call, h, o))
      && (next.Some? ==> Reports(next.value, calls + [call], h, o))
  {
    hide ClaimCallFits, RefundCallFits, VerifyClaimInput, VerifyRefundCall, HasSelector, Largest, Best;
    forall n: nat
      ensures HasSelector(call, CLAIM_SELECTOR) && VerifyClaimInput(call, h, o) == Some(n) <==> ClaimCallFits(call, h, o, n)
      ensures HasSelector(call, REFUND_SELECTOR) && VerifyRefundCall(call, h, o) == Some(n) <==> RefundCallFits(call, h, o, n)
    {
      ClaimCallIs(call, h, o, n);
      RefundCallIs(call, h, o, n);
    }
    SelectorsDiffer(call);
    var total := if HasSelector(call, CLAIM_SELECTOR) then VerifyClaimInput(call, h, o) else None;
    var nonce := if HasSelector(call, REFUND_SELECTOR) then VerifyRefundCall(call, h, o) else None;
    LargestExtends(proof.minTotalClaimed, calls, call, total, ClaimShows(h, o));
    LargestExtends(proof.minRefundNonce, calls, call, nonce, RefundShows(h, o));
  }

  /** Calls pass if and only if each is a claim or a refund that fits; they then show the largest claimed total
      and the largest next nonce among them. */
  lemma {:induction false} CallsVerifiedIff(calls: seq<Bytes>, h: Hash, o: Options)
    ensures AfterCalls(calls, h, o).Some? <==> forall call :: call in calls ==> CallFits(call, h, o)
    ensures AfterCalls(calls, h, o).Some? ==> Reports(AfterCalls(calls, h, o).value, calls, h, o)
  {
    hide AfterCall, CallFits, ClaimCallFits, RefundCallFits;
    if calls != [] {
      var front, last := calls[..|calls| - 1], calls[|calls| - 1];
      CallsVerifiedIff(front, h, o);
      assert calls == front + [last];
      if AfterCalls(front, h, o).Some? {
        OneCall(AfterCalls(front, h, o).value, front, last, h, o);
      }
    }
  }

  /** A refund input is accepted if and only if it is one fitting refund call, or calls that all fit with a
      refund among them. */
  lemma RefundVerifiedIff(input: Bytes, h: Hash, o: Options)
    ensures var r, calls := VerifiedRefund(input, h, o), Elements(input);
      if HasSelector(input, REFUND_SELECTOR) then
        && (r.Some? <==> exists n :: RefundCallFits(input, h, o, n))
        && (r.Some? ==> r.value.minTotalClaimed.None? && Largest(r.value.minRefundNonce, [input], RefundShows(h, o)))
      else
        && (r.Some? <==>
              && calls.Some? && (forall call :: call in calls.value ==> CallFits(call, h, o))
              && exists call, n :: call in calls.value && RefundCallFits(call, h, o, n))
        && (r.Some? ==> Reports(r.value, calls.value, h, o))
  {
    hide RefundCallFits, ClaimCallFits, CallFits, AfterCalls, VerifyRefundCall, HasSelector, Elements;
    if HasSelector(input, REFUND_SELECTOR) {
      forall n: nat ensures VerifyRefundCall(input, h, o) == Some(n) <==> RefundCallFits(input, h, o, n) {
        RefundCallIs(input, h, o, n);
      }
      assert input in [input];
    } else if Elements(input).Some? {
      var calls := Elements(input).value;
      CallsVerifiedIff(calls, h, o);
      assert forall call, n: nat :: RefundShows(h, o)(call, n) == RefundCallFits(call, h, o, n);
    }
  }

  // ---- the facilitator's own refunds ---------------------------------------------------

  lemma SelectorsDiffer(input: Bytes)
    ensures !(HasSelector(input, MULTICALL_SELECTOR) && HasSelector(input, REFUND_SELECTOR))
    ensures !(HasSelector(input, CLAIM_SELECTOR) && HasSelector(input, REFUND_SELECTOR))
  {
    assert MULTICALL_SELECTOR[0] != REFUND_SELECTOR[0] && CLAIM_SELECTOR[0] != REFUND_SELECTOR[0];
  }

  lemma TwoCalls(a: Bytes, b: Bytes, h: Hash, o: Options)
    ensures AfterCalls([a, b], h, o) ==
      match AfterCall(Proof(None, None), a, h, o)
      case None => None
      case Some(proof) => AfterCall(proof, b, h, o)
  {
    assert [a, b][..1] == [a] && [a][..0] == [] && [a, b][1] == b && [a][0] == a;
    assert AfterCalls([], h, o) == Some(Proof(None, None));
    assert AfterCalls([a], h, o) == AfterCall(Proof(None, None), a, h, o);
  }

  /** The encoder's configuration has the expected parties. */
  predicate EncodedExpected(c: Config, o: Options) {
    Expected(c.token, c.receiver, c.receiverAuthorizer, c.withdrawDelay, o)
  }

  /** The encoder's claims fit with total `n`. */
  predicate EncodedFit(claims: seq<Claim>, h: Hash, o: Options, n: nat) {
    && claims != []
    && (forall i :: 0 <= i < |claims| ==> EncodedExpected(claims[i].config, o))
    && (forall i, j :: 0 <= i < |claims| && 0 <= j < |claims| ==>
          && claims[i].config.receiver == claims[j].config.receiver
          && claims[i].config.receiverAuthorizer == claims[j].config.receiverAuthorizer
          && claims[i].config.token == claims[j].config.token
          && claims[i].config.withdrawDelay == claims[j].config.withdrawDelay)
    && (exists i :: 0 <= i < |claims|
          && h(Decoded(claims[i].config)) == o.channelId && claims[i].totalClaimed == n
          && forall j :: 0 <= j < i ==> h(Decoded(claims[j].config)) != o.channelId)
    && (o.totalClaimed == None || o.totalClaimed.value <= n)
  }

  lemma EncodedFitIs(claims: seq<Claim>, h: Hash, o: Options, n: nat)
    ensures ClaimsFit(DecodedClaims(claims), h, o, n) <==> EncodedFit(claims, h, o, n)
  {
    hide Expected;
    var decoded := DecodedClaims(claims);
    if FirstClaims(decoded, h, o.channelId, n) {
      var i :| 0 <= i < |decoded| && h(decoded[i].config) == o.channelId && decoded[i].totalClaimed == n
        && forall j :: 0 <= j < i ==> h(decoded[j].config) != o.channelId;
      assert forall j :: 0 <= j < i ==> h(Decoded(claims[j].config)) != o.channelId;
      assert h(Decoded(claims[i].config)) == o.channelId && claims[i].totalClaimed == n;
    }
    if i :| 0 <= i < |claims|
          && h(Decoded(claims[i].config)) == o.channelId && claims[i].totalClaimed == n
          && forall j :: 0 <= j < i ==> h(Decoded(claims[j].config)) != o.channelId {
      assert h(decoded[i].config) == o.channelId && decoded[i].totalClaimed == n;
      assert forall j :: 0 <= j < i ==> h(decoded[j].config) != o.channelId;
    }
  }

  /** The refund calldata of the facilitator, bare or with claims, is accepted by the receipt script if and
      only if it refunds the expected channel of the expected parties and the claims it carries fit; the proof
      is then the nonce that follows and the total of the first claim of the channel. */
  lemma RefundCalldataVerified(c: Config, amount: u128, nonce: nat, signature: Bytes, claims: seq<Claim>,
                               claimSignature: Bytes, h: Hash, o: Options, proof: Proof)
    requires nonce < Pow256(32)
    requires |RefundCalldata(c, amount, nonce, signature, claims, claimSignature)| <= U64_MAX
    requires |ClaimCall(claims, claimSignature)| <= U64_MAX
    ensures VerifiedRefund(RefundCalldata(c, amount, nonce, signature, claims, claimSignature), h, o) == Some(proof) <==>
      && EncodedExpected(c, o) && h(Decoded(c)) == o.channelId
      && proof.minRefundNonce == Some(nonce + 1)
      && (if claims == [] then proof.minTotalClaimed == None
          else proof.minTotalClaimed.Some? && EncodedFit(claims, h, o, proof.minTotalClaimed.value))
  {
    hide VerifyClaims, InScope, EncodedFit, EncodedExpected, ClaimsFit, RefundCalldata, VerifiedRefund;
    RefundDecides(c, amount, nonce, signature, claims, claimSignature, h, o);
    EncodedScope(c, o);
    if proof.minTotalClaimed.Some? {
      var n := proof.minTotalClaimed.value;
      ClaimsVerifiedIff(DecodedClaims(claims), h, o, n);
      EncodedFitIs(claims, h, o, n);
    }
  }

  lemma EncodedScope(c: Config, o: Options)
    ensures InScope(Decoded(c), o) <==> EncodedExpected(c, o)
  {
  }

  lemma RefundDecides(c: Config, amount: u128, nonce: nat, signature: Bytes, claims: seq<Claim>,
                      claimSignature: Bytes, h: Hash, o: Options)
    requires nonce < Pow256(32)
    requires |RefundCalldata(c, amount, nonce, signature, claims, claimSignature)| <= U64_MAX
    requires |ClaimCall(claims, claimSignature)| <= U64_MAX
    ensures var expected := InScope(Decoded(c), o) && h(Decoded(c)) == o.channelId;
      var total := VerifyClaims(DecodedClaims(claims), h, o);
      VerifiedRefund(RefundCalldata(c, amount, nonce, signature, claims, claimSignature), h, o) ==
      if !expected || (claims != [] && total.None?) then None
      else Some(Proof(if claims == [] then None else total, Some(nonce + 1)))
  {
    hide ClaimCall, RefundCall, Multicall, HasSelector, VerifyClaims, InScope, Claims, CalldataConfig, RefundNextNonce,
      Elements, DecodedClaims, AfterCalls;
    var refund := RefundCall(c, amount, nonce, signature);
    RefundCallRoundTrip(c, amount, nonce, signature);
    if claims != [] {
      var claim := ClaimCall(claims, claimSignature);
      ClaimCallArray(claims, claimSignature);
      ClaimCallRoundTrip(claims, claimSignature);
      MulticallRoundTrip([claim, refund]);
      SelectorsDiffer(Multicall([claim, refund]));
      SelectorsDiffer(refund);
      TwoCalls(claim, refund, h, o);
    }
  }
}
