/** Per-address counters of the canister: seller credit and next nonces (rust/facilitator/src/lib.rs). */
module Accounts {
  import opened Decimal

  function Get<K>(m: map<K, nat>, k: K): nat {
    if k in m then m[k] else 0
  }

  function SatAdd(a: nat, b: nat, max: nat): (r: nat)
    ensures r <= max
  {
    if a + b > max then max else a + b
  }

  function Larger(a: nat, b: nat): nat {
    if a >= b then a else b
  }

  /** reserve_nonce: the nonce it hands out, and the table it leaves. */
  function Reserved(nonces: map<string, nat>, from: string, pending: nat): nat {
    if from in nonces then Larger(nonces[from], pending) else pending
  }

  function Advance(nonces: map<string, nat>, from: string, nonce: nat): map<string, nat> {
    nonces[from := SatAdd(nonce, 1, U128_MAX)]
  }

  /** rollback_reserved_nonce: only the latest reservation can be given back. */
  function Rollback(nonces: map<string, nat>, from: string, nonce: nat): map<string, nat> {
    if from in nonces && nonces[from] == SatAdd(nonce, 1, U128_MAX) then nonces[from := nonce] else nonces
  }
}
