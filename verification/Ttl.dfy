/**
 The time-to-live of a bundle: 24 hours from admission, capped by the earliest expiry of its spend
 signatures, converting ledgers to wall-clock time at five seconds each.
 */
module Ttl {
  import opened Sequences
  import opened Bundles

  const DEFAULT_BUNDLE_TTL_MS := 86_400_000
  const LEDGER_CLOSE_TIME_MS := 5_000

  /** Estimated wall-clock expiry of a signature valid until ledger `expiration`. */
  function SignatureDeadline(now: int, latestLedger: int, expiration: int): int {
    now + (expiration - latestLedger) * LEDGER_CLOSE_TIME_MS
  }

  function Min(a: int, b: int): int { if b < a then b else a }

  /** The default window, lowered by each finite signature deadline in turn. */
  function BundleTtl(now: int, latestLedger: int, spends: seq<Operation>): int {
    if spends == [] then now + DEFAULT_BUNDLE_TTL_MS
    else
      var n := |spends| - 1;
      var rest := BundleTtl(now, latestLedger, spends[..n]);
      if spends[n].Spend? && spends[n].expiration.Some?
      then Min(rest, SignatureDeadline(now, latestLedger, spends[n].expiration.value)) else rest
  }

  /** `t` is no later than 24 hours from now and than every finite signature expiry at five seconds a ledger, in
      milliseconds. */
  ghost predicate Safe(t: int, now: int, latestLedger: int, spends: seq<Operation>) {
    && t <= now + 24 * 60 * 60 * 1000
    && forall op :: op in spends && op.Spend? && op.expiration.Some? ==>
         t <= now + (op.expiration.value - latestLedger) * 5 * 1000
  }

  /** A signature twelve ledgers ahead gives a bundle one minute; without one it has 24 hours. */
  lemma TtlInNumbers(now: int, latestLedger: int, utxo: UtxoId)
    ensures BundleTtl(now, latestLedger, [Spend(utxo, Some(latestLedger + 12))]) == now + 60_000
    ensures BundleTtl(now, latestLedger, [Spend(utxo, None)]) == now + 86_400_000
  {
    assert BundleTtl(now, latestLedger, [Spend(utxo, Some(latestLedger + 12))][..0]) == now + 86_400_000;
    assert BundleTtl(now, latestLedger, [Spend(utxo, None)][..0]) == now + 86_400_000;
  }

  /** The TTL is the greatest safe time. */
  lemma {:induction false} TtlIsGreatestSafe(now: int, latestLedger: int, spends: seq<Operation>, t: int)
    ensures Safe(BundleTtl(now, latestLedger, spends), now, latestLedger, spends)
    ensures Safe(t, now, latestLedger, spends) ==> t <= BundleTtl(now, latestLedger, spends)
  {
    if spends == [] {
    } else {
      var n := |spends| - 1;
      TtlIsGreatestSafe(now, latestLedger, spends[..n], t);
      assert spends == spends[..n] + [spends[n]];
      assert Safe(t, now, latestLedger, spends) ==> Safe(t, now, latestLedger, spends[..n]) && spends[n] in spends;
    }
  }

  /** `calculateBundleTtl`: one pass for the earliest expiration ledger, then one conversion. */
  method CalculateBundleTtl(now: int, classified: Option<ClassifiedOperations>, latestLedger: Option<int>)
    returns (ttl: int)
    ensures classified.None? || latestLedger.None? ==> ttl == now + DEFAULT_BUNDLE_TTL_MS
    ensures classified.Some? && latestLedger.Some? ==>
      && ttl == BundleTtl(now, latestLedger.value, classified.value.spend)
      && Safe(ttl, now, latestLedger.value, classified.value.spend)
  {
    var defaultTtl := now + DEFAULT_BUNDLE_TTL_MS;
    if classified.None? || latestLedger.None? {
      return defaultTtl;
    }
    var spends := classified.value.spend;
    var minExpirationLedger: Option<int> := None;
    for i := 0 to |spends|
      invariant BundleTtl(now, latestLedger.value, spends[..i])
             == if minExpirationLedger.None? then defaultTtl
                else Min(defaultTtl, SignatureDeadline(now, latestLedger.value, minExpirationLedger.value))
    {
      assert spends[..i + 1][..i] == spends[..i];
      if spends[i].Spend? && spends[i].expiration.Some? {
        var exp := spends[i].expiration.value;
        if minExpirationLedger.None? || exp < minExpirationLedger.value {
          minExpirationLedger := Some(exp);
        }
      }
    }
    assert spends[..|spends|] == spends;
    TtlIsGreatestSafe(now, latestLedger.value, spends, 0);
    if minExpirationLedger.None? {
      return defaultTtl;
    }
    var signatureTtl := SignatureDeadline(now, latestLedger.value, minExpirationLedger.value);
    ttl := if signatureTtl < defaultTtl then signatureTtl else defaultTtl;
  }
}
