/** src/wormhole/deployments.ts: the chains RLUSD can be bridged between, and the limits of each lane. */
module RlusdLanes {
  import opened JsValues
  import opened Chains

  const NTT_CHAINS: set<Chain> := {Ethereum, Base, Optimism, Ink, Unichain}
  const FIFTY_MILLION: int := 50_000_000_000_000_000_000_000_000

  /** Limits that replace the registry's own; None keeps the registry's. */
  datatype Limits = Limits(outbound: Option<int>, inbound: Option<int>)

  /** By the registry nothing may leave any chain, and fifty million may arrive over a listed lane. */
  const STATIC_OUTBOUND: int := 0

  function StaticInbound(from: Chain, to: Chain): int {
    if from in NTT_CHAINS && to in NTT_CHAINS && from != to && from != Ethereum then FIFTY_MILLION else 0
  }

  predicate CanBridge(from: Chain, to: Chain, amount: int, limits: Limits) {
    && from != to && amount > 0 && from in NTT_CHAINS && to in NTT_CHAINS
    && limits.outbound.GetOr(STATIC_OUTBOUND) >= amount
    && limits.inbound.GetOr(StaticInbound(from, to)) >= amount
  }

  /** A lane takes an amount only on a live outbound limit; without a live inbound one, at most fifty million with
      eighteen decimals may arrive, and nothing from Ethereum. */
  lemma CanBridgeIff(from: Chain, to: Chain, amount: int, limits: Limits)
    ensures CanBridge(from, to, amount, limits) <==>
              && from != to && {from, to} <= {Ethereum, Base, Optimism, Ink, Unichain}
              && limits.outbound.Some? && 0 < amount <= limits.outbound.value
              && if limits.inbound.Some? then amount <= limits.inbound.value
                 else from != Ethereum && amount <= 50_000_000_000_000_000_000_000_000
  {
  }
}
