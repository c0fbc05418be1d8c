/** Chain keys the two corridor selectors name, and balances held per chain. */
module Chains {

  datatype Chain =
    | Ethereum | Base | Optimism | Ink | Unichain | Xrpl | Flare
    | ArbitrumSepolia | BaseSepolia | InitiaMainnet | InitiaTestnet
    | Other(key: string)

  /** A balance that is not listed is zero. */
  function Held(holdings: map<Chain, int>, c: Chain): int {
    if c in holdings then holdings[c] else 0
  }

  /** b holds at least what a holds, on every chain. */
  predicate AtLeast(b: map<Chain, int>, a: map<Chain, int>) {
    && (forall c :: c in b ==> Held(b, c) >= Held(a, c))
    && (forall c :: c in a ==> Held(b, c) >= Held(a, c))
  }

  lemma HeldGrows(b: map<Chain, int>, a: map<Chain, int>, c: Chain)
    requires AtLeast(b, a)
    ensures Held(b, c) >= Held(a, c)
  {
  }
}
