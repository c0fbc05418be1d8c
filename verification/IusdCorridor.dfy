/** src/initia/corridor.ts: which rail brings iUSD to an Initia chain. */
module IusdCorridor {
  import opened JsValues
  import opened Chains

  const USDC_PRIORITY: seq<Chain> := [Base, Optimism, ArbitrumSepolia, BaseSepolia, Ethereum]

  datatype Asset = USDC | AUSD

  datatype Rail = SkipApi | LayerZeroAusd | WormholeFallback

  datatype Input = Input(requestedChain: Chain, requestedAmount: int,
                         iusd: map<Chain, int>, usdc: map<Chain, int>, ausd: map<Chain, int>,
                         skipApiHealthy: Option<bool>, layerZeroAvailable: bool)

  datatype Result =
    | Direct(chain: Chain)
    | Bridge(rail: Rail, fromChain: Chain, toChain: Chain, asset: Asset, amount: int, seconds: nat, feeBps: nat)
    | NoRoute(invalidAmount: bool, suggestedFunding: seq<Chain>)

  function Seconds(r: Rail): nat {
    match r case SkipApi => 120 case LayerZeroAusd => 60 case WormholeFallback => 90
  }

  function FeeBps(r: Rail): nat {
    match r case SkipApi => 30 case LayerZeroAusd => 20 case WormholeFallback => 25
  }

  function MakeBridge(rail: Rail, from: Chain, to: Chain, asset: Asset, amount: int): Result {
    Bridge(rail, from, to, asset, amount, Seconds(rail), FeeBps(rail))
  }

  method SelectIusdCorridor(i: Input) returns (r: Result)
    ensures IsBest(i, r)
  {
    if i.requestedAmount <= 0 {
      return NoRoute(true, [i.requestedChain]);
    }
    var onInitia := Held(i.iusd, i.requestedChain);
    if onInitia >= i.requestedAmount {
      return Direct(i.requestedChain);
    }
    if i.layerZeroAvailable {
      var ausdEth := Held(i.ausd, Ethereum);
      if ausdEth >= i.requestedAmount {
        return MakeBridge(LayerZeroAusd, Ethereum, i.requestedChain, AUSD, i.requestedAmount);
      }
    }
    var skipHealthy := i.skipApiHealthy.GetOr(true);
    for k := 0 to |USDC_PRIORITY|
      invariant forall j :: 0 <= j < k ==> Held(i.usdc, USDC_PRIORITY[j]) < i.requestedAmount
    {
      var src := USDC_PRIORITY[k];
      if Held(i.usdc, src) < i.requestedAmount {
        continue;
      }
      assert FirstSource(i, k);
      if skipHealthy {
        return MakeBridge(SkipApi, src, i.requestedChain, USDC, i.requestedAmount);
      }
      return MakeBridge(WormholeFallback, src, i.requestedChain, USDC, i.requestedAmount);
    }
    var suggested := [i.requestedChain] + USDC_PRIORITY;
    if i.layerZeroAvailable {
      suggested := suggested + [Ethereum];
    }
    return NoRoute(false, suggested);
  }

  // ---------------------------------------------------------------- what the best route is

  predicate DirectApplies(i: Input) {
    i.requestedAmount > 0 && Held(i.iusd, i.requestedChain) >= i.requestedAmount
  }

  predicate LayerZeroApplies(i: Input) {
    i.requestedAmount > 0 && i.layerZeroAvailable && Held(i.ausd, Ethereum) >= i.requestedAmount
  }

  predicate UsdcApplies(i: Input) {
    i.requestedAmount > 0 && exists c :: c in USDC_PRIORITY && Held(i.usdc, c) >= i.requestedAmount
  }

  predicate FirstSource(i: Input, k: nat) {
    && k < |USDC_PRIORITY| && Held(i.usdc, USDC_PRIORITY[k]) >= i.requestedAmount
    && forall j :: 0 <= j < k ==> Held(i.usdc, USDC_PRIORITY[j]) < i.requestedAmount
  }

  predicate Delivers(i: Input, r: Result)
    requires r.Bridge?
  {
    r.toChain == i.requestedChain && r.amount == i.requestedAmount > 0
    && r.seconds == Seconds(r.rail) && r.feeBps == FeeBps(r.rail)
  }

  ghost predicate IsBest(i: Input, r: Result) {
    match r
    case Direct(chain) => DirectApplies(i) && chain == i.requestedChain
    case Bridge(LayerZeroAusd, from, _, asset, _, _, _) =>
      Delivers(i, r) && !DirectApplies(i) && LayerZeroApplies(i) && from == Ethereum && asset == AUSD
    case Bridge(rail, from, _, asset, _, _, _) =>
      && Delivers(i, r) && !DirectApplies(i) && !LayerZeroApplies(i) && asset == USDC
      && (rail == SkipApi <==> i.skipApiHealthy.GetOr(true))
      && exists k: nat :: FirstSource(i, k) && from == USDC_PRIORITY[k]
    case NoRoute(invalid, suggested) =>
      && !DirectApplies(i) && !LayerZeroApplies(i) && !UsdcApplies(i)
      && invalid == (i.requestedAmount <= 0)
      && suggested == if invalid then [i.requestedChain]
                      else [i.requestedChain] + USDC_PRIORITY + if i.layerZeroAvailable then [Ethereum] else []
  }

  // ---------------------------------------------------------------- theorems

  /** The order of the rules leaves no choice: there is one best route. */
  lemma BestIsUnique(i: Input, r: Result, q: Result)
    requires IsBest(i, r) && IsBest(i, q)
    ensures r == q
  {
    hide Held, Seconds, FeeBps;
    forall k: nat | FirstSource(i, k) && i.requestedAmount > 0 ensures UsdcApplies(i) {
      assert USDC_PRIORITY[k] in USDC_PRIORITY;
    }
    if r.Bridge? && q.Bridge? && r.rail != LayerZeroAusd && q.rail != LayerZeroAusd {
      var k: nat :| FirstSource(i, k) && r.fromChain == USDC_PRIORITY[k];
      var l: nat :| FirstSource(i, l) && q.fromChain == USDC_PRIORITY[l];
      assert k == l;
    }
  }

  /** The first chain of the list, in its order, that holds enough USDC; None when no chain does. */
  function UsdcSource(i: Input): Option<Chain> {
    if Held(i.usdc, Base) >= i.requestedAmount then Some(Base)
    else if Held(i.usdc, Optimism) >= i.requestedAmount then Some(Optimism)
    else if Held(i.usdc, ArbitrumSepolia) >= i.requestedAmount then Some(ArbitrumSepolia)
    else if Held(i.usdc, BaseSepolia) >= i.requestedAmount then Some(BaseSepolia)
    else if Held(i.usdc, Ethereum) >= i.requestedAmount then Some(Ethereum)
    else None
  }

  /** The best route by name, with what each rail takes: seconds and fee in basis points. */
  lemma BestByName(i: Input, r: Result)
    ensures IsBest(i, r) <==>
              r == if i.requestedAmount <= 0 then NoRoute(true, [i.requestedChain])
                   else if Held(i.iusd, i.requestedChain) >= i.requestedAmount then Direct(i.requestedChain)
                   else if i.layerZeroAvailable && Held(i.ausd, Ethereum) >= i.requestedAmount then
                     Bridge(LayerZeroAusd, Ethereum, i.requestedChain, AUSD, i.requestedAmount, 60, 20)
                   else if UsdcSource(i).Some? && i.skipApiHealthy != Some(false) then
                     Bridge(SkipApi, UsdcSource(i).value, i.requestedChain, USDC, i.requestedAmount, 120, 30)
                   else if UsdcSource(i).Some? then
                     Bridge(WormholeFallback, UsdcSource(i).value, i.requestedChain, USDC, i.requestedAmount, 90, 25)
                   else
                     NoRoute(false, [i.requestedChain, Base, Optimism, ArbitrumSepolia, BaseSepolia, Ethereum]
                                    + if i.layerZeroAvailable then [Ethereum] else [])
  {
    hide Held;
    if i.requestedAmount > 0 {
      FirstByName(i);
    }
    assert [i.requestedChain] + USDC_PRIORITY == [i.requestedChain, Base, Optimism, ArbitrumSepolia, BaseSepolia, Ethereum];
  }

  lemma FirstByName(i: Input)
    requires i.requestedAmount > 0
    ensures UsdcApplies(i) <==> UsdcSource(i).Some?
    ensures forall k: nat :: FirstSource(i, k) ==> Some(USDC_PRIORITY[k]) == UsdcSource(i)
    ensures UsdcSource(i).Some? ==> exists k: nat :: FirstSource(i, k) && UsdcSource(i).value == USDC_PRIORITY[k]
  {
    hide Held;
    assert USDC_PRIORITY[0] == Base && USDC_PRIORITY[1] == Optimism && USDC_PRIORITY[2] == ArbitrumSepolia
           && USDC_PRIORITY[3] == BaseSepolia && USDC_PRIORITY[4] == Ethereum;
    if UsdcSource(i).Some? {
      var k := if UsdcSource(i).value == Base then 0 else if UsdcSource(i).value == Optimism then 1
               else if UsdcSource(i).value == ArbitrumSepolia then 2 else if UsdcSource(i).value == BaseSepolia then 3 else 4;
      assert FirstSource(i, k);
    }
  }

  lemma NoRouteIff(i: Input, r: Result)
    requires IsBest(i, r)
    ensures r.NoRoute? <==> !DirectApplies(i) && !LayerZeroApplies(i) && !UsdcApplies(i)
  {
    hide Held, Seconds, FeeBps;
    forall k: nat | FirstSource(i, k) && i.requestedAmount > 0 ensures UsdcApplies(i) {
      assert USDC_PRIORITY[k] in USDC_PRIORITY;
    }
  }

  /** Holding more, or having one more rail, never turns a route into none. */
  lemma MoreHoldingsKeepRoute(i: Input, more: Input, r: Result, q: Result)
    requires IsBest(i, r) && IsBest(more, q) && !r.NoRoute?
    requires more.requestedChain == i.requestedChain && more.requestedAmount == i.requestedAmount
    requires AtLeast(more.iusd, i.iusd) && AtLeast(more.usdc, i.usdc) && AtLeast(more.ausd, i.ausd)
    requires i.layerZeroAvailable ==> more.layerZeroAvailable
    ensures !q.NoRoute?
  {
    NoRouteIff(i, r);
    NoRouteIff(more, q);
    HeldGrows(more.iusd, i.iusd, i.requestedChain);
    HeldGrows(more.ausd, i.ausd, Ethereum);
    if UsdcApplies(i) {
      var c :| c in USDC_PRIORITY && Held(i.usdc, c) >= i.requestedAmount;
      HeldGrows(more.usdc, i.usdc, c);
      assert Held(more.usdc, c) >= i.requestedAmount;
    }
  }

  /** A rail that would deliver: LayerZero from its AUSD, Skip while healthy or Wormhole from any USDC. */
  predicate RailApplies(i: Input, rail: Rail) {
    match rail
    case LayerZeroAusd => LayerZeroApplies(i)
    case SkipApi => UsdcApplies(i) && i.skipApiHealthy.GetOr(true)
    case WormholeFallback => UsdcApplies(i)
  }

  /** The rail chosen has the lowest fee of those that apply exactly when it is not Skip. */
  lemma CheapestIff(i: Input, r: Result)
    requires IsBest(i, r) && r.Bridge?
    ensures RailApplies(i, r.rail)
    ensures (forall rail :: RailApplies(i, rail) ==> r.feeBps <= FeeBps(rail))
            <==> LayerZeroApplies(i) || !i.skipApiHealthy.GetOr(true)
  {
    hide Held;
    forall k: nat | FirstSource(i, k) && i.requestedAmount > 0 ensures UsdcApplies(i) {
      assert USDC_PRIORITY[k] in USDC_PRIORITY;
    }
    if !LayerZeroApplies(i) {
      assert UsdcApplies(i) && RailApplies(i, WormholeFallback);
    }
  }
}
