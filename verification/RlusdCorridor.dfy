/**
 * src/payrouter/corridor.ts: which way RLUSD reaches the chain a seller asks
 * for. The selector tries rules in a fixed order and takes the first that applies; IsBest says the same
 * without an algorithm.
 */
module RlusdCorridor {
  import opened JsValues
  import opened Chains
  import opened RlusdLanes

  const SOURCE_PRIORITY: seq<Chain> := [Optimism, Base, Unichain, Ink, Ethereum]

  datatype Input = Input(
    requestedChain: Chain, requestedAmount: int, holdings: map<Chain, int>, liveLimits: Limits,
    xrpDrops: Option<int>, fxrp: Option<int>, xrplDestination: Option<string>,
    allowXrpfi: bool, allowReverseBridge: bool)

  datatype Decision =
    | Direct(chain: Chain)
    | NttBridge(fromChain: Chain, toChain: Chain, amount: int)
    | RedeemThenSwap(amountFxrp: int, xrplDestination: string, expectedRlusd: int)
    | RedeemSwapThenBridge(amountFxrp: int, bridgeToChain: Chain)
    | MintFxrp(amountXrp: int, stopChain: Chain)
    | NoRoute(invalidAmount: bool, suggestedFunding: seq<Chain>)

  function Suggested(i: Input): seq<Chain> {
    [i.requestedChain]
    + (if i.requestedChain in NTT_CHAINS then Others(SOURCE_PRIORITY, i.requestedChain) else [])
    + (if i.allowXrpfi then [Xrpl, Flare] else [])
  }

  function Others(chains: seq<Chain>, c: Chain): seq<Chain> {
    if chains == [] then []
    else Others(chains[..|chains| - 1], c) + if chains[|chains| - 1] != c then [chains[|chains| - 1]] else []
  }

  // ---------------------------------------------------------------- the selector

  /** The first source in priority order that holds enough and has a lane to the requested chain. */
  method FindSource(i: Input) returns (source: Option<Chain>)
    requires i.requestedAmount > 0
    ensures source.Some? ==> exists k: nat :: FirstViable(i, k) && source.value == SOURCE_PRIORITY[k]
    ensures source.None? <==> !BridgeApplies(i)
  {
    if i.requestedChain in NTT_CHAINS {
      hide CanBridge;
      for k := 0 to |SOURCE_PRIORITY|
        invariant forall j :: 0 <= j < k ==> !Viable(i, SOURCE_PRIORITY[j])
      {
        var candidate := SOURCE_PRIORITY[k];
        if candidate == i.requestedChain {
          continue;
        }
        if Held(i.holdings, candidate) < i.requestedAmount {
          continue;
        }
        if CanBridge(candidate, i.requestedChain, i.requestedAmount, i.liveLimits) {
          assert FirstViable(i, k) && candidate in SOURCE_PRIORITY;
          return Some(candidate);
        }
      }
      hide Viable;
      assert forall c :: c in SOURCE_PRIORITY ==> exists j :: 0 <= j < |SOURCE_PRIORITY| && c == SOURCE_PRIORITY[j];
    }
    return None;
  }

  method SuggestFunding(i: Input) returns (suggested: seq<Chain>)
    ensures suggested == Suggested(i)
  {
    suggested := [i.requestedChain];
    if i.requestedChain in NTT_CHAINS {
      for k := 0 to |SOURCE_PRIORITY|
        invariant suggested == [i.requestedChain] + Others(SOURCE_PRIORITY[..k], i.requestedChain)
      {
        assert SOURCE_PRIORITY[..k + 1][..k] == SOURCE_PRIORITY[..k];
        if SOURCE_PRIORITY[k] != i.requestedChain {
          suggested := suggested + [SOURCE_PRIORITY[k]];
        }
      }
      assert SOURCE_PRIORITY[..|SOURCE_PRIORITY|] == SOURCE_PRIORITY;
    }
    if i.allowXrpfi {
      suggested := suggested + [Xrpl];
      suggested := suggested + [Flare];
    }
  }

  method SelectRlusdCorridor(i: Input) returns (d: Decision)
    ensures IsBest(i, d)
  {
    hide CanBridge, Viable, FirstViable, Suggested, Held, BridgeApplies;
    if i.requestedAmount <= 0 {
      NothingToBridge(i);
      return NoRoute(true, [i.requestedChain]);
    }
    var direct := Held(i.holdings, i.requestedChain);
    if direct >= i.requestedAmount {
      return Direct(i.requestedChain);
    }
    var source := FindSource(i);
    if source.Some? {
      return NttBridge(source.value, i.requestedChain, i.requestedAmount);
    }
    if i.allowXrpfi {
      var fxrp := i.fxrp.GetOr(0);
      var xrpDrops := i.xrpDrops.GetOr(0);
      if i.requestedChain == Xrpl && fxrp >= i.requestedAmount {
        return RedeemThenSwap(i.requestedAmount, i.xrplDestination.GetOr("rXrplDestinationFromAgent"), i.requestedAmount);
      }
      if i.allowReverseBridge && i.requestedChain in NTT_CHAINS && Xrpl in NTT_CHAINS && fxrp >= i.requestedAmount {
        return RedeemSwapThenBridge(i.requestedAmount, i.requestedChain);
      }
      if i.requestedChain in NTT_CHAINS && xrpDrops >= i.requestedAmount && fxrp == 0 {
        var noEvmHoldings := forall c <- SOURCE_PRIORITY :: Held(i.holdings, c) < i.requestedAmount;
        if noEvmHoldings {
          return MintFxrp(i.requestedAmount, Flare);
        }
      }
    }
    var suggested := SuggestFunding(i);
    return NoRoute(false, suggested);
  }

  // ---------------------------------------------------------------- what the best route is

  predicate DirectApplies(i: Input) {
    i.requestedAmount > 0 && Held(i.holdings, i.requestedChain) >= i.requestedAmount
  }

  predicate Viable(i: Input, source: Chain) {
    source != i.requestedChain && Held(i.holdings, source) >= i.requestedAmount
    && CanBridge(source, i.requestedChain, i.requestedAmount, i.liveLimits)
  }

  predicate FirstViable(i: Input, k: nat) {
    k < |SOURCE_PRIORITY| && Viable(i, SOURCE_PRIORITY[k]) && forall j :: 0 <= j < k ==> !Viable(i, SOURCE_PRIORITY[j])
  }

  predicate BridgeApplies(i: Input) {
    i.requestedAmount > 0 && exists c :: c in SOURCE_PRIORITY && Viable(i, c)
  }

  predicate RedeemApplies(i: Input) {
    i.requestedAmount > 0 && i.allowXrpfi && i.requestedChain == Xrpl && i.fxrp.GetOr(0) >= i.requestedAmount
  }

  predicate MintApplies(i: Input) {
    i.requestedAmount > 0 && i.allowXrpfi && i.requestedChain in NTT_CHAINS
    && i.xrpDrops.GetOr(0) >= i.requestedAmount && i.fxrp.GetOr(0) == 0
    && forall c <- SOURCE_PRIORITY :: Held(i.holdings, c) < i.requestedAmount
  }

  /** d is the decision of the first rule that applies. */
  ghost predicate IsBest(i: Input, d: Decision) {
    match d
    case Direct(chain) => DirectApplies(i) && chain == i.requestedChain
    case NttBridge(from, to, amount) =>
      && !DirectApplies(i) && i.requestedAmount > 0
      && (exists k: nat :: FirstViable(i, k) && from == SOURCE_PRIORITY[k])
      && to == i.requestedChain && amount == i.requestedAmount
    case RedeemThenSwap(fxrp, destination, rlusd) =>
      && !DirectApplies(i) && !BridgeApplies(i) && RedeemApplies(i)
      && fxrp == rlusd == i.requestedAmount && destination == i.xrplDestination.GetOr("rXrplDestinationFromAgent")
    case RedeemSwapThenBridge(_, _) => false
    case MintFxrp(xrp, stop) =>
      && !DirectApplies(i) && !BridgeApplies(i) && !RedeemApplies(i) && MintApplies(i)
      && xrp == i.requestedAmount && stop == Flare
    case NoRoute(invalid, suggested) =>
      && !DirectApplies(i) && !BridgeApplies(i) && !RedeemApplies(i) && !MintApplies(i)
      && invalid == (i.requestedAmount <= 0)
      && suggested == if invalid then [i.requestedChain] else Suggested(i)
  }

  lemma NothingToBridge(i: Input)
    requires i.requestedAmount <= 0
    ensures !BridgeApplies(i)
  {
  }

  // ---------------------------------------------------------------- theorems

  /** The order of the rules leaves no choice: there is one best route. */
  lemma BestIsUnique(i: Input, d: Decision, e: Decision)
    requires IsBest(i, d) && IsBest(i, e)
    ensures d == e
  {
    hide CanBridge, Suggested, Held;
    forall k: nat | FirstViable(i, k) && i.requestedAmount > 0 ensures BridgeApplies(i) {
      assert SOURCE_PRIORITY[k] in SOURCE_PRIORITY;
    }
    if d.NttBridge? && e.NttBridge? {
      var k: nat :| FirstViable(i, k) && d.fromChain == SOURCE_PRIORITY[k];
      var l: nat :| FirstViable(i, l) && e.fromChain == SOURCE_PRIORITY[l];
      assert k == l;
    }
  }

  /** The chain holds the amount, and has a lane that takes it. */
  predicate CanSend(i: Input, source: Chain) {
    i.requestedAmount <= Held(i.holdings, source) && CanBridge(source, i.requestedChain, i.requestedAmount, i.liveLimits)
  }

  /** The first chain in the order of priority that can send the amount; None when no chain can. */
  function BridgeSource(i: Input): Option<Chain> {
    if CanSend(i, Optimism) then Some(Optimism)
    else if CanSend(i, Base) then Some(Base)
    else if CanSend(i, Unichain) then Some(Unichain)
    else if CanSend(i, Ink) then Some(Ink)
    else if CanSend(i, Ethereum) then Some(Ethereum)
    else None
  }

  lemma ViableIff(i: Input, source: Chain)
    ensures Viable(i, source) <==> CanSend(i, source)
  {
  }

  /** No chain that could send it holds the amount. */
  predicate NoneHeld(i: Input) {
    && Held(i.holdings, Optimism) < i.requestedAmount && Held(i.holdings, Base) < i.requestedAmount
    && Held(i.holdings, Unichain) < i.requestedAmount && Held(i.holdings, Ink) < i.requestedAmount
    && Held(i.holdings, Ethereum) < i.requestedAmount
  }

  /** The best route by name: what is held where it is wanted, a bridge from another chain, then FXRP redeemed for the
      XRPL, then FXRP minted for a bridged chain when neither it nor RLUSD is held anywhere. */
  lemma BestByName(i: Input, d: Decision)
    ensures var wanted, amount := i.requestedChain, i.requestedAmount;
            var bridged := wanted in {Ethereum, Base, Optimism, Ink, Unichain};
            IsBest(i, d) <==>
              d == if amount <= 0 then NoRoute(true, [wanted])
                   else if Held(i.holdings, wanted) >= amount then Direct(wanted)
                   else if BridgeSource(i).Some? then NttBridge(BridgeSource(i).value, wanted, amount)
                   else if i.allowXrpfi && wanted == Xrpl && i.fxrp.GetOr(0) >= amount then
                     RedeemThenSwap(amount, i.xrplDestination.GetOr("rXrplDestinationFromAgent"), amount)
                   else if i.allowXrpfi && bridged && i.xrpDrops.GetOr(0) >= amount && i.fxrp.GetOr(0) == 0 && NoneHeld(i) then
                     MintFxrp(amount, Flare)
                   else NoRoute(false, Suggested(i))
  {
    hide CanBridge, Suggested, Held, Viable, CanSend;
    if i.requestedAmount > 0 {
      FirstByName(i);
    }
  }

  lemma FirstByName(i: Input)
    requires i.requestedAmount > 0
    ensures BridgeApplies(i) <==> BridgeSource(i).Some?
    ensures forall k: nat :: FirstViable(i, k) ==> Some(SOURCE_PRIORITY[k]) == BridgeSource(i)
    ensures BridgeSource(i).Some? ==> exists k: nat :: FirstViable(i, k) && BridgeSource(i).value == SOURCE_PRIORITY[k]
  {
    hide Viable, CanSend;
    forall source ensures Viable(i, source) <==> CanSend(i, source) {
      ViableIff(i, source);
    }
    assert SOURCE_PRIORITY[0] == Optimism && SOURCE_PRIORITY[1] == Base && SOURCE_PRIORITY[2] == Unichain
           && SOURCE_PRIORITY[3] == Ink && SOURCE_PRIORITY[4] == Ethereum;
    if BridgeSource(i).Some? {
      var k := if BridgeSource(i).value == Optimism then 0 else if BridgeSource(i).value == Base then 1
               else if BridgeSource(i).value == Unichain then 2 else if BridgeSource(i).value == Ink then 3 else 4;
      assert FirstViable(i, k);
    }
  }

  function Unless(c: Chain, wanted: Chain): seq<Chain> {
    if c == wanted then [] else [c]
  }

  /** Where to fund: the chain itself, for a bridged chain the others in order, and the XRP chains if they may be used. */
  lemma SuggestedByName(i: Input)
    ensures var c := i.requestedChain;
            Suggested(i) ==
            [c] + (if c in {Ethereum, Base, Optimism, Ink, Unichain}
                   then Unless(Optimism, c) + Unless(Base, c) + Unless(Unichain, c) + Unless(Ink, c) + Unless(Ethereum, c)
                   else [])
            + if i.allowXrpfi then [Xrpl, Flare] else []
  {
    hide Others, Unless;
    OthersByName(i.requestedChain);
  }

  lemma OthersByName(c: Chain)
    ensures Others(SOURCE_PRIORITY, c) ==
            Unless(Optimism, c) + Unless(Base, c) + Unless(Unichain, c) + Unless(Ink, c) + Unless(Ethereum, c)
  {
    hide Unless;
    OthersAppend([], Optimism, c);
    OthersAppend([Optimism], Base, c);
    OthersAppend([Optimism, Base], Unichain, c);
    OthersAppend([Optimism, Base, Unichain], Ink, c);
    OthersAppend([Optimism, Base, Unichain, Ink], Ethereum, c);
    assert [] + [Optimism] == [Optimism] && [Optimism] + [Base] == [Optimism, Base];
    assert [Optimism, Base] + [Unichain] == [Optimism, Base, Unichain];
    assert [Optimism, Base, Unichain] + [Ink] == [Optimism, Base, Unichain, Ink];
    assert [Optimism, Base, Unichain, Ink] + [Ethereum] == SOURCE_PRIORITY;
    assert Others([], c) == [];
  }

  lemma OthersAppend(chains: seq<Chain>, last: Chain, c: Chain)
    ensures Others(chains + [last], c) == Others(chains, c) + Unless(last, c)
  {
    assert (chains + [last])[..|chains|] == chains;
  }

  /** There is no route exactly when no rule applies; the lane that ends in a bridge from the XRPL is never taken. */
  lemma NoRouteIff(i: Input, d: Decision)
    requires IsBest(i, d)
    ensures d.NoRoute? <==> !DirectApplies(i) && !BridgeApplies(i) && !RedeemApplies(i) && !MintApplies(i)
    ensures !d.RedeemSwapThenBridge?
  {
    hide CanBridge, Suggested, Held;
    forall k: nat | FirstViable(i, k) && i.requestedAmount > 0 ensures BridgeApplies(i) {
      assert SOURCE_PRIORITY[k] in SOURCE_PRIORITY;
    }
  }

  /** Nothing may leave a chain by the registry's own limits: a bridge is only ever chosen on a live one. */
  lemma BridgeNeedsLiveLimit(i: Input, d: Decision)
    requires IsBest(i, d) && d.NttBridge?
    ensures i.liveLimits.outbound.Some? && i.liveLimits.outbound.value >= i.requestedAmount > 0
    ensures i.liveLimits.inbound.None? ==> d.fromChain != Ethereum && i.requestedAmount <= FIFTY_MILLION
  {
  }

  predicate HoldsAtLeast(i: Input, more: Input) {
    && more == i.(holdings := more.holdings, fxrp := more.fxrp, xrpDrops := more.xrpDrops)
    && AtLeast(more.holdings, i.holdings)
    && more.fxrp.GetOr(0) >= i.fxrp.GetOr(0) && more.xrpDrops.GetOr(0) >= i.xrpDrops.GetOr(0)
  }

  /** Holding more never loses a route, unless the route was to mint FXRP. */
  lemma MoreHoldingsKeepRoute(i: Input, more: Input, d: Decision, e: Decision)
    requires HoldsAtLeast(i, more) && IsBest(i, d) && IsBest(more, e)
    requires !d.NoRoute? && !d.MintFxrp?
    ensures !e.NoRoute?
  {
    hide CanBridge, Suggested;
    NoRouteIff(i, d);
    NoRouteIff(more, e);
    HeldGrows(more.holdings, i.holdings, i.requestedChain);
    forall c | c in SOURCE_PRIORITY && Viable(i, c) ensures Viable(more, c) {
      HeldGrows(more.holdings, i.holdings, c);
    }
  }

  /**
   * A mint of FXRP is lost exactly when the buyer comes to hold some FXRP, or enough RLUSD on some chain, without
   * coming to hold it where it is wanted or behind an open lane.
   */
  lemma MintIsLostIff(i: Input, more: Input, d: Decision, e: Decision)
    requires HoldsAtLeast(i, more) && IsBest(i, d) && IsBest(more, e) && d.MintFxrp?
    ensures e.NoRoute? <==>
              && !DirectApplies(more) && !BridgeApplies(more)
              && (more.fxrp.GetOr(0) != 0
                  || exists c :: c in SOURCE_PRIORITY && Held(more.holdings, c) >= i.requestedAmount)
  {
    hide CanBridge, Suggested, BridgeApplies, Held;
    NoRouteIff(more, e);
  }

  /** Both ways of losing it occur, for every amount and every destination. */
  lemma MintIsLost(chain: Chain, other: Chain, amount: int, fxrp: int) returns (i: Input)
    requires chain in NTT_CHAINS && other in SOURCE_PRIORITY && other != chain && amount > 0 && 0 < fxrp
    ensures i.requestedChain == chain && i.requestedAmount == amount && IsBest(i, MintFxrp(amount, Flare))
    ensures var more := i.(fxrp := Some(fxrp));
            HoldsAtLeast(i, more) && IsBest(more, NoRoute(false, Suggested(more)))
    ensures var more := i.(holdings := map[other := amount]);
            HoldsAtLeast(i, more) && IsBest(more, NoRoute(false, Suggested(more)))
  {
    hide Suggested;
    i := Input(chain, amount, map[], Limits(None, None), Some(amount), None, None, true, false);
    assert Held(map[other := amount], other) >= amount;
  }
}
