/**
 * src/flare/direct-minting.ts and src/flare/bridge.ts: what a mint costs and what a redemption returns, in
 * drops (one XRP is a million), from an amount string to the drops written into the XRPL payment.
 */
module FlareQuotes {
  import opened JsValues
  import opened BigInts
  import opened DecimalAmounts
  import Arithmetic

  const BIPS: nat := 10_000

  /** On-chain fee settings, unsigned. */
  datatype Fees = Fees(feeBips: nat, minFee: nat, executorFee: nat)

  datatype MintQuote = MintQuote(net: nat, proportionalFee: nat, mintingFee: nat, executorFee: nat, total: nat,
                                 paymentXrp: string, netFxrp: string)

  datatype RedemptionQuote = RedemptionQuote(net: int, proportionalFee: nat, redemptionFee: nat, executorFee: nat,
                                             burned: nat, receivedXrp: string)

  datatype Error = BadAmount(e: AmountError) | FeesExceedAmount | Insufficient | NotLotMultiple

  function Proportional(units: nat, feeBips: nat): nat {
    units * feeBips / BIPS
  }

  function Fee(units: nat, fees: Fees): nat {
    var proportional := Proportional(units, fees.feeBips);
    if proportional > fees.minFee then proportional else fees.minFee
  }

  function MintTotal(net: nat, fees: Fees): nat {
    net + Fee(net, fees) + fees.executorFee
  }

  function QuoteMint(amount: string, fees: Fees): Result<MintQuote, AmountError> {
    var parsed := ParseXrp(amount);
    if parsed.Err? then Err(parsed.error)
    else
      var net := parsed.value;
      var total := MintTotal(net, fees);
      var payment := FormatXrp(total);
      var netText := FormatXrp(net);
      if payment.Err? then Err(payment.error)
      else if netText.Err? then Err(netText.error)
      else Ok(MintQuote(net, Proportional(net, fees.feeBips), Fee(net, fees), fees.executorFee, total,
                        payment.value, netText.value))
  }

  function QuoteRedemption(amount: string, fees: Fees): Result<RedemptionQuote, Error> {
    var parsed := ParseXrp(amount);
    if parsed.Err? then Err(BadAmount(parsed.error))
    else
      var burned := parsed.value;
      var totalFee := Fee(burned, fees) + fees.executorFee;
      if totalFee >= burned then Err(FeesExceedAmount)
      else
        var net := burned - totalFee;
        var received := FormatXrp(net);
        if received.Err? then Err(BadAmount(received.error))
        else Ok(RedemptionQuote(net, Proportional(burned, fees.feeBips), Fee(burned, fees), fees.executorFee, burned,
                                received.value))
  }

  /** submitXrplPayment: the Amount field, in drops. */
  function PaymentDrops(paymentXrp: string): Result<string, AmountError> {
    match ParseXrp(paymentXrp)
    case Ok(drops) => Ok(ToText(drops))
    case Err(e) => Err(e)
  }

  datatype Redemption = Redemption(lots: nat, quote: RedemptionQuote)

  predicate WholeLots(burned: nat, lotSize: nat) {
    lotSize > 0 ==> burned % lotSize == 0
  }

  function LotCount(burned: nat, lotSize: nat): nat {
    if lotSize > 0 then burned / lotSize else burned
  }

  /** redeemXRP between its reads and its transaction. */
  function PlanRedemption(amount: string, balance: nat, fees: Fees, lotSize: nat): Result<Redemption, Error> {
    var parsed := ParseXrp(amount);
    if parsed.Err? then Err(BadAmount(parsed.error))
    else
      var burned := parsed.value;
      if balance < burned then Err(Insufficient)
      else if !WholeLots(burned, lotSize) then Err(NotLotMultiple)
      else
        match QuoteRedemption(amount, fees)
        case Err(e) => Err(e)
        case Ok(quote) => Ok(Redemption(LotCount(burned, lotSize), quote))
  }

  // ---------------------------------------------------------------- theorems

  /** fee is feeBips ten-thousandths of the amount, rounded down. */
  predicate IsShare(fee: nat, units: nat, feeBips: nat) {
    fee * 10_000 <= units * feeBips < fee * 10_000 + 10_000
  }

  lemma ShareOfAny(feeBips: nat)
    ensures forall units :: IsShare(Proportional(units, feeBips), units, feeBips)
  {
  }

  /** What a redemption is refused for: the amount, the balance, the lots, then fees that leave nothing. */
  lemma RefusedFor(amount: string, balance: nat, fees: Fees, lotSize: nat)
    ensures ParseXrp(amount).Err? ==> PlanRedemption(amount, balance, fees, lotSize) == Err(BadAmount(ParseXrp(amount).error))
    ensures ParseXrp(amount).Ok? ==>
              var burned, plan := ParseXrp(amount).value, PlanRedemption(amount, balance, fees, lotSize);
              var odd, dear := lotSize > 0 && burned % lotSize != 0, Fee(burned, fees) + fees.executorFee >= burned;
              && (plan == Err(Insufficient) <==> balance < burned)
              && (plan == Err(NotLotMultiple) <==> balance >= burned && odd)
              && (plan == Err(FeesExceedAmount) <==> balance >= burned && !odd && dear)
              && (plan.Ok? <==> balance >= burned && !odd && !dear)
  {
    hide ParseXrp, FormatXrp, Fee;
    if ParseXrp(amount).Ok? {
      var burned := ParseXrp(amount).value;
      XrpRoundTrip(burned - (Fee(burned, fees) + fees.executorFee));
    }
  }

  /** The drops in the XRPL payment are the quoted total, and reading the quote's strings gives its numbers back. */
  lemma PaymentIsTotal(amount: string, fees: Fees)
    ensures QuoteMint(amount, fees).Ok? <==> ParseXrp(amount).Ok?
    ensures QuoteMint(amount, fees).Ok? ==>
              var q := QuoteMint(amount, fees).value;
              && ParseXrp(amount) == Ok(q.net) && ParseXrp(q.netFxrp) == Ok(q.net) && ParseXrp(q.paymentXrp) == Ok(q.total)
              && PaymentDrops(q.paymentXrp) == Ok(ToText(q.total)) && FromText(ToText(q.total)) == Some(q.total)
              && q.total == q.net + q.mintingFee + q.executorFee
              && q.mintingFee == Max(q.proportionalFee, fees.minFee) && q.executorFee == fees.executorFee
              && IsShare(q.proportionalFee, q.net, fees.feeBips)
  {
    hide ParseXrp, FormatXrp, Proportional, ToText, FromText, IsShare;
    ShareOfAny(fees.feeBips);
    var parsed := ParseXrp(amount);
    if parsed.Ok? {
      ParsedIsPositive(amount);
      XrpRoundTrip(parsed.value);
      XrpRoundTrip(MintTotal(parsed.value, fees));
      RoundTrip(MintTotal(parsed.value, fees));
    }
  }

  /** Minting more always costs more. */
  lemma MintTotalIncreases(small: string, large: string, fees: Fees)
    requires ParseXrp(small).Ok? && ParseXrp(large).Ok? && ParseXrp(small).value < ParseXrp(large).value
    ensures QuoteMint(small, fees).Ok? && QuoteMint(large, fees).Ok?
    ensures QuoteMint(small, fees).value.total < QuoteMint(large, fees).value.total
  {
    hide ParseXrp, FormatXrp, Fee, QuoteMint;
    PaymentIsTotal(small, fees);
    PaymentIsTotal(large, fees);
    FeeGrows(ParseXrp(small).value, ParseXrp(large).value, fees);
    FeeOfMint(small, fees);
    FeeOfMint(large, fees);
  }

  lemma FeeOfMint(amount: string, fees: Fees)
    requires QuoteMint(amount, fees).Ok?
    ensures QuoteMint(amount, fees).value.mintingFee == Fee(QuoteMint(amount, fees).value.net, fees)
  {
    hide ParseXrp, FormatXrp, Fee;
  }

  /** A redemption is quoted exactly when its fees leave something, and then fees and net make up what is burned. */
  lemma RedemptionConserves(amount: string, fees: Fees)
    ensures QuoteRedemption(amount, fees).Ok? <==>
              ParseXrp(amount).Ok? && Fee(ParseXrp(amount).value, fees) + fees.executorFee < ParseXrp(amount).value
    ensures QuoteRedemption(amount, fees).Ok? ==>
              var q := QuoteRedemption(amount, fees).value;
              && ParseXrp(amount) == Ok(q.burned) && q.net > 0
              && q.net + q.redemptionFee + q.executorFee == q.burned
              && q.redemptionFee == Max(q.proportionalFee, fees.minFee) && q.executorFee == fees.executorFee
              && ParseXrp(q.receivedXrp) == Ok(q.net) && fees.feeBips < BIPS
              && IsShare(q.proportionalFee, q.burned, fees.feeBips)
  {
    hide ParseXrp, FormatXrp, Proportional, IsShare;
    ShareOfAny(fees.feeBips);
    var parsed := ParseXrp(amount);
    if parsed.Ok? && Fee(parsed.value, fees) + fees.executorFee < parsed.value {
      XrpRoundTrip(parsed.value - (Fee(parsed.value, fees) + fees.executorFee));
      FeeBelowAmount(parsed.value, fees.feeBips);
    }
  }

  /** Whoever can redeem can redeem more, and receives at least as much. */
  lemma RedemptionMonotone(small: string, large: string, fees: Fees)
    requires QuoteRedemption(small, fees).Ok? && ParseXrp(large).Ok?
    requires ParseXrp(small).value <= ParseXrp(large).value
    ensures QuoteRedemption(large, fees).Ok?
    ensures QuoteRedemption(small, fees).value.net <= QuoteRedemption(large, fees).value.net
  {
    hide ParseXrp, FormatXrp, QuoteRedemption;
    RedemptionConserves(small, fees);
    RedemptionConserves(large, fees);
    var b, b' := ParseXrp(small).value, ParseXrp(large).value;
    FeeGrowsSlowly(b, b', fees);
    NetOf(small, fees);
    NetOf(large, fees);
  }

  /** The lots burned are the whole amount, which the balance covers. */
  lemma LotsAreTheAmount(amount: string, balance: nat, fees: Fees, lotSize: nat)
    ensures PlanRedemption(amount, balance, fees, lotSize).Ok? <==>
              && QuoteRedemption(amount, fees).Ok? && QuoteRedemption(amount, fees).value.burned <= balance
              && (lotSize == 0 || exists k: nat :: QuoteRedemption(amount, fees).value.burned == Lots(k, lotSize))
    ensures PlanRedemption(amount, balance, fees, lotSize).Ok? ==>
              var plan := PlanRedemption(amount, balance, fees, lotSize).value;
              Lots(plan.lots, if lotSize > 0 then lotSize else 1) == plan.quote.burned <= balance
  {
    hide ParseXrp, FormatXrp, QuoteRedemption, Lots;
    RedemptionConserves(amount, fees);
    if QuoteRedemption(amount, fees).Ok? {
      var burned := ParseXrp(amount).value;
      if lotSize > 0 {
        DividesIff(burned, lotSize);
      } else {
        OneDropLots(burned);
      }
    }
  }

  // ---------------------------------------------------------------- proofs

  function Lots(k: nat, lotSize: nat): nat {
    k * lotSize
  }

  lemma OneDropLots(n: nat)
    ensures Lots(n, 1) == n
  {
  }

  lemma DividesIff(n: nat, m: nat)
    requires m > 0
    ensures n % m == 0 ==> n == Lots(n / m, m)
    ensures n % m == 0 <==> exists k: nat :: n == Lots(k, m)
  {
    Arithmetic.DivMod(n, m);
    if k: nat :| n == Lots(k, m) {
      Arithmetic.QuotientUnique(n, m, k, 0);
    }
    if n % m == 0 {
      assert n == Lots(n / m, m);
    }
  }

  lemma ParsedIsPositive(amount: string)
    requires ParseXrp(amount).Ok?
    ensures ParseXrp(amount).value > 0
  {
  }

  lemma NetOf(amount: string, fees: Fees)
    requires QuoteRedemption(amount, fees).Ok?
    ensures ParseXrp(amount).Ok?
    ensures QuoteRedemption(amount, fees).value.net ==
            ParseXrp(amount).value - (Fee(ParseXrp(amount).value, fees) + fees.executorFee)
  {
    hide ParseXrp, FormatXrp, Fee;
  }

  lemma ProductGrows(a: nat, b: nat, f: nat)
    requires a <= b
    ensures a * f <= b * f && (f <= BIPS ==> b * f <= a * f + BIPS * (b - a))
  {
    Arithmetic.Distribute(b, a, f);
    ProductAtMost(b - a, f);
  }

  lemma ProductAtMost(d: nat, f: nat)
    ensures 0 <= d * f && (f <= BIPS ==> d * f <= BIPS * d) && (f >= BIPS ==> d * f >= BIPS * d)
  {
  }

  lemma FeeGrows(a: nat, b: nat, fees: Fees)
    requires a <= b
    ensures Fee(a, fees) <= Fee(b, fees)
  {
    ProductGrows(a, b, fees.feeBips);
    QuotientGrows(a * fees.feeBips, b * fees.feeBips);
  }

  lemma QuotientGrows(x: nat, y: nat)
    requires x <= y
    ensures x / BIPS <= y / BIPS
  {
  }

  lemma QuotientGrowsSlowly(x: nat, y: nat, d: nat)
    requires y <= x + BIPS * d
    ensures y / BIPS <= x / BIPS + d
  {
  }

  lemma FeeGrowsSlowly(a: nat, b: nat, fees: Fees)
    requires a <= b && fees.feeBips <= BIPS
    ensures Fee(b, fees) <= Fee(a, fees) + (b - a)
  {
    ProductGrows(a, b, fees.feeBips);
    QuotientGrowsSlowly(a * fees.feeBips, b * fees.feeBips, b - a);
  }

  lemma FeeBelowAmount(units: nat, feeBips: nat)
    ensures feeBips >= BIPS ==> Proportional(units, feeBips) >= units
  {
    ProductAtMost(units, feeBips);
    if feeBips >= BIPS {
      QuotientGrows(BIPS * units, units * feeBips);
    }
  }
}
