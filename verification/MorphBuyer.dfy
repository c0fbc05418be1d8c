/**
 * src/adapters/morph-x402.ts: the buyer's half of the sponsored payment. What `paySponsored` builds is
 * put through the facilitator's own handler steps.
 */
module MorphBuyer {
  import opened JsValues
  import opened BigInts
  import opened Eip3009
  import opened MorphFacilitator

  /** A wallet signs the hashed bytes of the typed data. */
  datatype Wallet = Wallet(address: string, sign: TypedData -> string)

  /** What the buyer's side resolved: the chain's USDC, the token's EIP-712 domain, the chain id. */
  datatype Chain = Chain(usdc: string, tokenName: string, tokenVersion: string, chainId: int)

  datatype Parsed = Parsed(network: string, asset: string, maxAmountRequired: string, payTo: string, raw: Requirements)

  /** `parseRequirements`; None where it throws MORPH_BAD_CHALLENGE. */
  function ParseRequirements(raw: Requirements): Option<Parsed> {
    var payTo, amount := raw.payTo.GetOr(""), raw.maxAmountRequired.GetOr("");
    if payTo == "" || amount == "" then None
    else Some(Parsed(raw.network.GetOr("undefined"), raw.asset.GetOr(""), amount, payTo, raw))
  }

  function Asset(chain: Chain, want: Parsed): string {
    if want.asset != "" then want.asset else chain.usdc
  }

  /** A challenge is usable exactly when it names a payee and an amount; its asset is the chain's USDC unless named. */
  lemma ParsedIff(chain: Chain, raw: Requirements)
    ensures var parsed := ParseRequirements(raw);
            && (parsed.Some? <==> raw.payTo !in {None, Some("")} && raw.maxAmountRequired !in {None, Some("")})
            && (parsed.Some? ==>
                  && Some(parsed.value.payTo) == raw.payTo && Some(parsed.value.maxAmountRequired) == raw.maxAmountRequired
                  && parsed.value.network == (if raw.network.Some? then raw.network.value else "undefined")
                  && Asset(chain, parsed.value) == (if raw.asset !in {None, Some("")} then raw.asset.value else chain.usdc)
                  && parsed.value.raw == raw)
  {
  }

  function BuildAuthorization(wallet: Wallet, want: Parsed, amount: int, now: int, nonce: string): Authorization {
    Authorization(wallet.address, want.payTo, amount, 0, now + 300, nonce)
  }

  /** The request `paySponsored` sends to /v2/verify and /v2/settle; None where BigInt(amount) throws. */
  function PaySponsored(wallet: Wallet, chain: Chain, want: Parsed, now: int, nonce: string): Option<Request> {
    match FromText(want.maxAmountRequired)
    case None => None
    case Some(amount) =>
      var a := BuildAuthorization(wallet, want, amount, now, nonce);
      var td := BuildTypedData(Asset(chain, want), chain.chainId, Some(chain.tokenName), Some(chain.tokenVersion), a);
      var signed := SignedPayload(Some(Encode(a)), Some(wallet.sign(SignedBytes(td))));
      Some(Request(Some(want.raw), Some(PaymentPayload(Some(signed), SignedPayload(None, None)))))
  }

  /** The signature law: recovering from the signed bytes gives the wallet's address, and it is hex. */
  ghost predicate SignLaw(cfg: Config, wallet: Wallet) {
    forall td :: cfg.recover(td, wallet.sign(td)) == Some(wallet.address) && "0x" <= wallet.sign(td)
  }

  /** Buyer and facilitator are set up for the same token on the same chain. */
  ghost predicate SameToken(cfg: Config, chain: Chain, want: Parsed) {
    && Lower(Asset(chain, want)) == Lower(cfg.usdcAddress)
    && (want.raw.network.None? || want.raw.network.value == "" || want.raw.network.value == cfg.Network())
    && chain.tokenName == cfg.tokenName.GetOr("USD Coin")
    && chain.tokenVersion == cfg.tokenVersion.GetOr("2")
    && chain.chainId == cfg.chainId
  }

  /** The buyer's request passes the synchronous checks exactly while its five minutes last. */
  lemma CheckAccepts(cfg: Config, wallet: Wallet, chain: Chain, want: Parsed, now: int, nonce: string,
                     seen: set<string>, now': int)
    requires ParseRequirements(want.raw) == Some(want) && SameToken(cfg, chain, want) && SignLaw(cfg, wallet)
    requires PaySponsored(wallet, chain, want, now, nonce).Some?
    requires nonce !in seen && 0 <= now'
    ensures var req := PaySponsored(wallet, chain, want, now, nonce).value;
            var amount := FromText(want.maxAmountRequired).value;
            var signature := req.payload.value.payload.value.signature.value;
            Check(cfg, seen, req, now') ==
              if now' < now + 300
              then Passed(Payment(BuildAuthorization(wallet, want, amount, now, nonce), signature, amount, Lower(want.payTo)))
              else Rejected(AuthExpired)
  {
    hide FromText, Decode, Encode, Lower;
    DecodeEncode(BuildAuthorization(wallet, want, FromText(want.maxAmountRequired).value, now, nonce));
    assert want.raw.asset.GetOr("") == want.asset;
    assert Lower("") == "" by { LowerEmpty(); }
  }

  lemma LowerEmpty()
    ensures Lower("") == ""
  {
  }

  /** The signature covers the very bytes the facilitator hashes. */
  lemma SignatureAccepts(cfg: Config, wallet: Wallet, chain: Chain, want: Parsed, now: int, nonce: string)
    requires SameToken(cfg, chain, want) && SignLaw(cfg, wallet)
    requires PaySponsored(wallet, chain, want, now, nonce).Some?
    ensures var req := PaySponsored(wallet, chain, want, now, nonce).value;
            var a := BuildAuthorization(wallet, want, FromText(want.maxAmountRequired).value, now, nonce);
            cfg.SignedByAuthorizer(cfg.Data(a), req.payload.value.payload.value.signature.value)
  {
    hide FromText, Encode, Lower;
    var a := BuildAuthorization(wallet, want, FromText(want.maxAmountRequired).value, now, nonce);
    var td := BuildTypedData(Asset(chain, want), chain.chainId, Some(chain.tokenName), Some(chain.tokenVersion), a);
    assert SignedBytes(td) == SignedBytes(cfg.Data(a));
  }

  /** /v2/verify, run to its end on the buyer's request, with any answer of the node but "used". */
  function VerifyToEnd(cfg: Config, p: Process, t: nat, req: Request, now: int, outcome: ReadOutcome): Process
    requires t !in p.tasks
  {
    var p1 := OnBegin(cfg, p, t, Verify, req, now);
    if !At(p1, t, Recovering) then p1 else
    var p2 := OnRecovered(cfg, p1, t);
    if !At(p2, t, Reading) then p2 else
    OnReadBack(Moved(p2, t, ReadBack(outcome)), t, outcome)
  }

  /** Every authorization `paySponsored` builds is accepted by the facilitator, and by its clock exactly
      until 300 seconds after the buyer's; later it is refused as expired. */
  lemma SponsoredPaymentAccepted(cfg: Config, wallet: Wallet, chain: Chain, want: Parsed, now: int, nonce: string,
                                 p: Process, t: nat, now': int, outcome: ReadOutcome)
    requires ParseRequirements(want.raw) == Some(want) && SameToken(cfg, chain, want) && SignLaw(cfg, wallet)
    requires PaySponsored(wallet, chain, want, now, nonce).Some?
    requires nonce !in p.seen && t !in p.tasks && 0 <= now' && outcome != Used
    ensures var req := PaySponsored(wallet, chain, want, now, nonce).value;
            var end := VerifyToEnd(cfg, p, t, req, now', outcome);
            && (At(end, t, Answered(Valid)) <==> now' < now + 300)
            && (now' >= now + 300 ==> end.tasks[t] == TurnedAway(Verify, AuthExpired))
            && end.seen == p.seen
  {
    hide PaySponsored, ParseRequirements, Check, SameToken, Config.SignedByAuthorizer;
    CheckAccepts(cfg, wallet, chain, want, now, nonce, p.seen, now');
    SignatureAccepts(cfg, wallet, chain, want, now, nonce);
    SignedMeansRecovered(cfg);
  }

  lemma SignedMeansRecovered(cfg: Config)
    ensures forall td, sig :: cfg.SignedByAuthorizer(td, sig) ==> cfg.recover(SignedBytes(td), sig).Some?
  {
  }
}
