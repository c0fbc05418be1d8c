/**
 * src/middleware.ts: invoices and settlement of an XRPL paywall route. A challenge mints an invoice; a
 * settlement checks it, awaits the facilitator's verify and settle, and then consumes it and runs the
 * handler. Code between awaits is one step, and any awaited answer may come at any later step.
 */
module XrplPaywall {
  import opened JsValues
  import opened Numerals

  const INVOICE_TTL_MS: int := 600_000
  const RLUSD_HEX := "524C555344000000000000000000000000000000"
  const DEFAULT_SOURCE_TAG: int := 804_681_468

  datatype Asset = XRP | RLUSD

  datatype Network = Mainnet | Testnet | Devnet

  datatype Route = Route(payTo: string, price: string, network: Option<Network>, asset: Option<Asset>,
                         sourceTag: Option<int>, invoiceId: Option<string>)

  /** What a challenge offers, and what a payment says it accepts; both to the facilitator as requirements. */
  datatype Terms = Terms(
    payTo: string, amount: string, network: string, asset: string, maxTimeoutSeconds: real,
    sourceTag: int, invoiceId: string, issuer: Option<string>, destinationTag: Option<int>)

  datatype Reason =
    | InvalidSignature | UnknownInvoice | AlreadyConsumed | Expired | RouteMismatch | RequirementsMismatch
    | VerifyFailed | VerifyInvalid | SettleFailed | SettleInvalid

  function Caip2(n: Network): string {
    match n case Mainnet => "xrpl:0" case Testnet => "xrpl:1" case Devnet => "xrpl:2"
  }

  function RlusdIssuer(n: Network): string {
    if n == Mainnet then "rMxCKbEDwqr76QuheSUMdEGf4B9xJ8m5De" else "rQhWct2fv4Vc4KRjRgMrxa8xPN9Zx9iLKV"
  }

  function AssetCode(route: Route): string {
    if route.asset.GetOr(RLUSD) == RLUSD then RLUSD_HEX else "XRP"
  }

  function Offer(route: Route, invoiceId: string): Terms {
    var network := route.network.GetOr(Testnet);
    Terms(route.payTo, route.price, Caip2(network), AssetCode(route), 600.0,
          route.sourceTag.GetOr(DEFAULT_SOURCE_TAG), invoiceId,
          if route.asset.GetOr(RLUSD) == RLUSD then Some(RlusdIssuer(network)) else None, None)
  }

  /** What the header codec insists on; otherwise encoding a challenge and decoding a payment throw. */
  predicate WellFormed(t: Terms) {
    && t.network in {"xrpl:0", "xrpl:1", "xrpl:2"}
    && (t.asset == "XRP" || (|t.asset| == 40 && IsNumeral(t.asset, Hex)))
    && "r" <= t.payTo && t.amount != "" && t.maxTimeoutSeconds > 0.0
    && t.invoiceId != "" && t.sourceTag >= 0
    && (t.asset != "XRP" ==> t.issuer.Some? && "r" <= t.issuer.value)
  }

  /** The codec refuses terms for any of these, and for nothing else. */
  lemma CodecRefusesIff(t: Terms)
    ensures !WellFormed(t) <==>
              || t.network !in {"xrpl:0", "xrpl:1", "xrpl:2"}
              || (t.asset != "XRP" && |t.asset| != 40)
              || (t.asset != "XRP" && exists i :: 0 <= i < |t.asset| && t.asset[i] !in "0123456789abcdefABCDEF")
              || t.payTo == "" || t.payTo[0] != 'r' || t.amount == "" || t.maxTimeoutSeconds <= 0.0
              || t.invoiceId == "" || t.sourceTag < 0
              || (t.asset != "XRP" && (t.issuer in {None, Some("")} || t.issuer.value[0] != 'r'))
  {
    hide IsNumeral;
    HexIff(t.asset);
    StartsWithR(t.payTo);
    StartsWithR(t.issuer.GetOr(""));
  }

  lemma HexIff(s: string)
    ensures IsNumeral(s, Hex) <==> forall i :: 0 <= i < |s| ==> s[i] in "0123456789abcdefABCDEF"
  {
    hide DigitValue;
    forall i | 0 <= i < |s| ensures DigitValue(s[i]) < 16 <==> s[i] in "0123456789abcdefABCDEF" {
      HexDigitIff(s[i]);
    }
  }

  lemma StartsWithR(s: string)
    ensures "r" <= s <==> s != "" && s[0] == 'r'
  {
  }

  /** The four fields that a payment must echo. */
  predicate Echoes(accepted: Terms, offer: Terms) {
    && accepted.payTo == offer.payTo && accepted.amount == offer.amount
    && accepted.network == offer.network && accepted.asset == offer.asset
  }

  /** The fields that it need not. */
  predicate EchoesRest(accepted: Terms, offer: Terms) {
    && accepted.issuer == offer.issuer && accepted.sourceTag == offer.sourceTag
    && accepted.destinationTag == offer.destinationTag && accepted.maxTimeoutSeconds == offer.maxTimeoutSeconds
  }

  // ---------------------------------------------------------------- the invoice cache

  datatype Record = Record(invoiceId: string, routeKey: string, expiresAt: int, consumed: bool)

  /** Every invoice ever minted, and which of them its id leads to now. */
  datatype Cache = Cache(records: seq<Record>, ids: map<string, nat>)

  predicate Points(c: Cache) {
    forall id :: id in c.ids ==> c.ids[id] < |c.records| && c.records[c.ids[id]].invoiceId == id
  }

  function Mint(c: Cache, id: string, key: string, now: int): Cache {
    Cache(c.records + [Record(id, key, now + INVOICE_TTL_MS, false)], c.ids[id := |c.records|])
  }

  function Check(c: Cache, key: string, route: Route, accepted: Terms, now: int): Result<nat, Reason>
    requires Points(c)
  {
    var id := accepted.invoiceId;
    if !WellFormed(accepted) then Err(InvalidSignature)
    else if id !in c.ids then Err(UnknownInvoice)
    else
      var invoice := c.records[c.ids[id]];
      if invoice.consumed then Err(AlreadyConsumed)
      else if invoice.expiresAt < now then Err(Expired)
      else if invoice.routeKey != key then Err(RouteMismatch)
      else if !Echoes(accepted, Offer(route, id)) then Err(RequirementsMismatch)
      else Ok(c.ids[id])
  }

  /** Only an expired invoice changes the cache: its id is forgotten. */
  function AfterCheck(c: Cache, key: string, route: Route, accepted: Terms, now: int): Cache
    requires Points(c)
  {
    if Check(c, key, route, accepted, now) == Err(Expired) then c.(ids := c.ids - {accepted.invoiceId}) else c
  }

  function Consume(c: Cache, invoice: nat): Cache
    requires invoice < |c.records|
  {
    c.(records := c.records[invoice := c.records[invoice].(consumed := true)])
  }

  lemma EchoesIff(route: Route, accepted: Terms, id: string)
    ensures Echoes(accepted, Offer(route, id)) <==>
              && accepted.payTo == route.payTo && accepted.amount == route.price
              && accepted.network == Caip2(route.network.GetOr(Testnet)) && accepted.asset == AssetCode(route)
  {
  }

  class InvoiceRecord {
    const routeKey: string
    const expiresAt: int
    var consumed: bool
    ghost const invoiceId: string

    constructor (ghost invoiceId: string, routeKey: string, expiresAt: int)
      ensures Value() == Record(invoiceId, routeKey, expiresAt, false)
    {
      this.invoiceId, this.routeKey, this.expiresAt, consumed := invoiceId, routeKey, expiresAt, false;
    }

    ghost function Value(): Record
      reads this
    {
      Record(invoiceId, routeKey, expiresAt, consumed)
    }
  }

  class Paywall {
    var xrplInvoices: map<string, InvoiceRecord>
    ghost var minted: seq<InvoiceRecord>
    ghost var ids: map<string, nat>

    constructor ()
      ensures Valid() && Now() == Cache([], map[])
    {
      xrplInvoices, minted, ids := map[], [], map[];
    }

    ghost predicate Valid()
      reads this, minted
    {
      && (forall i, j :: 0 <= i < j < |minted| ==> minted[i] != minted[j])
      && ids.Keys == xrplInvoices.Keys
      && (forall id :: id in ids ==> ids[id] < |minted| && minted[ids[id]] == xrplInvoices[id])
      && (forall id :: id in ids ==> minted[ids[id]].invoiceId == id)
    }

    ghost function Now(): (c: Cache)
      requires Valid()
      reads this, minted
      ensures Points(c) && |c.records| == |minted| && c.ids == ids
      ensures forall i :: 0 <= i < |minted| ==> c.records[i] == minted[i].Value()
    {
      Cache(seq(|minted|, i requires 0 <= i < |minted| reads this, minted => minted[i].Value()), ids)
    }

    /** runXrplRoute without a payment header; None where encoding the challenge throws, after the invoice was minted. */
    method Challenge(key: string, route: Route, freshId: string, now: int) returns (challenge: Option<Terms>)
      requires Valid()
      modifies this
      ensures Valid() && Now() == Mint(old(Now()), route.invoiceId.GetOr(freshId), key, now)
      ensures var offer := Offer(route, route.invoiceId.GetOr(freshId));
              challenge == if WellFormed(offer) then Some(offer) else None
    {
      var invoiceId := route.invoiceId.GetOr(freshId);
      var invoice := new InvoiceRecord(invoiceId, key, now + INVOICE_TTL_MS);
      xrplInvoices := xrplInvoices[invoiceId := invoice];
      ids := ids[invoiceId := |minted|];
      minted := minted + [invoice];
      var offer := Offer(route, invoiceId);
      challenge := if WellFormed(offer) then Some(offer) else None;
    }

    /** settleXrplPayment up to its first await; header is the payment signature, if it is JSON of this shape. */
    method BeginSettle(key: string, route: Route, header: Option<Terms>, now: int)
      returns (r: Result<InvoiceRecord, Reason>)
      requires Valid()
      modifies this
      ensures Valid() && minted == old(minted)
      ensures header.None? ==> r == Err(InvalidSignature) && Now() == old(Now())
      ensures header.Some? ==>
                && Now() == AfterCheck(old(Now()), key, route, header.value, now)
                && match Check(old(Now()), key, route, header.value, now)
                   case Err(reason) => r == Err(reason)
                   case Ok(invoice) => r == Ok(minted[invoice])
    {
      hide Offer, WellFormed, Echoes, AssetCode, Caip2;
      if header.None? || !WellFormed(header.value) {
        return Err(InvalidSignature);
      }
      var accepted := header.value;
      EchoesIff(route, accepted, accepted.invoiceId);
      if accepted.invoiceId !in xrplInvoices {
        return Err(UnknownInvoice);
      }
      var invoice := xrplInvoices[accepted.invoiceId];
      if invoice.consumed {
        return Err(AlreadyConsumed);
      }
      if invoice.expiresAt < now {
        xrplInvoices := xrplInvoices - {accepted.invoiceId};
        ids := ids - {accepted.invoiceId};
        return Err(Expired);
      }
      if invoice.routeKey != key {
        return Err(RouteMismatch);
      }
      if accepted.payTo != route.payTo || accepted.amount != route.price
         || accepted.network != Caip2(route.network.GetOr(Testnet)) || accepted.asset != AssetCode(route)
      {
        return Err(RequirementsMismatch);
      }
      return Ok(invoice);
    }

    /** The facilitator has settled; the handler runs in the same step. */
    method Consumed(invoice: InvoiceRecord, ghost k: nat)
      requires Valid() && k < |minted| && minted[k] == invoice
      modifies invoice
      ensures Valid() && Now() == Consume(old(Now()), k)
    {
      invoice.consumed := true;
    }
  }

  // ---------------------------------------------------------------- runs

  datatype Phase = Verifying(invoice: nat) | Settling(invoice: nat) | Served(invoice: nat) | Refused(reason: Reason)

  datatype Task = Task(key: string, accepted: Terms, phase: Phase)

  datatype State = State(cache: Cache, tasks: seq<Task>)

  /** What the facilitator answers, or that the call threw. */
  datatype Answer = Yes | No | Threw

  datatype Event =
    | Challenged(key: string, freshId: string, now: int)
    | Presented(key: string, accepted: Terms, now: int)
    | VerifyReturned(t: nat, answer: Answer)
    | SettleReturned(t: nat, answer: Answer)

  type Routes = map<string, Route>

  predicate Enabled(routes: Routes, s: State, e: Event) {
    match e
    case Challenged(key, _, _) => key in routes
    case Presented(key, _, _) => key in routes && Points(s.cache)
    case VerifyReturned(t, _) => t < |s.tasks| && s.tasks[t].phase.Verifying?
    case SettleReturned(t, _) => t < |s.tasks| && s.tasks[t].phase.Settling?
                                 && s.tasks[t].phase.invoice < |s.cache.records|
  }

  function IdMinted(routes: Routes, e: Event): string
    requires e.Challenged? && e.key in routes
  {
    routes[e.key].invoiceId.GetOr(e.freshId)
  }

  function WithPhase(s: State, t: nat, phase: Phase): State
    requires t < |s.tasks|
  {
    s.(tasks := s.tasks[t := s.tasks[t].(phase := phase)])
  }

  function OnPresented(routes: Routes, s: State, key: string, accepted: Terms, now: int): State
    requires key in routes && Points(s.cache)
  {
    var phase := match Check(s.cache, key, routes[key], accepted, now)
                 case Ok(invoice) => Verifying(invoice)
                 case Err(reason) => Refused(reason);
    State(AfterCheck(s.cache, key, routes[key], accepted, now), s.tasks + [Task(key, accepted, phase)])
  }

  function Next(routes: Routes, s: State, e: Event): State
    requires Enabled(routes, s, e)
  {
    match e
    case Challenged(key, _, now) => s.(cache := Mint(s.cache, IdMinted(routes, e), key, now))
    case Presented(key, accepted, now) => OnPresented(routes, s, key, accepted, now)
    case VerifyReturned(t, answer) =>
      WithPhase(s, t, match answer
                      case Yes => Settling(s.tasks[t].phase.invoice)
                      case No => Refused(VerifyInvalid)
                      case Threw => Refused(VerifyFailed))
    case SettleReturned(t, answer) =>
      match answer
      case Yes => WithPhase(s, t, Served(s.tasks[t].phase.invoice)).(cache := Consume(s.cache, s.tasks[t].phase.invoice))
      case No => WithPhase(s, t, Refused(SettleInvalid))
      case Threw => WithPhase(s, t, Refused(SettleFailed))
  }

  const START := State(Cache([], map[]), [])

  predicate IsRun(routes: Routes, run: seq<State>, events: seq<Event>) {
    && |run| == |events| + 1
    && run[0] == START
    && forall i :: 0 <= i < |events| ==>
         Enabled(routes, run[i], events[i]) && run[i + 1] == Next(routes, run[i], events[i])
  }

  /** No id is handed out twice: true of random ids, not of a pinned one. */
  predicate FreshIds(routes: Routes, run: seq<State>, events: seq<Event>)
    requires IsRun(routes, run, events)
  {
    forall i :: 0 <= i < |events| && events[i].Challenged? ==> Unused(run[i].cache, IdMinted(routes, events[i]))
  }

  predicate Unused(c: Cache, id: string) {
    forall k :: 0 <= k < |c.records| ==> c.records[k].invoiceId != id
  }

  predicate DistinctIds(c: Cache) {
    forall i, j :: 0 <= i < j < |c.records| ==> c.records[i].invoiceId != c.records[j].invoiceId
  }

  predicate Backed(routes: Routes, c: Cache, task: Task) {
    task.phase.Refused?
    || (&& task.key in routes && WellFormed(task.accepted)
        && Echoes(task.accepted, Offer(routes[task.key], task.accepted.invoiceId))
        && task.phase.invoice < |c.records|
        && c.records[task.phase.invoice].invoiceId == task.accepted.invoiceId
        && c.records[task.phase.invoice].routeKey == task.key
        && (task.phase.Served? ==> c.records[task.phase.invoice].consumed))
  }

  predicate Inv(routes: Routes, s: State) {
    Points(s.cache) && forall t :: 0 <= t < |s.tasks| ==> Backed(routes, s.cache, s.tasks[t])
  }

  // ---------------------------------------------------------------- theorems

  /**
   * The handler runs only for a payment that the facilitator has verified and then settled, on the payee, amount,
   * network, asset and invoice that an earlier challenge of the same route offered, and that came within ten minutes
   * of it. The terms settled are all of those offered exactly if the buyer has echoed the rest too. m, b, v and p are
   * the steps of the challenge, the presentation, the verification and the settlement.
   */
  lemma HandlerIsPaid(routes: Routes, run: seq<State>, events: seq<Event>, n: nat, t: nat)
    returns (m: nat, b: nat, v: nat, p: nat)
    requires IsRun(routes, run, events) && n < |run| && t < |run[n].tasks| && run[n].tasks[t].phase.Served?
    ensures m < b < v < p < n
    ensures events[p] == SettleReturned(t, Yes) && events[v] == VerifyReturned(t, Yes)
    ensures events[m].Challenged? && events[m].key == run[n].tasks[t].key && events[m].key in routes
    ensures events[b].Presented? && events[b].key == run[n].tasks[t].key && events[b].accepted == run[n].tasks[t].accepted
    ensures events[b].now <= events[m].now + 600_000
    ensures var accepted, offer := run[n].tasks[t].accepted, Offer(routes[events[m].key], IdMinted(routes, events[m]));
            && Echoes(accepted, offer) && accepted.invoiceId == offer.invoiceId && WellFormed(accepted)
            && (accepted == offer <==> EchoesRest(accepted, offer))
    ensures |run[m].cache.records| == run[n].tasks[t].phase.invoice
  {
    hide Next, Enabled, Inv, WellFormed;
    p := WhenServed(routes, run, events, n, t);
    v := WhenVerified(routes, run, events, p, t);
    InvAlways(routes, run, events, n);
    assert Backed(routes, run[n].cache, run[n].tasks[t]) by { TaskBacked(routes, run[n], t); }
    b := WhenPresented(routes, run, events, v, t);
    var k := run[n].tasks[t].phase.invoice;
    AdmittedInTime(run[b].cache, events[b].key, routes[events[b].key], events[b].accepted, events[b].now);
    m := WhenMinted(routes, run, events, b, k);
    RecordStays(routes, run, events, b, n, k);
    TaskStays(routes, run, events, v, n, t);
  }

  /** Some payment of invoice k has been served. */
  predicate PaidFor(s: State, k: nat) {
    exists t :: 0 <= t < |s.tasks| && s.tasks[t].phase == Served(k)
  }

  /** After the challenge of step m, its id was not minted again or found expired before step n. */
  predicate StillListed(routes: Routes, run: seq<State>, events: seq<Event>, m: nat, n: nat)
    requires IsRun(routes, run, events) && m < n < |run| && events[m].Challenged? && events[m].key in routes
  {
    forall j :: m < j < n ==>
      && (events[j].Challenged? && events[j].key in routes ==> IdMinted(routes, events[j]) != IdMinted(routes, events[m]))
      && (events[j].Presented? && events[j].accepted.invoiceId == IdMinted(routes, events[m]) ==>
            LastPhase(run[j + 1]) != Some(Refused(Expired)))
  }

  function LastPhase(s: State): Option<Phase> {
    if s.tasks == [] then None else Some(s.tasks[|s.tasks| - 1].phase)
  }

  /**
   * What becomes of a payment, by what has happened before: m is the challenge whose invoice its id still leads to.
   * An invoice that has been paid for comes first, then one that is more than ten minutes old, whose id is then
   * forgotten, then the route, then the four fields.
   */
  lemma PresentedIs(routes: Routes, run: seq<State>, events: seq<Event>, m: nat, i: nat)
    requires IsRun(routes, run, events) && m < i < |events| && events[m].Challenged? && events[m].key in routes
    requires StillListed(routes, run, events, m, i)
    requires events[i].Presented? && WellFormed(events[i].accepted)
    requires events[i].accepted.invoiceId == IdMinted(routes, events[m])
    ensures events[i].key in routes && |run[i + 1].tasks| == |run[i].tasks| + 1
    ensures var k, e, route := |run[m].cache.records|, events[i], routes[events[i].key];
            LastPhase(run[i + 1]) == Some(
              if PaidFor(run[i], k) then Refused(AlreadyConsumed)
              else if e.now > events[m].now + 600_000 then Refused(Expired)
              else if e.key != events[m].key then Refused(RouteMismatch)
              else if e.accepted.payTo != route.payTo || e.accepted.amount != route.price
                      || e.accepted.network != NetworkOf(route) || e.accepted.asset != AssetOf(route)
              then Refused(RequirementsMismatch)
              else Verifying(k))
    ensures IdMinted(routes, events[m]) in run[i].cache.ids
    ensures run[i + 1].cache.ids == run[i].cache.ids -
              if LastPhase(run[i + 1]) == Some(Refused(Expired)) then {IdMinted(routes, events[m])} else {}
  {
    hide Next, Enabled, Inv, WellFormed;
    ListedAt(routes, run, events, m, i);
    var k := |run[m].cache.records|;
    InvAlways(routes, run, events, i);
    PaidIffConsumed(routes, run, events, i, k);
    var m' := WhenMinted(routes, run, events, i, k);
    SameStep(routes, run, events, m, m');
    PresentedOutcome(routes, run[i], events[i]);
    OfferIs(routes[events[i].key], events[i].accepted.invoiceId);
  }

  /** So a payment that echoes its route's offer and is the first for its invoice is admitted exactly within ten
      minutes of the challenge; later it is refused as expired, and its id is unknown from then on. */
  lemma AdmittedIff(routes: Routes, run: seq<State>, events: seq<Event>, m: nat, i: nat)
    requires IsRun(routes, run, events) && m < i < |events| && events[m].Challenged? && events[m].key in routes
    requires StillListed(routes, run, events, m, i) && !PaidFor(run[i], |run[m].cache.records|)
    requires events[i].Presented? && events[i].key == events[m].key && WellFormed(events[i].accepted)
    requires var offer := Offer(routes[events[m].key], IdMinted(routes, events[m]));
             Echoes(events[i].accepted, offer) && events[i].accepted.invoiceId == offer.invoiceId
    ensures LastPhase(run[i + 1]) == Some(Verifying(|run[m].cache.records|)) <==> events[i].now <= events[m].now + 600_000
    ensures LastPhase(run[i + 1]) == Some(Refused(Expired)) <==> events[i].now > events[m].now + 600_000
    ensures IdMinted(routes, events[m]) in run[i + 1].cache.ids <==> events[i].now <= events[m].now + 600_000
  {
    hide IsRun, WellFormed, StillListed, PaidFor;
    OfferIs(routes[events[m].key], IdMinted(routes, events[m]));
    PresentedIs(routes, run, events, m, i);
  }

  /** A payment that is malformed, or whose id leads nowhere, goes no further; the rest of the cache is left alone. */
  lemma UnlistedIsRefused(routes: Routes, s: State, e: Event)
    requires Enabled(routes, s, e) && e.Presented?
    requires WellFormed(e.accepted) ==> e.accepted.invoiceId !in s.cache.ids
    ensures Next(routes, s, e).cache == s.cache
    ensures LastPhase(Next(routes, s, e)) == Some(Refused(if WellFormed(e.accepted) then UnknownInvoice else InvalidSignature))
  {
    hide WellFormed;
  }

  /** Names of the networks and the currency, as facilitators know them. */
  function NetworkOf(route: Route): string {
    if route.network == Some(Mainnet) then "xrpl:0" else if route.network == Some(Devnet) then "xrpl:2" else "xrpl:1"
  }

  function AssetOf(route: Route): string {
    if route.asset == Some(XRP) then "XRP" else "524C555344000000000000000000000000000000"
  }

  /** What a challenge offers: RLUSD on the test network unless the route says otherwise, with Ripple's issuer there. */
  lemma OfferIs(route: Route, id: string)
    ensures var offer := Offer(route, id);
            && offer.payTo == route.payTo && offer.amount == route.price && offer.invoiceId == id
            && offer.network == NetworkOf(route) && offer.asset == AssetOf(route) && offer.maxTimeoutSeconds == 600.0
            && offer.sourceTag == (if route.sourceTag.Some? then route.sourceTag.value else 804681468)
            && offer.destinationTag == None
            && offer.issuer == if route.asset == Some(XRP) then None
                               else if route.network == Some(Mainnet) then Some("rMxCKbEDwqr76QuheSUMdEGf4B9xJ8m5De")
                               else Some("rQhWct2fv4Vc4KRjRgMrxa8xPN9Zx9iLKV")
  {
  }

  /** It can be encoded unless the route's own payee, price or tag, or the id, are ill-formed. */
  lemma OfferIsWellFormedIff(route: Route, id: string)
    ensures WellFormed(Offer(route, id)) <==>
              "r" <= route.payTo && route.price != "" && id != "" && (route.sourceTag.Some? ==> route.sourceTag.value >= 0)
  {
    hide IsNumeral;
    CodeIsHex();
  }

  lemma CodeIsHex()
    ensures |RLUSD_HEX| == 40 && IsNumeral(RLUSD_HEX, Hex)
  {
    forall i | 0 <= i < |RLUSD_HEX| ensures DigitValue(RLUSD_HEX[i]) < 16 {
      assert RLUSD_HEX[i] in "02345C";
    }
  }

  /** The facilitator's answers: only two that say yes lead to the handler, and only the second changes the cache. */
  lemma FacilitatorAnswers(routes: Routes, s: State, t: nat, answer: Answer)
    requires t < |s.tasks|
    ensures s.tasks[t].phase.Verifying? ==>
              Next(routes, s, VerifyReturned(t, answer)) ==
              s.(tasks := s.tasks[t := s.tasks[t].(phase :=
                if answer == Yes then Settling(s.tasks[t].phase.invoice)
                else Refused(if answer == No then VerifyInvalid else VerifyFailed))])
    ensures s.tasks[t].phase.Settling? && s.tasks[t].phase.invoice < |s.cache.records| ==>
              var next, k := Next(routes, s, SettleReturned(t, answer)), s.tasks[t].phase.invoice;
              && next.tasks == s.tasks[t := s.tasks[t].(phase :=
                   if answer == Yes then Served(k) else Refused(if answer == No then SettleInvalid else SettleFailed))]
              && next.cache == if answer != Yes then s.cache
                               else s.cache.(records := s.cache.records[k := s.cache.records[k].(consumed := true)])
  {
  }

  /** Whatever else a buyer accepts in place of the offer is served if the facilitator settles it. */
  lemma OtherTermsAreServed(routes: Routes, key: string, freshId: string, accepted: Terms)
    returns (run: seq<State>, events: seq<Event>)
    requires key in routes && WellFormed(accepted) && accepted.invoiceId == routes[key].invoiceId.GetOr(freshId)
    requires Echoes(accepted, Offer(routes[key], accepted.invoiceId))
    ensures IsRun(routes, run, events) && |events| == 4 && FreshIds(routes, run, events)
    ensures run[4].tasks == [Task(key, accepted, Served(0))]
  {
    hide Offer, WellFormed, Echoes;
    run, events := First(routes);
    run, events := Then(routes, run, events, Challenged(key, freshId, 0));
    InvAlways(routes, run, events, 1);
    run, events := Then(routes, run, events, Presented(key, accepted, 0));
    run, events := Then(routes, run, events, VerifyReturned(0, Yes));
    run, events := Then(routes, run, events, SettleReturned(0, Yes));
  }

  /** In particular, on every RLUSD route, the same amount of another issuer's token of that currency code. */
  lemma OtherIssuerIsServed(routes: Routes, key: string, freshId: string, issuer: string)
    returns (run: seq<State>, events: seq<Event>, accepted: Terms)
    requires key in routes && routes[key].asset.GetOr(RLUSD) == RLUSD && "r" <= issuer
    requires WellFormed(Offer(routes[key], routes[key].invoiceId.GetOr(freshId)))
    ensures accepted == Offer(routes[key], routes[key].invoiceId.GetOr(freshId)).(issuer := Some(issuer))
    ensures IsRun(routes, run, events) && |events| == 4 && run[4].tasks == [Task(key, accepted, Served(0))]
  {
    hide IsNumeral;
    accepted := Offer(routes[key], routes[key].invoiceId.GetOr(freshId)).(issuer := Some(issuer));
    run, events := OtherTermsAreServed(routes, key, freshId, accepted);
  }

  /** Two payments served on one invoice overlapped: when the later one was presented the earlier was in flight. */
  lemma ServedTwiceMeansOverlap(routes: Routes, run: seq<State>, events: seq<Event>, n: nat, t: nat, u: nat, i: nat)
    requires IsRun(routes, run, events) && n < |run| && t < u < |run[n].tasks|
    requires run[n].tasks[t].phase.Served? && run[n].tasks[u].phase.Served?
    requires run[n].tasks[t].phase.invoice == run[n].tasks[u].phase.invoice
    requires i < n && events[i].Presented? && |run[i].tasks| == u
    ensures run[i].tasks[t].phase.Verifying? || run[i].tasks[t].phase.Settling?
  {
    hide Next, Enabled, Inv;
    TaskStays(routes, run, events, i, n, t);
    TaskStays(routes, run, events, i + 1, n, u);
    InvAlways(routes, run, events, i);
    TaskBacked(routes, run[i], t);
    PresentedOutcome(routes, run[i], events[i]);
  }

  /** With fresh ids, no settlement that starts after an invoice was paid gets as far as the facilitator. */
  lemma PaidInvoiceIsRefused(routes: Routes, run: seq<State>, events: seq<Event>, n: nat, t: nat, i: nat)
    requires IsRun(routes, run, events) && FreshIds(routes, run, events) && n <= i < |events|
    requires t < |run[n].tasks| && run[n].tasks[t].phase.Served?
    requires events[i].Presented? && events[i].accepted.invoiceId == run[n].tasks[t].accepted.invoiceId
    ensures |run[i + 1].tasks| == |run[i].tasks| + 1
    ensures run[i + 1].tasks[|run[i].tasks|].phase in
              if WellFormed(events[i].accepted) then {Refused(AlreadyConsumed), Refused(UnknownInvoice)}
              else {Refused(InvalidSignature)}
  {
    hide Next, Enabled, Inv, FreshIds, WellFormed;
    TaskStays(routes, run, events, n, i, t);
    InvAlways(routes, run, events, i);
    TaskBacked(routes, run[i], t);
    IdsStayDistinct(routes, run, events, i);
    PresentedOutcome(routes, run[i], events[i]);
    SameRecord(run[i].cache, run[i].tasks[t].phase.invoice, events[i].accepted.invoiceId);
  }

  /** Otherwise: a settlement admitted after the id was paid uses a second invoice, minted later under the same id. */
  lemma AdmittedAfterPaymentMeansMintedTwice(routes: Routes, run: seq<State>, events: seq<Event>, n: nat, t: nat, i: nat)
    returns (m: nat)
    requires IsRun(routes, run, events) && n <= i < |events|
    requires t < |run[n].tasks| && run[n].tasks[t].phase.Served?
    requires events[i].Presented? && events[i].accepted.invoiceId == run[n].tasks[t].accepted.invoiceId
    requires |run[i + 1].tasks| == |run[i].tasks| + 1 && run[i + 1].tasks[|run[i].tasks|].phase.Verifying?
    ensures m < i && events[m].Challenged? && events[m].key in routes
    ensures IdMinted(routes, events[m]) == run[n].tasks[t].accepted.invoiceId
    ensures |run[m].cache.records| == run[i + 1].tasks[|run[i].tasks|].phase.invoice != run[n].tasks[t].phase.invoice
  {
    hide Next, Enabled, Inv;
    TaskStays(routes, run, events, n, i, t);
    InvAlways(routes, run, events, i);
    TaskBacked(routes, run[i], t);
    PresentedOutcome(routes, run[i], events[i]);
    m := WhenMinted(routes, run, events, i, run[i].cache.ids[events[i].accepted.invoiceId]);
  }

  /** A pinned id: after another challenge the same signed payment is admitted again, and served again if the
      facilitator settles it again. */
  lemma PinnedIdServesAgain(routes: Routes, key: string) returns (run: seq<State>, events: seq<Event>)
    requires key in routes && routes[key].invoiceId.Some?
    requires WellFormed(Offer(routes[key], routes[key].invoiceId.value))
    ensures IsRun(routes, run, events) && |events| == 8
    ensures var s := run[8]; var offer := Offer(routes[key], routes[key].invoiceId.value);
            s.tasks == [Task(key, offer, Served(0)), Task(key, offer, Served(1))] && run[4].tasks == s.tasks[..1]
  {
    hide Offer, Next, Enabled, WellFormed;
    run, events := First(routes);
    run, events := PayPinned(routes, run, events, key);
    run, events := PayPinned(routes, run, events, key);
  }

  /** A challenge with a pinned id, and a payment of it that the facilitator verifies and settles. */
  lemma PayPinned(routes: Routes, run: seq<State>, events: seq<Event>, key: string)
    returns (run': seq<State>, events': seq<Event>)
    requires IsRun(routes, run, events) && key in routes && routes[key].invoiceId.Some?
    requires WellFormed(Offer(routes[key], routes[key].invoiceId.value))
    ensures IsRun(routes, run', events') && |events'| == |events| + 4 && run <= run'
    ensures var s, s' := run[|events|], run'[|events'|];
            var offer := Offer(routes[key], routes[key].invoiceId.value);
            && s'.tasks == s.tasks + [Task(key, offer, Served(|s.cache.records|))]
            && |s'.cache.records| == |s.cache.records| + 1
  {
    hide Points, Offer, WellFormed;
    var s := run[|events|];
    var offer := Offer(routes[key], routes[key].invoiceId.value);
    OfferNamesInvoice(routes[key], routes[key].invoiceId.value);
    run', events' := Then(routes, run, events, Challenged(key, "", 0));
    InvAlways(routes, run', events', |events'|);
    run', events' := Then(routes, run', events', Presented(key, offer, 0));
    run', events' := Then(routes, run', events', VerifyReturned(|s.tasks|, Yes));
    run', events' := Then(routes, run', events', SettleReturned(|s.tasks|, Yes));
  }

  /** Overlapping settlements of one invoice are both served if the facilitator settles both. */
  lemma OverlapServesTwice(routes: Routes, key: string, id: string) returns (run: seq<State>, events: seq<Event>)
    requires key in routes && routes[key].invoiceId.None? && WellFormed(Offer(routes[key], id))
    ensures IsRun(routes, run, events) && FreshIds(routes, run, events)
    ensures var s := run[|events|];
            |s.tasks| == 2 && s.tasks[0].phase == Served(0) && s.tasks[1].phase == Served(0)
  {
    hide Offer, WellFormed, Points, Mint, Check, AfterCheck;
    run, events := BothAdmitted(routes, key, id);
    run, events := Then(routes, run, events, VerifyReturned(0, Yes));
    run, events := Then(routes, run, events, VerifyReturned(1, Yes));
    run, events := Then(routes, run, events, SettleReturned(0, Yes));
    run, events := Then(routes, run, events, SettleReturned(1, Yes));
  }

  lemma BothAdmitted(routes: Routes, key: string, id: string) returns (run: seq<State>, events: seq<Event>)
    requires key in routes && routes[key].invoiceId.None? && WellFormed(Offer(routes[key], id))
    ensures IsRun(routes, run, events) && |events| == 3 && FreshIds(routes, run, events)
    ensures |run[3].cache.records| == 1 && |run[3].tasks| == 2
    ensures run[3].tasks[0].phase == Verifying(0) && run[3].tasks[1].phase == Verifying(0)
  {
    hide Points, Offer, WellFormed;
    var offer := Offer(routes[key], id);
    OfferNamesInvoice(routes[key], id);
    run, events := First(routes);
    run, events := Then(routes, run, events, Challenged(key, id, 0));
    PointsAfter(run[1].cache);
    run, events := Then(routes, run, events, Presented(key, offer, 0));
    run, events := Then(routes, run, events, Presented(key, offer, 0));
  }

  lemma OfferNamesInvoice(route: Route, id: string)
    ensures Offer(route, id).invoiceId == id
  {
  }

  lemma PointsAfter(c: Cache)
    requires forall id :: id in c.ids ==> c.ids[id] < |c.records| && c.records[c.ids[id]].invoiceId == id
    ensures Points(c)
  {
  }

  lemma First(routes: Routes) returns (run: seq<State>, events: seq<Event>)
    ensures run == [START] && events == [] && IsRun(routes, run, events)
  {
    run, events := [START], [];
  }

  lemma Then(routes: Routes, run: seq<State>, events: seq<Event>, e: Event)
    returns (run': seq<State>, events': seq<Event>)
    requires IsRun(routes, run, events) && Enabled(routes, run[|events|], e)
    ensures run' == run + [Next(routes, run[|events|], e)] && events' == events + [e]
    ensures IsRun(routes, run', events')
  {
    run', events' := run + [Next(routes, run[|events|], e)], events + [e];
  }

  // ---------------------------------------------------------------- proofs: the invariant

  lemma TaskBacked(routes: Routes, s: State, t: nat)
    requires Inv(routes, s) && t < |s.tasks|
    ensures Points(s.cache) && Backed(routes, s.cache, s.tasks[t])
  {
  }

  lemma {:induction false} InvAlways(routes: Routes, run: seq<State>, events: seq<Event>, n: nat)
    requires IsRun(routes, run, events) && n < |run|
    ensures Inv(routes, run[n]) && Points(run[n].cache)
  {
    hide Next, Enabled;
    if n > 0 {
      hide Inv;
      InvAlways(routes, run, events, n - 1);
      InvStep(routes, run[n - 1], events[n - 1]);
    }
    PointsOf(routes, run[n]);
  }

  lemma PointsOf(routes: Routes, s: State)
    requires Inv(routes, s)
    ensures Points(s.cache)
  {
  }

  lemma InvStep(routes: Routes, s: State, e: Event)
    requires Inv(routes, s) && Enabled(routes, s, e)
    ensures Inv(routes, Next(routes, s, e))
  {
    hide Offer, WellFormed, Echoes;
    var next := Next(routes, s, e);
    forall t | 0 <= t < |next.tasks| ensures Backed(routes, next.cache, next.tasks[t]) {
      assert t < |s.tasks| ==> Backed(routes, s.cache, s.tasks[t]);
    }
  }

  // ---------------------------------------------------------------- proofs: what a step leaves alone

  predicate Kept(before: Cache, after: Cache, k: nat) {
    k < |before.records| ==>
      && k < |after.records|
      && after.records[k].invoiceId == before.records[k].invoiceId
      && after.records[k].routeKey == before.records[k].routeKey
      && after.records[k].expiresAt == before.records[k].expiresAt
      && (before.records[k].consumed ==> after.records[k].consumed)
  }

  lemma {:induction false} RecordStays(routes: Routes, run: seq<State>, events: seq<Event>, i: nat, j: nat, k: nat)
    requires IsRun(routes, run, events) && i <= j < |run|
    ensures Kept(run[i].cache, run[j].cache, k)
  {
    hide Next, Enabled;
    if i < j {
      RecordStays(routes, run, events, i, j - 1, k);
      RecordStep(routes, run[j - 1], events[j - 1], k);
    }
  }

  lemma RecordStep(routes: Routes, s: State, e: Event, k: nat)
    requires Enabled(routes, s, e)
    ensures Kept(s.cache, Next(routes, s, e).cache, k)
  {
    hide Offer, WellFormed, Echoes;
  }

  predicate Follows(before: State, after: State, t: nat) {
    t < |before.tasks| ==>
      && t < |after.tasks|
      && after.tasks[t].key == before.tasks[t].key
      && after.tasks[t].accepted == before.tasks[t].accepted
      && (before.tasks[t].phase.Served? ==> after.tasks[t].phase == before.tasks[t].phase)
      && (!after.tasks[t].phase.Refused? ==>
            !before.tasks[t].phase.Refused? && after.tasks[t].phase.invoice == before.tasks[t].phase.invoice)
  }

  lemma {:induction false} TaskStays(routes: Routes, run: seq<State>, events: seq<Event>, i: nat, j: nat, t: nat)
    requires IsRun(routes, run, events) && i <= j < |run|
    ensures Follows(run[i], run[j], t)
  {
    hide Next, Enabled;
    if i < j {
      TaskStays(routes, run, events, i, j - 1, t);
      TaskStep(routes, run[j - 1], events[j - 1], t);
    }
  }

  lemma TaskStep(routes: Routes, s: State, e: Event, t: nat)
    requires Enabled(routes, s, e)
    ensures Follows(s, Next(routes, s, e), t)
  {
    hide Offer, WellFormed, Echoes;
  }

  lemma PresentedOutcome(routes: Routes, s: State, e: Event)
    requires Enabled(routes, s, e) && e.Presented?
    ensures e.key in routes && Points(s.cache)
    ensures var phase := match Check(s.cache, e.key, routes[e.key], e.accepted, e.now)
                         case Ok(invoice) => Verifying(invoice)
                         case Err(reason) => Refused(reason);
            Next(routes, s, e).tasks == s.tasks + [Task(e.key, e.accepted, phase)]
    ensures Next(routes, s, e).cache == AfterCheck(s.cache, e.key, routes[e.key], e.accepted, e.now)
  {
  }

  // ---------------------------------------------------------------- proofs: when it happened

  lemma {:induction false} WhenServed(routes: Routes, run: seq<State>, events: seq<Event>, n: nat, t: nat)
    returns (p: nat)
    requires IsRun(routes, run, events) && n < |run| && t < |run[n].tasks| && run[n].tasks[t].phase.Served?
    ensures p < n && events[p] == SettleReturned(t, Yes) && t < |run[p].tasks|
    ensures run[p].tasks[t].phase == Settling(run[n].tasks[t].phase.invoice)
  {
    hide Next, Enabled;
    if t < |run[n - 1].tasks| && run[n - 1].tasks[t].phase.Served? {
      TaskStep(routes, run[n - 1], events[n - 1], t);
      p := WhenServed(routes, run, events, n - 1, t);
    } else {
      p := n - 1;
      ServedHow(routes, run[p], events[p], t);
    }
  }

  lemma ServedHow(routes: Routes, s: State, e: Event, t: nat)
    requires Enabled(routes, s, e)
    requires var next := Next(routes, s, e); t < |next.tasks| && next.tasks[t].phase.Served?
    requires t < |s.tasks| ==> !s.tasks[t].phase.Served?
    ensures e == SettleReturned(t, Yes) && t < |s.tasks|
    ensures s.tasks[t].phase == Settling(Next(routes, s, e).tasks[t].phase.invoice)
  {
    hide Offer, WellFormed, Echoes;
  }

  lemma {:induction false} WhenVerified(routes: Routes, run: seq<State>, events: seq<Event>, n: nat, t: nat)
    returns (v: nat)
    requires IsRun(routes, run, events) && n < |run| && t < |run[n].tasks| && run[n].tasks[t].phase.Settling?
    ensures v < n && events[v] == VerifyReturned(t, Yes) && t < |run[v].tasks|
    ensures run[v].tasks[t] == run[n].tasks[t].(phase := Verifying(run[n].tasks[t].phase.invoice))
  {
    hide Next, Enabled;
    if t < |run[n - 1].tasks| && run[n - 1].tasks[t].phase.Settling? {
      TaskStep(routes, run[n - 1], events[n - 1], t);
      v := WhenVerified(routes, run, events, n - 1, t);
    } else {
      v := n - 1;
      SettlingHow(routes, run[v], events[v], t);
    }
  }

  lemma SettlingHow(routes: Routes, s: State, e: Event, t: nat)
    requires Enabled(routes, s, e)
    requires var next := Next(routes, s, e); t < |next.tasks| && next.tasks[t].phase.Settling?
    requires t < |s.tasks| ==> !s.tasks[t].phase.Settling?
    ensures e == VerifyReturned(t, Yes) && t < |s.tasks|
    ensures s.tasks[t] == Next(routes, s, e).tasks[t].(phase := Verifying(Next(routes, s, e).tasks[t].phase.invoice))
  {
    hide Offer, WellFormed, Echoes;
  }

  lemma {:induction false} WhenMinted(routes: Routes, run: seq<State>, events: seq<Event>, n: nat, k: nat)
    returns (m: nat)
    requires IsRun(routes, run, events) && n < |run| && k < |run[n].cache.records|
    ensures m < n && events[m].Challenged? && events[m].key in routes && |run[m].cache.records| == k
    ensures run[n].cache.records[k].invoiceId == IdMinted(routes, events[m])
    ensures run[n].cache.records[k].routeKey == events[m].key
    ensures run[n].cache.records[k].expiresAt == events[m].now + 600_000
  {
    hide Next, Enabled;
    if k < |run[n - 1].cache.records| {
      m := WhenMinted(routes, run, events, n - 1, k);
      RecordStep(routes, run[n - 1], events[n - 1], k);
    } else {
      m := n - 1;
      MintedHow(routes, run[m], events[m], k);
    }
  }

  lemma MintedHow(routes: Routes, s: State, e: Event, k: nat)
    requires Enabled(routes, s, e) && |s.cache.records| <= k < |Next(routes, s, e).cache.records|
    ensures e.Challenged? && e.key in routes && |s.cache.records| == k
    ensures Next(routes, s, e).cache.records[k].invoiceId == IdMinted(routes, e)
    ensures Next(routes, s, e).cache.records[k].routeKey == e.key
    ensures Next(routes, s, e).cache.records[k].expiresAt == e.now + 600_000
  {
    hide Offer, WellFormed, Echoes;
  }

  lemma {:induction false} WhenPresented(routes: Routes, run: seq<State>, events: seq<Event>, n: nat, t: nat)
    returns (b: nat)
    requires IsRun(routes, run, events) && n < |run| && t < |run[n].tasks| && !run[n].tasks[t].phase.Refused?
    ensures b < n && |run[b].tasks| == t && Points(run[b].cache)
    ensures events[b].Presented? && events[b].key in routes
    ensures events[b].key == run[n].tasks[t].key && events[b].accepted == run[n].tasks[t].accepted
    ensures Check(run[b].cache, events[b].key, routes[events[b].key], events[b].accepted, events[b].now)
            == Ok(run[n].tasks[t].phase.invoice)
  {
    hide Next, Enabled;
    if t < |run[n - 1].tasks| {
      TaskStep(routes, run[n - 1], events[n - 1], t);
      b := WhenPresented(routes, run, events, n - 1, t);
    } else {
      b := n - 1;
      PresentedHow(routes, run[b], events[b], t);
    }
  }

  lemma PresentedHow(routes: Routes, s: State, e: Event, t: nat)
    requires Enabled(routes, s, e) && |s.tasks| <= t < |Next(routes, s, e).tasks|
    ensures |s.tasks| == t && e.Presented? && e.key in routes && Points(s.cache)
    ensures var phase := match Check(s.cache, e.key, routes[e.key], e.accepted, e.now)
                         case Ok(invoice) => Verifying(invoice)
                         case Err(reason) => Refused(reason);
            Next(routes, s, e).tasks[t] == Task(e.key, e.accepted, phase)
  {
    hide Offer, WellFormed, Echoes, Check;
  }

  lemma AdmittedInTime(c: Cache, key: string, route: Route, accepted: Terms, now: int)
    requires Points(c) && Check(c, key, route, accepted, now).Ok?
    ensures var k := Check(c, key, route, accepted, now).value;
            k < |c.records| && now <= c.records[k].expiresAt && c.records[k].routeKey == key
  {
    hide Offer, WellFormed, Echoes;
  }

  /** Two challenges that minted the same record are one. */
  lemma SameStep(routes: Routes, run: seq<State>, events: seq<Event>, m: nat, n: nat)
    requires IsRun(routes, run, events) && m < |events| && n < |events|
    requires events[m].Challenged? && events[n].Challenged? && |run[m].cache.records| == |run[n].cache.records|
    ensures m == n
  {
    if m < n {
      RecordStays(routes, run, events, m + 1, n, |run[m].cache.records|);
    } else if n < m {
      RecordStays(routes, run, events, n + 1, m, |run[n].cache.records|);
    }
  }

  lemma {:induction false} ListedAt(routes: Routes, run: seq<State>, events: seq<Event>, m: nat, n: nat)
    requires IsRun(routes, run, events) && m < n < |run| && events[m].Challenged? && events[m].key in routes
    requires StillListed(routes, run, events, m, n)
    ensures var id := IdMinted(routes, events[m]);
            id in run[n].cache.ids && run[n].cache.ids[id] == |run[m].cache.records| < |run[n].cache.records|
  {
    hide Next;
    if n > m + 1 {
      ListedAt(routes, run, events, m, n - 1);
      ListedStep(routes, run[n - 1], events[n - 1], IdMinted(routes, events[m]));
    } else {
      ListedFrom(routes, run[m], events[m]);
    }
  }

  lemma ListedFrom(routes: Routes, s: State, e: Event)
    requires Enabled(routes, s, e) && e.Challenged?
    ensures var next := Next(routes, s, e);
            && IdMinted(routes, e) in next.cache.ids && next.cache.ids[IdMinted(routes, e)] == |s.cache.records|
            && |next.cache.records| == |s.cache.records| + 1
  {
  }

  lemma ListedStep(routes: Routes, s: State, e: Event, id: string)
    requires Enabled(routes, s, e) && id in s.cache.ids
    requires e.Challenged? ==> IdMinted(routes, e) != id
    requires e.Presented? && e.accepted.invoiceId == id ==> LastPhase(Next(routes, s, e)) != Some(Refused(Expired))
    ensures var next := Next(routes, s, e);
            id in next.cache.ids && next.cache.ids[id] == s.cache.ids[id] && |s.cache.records| <= |next.cache.records|
  {
    hide Offer, WellFormed, Echoes;
  }

  /** The flag says whether a payment has been served. */
  lemma {:induction false} PaidIffConsumed(routes: Routes, run: seq<State>, events: seq<Event>, n: nat, k: nat)
    requires IsRun(routes, run, events) && n < |run| && k < |run[n].cache.records|
    ensures run[n].cache.records[k].consumed <==> PaidFor(run[n], k)
  {
    hide Next, Enabled, Inv;
    InvAlways(routes, run, events, n);
    if t :| 0 <= t < |run[n].tasks| && run[n].tasks[t].phase == Served(k) {
      TaskBacked(routes, run[n], t);
    } else if n > 0 {
      if k < |run[n - 1].cache.records| {
        PaidIffConsumed(routes, run, events, n - 1, k);
      }
      if run[n].cache.records[k].consumed {
        ConsumedHow(routes, run[n - 1], events[n - 1], k);
      }
    }
  }

  lemma ConsumedHow(routes: Routes, s: State, e: Event, k: nat)
    requires Enabled(routes, s, e) && k < |Next(routes, s, e).cache.records| && Next(routes, s, e).cache.records[k].consumed
    requires k < |s.cache.records| && s.cache.records[k].consumed ==> PaidFor(s, k)
    ensures PaidFor(Next(routes, s, e), k)
  {
    hide Offer, WellFormed, Echoes;
    var next := Next(routes, s, e);
    if t :| 0 <= t < |s.tasks| && s.tasks[t].phase == Served(k) {
      TaskStep(routes, s, e, t);
      assert next.tasks[t].phase == Served(k);
    } else if e.SettleReturned? && e.answer == Yes {
      assert next.tasks[e.t].phase == Served(s.tasks[e.t].phase.invoice);
    }
  }

  // ---------------------------------------------------------------- proofs: fresh ids

  lemma {:induction false} IdsStayDistinct(routes: Routes, run: seq<State>, events: seq<Event>, n: nat)
    requires IsRun(routes, run, events) && FreshIds(routes, run, events) && n < |run|
    ensures DistinctIds(run[n].cache)
  {
    hide Next, Enabled;
    if n > 0 {
      IdsStayDistinct(routes, run, events, n - 1);
      DistinctStep(routes, run[n - 1], events[n - 1]);
    }
  }

  lemma DistinctStep(routes: Routes, s: State, e: Event)
    requires Enabled(routes, s, e) && DistinctIds(s.cache)
    requires e.Challenged? ==> Unused(s.cache, IdMinted(routes, e))
    ensures DistinctIds(Next(routes, s, e).cache)
  {
    hide Offer, WellFormed, Echoes;
  }

  lemma SameRecord(c: Cache, k: nat, id: string)
    requires Points(c) && DistinctIds(c) && k < |c.records| && c.records[k].invoiceId == id
    ensures id in c.ids ==> c.ids[id] == k
  {
    assert id in c.ids ==> c.records[c.ids[id]].invoiceId == id;
  }
}
