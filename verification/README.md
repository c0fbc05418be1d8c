# Verification model of the n-payment SDK

A payment SDK in TypeScript moves money from concurrent JavaScript: a handler reads shared state, awaits a
network answer, and then writes. This project models the places where that is delicate and proves what holds
in every interleaving, over whole runs, or for every input.

How the model is built:

* Code between two awaits is one atomic step. A module about concurrent code has a `State`, an `Event` for each
  step (including each answer the network may give, and failures), `Enabled`, `Next`, and `IsRun` for a sequence
  of states and events. Theorems quantify over all runs; the continuation of any pending call may be the next step.
* Where the source updates fields, a class with the same fields has one method per stretch between awaits. Its
  postcondition ties the new field values to the function that `Next` uses, so the theorems about runs are about
  the code in the methods.
* Where a law is not unconditional, a lemma gives the exact condition and another one the runs or inputs that break
  it, for all parameters.
* JavaScript specifics are kept: `bigint` division truncates toward zero, integer-like object keys are listed
  first, `then(f, f)` and `then(f)` differ after a rejection, a `Set` of strings distinguishes letter case.

Files, one module each unless said otherwise:

| file | subject |
|---|---|
| MorphFacilitator.dfy, MorphBuyer.dfy, Eip3009.dfy | sponsored payments: facilitator, buyer, codec; the token follows EIP-3009, "Specification" |
| CanonicalJson.dfy, MorphAuth.dfy | canonical key order and request signing |
| XrplPaywall.dfy, RlusdVerifier.dfy, BitvmPegin.dfy | invoices, self-verified payments, peg-in intents |
| AddressLock.dfy, AcquisitionRouter.dfy, AgentVisa.dfy | promise-chain locks and what they protect |
| Delegation.dfy, WormholeCaps.dfy, SurgePricing.dfy | budgets, caps and windows over whole runs |
| DecimalAmounts.dfy, FlareQuotes.dfy, DirectMintMemo.dfy, FlashBatch.dfy | amounts, quotes, memo and calldata |
| SwapSizing.dfy, RlusdLanes.dfy, RlusdCorridor.dfy, IusdCorridor.dfy | swap arithmetic, bridge lanes and route selection |
| JsValues.dfy, Numerals.dfy (with module BigInts), Arithmetic.dfy, Chains.dfy | shared vocabulary |

`dafny verify dfyconfig.toml` checks the whole project.

## Model

| member | source | states |
|---|---|---|
| MorphFacilitator.Facilitator.Begin | src/morph/facilitator.ts:153-212 | The synchronous part of a verify or settle request; the nonce is looked up but not yet claimed. |
| MorphFacilitator.Facilitator.Recovered | src/morph/facilitator.ts:222-234 | A request whose recovered signer is not the authorizer, in any letter case, is answered and goes no further. |
| MorphFacilitator.Facilitator.ReadReturned | src/morph/facilitator.ts:236-258 | Only a settle that found the authorization unused claims its nonce; a failed read stops settles but not verifies. |
| MorphFacilitator.Facilitator.Submit | src/morph/facilitator.ts:265-279 | A signature that cannot be split fails the submission before anything is sent. |
| MorphFacilitator.Facilitator.SubmitThrew | src/morph/facilitator.ts:119-123 | A failed submission answers 500 and frees the nonce, and changes nothing else. |
| MorphFacilitator.Facilitator.ReceiptReturned | src/morph/facilitator.ts:279-284 | The settle answers 200 exactly on a successful receipt; a revert frees the nonce. |
| MorphFacilitator.CheckPassed | src/morph/facilitator.ts:193-212 | A payment that passes the checks is inside its time window, covers the required amount, pays the stated payee and has a nonce not in the set. |
| MorphFacilitator.PassesIffFlawless | src/morph/facilitator.ts:153-212 | A request passes as a given payment if and only if it has none of nine flaws, each stated on its own, and carries that payment, in the inner payload or flattened. |
| MorphFacilitator.FirstFlawIsReported | src/morph/facilitator.ts:159-212 | Otherwise it is refused with the first of its flaws in the source's order, except that a required amount that is no integer throws. |
| MorphFacilitator.BeginAnswers | src/morph/facilitator.ts:101-112 | A request that passes waits for its signer, any other is turned away with the code of its check; nothing else changes, and no nonce is claimed yet. |
| MorphFacilitator.RecoveryAnswers | src/morph/facilitator.ts:222-234 | No recovered signer, another signer, or the authorizer in any letter case: the answer or the next wait, with nothing else changed. |
| MorphFacilitator.ReadAnswers | src/morph/facilitator.ts:236-252 | The answer for each outcome of the state read, for verify and for settle; only a settle that goes on adds its nonce. |
| MorphFacilitator.FailureFreesNonce | src/morph/facilitator.ts:119-123 | A signature that does not split, a call or wait that throws, and a reverted receipt each answer 500, take the nonce out of the set and change nothing else. |
| MorphFacilitator.SuccessAnswers | src/morph/facilitator.ts:265-285 | Otherwise the transaction is sent, and a successful receipt answers 200 with it and leaves the set alone. |
| MorphFacilitator.FailedSettleIsForgotten | src/morph/facilitator.ts:115-123 | In every run, at the step that answers a settle 500 its nonce is not in the set. |
| MorphFacilitator.FailedSettlePassesAgain | src/morph/facilitator.ts:119-120 | The same request then passes the checks again, as the same payment, if and only if its time window still lasts. |
| MorphFacilitator.RetrySettles | src/morph/facilitator.ts:109-124 | For every payment that settles alone there is a run whose first transaction reverts and whose retry is answered 200. |
| MorphFacilitator.InvAlways | src/morph/facilitator.ts:106-285 | In every run the process, the sponsor's transactions and the ledger agree: every pending task is signed as required, every mined transaction is one log entry and back, no (from, nonce) is executed twice. |
| MorphFacilitator.SettleIsBacked | src/morph/facilitator.ts:106-124 | Every 200 settle answer is backed by one ledger transfer of at least the required amount from the recovered signer to the stated payee, whatever requests, third parties, reverts and lost answers interleave. |
| MorphFacilitator.AtMostOneSettle | src/morph/facilitator.ts:106-124 | Two 200 answers never share an (authorizer, nonce). |
| MorphFacilitator.PromisesAreCovered | src/morph/facilitator.ts:106-124 | Over any set of settles answered 200, what a payee was promised is at most what it received on chain. |
| MorphFacilitator.EntryIsAuthorised | src/morph/facilitator.ts:265-279 | In every run each ledger entry was made by one step, from an authorization not used before, signed for the token by its sender, of that value and payee, within its time window. |
| MorphFacilitator.UsedIsRefused | src/morph/facilitator.ts:236-244 | Once an authorization is used on chain, a settle whose state read comes later is never answered 200, even if another settle has dropped the nonce from the set. |
| MorphFacilitator.SettledNonceStays | src/morph/facilitator.ts:106-124 | If settles of one nonce never overlap, a nonce that got a 200 stays in the set for the rest of the run. |
| MorphFacilitator.OverlapForgetsNonce | src/morph/facilitator.ts:119-122 | For every payment that settles alone there is a run with two overlapping settles after which the settled nonce is no longer in the set: the set alone does not prevent replay, the ledger does. |
| MorphBuyer.ParsedIff | src/adapters/morph-x402.ts:258-282 | A challenge is usable if and only if it names a payee and an amount; the asset is the chain's USDC unless it names one. |
| MorphBuyer.CheckAccepts | src/morph/facilitator.ts:193-212 | The buyer's request passes the facilitator's checks exactly while its five minutes last by the facilitator's clock. |
| MorphBuyer.SignatureAccepts | src/adapters/morph-x402.ts:149-157 | The signature is over the bytes the facilitator hashes, after encoding and decoding the authorization, so the recovered signer is the buyer. |
| MorphBuyer.SponsoredPaymentAccepted | src/adapters/morph-x402.ts:130-170 | With the same token, chain and domain and a fresh nonce, every authorization built by the buyer is accepted by verify if and only if the facilitator's clock is less than 300 seconds past the buyer's; otherwise it is refused as expired. |
| Eip3009.DecodeEncode | src/morph/eip3009.ts:87-113 | Decoding the wire form of an authorization gives it back, for all integers. |
| Eip3009.DecodeIff | src/morph/eip3009.ts:99-113 | Decoding succeeds if and only if no field is missing and the three numbers can be read, and each field is taken over. |
| Eip3009.SignedBytesIff | src/morph/eip3009.ts:62-74 | Two typed data are hashed as the same bytes if and only if they agree, with addresses and nonce in any letter case. |
| Eip3009.SplitIff | src/morph/eip3009.ts:119-124 | A signature splits if and only if it is 65 bytes long and ends in two hexadecimal digits. |
| Eip3009.SplitJoin | src/morph/eip3009.ts:119-125 | r, s and v put back together are the signature that was split. |
| BigInts.RoundTrip | src/morph/eip3009.ts:91-110 | An integer printed in base 10 is read back by BigInt, with all its literal forms, as itself, negative ones included. |
| CanonicalJson.CanonicalIff | src/morph/auth.ts:19-30 | Two JSON values have the same canonical form if and only if they differ, at any depth, only by the order of keys and by what they have under the key `__proto__`, which assignment drops. |
| CanonicalJson.CanonicalIsSame | src/morph/auth.ts:19-30 | The canonical form is the value without the key `__proto__` at any depth: no other key or value is lost and arrays keep their order. |
| CanonicalJson.NothingLostIff | src/morph/auth.ts:24-27 | Nothing is lost if and only if that key is nowhere in the value. |
| CanonicalJson.DroppedKeyGoesUnseen | src/morph/auth.ts:24-27 | Any object may be given any value under that key without changing its canonical form. |
| CanonicalJson.Idempotent | src/morph/auth.ts:19-30 | Canonicalising twice changes nothing more. |
| CanonicalJson.KeysComeEnumerated | src/morph/auth.ts:21-28 | The canonical keys of any object are its own keys but `__proto__`, the array indices first and by value, then the others in lexicographic order. |
| CanonicalJson.LexicographicIff | src/morph/auth.ts:18-28 | They are the object's keys in the lexicographic order that the comment promises if and only if `__proto__` is not among them and that order already lists the indices first and by value. |
| CanonicalJson.KeysComeSorted | src/morph/auth.ts:21-28 | In particular when no key is an array index or `__proto__`. |
| CanonicalJson.IndexKeysComeByValue | src/morph/auth.ts:18-28 | And never when two indices of an object sort the other way round as text than by value, as "9" and "10" do. |
| CanonicalJson.IndexIff | src/morph/auth.ts:22-27 | The keys that come first are exactly the printed numbers below 4294967295. |
| MorphAuth.BuildSignMap | src/morph/auth.ts:51-69 | The loops over the query and the body build the specified map: later names replace earlier ones, a missing or unreadable body is left out. |
| MorphAuth.SignedFields | src/morph/auth.ts:51-69 | The object that is signed, by its literal names: key, method in upper case, path, timestamp and perhaps the body. |
| MorphAuth.SignedKeys | src/morph/auth.ts:71 | It is serialised in the order body, key, method, path, timestamp. |
| MorphAuth.ParameterIsListed | src/morph/auth.ts:58-61 | A query parameter adds its value at the end of the list of its name and changes no other list. |
| MorphAuth.SameContentIff | src/morph/auth.ts:46-72 | Two requests without a query sign the same content if and only if key, timestamp, method in any case and path agree and the bodies differ only by key order and by what is under `__proto__`. |
| MorphAuth.BodySignedIff | src/morph/facilitator.ts:313-322 | The facilitator's re-serialised body gives the content the buyer signed if and only if the body is truthy. |
| MorphAuth.SignedRequestVerifies | src/morph/facilitator.ts:303-323 | A signed request of that kind passes the check if and only if the clocks differ by at most the allowed skew. |
| MorphAuth.VerifyHmacIff | src/morph/facilitator.ts:303-323 | Any received request passes if and only if it has the facilitator's key, a readable timestamp within the skew, and as its signature the keyed hash of the serialised canonical form of its own method, path, key, timestamp and truthy body, without a query. |
| MorphAuth.CarriedSignatureIff | src/morph/facilitator.ts:303-323 | Without hash collisions, a signature made for one request and carried on any other passes if and only if the headers do and are the signer's, method in any case and path agree, the body is what the signer signed as its body, up to key order, and the signer's query had no other parameters. |
| MorphAuth.ContentIff | src/morph/auth.ts:46-72 | A request, with any query, signs what another one without a query signs if and only if they agree in that sense; parameters named like the body entry stand in for a missing body. |
| MorphAuth.QueryIsNotExpected | src/morph/facilitator.ts:312-321 | A request with a query parameter of any name but that of the body entry or `__proto__` is never signed the way the facilitator expects, because it leaves the query out. |
| MorphAuth.LoneBodyParameter | src/morph/auth.ts:58-69 | Nor is one with a query parameter named like the body entry and no body. |
| MorphAuth.TracelessQuery | src/morph/auth.ts:58-66 | Query parameters named `__proto__`, or like the body entry when there is a body, leave no trace: the request is signed as if it had no query. |
| MorphAuth.SignedAlikeIff | src/morph/facilitator.ts:303-323 | For the body in any key order, the facilitator expects exactly the signed content if and only if the body is absent or truthy and every query parameter is of that kind. |
| XrplPaywall.Paywall.Challenge | src/middleware.ts:270-287 | A challenge mints a new unconsumed invoice for the route and offers the route's payee, price, network and asset, with issuer, source tag and timeout; if the offer cannot be encoded the invoice is minted and the call throws. |
| XrplPaywall.OfferIs | src/middleware.ts:264-287 | The offer by its literal values: network and currency code, issuer for each network, source tag and timeout, with the defaults. |
| XrplPaywall.OfferIsWellFormedIff | src/middleware.ts:270-287 | It can be encoded unless the payee, price, source tag or invoice id is ill-formed. |
| XrplPaywall.CodecRefusesIff | src/xrpl/x402-scheme.ts:291-316 | Terms are refused by the header codec if and only if one of its conditions, each written out, is not met. |
| XrplPaywall.Paywall.BeginSettle | src/middleware.ts:393-434 | The checks before the facilitator is called, in their order, of which the last compares four fields of what the buyer accepted; the only change is that an expired invoice's id is forgotten. |
| XrplPaywall.Paywall.Consumed | src/middleware.ts:462-463 | A settled payment consumes the invoice object it started with, also if its id has been deleted or minted again since. |
| XrplPaywall.InvAlways | src/middleware.ts:403-473 | In every run every payment in flight echoes its route's payee, amount, network and asset and holds an invoice of that id minted for that route, and a served one has consumed it. |
| XrplPaywall.HandlerIsPaid | src/middleware.ts:364-473 | The handler runs only after a challenge of the same route, then a payment presented within 600 seconds of it, then a valid verify, then a successful settle, on the payee, amount, network, asset and invoice that challenge offered; the settled terms are all of those offered if and only if the buyer also echoed issuer, tags and timeout. |
| XrplPaywall.PresentedIs | src/middleware.ts:403-434 | What becomes of a well-formed payment, by the history of the run: refused as consumed if a payment of its invoice has been served, else as expired if more than 600 seconds have passed since the challenge, which also forgets the id, else for the route, else for one of four fields, else it goes to the facilitator. |
| XrplPaywall.AdmittedIff | src/middleware.ts:409-418 | A payment that echoes its route's offer and is the first for its invoice is admitted if and only if it comes within 600 seconds of the challenge; otherwise it is refused as expired and its id is unknown from then on. |
| XrplPaywall.UnlistedIsRefused | src/middleware.ts:393-408 | A malformed payment, or one whose id leads nowhere, is refused without effect. |
| XrplPaywall.PaidIffConsumed | src/middleware.ts:409-463 | In every run an invoice is marked consumed if and only if a payment of it has been served. |
| XrplPaywall.FacilitatorAnswers | src/middleware.ts:436-463 | Only a yes of verify and then of settle leads to the handler; each other answer is refused with its own reason and changes no invoice. |
| XrplPaywall.OtherTermsAreServed | src/middleware.ts:426-451 | Any well-formed terms that echo those fields, whatever the rest, are served if the facilitator verifies and settles them. |
| XrplPaywall.OtherIssuerIsServed | src/middleware.ts:426-451 | In particular, on every RLUSD route, terms with any other issuer. |
| XrplPaywall.PaidInvoiceIsRefused | src/middleware.ts:393-413 | With fresh ids, a settlement that starts after the invoice was paid is refused before the facilitator is called, as consumed, unknown (its id was deleted on expiry) or malformed. |
| XrplPaywall.AdmittedAfterPaymentMeansMintedTwice | src/middleware.ts:364-371 | With any ids, a settlement admitted after its id was paid uses a different invoice, minted by another challenge under the same id. |
| XrplPaywall.ServedTwiceMeansOverlap | src/middleware.ts:409-462 | If two payments of one invoice are both served, the earlier was still in flight when the later was presented. |
| XrplPaywall.OverlapServesTwice | src/middleware.ts:436-473 | Such a run exists for every route: both overlapping settlements are served if the facilitator settles both. |
| XrplPaywall.PinnedIdServesAgain | src/middleware.ts:365-371 | With a pinned id the same payment is admitted again after another challenge, and served again if the facilitator settles it again. |
| RlusdVerifier.Verifier.Begin | src/middleware.ts:594-601 | A header that does not decode, or a hash already in the shared set, is rejected before the first await. |
| RlusdVerifier.Verifier.TipReturned | src/middleware.ts:608-626 | After the tip is known the call accepts if and only if the block is at most the age limit, by default 1000, before the tip and a log matches; it is too old if and only if it is not; it throws if and only if the search meets an amount it cannot read; the set grows exactly on acceptance. |
| RlusdVerifier.FindIff | src/middleware.ts:614-623 | The log search succeeds if and only if some log pays the wanted address enough and no log before it is a payment whose amount cannot be read; it returns such a log. |
| RlusdVerifier.SearchFailsIff | src/middleware.ts:614-623 | It throws if and only if it meets a payment whose amount cannot be read before any match, and finds nothing if and only if every payment among the logs is readable and too small. |
| RlusdVerifier.TransferMatchesIff | src/middleware.ts:537-539 | The log that an ERC-20 token emits for a transfer matches if and only if it is the wanted token, the wanted payee in any letter case and at least the wanted amount, and for Wormhole a mint. |
| RlusdVerifier.AcceptedIsPaid | src/middleware.ts:594-681 | An acceptance by either verifier rests on the chain's one receipt for the transaction, which this call was given: it succeeded, is within the age limit of the tip that came after, and has a matching log (a mint, for Wormhole). |
| RlusdVerifier.PaymentIsAccepted | src/middleware.ts:594-626 | After any run, a call that names a mined, successful, recent and matching transaction under a spelling not accepted before is accepted. |
| RlusdVerifier.RefusedBeforeTip | src/middleware.ts:594-606 | A missing hash, an unknown transaction and a reverted one are each refused with their own reason, without effect on the set. |
| RlusdVerifier.RefusedAfterTip | src/middleware.ts:608-623 | The same conditions as in TipReturned, on the steps of runs. |
| RlusdVerifier.AcceptedHashIsRejected | src/middleware.ts:601-656 | A call that starts after either verifier accepted the same hash in the same spelling is rejected at once, in every interleaving. |
| RlusdVerifier.ConsumedIffAccepted | src/middleware.ts:601-625 | A call is rejected as consumed if and only if a call with exactly its spelling of the hash has been accepted before. |
| RlusdVerifier.AcceptedTwiceMeansOverlapOrSpelling | src/middleware.ts:594-681 | If one transaction is accepted twice, the two headers spell its hash differently or the earlier call was still waiting when the later one began; both acceptances rest on the same receipt. |
| RlusdVerifier.OverlapAcceptsTwice | src/middleware.ts:594-681 | Overlapping calls do accept one transaction twice, for every receipt and any two verifiers it satisfies. |
| RlusdVerifier.AnotherSpellingIsAccepted | src/middleware.ts:600-626 | And so do calls one after the other, for every two spellings of its hash. |
| BitvmPegin.BitVMBridgeClient.Begin | src/goat/paths.ts:617-628 | An intent is claimed, or refused as expired or replayed, before the signer is called. |
| BitvmPegin.IntentSignedOnce | src/goat/paths.ts:617-660 | In every interleaving each intent is signed at most once, and broadcast only if signed and its own address, amount and recipient are filled in; neither the source nor the model looks into the signed transaction. |
| BitvmPegin.SignedIff | src/goat/paths.ts:617-628 | In every run an execution calls the signer if and only if its intent has not expired and none has had it signed before; otherwise it is refused as expired or as replayed. |
| BitvmPegin.AnswersAre | src/goat/paths.ts:626-663 | What each answer of signer and bridge makes of an execution: broadcast only with address, amount and recipient filled in, done only when minted, and each failure with its own error. |
| BitvmPegin.DoneWasMinted | src/goat/paths.ts:626-650 | A finished peg-in was signed, then taken by the bridge, then reported as minted. |
| BitvmPegin.ClaimedForGood | src/goat/paths.ts:621-624 | A claimed intent is refused in every later execution, even after the signer or the bridge failed. |
| AddressLock.Locks.Pay | src/adapters/xrpl.ts:85-92 | A call queues its job behind the map's entry for its address and becomes the entry. |
| AddressLock.Locks.Finally | src/adapters/xrpl.ts:95-97 | The entry is removed only if it is still the call's own. |
| AddressLock.InvAlways | src/adapters/xrpl.ts:85-98 | In every run the unsettled jobs of an address form a chain that ends at the map entry, and no entry means that all have settled. |
| AddressLock.OneAtATimeInOrder | src/flare/bridge.ts:124-137 | Jobs of one address run one at a time and in arrival order, whether earlier ones fulfil or reject. |
| AddressLock.FrontCanMove | src/adapters/xrpl.ts:88-91 | The first unsettled job of an address can always start or finish: a rejection does not block the queue. |
| AddressLock.StepsRunOut | src/adapters/xrpl.ts:85-98 | Every step but an arrival uses up one of finitely many, so no call waits for ever. |
| AddressLock.QuiescentMeansDone | src/adapters/xrpl.ts:85-98 | When only an arrival could happen, every job has run and settled and the map is empty. |
| AcquisitionRouter.Router.AcquireInternal | src/goat/acquisition.ts:239-261 | Zero targets and cache hits answer at once; every other call joins the chain. |
| AcquisitionRouter.Router.BalanceRead | src/goat/acquisition.ts:283-298 | A run that sees its target reached is a no-op; otherwise it tops up the difference it sees, if the guard allows. |
| AcquisitionRouter.Router.Decided | src/goat/acquisition.ts:300-309 | After the strategy: rejected without a path, ended there for a dry run, executing otherwise. |
| AcquisitionRouter.ReadAnswers | src/goat/acquisition.ts:283-298 | The step by its values: a no-op from the target on, else rejected or routed by the guard, a failed read counting as zero. |
| AcquisitionRouter.RouteAnswers | src/goat/acquisition.ts:300-309 | The step after the strategy by its values. |
| AcquisitionRouter.Router.ExecuteReturned | src/goat/acquisition.ts:254-260 | Only an executed run with a key is remembered, for the idempotency window. |
| AcquisitionRouter.TurnIs | src/goat/acquisition.ts:254-260 | A queued run starts if and only if there is none before it or that one was fulfilled, and is rejected without running if and only if that one was rejected. |
| AcquisitionRouter.ExecutionAnswers | src/goat/acquisition.ts:307-332 | A failed execution, like a sheet that cannot be read, rejects the run and what it credited stays; a run that returns has acquired what its target was short of. |
| AcquisitionRouter.RejectionIsForEver | src/goat/acquisition.ts:254-260 | After one rejected run, every call behind it, now or later, is rejected or waits, and never starts. |
| AcquisitionRouter.Conserved | src/goat/acquisition.ts:283-309 | If execution credits what its quote promised and nothing else moves the balance, the balance has risen by the sum of the executed top-ups of calls that are no dry runs, even when balance reads fail. |
| AcquisitionRouter.DryRunsBuyNothing | src/goat/acquisition.ts:303-305 | In every run a dry run never executes; if it is fulfilled, it is as a dry run or no-op with nothing acquired. |
| AcquisitionRouter.ToppedUpAlways | src/goat/acquisition.ts:239-309 | If no read fails, the balance is the larger of the initial one and the targets of the completed runs, and of runs with one target at most one executes. |
| AcquisitionRouter.SameTargetExecutesOnce | src/goat/acquisition.ts:246-309 | Calls that share a target, under one key or several or none, execute at most once, cache hit or not. |
| AcquisitionRouter.LandsOnTargetIff | src/goat/acquisition.ts:283-309 | An execution lands on the larger of balance and target if and only if the balance the run had seen was the balance. |
| AcquisitionRouter.BlindReadOvershoots | src/goat/paths.ts:245-252 | A failed balance read counts as zero: for every balance and target one such read ends at their sum. |
| AcquisitionRouter.AnswersAreReceipts | src/goat/acquisition.ts:246-260 | A call answered from the cache gets the receipt of a run that did execute under its key. |
| AcquisitionRouter.AnsweredIffWithinMinute | src/goat/acquisition.ts:246-258 | A call under a key is answered at once, with the receipt of the last run of that key that executed, if and only if it comes less than 60 seconds after that run returned; otherwise it joins the chain. |
| AcquisitionRouter.UnrememberedJoins | src/goat/acquisition.ts:239-254 | Without such a run, or without a key, every call joins the chain, except that a zero target is a no-op. |
| AcquisitionRouter.AnsweredHoldsTargetIff | src/goat/acquisition.ts:246-251 | A call answered from the cache can rely on its target being held, over all runs, if and only if the remembered run's target covers it. |
| AcquisitionRouter.LargerTargetIsAnswered | src/goat/acquisition.ts:246-251 | For every larger target there is a run in which it is answered without a top-up. |
| AcquisitionRouter.DecideIsFirstViable | src/goat/acquisition.ts:92-132 | The first path, in the order swap, oft, pegin, that is eligible, funded and not too dear decides: its quote is chosen, or its error thrown if quoting throws; GOAT_NO_VIABLE_PATH is thrown if and only if there is none. |
| AcquisitionRouter.DecideByName | src/goat/acquisition.ts:92-132 | The same path by path: a swap if PegBTC is held and pays for its quote, else an OFT transfer if one partner chain holds the missing amount, else a peg-in if sats pay for it. |
| AgentVisa.Lock.Enter | src/celo/agent-visa.ts:94-98 | A call waits for the promise stored for its spelling and stores its own. |
| AgentVisa.Lock.CleanupFires | src/celo/agent-visa.ts:102-104 | The cleanup test compares the entry with a promise made for the comparison, so it never succeeds. |
| AgentVisa.MemoryStorage.Continue | src/celo/agent-visa.ts:66-78 | What the locked job writes after its read, under the lower-case key. |
| AgentVisa.RecordedIs | src/celo/agent-visa.ts:67-76 | The entry a payment leaves, field by field, with and without a prior one. |
| AgentVisa.TierIff | src/celo/agent-visa.ts:33-44 | The tiers by their thresholds: Citizenship from 10000 payments or 15000 USD, Work from 1000 or 5000 with a Self agent id only. |
| AgentVisa.OneAtATimeInOrder | src/celo/agent-visa.ts:94-106 | Calls that spell the address alike hold the lock one at a time and in order, although no entry is ever removed. |
| AgentVisa.FirstUnreleasedCanMove | src/celo/agent-visa.ts:94-106 | The first call of an agent that has not released can always take its next step. |
| AgentVisa.CountIsExactIff | src/celo/agent-visa.ts:59-81 | The stored count has risen by the number of the agent's jobs that have written if and only if each of them wrote from a reading that was still current; otherwise it stays behind for good. |
| AgentVisa.NoLostUpdate | src/celo/agent-visa.ts:59-81 | Then also the volume has risen by the sum of max(0, amount) and the tier is the one these two earn, at every moment. |
| AgentVisa.LockKeepsWritesCurrent | src/celo/agent-visa.ts:66-106 | The lock keeps every write current as long as no two spellings of the agent hold their locks at once. |
| AgentVisa.SameSpellingHolds | src/celo/agent-visa.ts:94-106 | Which is always so when every call for the agent spells it alike. |
| AgentVisa.AllCallsCounted | src/celo/agent-visa.ts:59-81 | When all of the agent's calls have been released, whatever other agents do, the store counts every one of them and the sum of their amounts. |
| AgentVisa.TierNeverDrops | src/celo/agent-visa.ts:33-77 | Once the tracker has written a tier for an agent it never writes a lower one, as long as its writes are current. |
| AgentVisa.FirstTimeStays | src/celo/agent-visa.ts:73 | The time of an agent's first payment never changes, as long as its writes are current. |
| AgentVisa.TwoSpellingsLoseAnUpdate | src/celo/agent-visa.ts:94-119 | Any two calls that spell one agent differently can both complete, from any store, with one counted. |
| Delegation.DelegationManager.CreateRoot | src/agent/delegation.ts:17-28 | A new tree, registered under its id. |
| Delegation.DelegationManager.Delegate | src/agent/delegation.ts:31-55 | A delegation is refused for depth, per-hop share or remaining budget, in this order and without effect; otherwise the amount moves from the parent to a new child. |
| Delegation.DelegationManager.Spend | src/agent/delegation.ts:58-62 | A spend succeeds if and only if the remaining budget covers it, and is taken from it. |
| Delegation.RefusalIs | src/agent/delegation.ts:32-41 | Each refusal if and only if its condition holds and no earlier one; within depth, share and remaining budget an amount is granted. |
| Delegation.StepIs | src/agent/delegation.ts:17-62 | What each operation makes of the books, entry by entry; a refused one changes nothing. |
| Delegation.RunConserves | src/agent/delegation.ts:17-62 | In every run, in every tree, remaining budgets plus all spends equal the root budget, and no delegated context is deeper than its limit, whatever the amounts. |
| Delegation.RunStaysBoundedIff | src/agent/delegation.ts:17-62 | A run stays within the bounds throughout (nothing negative, no context with more than its grant) if and only if each operation that takes effect has an allowed sign: budgets and delegations not negative, and no spend that takes back more than was spent there. |
| Delegation.BoundedRunDecays | src/agent/delegation.ts:31-55 | Such a run grants a context at depth d some g with g * 100^d <= percent^d * root. |
| Delegation.RunStaysBounded | src/agent/delegation.ts:31-62 | In particular with non-negative amounts. |
| Delegation.TreeSpendsWithinBudget | src/agent/delegation.ts:31-62 | All contexts of a tree together then never spend more than the root was given. |
| Delegation.StepKeepsBoundsIff | src/agent/delegation.ts:17-62 | The same for one operation on books within the bounds. |
| Delegation.GrantKeepsBoundsIff | src/agent/delegation.ts:31-55 | An allowed delegation keeps the bounds if and only if its amount is not negative. |
| Delegation.SpendKeepsBoundsIff | src/agent/delegation.ts:58-62 | An allowed spend keeps the bounds if and only if it takes back no more than was spent. |
| Delegation.NegativeDelegationIsGranted | src/agent/delegation.ts:36-42 | A negative delegation passes every check, drives the child below zero and lifts the parent above its grant. |
| Delegation.NegativeSpendIsTaken | src/agent/delegation.ts:58-62 | A negative spend passes the only check and lifts the remaining budget above the grant. |
| WormholeCaps.WormholeNttAdapter.AssertCaps | src/adapters/wormhole-ntt.ts:79-99 | The refusals in their order; the day rolls over also for a call then refused for the daily cap, not for one refused for the transfer cap. |
| WormholeCaps.WormholeNttAdapter.Begin | src/adapters/wormhole-ntt.ts:52-67 | An unsupported chain is refused before the caps are looked at. |
| WormholeCaps.WormholeNttAdapter.TransferReturned | src/adapters/wormhole-ntt.ts:69-76 | The amount is charged only now, to whichever day the meter is in. |
| WormholeCaps.CapsAnswer | src/adapters/wormhole-ntt.ts:79-99 | Each refusal if and only if its cap is exceeded and no earlier one; the day is over when more than 24 hours have passed since its start. |
| WormholeCaps.UnsupportedChangesNothing | src/adapters/wormhole-ntt.ts:58-66 | A call from or to any chain but the five that Wormhole serves changes nothing. |
| WormholeCaps.CapHolds | src/adapters/wormhole-ntt.ts:52-99 | With maxPerDay set and at most k calls in flight, what is charged plus all that is in flight is at most maxPerDay + (k - 1) * e at every step of every run, where e is the smaller of the caps that are set; amounts of any sign may be asked for. |
| WormholeCaps.SerialCapHolds | src/adapters/wormhole-ntt.ts:52-99 | With one call at a time the daily cap is exact, with or without a transfer cap. |
| WormholeCaps.AnyDayChargesAtMostTwice | src/adapters/wormhole-ntt.ts:87-91 | If the clock does not go back, no 24-hour interval, wherever it starts, sees more than twice that bound charged, with k calls in flight. |
| WormholeCaps.AnyDayMovesAtMost | src/wormhole/ntt-client.ts:72-73 | What is bridged in any such interval is at most twice the bound plus what moved although the bridge then threw, and equals what is charged if and only if nothing moved that way. |
| WormholeCaps.SerialDayChargesAtMostTwice | src/adapters/wormhole-ntt.ts:87-91 | With one call at a time at most twice maxPerDay is charged in any 24 hours. |
| WormholeCaps.ShippedRegistryMovesNothing | src/wormhole/ntt-client.ts:49-70 | With the limits the registry ships, all outbound limits zero, every preflight fails and nothing is ever charged or bridged. |
| WormholeCaps.BoundsAreReached | src/adapters/wormhole-ntt.ts:67-91 | Once the registry opens a lane for transfers of the largest admitted size, all three bounds are reached by one run, for every k, all caps that admit anything, and any number of transfers lost to an error answer. |
| SurgePricing.DemandStrategy.Resolve | src/agent/pricing.ts:16-25 | The loop prunes and extends the window; its length is the number of earlier calls inside windowMs plus one if and only if none of those has been dropped before, as when the clock has not gone back, and the surge price applies exactly above the threshold. |
| SurgePricing.WindowCountsCallsIff | src/agent/pricing.ts:16-21 | Over any history the window counts the same calls as filtering the full history if and only if no call that is inside now was outside the window of a later call. |
| SurgePricing.WindowCountsCalls | src/agent/pricing.ts:16-21 | In particular over any history with a non-decreasing clock. |
| SurgePricing.ClockGoingBackLosesCalls | src/agent/pricing.ts:18 | A call is missing whenever a second one came at least windowMs after it and the clock then goes back to within its window. |
| DecimalAmounts.InitiaRoundTrip | src/initia/assets.ts:93-115 | For every number of decimals a printed amount parses back to itself if and only if it is not negative. |
| DecimalAmounts.XrpRoundTrip | src/flare/direct-minting.ts:24-50 | A printed XRP amount parses back to itself if positive; zero prints and is then refused; negative amounts do not print. |
| DecimalAmounts.CanonicalForm | src/initia/assets.ts:93-115 | Printing a parsed string gives its canonical spelling: no redundant zeros, digits beyond the precision cut off. |
| DecimalAmounts.XrpCanonicalForm | src/flare/direct-minting.ts:24-50 | The same for XRP amounts, and the canonical spelling parses to the same drops. |
| DecimalAmounts.AmountRefusedFor | src/flare/direct-minting.ts:24-38 | An amount is invalid if and only if it is no decimal or, for XRP, has more than six decimals; zero XRP is refused on its own. |
| DecimalAmounts.TruncatesTowardZero | src/initia/assets.ts:109-111 | Quotient and remainder have the dividend's sign, and the remainder is smaller than the divisor. |
| FlareQuotes.PaymentIsTotal | src/flare/direct-minting.ts:78-95 | A mint is quoted if and only if the amount parses; the drops written into the XRPL payment (src/flare/bridge.ts, line 421) are the quoted total, which is net plus the larger fee plus the executor fee; the proportional fee is so many ten-thousandths of the net, rounded down. |
| FlareQuotes.MintTotalIncreases | src/flare/direct-minting.ts:82-85 | Minting more always costs strictly more. |
| FlareQuotes.RedemptionConserves | src/flare/direct-minting.ts:252-277 | A redemption is quoted if and only if its fees are below the amount; then net and fees add up to what is burned, net is positive, and the received string parses to it. |
| FlareQuotes.RedemptionMonotone | src/flare/direct-minting.ts:252-277 | Whoever can redeem an amount can redeem a larger one and receives at least as much, whatever the fee settings. |
| FlareQuotes.LotsAreTheAmount | src/flare/bridge.ts:228-249 | A redemption goes ahead if and only if it is quoted, the balance covers it and it is a whole number of lots; the lots submitted are the whole amount. |
| FlareQuotes.RefusedFor | src/flare/bridge.ts:228-249 | A redemption is refused for balance, lots or fees, each if and only if its condition holds and no earlier one. |
| DirectMintMemo.EncodeDirectMintingMemo32 | src/flare/direct-minting.ts:190-210 | The buffer filled in two loops is the specified 32 bytes, for exactly the well-formed addresses. |
| DirectMintMemo.ToXrplMemoHex | src/flare/direct-minting.ts:213-217 | The loop prints the bytes as upper-case digits, two per byte. |
| DirectMintMemo.MemoText | src/flare/direct-minting.ts:190-217 | The memo's text is the prefix, eight zeros and the recipient's digits in upper case. |
| DirectMintMemo.MemoNamesRecipient | src/flare/direct-minting.ts:190-217 | The text decodes to the recipient, and two recipients have one memo if and only if they differ by letter case only. |
| FlashBatch.FlashMintBatcher.AddPayment | src/aave/flash.ts:25-28 | Non-positive amounts are refused without effect; others join the list. |
| FlashBatch.FlashMintBatcher.PendingTotal | src/aave/flash.ts:31 | The loop computes the sum of the list. |
| FlashBatch.FlashMintBatcher.BuildBatchTx | src/aave/flash.ts:34-57 | A batch borrows the sum, lists every pending payment and empties the list; an error leaves the list as it was. |
| FlashBatch.FlashMintBatcher.Clear | src/aave/flash.ts:68 | Drops the pending payments. |
| FlashBatch.RoundTripIff | src/aave/flash.ts:60-66 | For 20-byte addresses, reading the calldata in blocks of 128 digits gives back the list if and only if every amount is below 2^256. |
| FlashBatch.EncodedLengthIff | src/aave/flash.ts:60-66 | The calldata has 128 digits for each payment if and only if every amount fits, and more otherwise. |
| FlashBatch.TotalIs | src/aave/flash.ts:31 | Each payment adds its amount to the total. |
| FlashBatch.BorrowedIsPaidOut | src/aave/flash.ts:34-66 | The amount borrowed is the sum of what the receiver reads. |
| SwapSizing.OutputNearTarget | src/goat/paths.ts:364-387 | For every concave pool with floored output, if the probe returns at least the target, swapping target^2 / probe returns more than target - ratio / target - 1. |
| SwapSizing.MeetsMinimum | src/goat/paths.ts:417-419 | So the swap meets amountOutMinimum whenever the slippage allowance covers that error. |
| SwapSizing.FeeIsAllowance | src/goat/paths.ts:386-396 | The maximum charged is the amount in plus the allowance on it, rounded down. |
| SwapSizing.AmountInIs | src/goat/paths.ts:364-387 | No quote if and only if the probe returns nothing; otherwise the amount in is target^2 / probe rounded down, and at most the target when the probe reaches it. |
| SwapSizing.MinimumIs | src/goat/paths.ts:417-419 | amountOutMinimum is the target less the slippage allowance, rounded down, and not positive for an allowance above the whole. |
| SwapSizing.ConstantProductIsPool | src/goat/paths.ts:364-384 | Every constant-product pool with a proportional fee is such a curve, and never returns less for more. |
| SwapSizing.OneBelowTarget | src/goat/paths.ts:364-387 | The same bound holds when the probe misses the target by one, if the pool never returns less for more. |
| SwapSizing.ShallowPoolFallsShort | src/goat/paths.ts:364-387 | For every probe that misses the target by more there is a pool with that probe whose swap returns no more than the probe did, outside the bound. |
| SwapSizing.GuaranteedIff | src/goat/paths.ts:364-387 | So a probe guarantees the bound over all such pools if and only if it reaches the target less one. |
| RlusdLanes.CanBridgeIff | src/wormhole/deployments.ts:143-164 | A lane takes an amount if and only if the chains are two of the five, a live outbound limit covers it, and the inbound limit does: a live one, or fifty million, or none from Ethereum. |
| RlusdCorridor.SelectRlusdCorridor | src/payrouter/corridor.ts:41-146 | The loop with early returns yields the decision of the first rule that applies, with the first viable source in priority order. |
| RlusdCorridor.FindSource | src/payrouter/corridor.ts:54-76 | The source found is viable and none before it is; none is found if and only if none is viable. |
| RlusdCorridor.SuggestFunding | src/payrouter/corridor.ts:133-141 | The list grown by push is the requested chain, the other sources in order, and the XRPFi chains if allowed. |
| RlusdCorridor.BestIsUnique | src/payrouter/corridor.ts:41-146 | The declarative description admits one decision for every input. |
| RlusdCorridor.BestByName | src/payrouter/corridor.ts:41-146 | The best decision written out by name: where it is wanted, then from Optimism, Base, Unichain, Ink or Ethereum, then FXRP redeemed, then FXRP minted. |
| RlusdCorridor.SuggestedByName | src/payrouter/corridor.ts:133-141 | The chains suggested for funding, by name and in order. |
| RlusdCorridor.NoRouteIff | src/payrouter/corridor.ts:96-146 | No route if and only if no rule applies; the lane that redeems, swaps and then bridges is never returned with the current chain set. |
| RlusdCorridor.BridgeNeedsLiveLimit | src/wormhole/deployments.ts:137-165 | A bridge is only chosen on a live outbound limit, as the registry's own are zero; without a live inbound limit it never starts on Ethereum or exceeds fifty million. |
| RlusdCorridor.MoreHoldingsKeepRoute | src/payrouter/corridor.ts:41-146 | Holding more never loses a route, unless the route was to mint FXRP. |
| RlusdCorridor.MintIsLostIff | src/payrouter/corridor.ts:117-130 | That route is lost if and only if the buyer comes to hold some FXRP, or enough RLUSD on some source chain, without enough on the requested chain or an open lane to it. |
| RlusdCorridor.MintIsLost | src/payrouter/corridor.ts:117-130 | Both ways of losing it occur, for every amount, destination and source chain. |
| IusdCorridor.SelectIusdCorridor | src/initia/corridor.ts:62-100 | The loop with early returns yields the decision of the first rule that applies. |
| IusdCorridor.BestIsUnique | src/initia/corridor.ts:62-100 | The declarative description admits one decision for every input. |
| IusdCorridor.BestByName | src/initia/corridor.ts:62-100 | The best result written out by name, with the seconds and fee of each rail and the order of the USDC chains. |
| IusdCorridor.NoRouteIff | src/initia/corridor.ts:62-100 | No route if and only if no rule applies. |
| IusdCorridor.MoreHoldingsKeepRoute | src/initia/corridor.ts:62-100 | More holdings or one more rail never turn a route into none. |
| IusdCorridor.CheapestIff | src/initia/corridor.ts:43-91 | The rail chosen has the lowest fee of those that apply if and only if LayerZero applies or Skip is down. |

## Left out

What the code does and this model does not:

- Cryptography and serialisation: HMAC, hashing, ECDSA, base64 and JSON text are functions about which only a sign-and-recover law is assumed and, in one statement, that hashes do not collide; nonces and invoice ids are parameters.
- HTTP, RPC, Express, dynamic imports, timers and polling intervals: an awaited answer is an event that may come at any later step, or fail.
- Chain reorganisations: a ledger only grows.
- Replaced transactions: the receipt a settle waits for is taken to be that of the transaction it sent, and not of another with the same account nonce.
- The RLUSD verifiers are modelled over one chain, although the one set of hashes in src/middleware.ts serves all chains; a Wormhole header whose hash is not a string is taken as missing.
- Floating point: delegation amounts, visa volumes and prices are exact reals; `NaN` and infinities are not modelled.
- Strings: letter case is that of A to Z; white space inside a signature's last byte, which BigInt would trim, counts as unreadable; characters outside the Basic Multilingual Plane would sort differently by UTF-16 unit.
- Domain resolution and its cache (src/adapters/morph-x402.ts, resolveEip712Domain): the resolved name and version are parameters.
- The trustline preflight of the XRPL paywall, and routes other than XRPL.
- XRPL payment construction (`payLocked`), redemption status polling and its back-off, the Skip quote cache, the iUSD orchestrator's polling and the router's `enabled` flag: each is a small loop or table of its own.
- The JSON-file storage of the visa tracker: one file is shared by agents with different locks, so the per-agent statements are about the memory store.
- `SpendingGuard` (outside the modelled files): whether it allows an acquisition is any answer.
- Concentrated-liquidity ticks: a pool is any concave curve; constant product is the proved instance.
- Other pricing strategies multiply a base price by a constant, and the engine takes the largest price within limits; session, vault and yield managers count and forward; chain tables and presets are data.

Where the code and its comments differ, the model follows the code:

- src/goat/acquisition.ts says the oft path uses the cheapest source by feeBps; the code asks for one quote and does not compare fees.
- src/goat/acquisition.ts chains runs with a one-argument `then`, so one rejected run rejects every later call of that router.
- src/morph/facilitator.ts keeps nonces as sent, and forgets one when an overlapping settle fails; the ledger is what makes settlement at most once.
- src/morph/facilitator.ts leaves the query string and falsy bodies out of the signature it expects.
- src/morph/auth.ts promises lexicographic order of keys; integer-like keys come by value, and `__proto__` is dropped.
- src/middleware.ts compares transaction hashes as the headers spell them, while the chain reads them in either letter case.
- src/middleware.ts offers an issuer, a source tag and a timeout, and does not compare them when a payment comes.
- src/goat/acquisition.ts promises that the target is held after a call; a cache hit does not look at it.
- src/agent/delegation.ts does not look at the sign of an amount.
- src/celo/agent-visa.ts locks by the address as spelled but stores by its lower case, and its cleanup never removes an entry.
- src/adapters/wormhole-ntt.ts calls the daily window sliding; it is reset as a whole, so twice the cap can be charged within a day, and a transfer whose answer was an error is not charged at all.
- src/initia/corridor.ts says it picks the cheapest corridor; it picks the first in a fixed order.
