/**
 * src/morph/facilitator.ts: the verify and settle handlers as they run in one JavaScript process.
 *
 * A handler is cut at its awaits. What runs between two awaits is one step; the continuation of any
 * pending handler may be the next step. Two kinds of state meet: the process (the set `seenNonces`
 * and the pending handlers) and the chain, whose token contract follows EIP-3009: an authorization
 * is executed at most once per (authorizer, nonce) and `authorizationState` tells which are used.
 */
module MorphFacilitator {
  import opened JsValues
  import opened BigInts
  import opened Eip3009

  // ---------------------------------------------------------------- requests

  /** `recover` stands for recoverTypedDataAddress and for the contract's own ecrecover; `token` is the
      domain that contract checks signatures against, which the operator may have misconfigured. */
  datatype Config = Config(
    usdcAddress: string, network: Option<string>, tokenName: Option<string>, tokenVersion: Option<string>,
    chainId: int, recover: (TypedData, string) -> Option<string>, token: Domain)
  {
    function Network(): string { network.GetOr("eip155:2910") }

    function Data(a: Authorization): TypedData {
      BuildTypedData(usdcAddress, chainId, tokenName, tokenVersion, a)
    }

    /** The signature over these data is the authorizer's own. */
    predicate SignedByAuthorizer(td: TypedData, signature: string) {
      var signer := recover(SignedBytes(td), signature);
      signer.Some? && Lower(signer.value) == Lower(td.message.from)
    }
  }

  datatype Requirements = Requirements(
    asset: Option<string>, network: Option<string>, maxAmountRequired: Option<string>, payTo: Option<string>)

  datatype SignedPayload = SignedPayload(authorization: Option<WireAuthorization>, signature: Option<string>)

  /** Clients send the signed part inside `payload`, older ones flattened. */
  datatype PaymentPayload = PaymentPayload(payload: Option<SignedPayload>, flat: SignedPayload)

  datatype Request = Request(requirements: Option<Requirements>, payload: Option<PaymentPayload>)

  datatype Code =
    | BadRequest | AssetMismatch | NetworkMismatch | BadAuthorization | AuthNotYetValid | AuthExpired
    | AmountTooLow | PayToMismatch | NonceReplayed | BadSignature | SignatureMismatch
    | AuthorizationUsed | RpcUnavailable

  /** A payment that passed the synchronous checks, with what the seller asked for. */
  datatype Payment = Payment(auth: Authorization, signature: string, required: int, payTo: string)

  datatype Checked = Passed(payment: Payment) | Rejected(code: Code) | Thrown

  /** The synchronous part of `runVerify`, up to its first await. `now` is in seconds. */
  function Check(cfg: Config, seen: set<string>, req: Request, now: int): Checked {
    if req.requirements.None? || req.payload.None? then Rejected(BadRequest) else
    var want := req.requirements.value;
    var asset := Lower(want.asset.GetOr(""));
    if asset != "" && asset != Lower(cfg.usdcAddress) then Rejected(AssetMismatch) else
    var network := want.network.GetOr("");
    if network != "" && network != cfg.Network() then Rejected(NetworkMismatch) else
    var inner := req.payload.value.payload.GetOr(req.payload.value.flat);
    var decoded := if inner.authorization.None? then None else Decode(inner.authorization.value);
    var signature := inner.signature.GetOr("");
    if decoded.None? || !("0x" <= signature) then Rejected(BadAuthorization) else
    var auth := decoded.value;
    if auth.validAfter > now then Rejected(AuthNotYetValid) else
    if auth.validBefore <= now then Rejected(AuthExpired) else
    var required := FromText(want.maxAmountRequired.GetOr("0"));
    if required.None? then Thrown else
    if auth.value < required.value then Rejected(AmountTooLow) else
    var payTo := Lower(want.payTo.GetOr(""));
    if payTo != "" && Lower(auth.to) != payTo then Rejected(PayToMismatch) else
    if auth.nonce in seen then Rejected(NonceReplayed) else
    Passed(Payment(auth, signature, required.value, payTo))
  }

  // ---------------------------------------------------------------- the process

  datatype Kind = Verify | Settle

  datatype ReadOutcome = Used | Unused | ReadFailed

  datatype TxId = Sponsored(task: nat) | External

  datatype Answer = Refused(code: Code) | Valid | Settled(tx: TxId) | SubmitFailed

  /** Where a pending handler waits. */
  datatype Pc =
    | Recovering                        // for the signer's address
    | Reading                           // for authorizationState, not yet evaluated by the node
    | ReadBack(outcome: ReadOutcome)    // the node has answered, the continuation has not run
    | Verified                          // runVerify returned 200, settle has not resumed
    | Submitting                        // writeContract and the receipt
    | Answered(answer: Answer)

  datatype Task =
    | Active(kind: Kind, payment: Payment, pc: Pc)
    | TurnedAway(kind: Kind, code: Code)
    | Crashed(kind: Kind)

  datatype Process = Process(seen: set<string>, tasks: map<nat, Task>)

  predicate At(p: Process, t: nat, pc: Pc) {
    t in p.tasks && p.tasks[t].Active? && p.tasks[t].pc == pc
  }

  function Moved(p: Process, t: nat, pc: Pc): Process
    requires t in p.tasks && p.tasks[t].Active?
  {
    p.(tasks := p.tasks[t := p.tasks[t].(pc := pc)])
  }

  function OnBegin(cfg: Config, p: Process, t: nat, kind: Kind, req: Request, now: int): Process {
    p.(tasks := p.tasks[t :=
      match Check(cfg, p.seen, req, now)
      case Passed(payment) => Active(kind, payment, Recovering)
      case Rejected(code) => TurnedAway(kind, code)
      case Thrown => Crashed(kind)])
  }

  function OnRecovered(cfg: Config, p: Process, t: nat): Process
    requires At(p, t, Recovering)
  {
    var pay := p.tasks[t].payment;
    var td := cfg.Data(pay.auth);
    if cfg.recover(SignedBytes(td), pay.signature).None? then Moved(p, t, Answered(Refused(BadSignature)))
    else if !cfg.SignedByAuthorizer(td, pay.signature) then Moved(p, t, Answered(Refused(SignatureMismatch)))
    else Moved(p, t, Reading)
  }

  /** The nonce is claimed here, two awaits after it was looked up. */
  function OnReadBack(p: Process, t: nat, outcome: ReadOutcome): Process
    requires At(p, t, ReadBack(outcome))
  {
    var task := p.tasks[t];
    if outcome == Used then Moved(p, t, Answered(Refused(AuthorizationUsed)))
    else if task.kind == Verify then Moved(p, t, Answered(Valid))
    else if outcome == ReadFailed then Moved(p, t, Answered(Refused(RpcUnavailable)))
    else Moved(p, t, Verified).(seen := p.seen + {task.payment.auth.nonce})
  }

  /** Any failure of the submission frees the nonce again. */
  function OnSubmitFailed(p: Process, t: nat): Process
    requires t in p.tasks && p.tasks[t].Active?
  {
    Moved(p, t, Answered(SubmitFailed)).(seen := p.seen - {p.tasks[t].payment.auth.nonce})
  }

  function OnSubmit(p: Process, t: nat): Process
    requires At(p, t, Verified)
  {
    if SplitSignature(p.tasks[t].payment.signature).None? then OnSubmitFailed(p, t)
    else Moved(p, t, Submitting)
  }

  function OnReceipt(p: Process, t: nat, success: bool): Process
    requires At(p, t, Submitting)
  {
    if success then Moved(p, t, Answered(Settled(Sponsored(t)))) else OnSubmitFailed(p, t)
  }

  /** The handlers as code: one method per stretch between awaits, over the live set and tasks. */
  class Facilitator {
    const cfg: Config
    var seenNonces: set<string>
    var tasks: map<nat, Task>

    constructor (cfg: Config)
      ensures this.cfg == cfg && Now() == Process({}, map[])
    {
      this.cfg := cfg;
      seenNonces := {};
      tasks := map[];
    }

    ghost function Now(): Process
      reads this
    {
      Process(seenNonces, tasks)
    }

    method Begin(t: nat, kind: Kind, req: Request, now: int)
      requires t !in tasks
      modifies this`tasks
      ensures Now() == OnBegin(cfg, old(Now()), t, kind, req, now)
    {
      var checked := Check(cfg, seenNonces, req, now);
      match checked
      case Passed(payment) => tasks := tasks[t := Active(kind, payment, Recovering)];
      case Rejected(code) => tasks := tasks[t := TurnedAway(kind, code)];
      case Thrown => tasks := tasks[t := Crashed(kind)];
    }

    method Advance(t: nat, pc: Pc)
      requires t in tasks && tasks[t].Active?
      modifies this`tasks
      ensures Now() == Moved(old(Now()), t, pc)
    {
      tasks := tasks[t := tasks[t].(pc := pc)];
    }

    method Recovered(t: nat)
      requires At(Now(), t, Recovering)
      modifies this`tasks
      ensures Now() == OnRecovered(cfg, old(Now()), t)
    {
      var pay := tasks[t].payment;
      var td := SignedBytes(cfg.Data(pay.auth));
      var recovered := cfg.recover(td, pay.signature);
      if recovered.None? {
        Advance(t, Answered(Refused(BadSignature)));
      } else if Lower(recovered.value) != Lower(pay.auth.from) {
        Advance(t, Answered(Refused(SignatureMismatch)));
      } else {
        Advance(t, Reading);
      }
    }

    method ReadReturned(t: nat, outcome: ReadOutcome)
      requires At(Now(), t, ReadBack(outcome))
      modifies this
      ensures Now() == OnReadBack(old(Now()), t, outcome)
    {
      var consumeNonce := tasks[t].kind == Settle;
      if outcome == Used {
        Advance(t, Answered(Refused(AuthorizationUsed)));
        return;
      }
      if outcome == ReadFailed && consumeNonce {
        Advance(t, Answered(Refused(RpcUnavailable)));
        return;
      }
      if consumeNonce {
        seenNonces := seenNonces + {tasks[t].payment.auth.nonce};
        Advance(t, Verified);
      } else {
        Advance(t, Answered(Valid));
      }
    }

    method SubmitThrew(t: nat)
      requires At(Now(), t, Verified) || At(Now(), t, Submitting)
      modifies this
      ensures Now() == OnSubmitFailed(old(Now()), t)
    {
      seenNonces := seenNonces - {tasks[t].payment.auth.nonce};
      Advance(t, Answered(SubmitFailed));
    }

    method Submit(t: nat)
      requires At(Now(), t, Verified)
      modifies this
      ensures Now() == OnSubmit(old(Now()), t)
    {
      var split := SplitSignature(tasks[t].payment.signature);
      if split.None? {
        SubmitThrew(t);
      } else {
        Advance(t, Submitting);
      }
    }

    method ReceiptReturned(t: nat, success: bool)
      requires At(Now(), t, Submitting)
      modifies this
      ensures Now() == OnReceipt(old(Now()), t, success)
    {
      if success {
        Advance(t, Answered(Settled(Sponsored(t))));
      } else {
        SubmitThrew(t);
      }
    }
  }

  // ---------------------------------------------------------------- the chain

  /** One executed authorization; addresses and the nonce as bytes. */
  datatype Transfer = Transfer(from: string, to: string, value: nat, nonce: string, tx: TxId)

  datatype Ledger = Ledger(used: set<(string, string)>, log: seq<Transfer>)

  const UINT256: nat := 0x1_0000000000000000_0000000000000000_0000000000000000_0000000000000000

  function Key(a: Authorization): (string, string) {
    (Lower(a.from), Lower(a.nonce))
  }

  /** transferWithAuthorization does not revert (EIP-3009, "Specification"). */
  predicate Executable(cfg: Config, ledger: Ledger, a: Authorization, signature: string, blockTime: int) {
    && a.validAfter < blockTime < a.validBefore
    && 0 <= a.value < UINT256
    && Key(a) !in ledger.used
    && cfg.SignedByAuthorizer(TypedData(cfg.token, a), signature)
  }

  function TransferOf(a: Authorization, tx: TxId): Transfer
    requires 0 <= a.value
  {
    Transfer(Lower(a.from), Lower(a.to), a.value, Lower(a.nonce), tx)
  }

  function Execute(ledger: Ledger, a: Authorization, tx: TxId): Ledger
    requires 0 <= a.value
  {
    Ledger(ledger.used + {Key(a)}, ledger.log + [TransferOf(a, tx)])
  }

  /** A transaction the sponsor sent: not mined, mined as the given log entry, or reverted. */
  datatype Tx = Pending | Succeeded(entry: nat) | Reverted

  datatype State = State(process: Process, ledger: Ledger, sent: map<nat, Tx>)

  datatype Event =
    | Begin(t: nat, kind: Kind, req: Request, now: int)
    | Recovered(t: nat)
    | Read(t: nat, available: bool)       // the node evaluates authorizationState, or the RPC fails
    | ReadReturned(t: nat)
    | Submit(t: nat)
    | SubmitThrew(t: nat)                 // RPC error or receipt timeout; the transaction may still be mined
    | Mine(t: nat, blockTime: int)
    | Revert(t: nat)                      // for any reason
    | ReceiptReturned(t: nat)
    | ThirdParty(a: Authorization, signature: string, blockTime: int)
    | Cancel(from: string, nonce: string) // cancelAuthorization

  ghost const Initial: State := State(Process({}, map[]), Ledger({}, []), map[])

  ghost predicate Enabled(cfg: Config, s: State, e: Event) {
    match e
    case Begin(t, _, _, _) => t !in s.process.tasks
    case Recovered(t) => At(s.process, t, Recovering)
    case Read(t, _) => At(s.process, t, Reading)
    case ReadReturned(t) => t in s.process.tasks && s.process.tasks[t].Active? && s.process.tasks[t].pc.ReadBack?
    case Submit(t) => At(s.process, t, Verified)
    case SubmitThrew(t) => At(s.process, t, Submitting)
    case Mine(t, time) =>
      && t in s.sent && s.sent[t] == Pending
      && t in s.process.tasks && s.process.tasks[t].Active?
      && var p := s.process.tasks[t].payment;
         Executable(cfg, s.ledger, p.auth, p.signature, time)
    case Revert(t) => t in s.sent && s.sent[t] == Pending
    case ReceiptReturned(t) => At(s.process, t, Submitting) && t in s.sent && s.sent[t] != Pending
    case ThirdParty(a, signature, time) => Executable(cfg, s.ledger, a, signature, time)
    case Cancel(_, _) => true
  }

  ghost function Next(cfg: Config, s: State, e: Event): State
    requires Enabled(cfg, s, e)
  {
    match e
    case Begin(t, kind, req, now) => s.(process := OnBegin(cfg, s.process, t, kind, req, now))
    case Recovered(t) => s.(process := OnRecovered(cfg, s.process, t))
    case Read(t, available) =>
      var used := Key(s.process.tasks[t].payment.auth) in s.ledger.used;
      s.(process := Moved(s.process, t, ReadBack(if !available then ReadFailed else if used then Used else Unused)))
    case ReadReturned(t) => s.(process := OnReadBack(s.process, t, s.process.tasks[t].pc.outcome))
    case Submit(t) =>
      var p := OnSubmit(s.process, t);
      s.(process := p, sent := if At(p, t, Submitting) then s.sent[t := Pending] else s.sent)
    case SubmitThrew(t) => s.(process := OnSubmitFailed(s.process, t))
    case Mine(t, _) =>
      s.(ledger := Execute(s.ledger, s.process.tasks[t].payment.auth, Sponsored(t)),
         sent := s.sent[t := Succeeded(|s.ledger.log|)])
    case Revert(t) => s.(sent := s.sent[t := Reverted])
    case ReceiptReturned(t) => s.(process := OnReceipt(s.process, t, s.sent[t].Succeeded?))
    case ThirdParty(a, _, _) => s.(ledger := Execute(s.ledger, a, External))
    case Cancel(from, nonce) => s.(ledger := s.ledger.(used := s.ledger.used + {(Lower(from), Lower(nonce))}))
  }

  /** The states passed through when the events happen one after the other from the start. */
  ghost predicate IsRun(cfg: Config, run: seq<State>, events: seq<Event>) {
    && |run| == |events| + 1
    && run[0] == Initial
    && forall i :: 0 <= i < |events| ==>
         Enabled(cfg, run[i], events[i]) && run[i + 1] == Next(cfg, run[i], events[i])
  }

  // ---------------------------------------------------------------- what every step keeps

  ghost predicate LedgerInv(l: Ledger) {
    && (forall i, j :: 0 <= i < j < |l.log| ==>
          (l.log[i].from, l.log[i].nonce) != (l.log[j].from, l.log[j].nonce))
    && (forall i :: 0 <= i < |l.log| ==> (l.log[i].from, l.log[i].nonce) in l.used)
  }

  /** The sponsor's mined transactions and the log entries they name are the same thing. */
  ghost predicate SentInv(s: State) {
    && (forall t :: t in s.sent ==> t in s.process.tasks && s.process.tasks[t].Active?
                                    && SubmitIssued(s.process.tasks[t].pc, t))
    && (forall t :: t in s.sent && s.sent[t].Succeeded? ==>
          && s.sent[t].entry < |s.ledger.log|
          && 0 <= s.process.tasks[t].payment.auth.value
          && s.ledger.log[s.sent[t].entry] == TransferOf(s.process.tasks[t].payment.auth, Sponsored(t)))
    && (forall i :: 0 <= i < |s.ledger.log| && s.ledger.log[i].tx.Sponsored? ==>
          var t := s.ledger.log[i].tx.task;
          t in s.sent && s.sent[t] == Succeeded(i))
  }

  ghost predicate SubmitIssued(pc: Pc, t: nat) {
    pc == Submitting || pc == Answered(SubmitFailed) || pc == Answered(Settled(Sponsored(t)))
  }

  /** The signer has not been recovered, or was found to be someone else. */
  ghost predicate Unsigned(pc: Pc) {
    pc == Recovering || pc == Answered(Refused(BadSignature)) || pc == Answered(Refused(SignatureMismatch))
  }

  ghost predicate TaskInv(cfg: Config, s: State, t: nat)
    requires t in s.process.tasks
  {
    var task := s.process.tasks[t];
    task.Active? ==>
      var p := task.payment;
      && p.required <= p.auth.value
      && (p.payTo != "" ==> Lower(p.auth.to) == p.payTo)
      && (!Unsigned(task.pc) ==> cfg.SignedByAuthorizer(cfg.Data(p.auth), p.signature))
      && (task.pc == Submitting ==> t in s.sent)
      && (task.pc.Answered? && task.pc.answer.Settled? ==>
            task.kind == Settle && task.pc.answer.tx == Sponsored(t) && t in s.sent && s.sent[t].Succeeded?)
      && (task.pc == Verified || task.pc == Submitting ==> task.kind == Settle)
  }

  ghost predicate Inv(cfg: Config, s: State) {
    && LedgerInv(s.ledger)
    && SentInv(s)
    && (forall t :: t in s.process.tasks ==> TaskInv(cfg, s, t))
  }

  /** What the synchronous checks establish about a payment they let through. */
  lemma CheckPassed(cfg: Config, seen: set<string>, req: Request, now: int)
    requires Check(cfg, seen, req, now).Passed?
    ensures var p := Check(cfg, seen, req, now).payment;
            && p.required <= p.auth.value
            && (p.payTo != "" ==> Lower(p.auth.to) == p.payTo)
            && p.auth.nonce !in seen
            && p.auth.validAfter <= now < p.auth.validBefore
  {
  }

  /** What a request carries, inside `payload` where there is one; None when a part is missing or unreadable. */
  function Carried(req: Request): Option<(Authorization, string)> {
    if req.payload.None? then None
    else
      var body := if req.payload.value.payload.Some? then req.payload.value.payload.value else req.payload.value.flat;
      if body.authorization.Some? && body.signature.Some? && "0x" <= body.signature.value && Decode(body.authorization.value).Some?
      then Some((Decode(body.authorization.value).value, body.signature.value))
      else None
  }

  /** The amount asked for, none meaning zero; None when it is no integer. */
  function Required(req: Request): Option<int> {
    if req.requirements.Some? && req.requirements.value.maxAmountRequired.Some?
    then FromText(req.requirements.value.maxAmountRequired.value)
    else Some(0)
  }

  /** The payee asked for in lower case, empty for any. */
  function Payee(req: Request): string {
    if req.requirements.Some? && req.requirements.value.payTo.Some? then Lower(req.requirements.value.payTo.value) else ""
  }

  /** A defect of the request, whatever else is wrong with it. */
  ghost predicate Flawed(cfg: Config, seen: set<string>, req: Request, now: int, code: Code) {
    match code
    case BadRequest => req.requirements.None? || req.payload.None?
    case AssetMismatch =>
      req.requirements.Some? && req.requirements.value.asset.Some?
      && Lower(req.requirements.value.asset.value) !in {"", Lower(cfg.usdcAddress)}
    case NetworkMismatch =>
      req.requirements.Some? && req.requirements.value.network.Some?
      && req.requirements.value.network.value !in {"", cfg.network.GetOr("eip155:2910")}
    case BadAuthorization => Carried(req).None?
    case AuthNotYetValid => Carried(req).Some? && now < Carried(req).value.0.validAfter
    case AuthExpired => Carried(req).Some? && Carried(req).value.0.validBefore <= now
    case AmountTooLow =>
      Carried(req).Some? && !(Required(req).Some? && Required(req).value <= Carried(req).value.0.value)
    case PayToMismatch => Carried(req).Some? && Payee(req) !in {"", Lower(Carried(req).value.0.to)}
    case NonceReplayed => Carried(req).Some? && Carried(req).value.0.nonce in seen
    case _ => false
  }

  ghost const CHECKS: seq<Code> := [BadRequest, AssetMismatch, NetworkMismatch, BadAuthorization, AuthNotYetValid,
                                    AuthExpired, AmountTooLow, PayToMismatch, NonceReplayed]

  /** A request passes exactly when it has none of these flaws, as the payment that it carries. */
  lemma PassesIffFlawless(cfg: Config, seen: set<string>, req: Request, now: int, p: Payment)
    ensures Check(cfg, seen, req, now) == Passed(p) <==>
              && (forall code :: !Flawed(cfg, seen, req, now, code))
              && Carried(req) == Some((p.auth, p.signature)) && Required(req) == Some(p.required) && Payee(req) == p.payTo
  {
    hide Lower, FromText, Decode;
    EmptyAndZero();
    if Check(cfg, seen, req, now) == Passed(p) {
      forall code ensures !Flawed(cfg, seen, req, now, code) {
      }
    }
    if forall code :: !Flawed(cfg, seen, req, now, code) {
      forall k | 0 <= k < |CHECKS| ensures !Flawed(cfg, seen, req, now, CHECKS[k]) {
      }
      FlawlessPasses(cfg, seen, req, now);
    }
  }

  /** Otherwise the first of its flaws is reported; a required amount that is no integer throws in its place. */
  lemma FirstFlawIsReported(cfg: Config, seen: set<string>, req: Request, now: int, k: nat)
    requires k < |CHECKS| && Flawed(cfg, seen, req, now, CHECKS[k])
    requires forall j :: 0 <= j < k ==> !Flawed(cfg, seen, req, now, CHECKS[j])
    ensures Check(cfg, seen, req, now) ==
            if CHECKS[k] == AmountTooLow && Required(req).None? then Thrown else Rejected(CHECKS[k])
  {
    hide Lower, FromText, Decode;
    EmptyAndZero();
    assert k > 0 ==> !Flawed(cfg, seen, req, now, CHECKS[0]);
    assert k > 1 ==> !Flawed(cfg, seen, req, now, CHECKS[1]);
    assert k > 2 ==> !Flawed(cfg, seen, req, now, CHECKS[2]);
    assert k > 3 ==> !Flawed(cfg, seen, req, now, CHECKS[3]);
    assert k > 4 ==> !Flawed(cfg, seen, req, now, CHECKS[4]);
    assert k > 5 ==> !Flawed(cfg, seen, req, now, CHECKS[5]);
    assert k > 6 ==> !Flawed(cfg, seen, req, now, CHECKS[6]);
    assert k > 7 ==> !Flawed(cfg, seen, req, now, CHECKS[7]);
  }

  lemma FlawlessPasses(cfg: Config, seen: set<string>, req: Request, now: int)
    requires forall k :: 0 <= k < |CHECKS| ==> !Flawed(cfg, seen, req, now, CHECKS[k])
    ensures Carried(req).Some? && Required(req).Some?
    ensures Check(cfg, seen, req, now) ==
            Passed(Payment(Carried(req).value.0, Carried(req).value.1, Required(req).value, Payee(req)))
  {
    hide Lower, FromText, Decode;
    EmptyAndZero();
    assert !Flawed(cfg, seen, req, now, CHECKS[0]) && !Flawed(cfg, seen, req, now, CHECKS[1])
           && !Flawed(cfg, seen, req, now, CHECKS[2]) && !Flawed(cfg, seen, req, now, CHECKS[3])
           && !Flawed(cfg, seen, req, now, CHECKS[4]) && !Flawed(cfg, seen, req, now, CHECKS[5])
           && !Flawed(cfg, seen, req, now, CHECKS[6]) && !Flawed(cfg, seen, req, now, CHECKS[7])
           && !Flawed(cfg, seen, req, now, CHECKS[8]);
  }

  lemma EmptyAndZero()
    ensures Lower("") == "" && FromText("0") == Some(0) && Decode(WireAuthorization(None, None, None, None, None, None)) == None
    ensures !("0x" <= "")
  {
    RoundTrip(0);
    assert ToText(0) == "0";
  }

  lemma ExecuteKeeps(l: Ledger, a: Authorization, tx: TxId)
    requires LedgerInv(l) && 0 <= a.value && Key(a) !in l.used
    ensures LedgerInv(Execute(l, a, tx))
  {
  }

  /** A handler moves on: nothing else in the process changes, and the chain does not see it. */
  ghost predicate OnlyTask(s: State, s': State, t: nat) {
    && s'.ledger == s.ledger
    && t in s'.process.tasks
    && s'.process.tasks == s.process.tasks[t := s'.process.tasks[t]]
    && (s'.sent == s.sent || (s'.sent == s.sent[t := Pending] && t !in s.sent))
  }

  lemma TaskStepKeeps(cfg: Config, s: State, s': State, t: nat)
    requires Inv(cfg, s) && OnlyTask(s, s', t)
    requires TaskInv(cfg, s', t)
    requires t in s'.sent ==>
               && t in s.process.tasks && s'.process.tasks[t].Active? && s.process.tasks[t].Active?
               && SubmitIssued(s'.process.tasks[t].pc, t)
               && s'.process.tasks[t].payment == s.process.tasks[t].payment
    ensures Inv(cfg, s')
  {
    forall u | u in s'.process.tasks ensures TaskInv(cfg, s', u) {
      if u != t {
        assert TaskInv(cfg, s, u);
      }
    }
  }

  ghost function TaskOf(e: Event): nat {
    match e
    case ThirdParty(_, _, _) => 0
    case Cancel(_, _) => 0
    case _ => e.t
  }

  ghost predicate IsHandlerEvent(e: Event) {
    !e.Mine? && !e.Revert? && !e.ThirdParty? && !e.Cancel?
  }

  lemma HandlerTask(cfg: Config, s: State, e: Event)
    requires Inv(cfg, s) && Enabled(cfg, s, e) && IsHandlerEvent(e)
    ensures OnlyTask(s, Next(cfg, s, e), TaskOf(e)) && TaskInv(cfg, Next(cfg, s, e), TaskOf(e))
  {
    hide Check, SplitSignature, Config.SignedByAuthorizer, Executable;
    var s', t := Next(cfg, s, e), TaskOf(e);
    if e.Begin? {
      if Check(cfg, s.process.seen, e.req, e.now).Passed? {
        CheckPassed(cfg, s.process.seen, e.req, e.now);
      }
    } else {
      assert TaskInv(cfg, s, t);
    }
  }

  lemma HandlerStep(cfg: Config, s: State, e: Event)
    requires Inv(cfg, s) && Enabled(cfg, s, e) && IsHandlerEvent(e)
    ensures Inv(cfg, Next(cfg, s, e))
  {
    hide Check, SplitSignature, Config.SignedByAuthorizer, Executable, TaskInv;
    HandlerTask(cfg, s, e);
    TaskStepKeeps(cfg, s, Next(cfg, s, e), TaskOf(e));
  }

  lemma MineStep(cfg: Config, s: State, e: Event)
    requires Inv(cfg, s) && Enabled(cfg, s, e) && e.Mine?
    ensures Inv(cfg, Next(cfg, s, e))
  {
    hide Config.SignedByAuthorizer;
    var s' := Next(cfg, s, e);
    ExecuteKeeps(s.ledger, s.process.tasks[e.t].payment.auth, Sponsored(e.t));
    assert SentInv(s');
    forall u | u in s'.process.tasks ensures TaskInv(cfg, s', u) {
      assert TaskInv(cfg, s, u);
    }
  }

  lemma ChainStep(cfg: Config, s: State, e: Event)
    requires Inv(cfg, s) && Enabled(cfg, s, e) && !IsHandlerEvent(e)
    ensures Inv(cfg, Next(cfg, s, e))
  {
    hide Config.SignedByAuthorizer;
    var s' := Next(cfg, s, e);
    if e.Mine? {
      MineStep(cfg, s, e);
    } else {
      if e.ThirdParty? {
        ExecuteKeeps(s.ledger, e.a, External);
      }
      assert SentInv(s');
      forall u | u in s'.process.tasks ensures TaskInv(cfg, s', u) {
        assert TaskInv(cfg, s, u);
      }
    }
  }

  lemma InvStep(cfg: Config, s: State, e: Event)
    requires Inv(cfg, s) && Enabled(cfg, s, e)
    ensures Inv(cfg, Next(cfg, s, e))
  {
    if IsHandlerEvent(e) {
      HandlerStep(cfg, s, e);
    } else {
      ChainStep(cfg, s, e);
    }
  }

  lemma {:induction false} InvAlways(cfg: Config, run: seq<State>, events: seq<Event>, i: nat)
    requires IsRun(cfg, run, events) && i < |run|
    ensures Inv(cfg, run[i])
  {
    if i > 0 {
      InvAlways(cfg, run, events, i - 1);
      InvStep(cfg, run[i - 1], events[i - 1]);
    }
  }

  // ---------------------------------------------------------------- a 200 is backed by money

  /** Handler t answered 200 to a settle request. */
  ghost predicate SettledWith200(s: State, t: nat) {
    && t in s.process.tasks && s.process.tasks[t].Active? && s.process.tasks[t].kind == Settle
    && s.process.tasks[t].pc.Answered? && s.process.tasks[t].pc.answer.Settled?
  }

  /** Log entry k is the one that handler t's 200 names: from the recovered signer, to the stated payee,
      of at least the required amount, and the only entry of its transaction. */
  ghost predicate BackedBy(cfg: Config, s: State, t: nat, k: nat)
    requires SettledWith200(s, t)
  {
    var p, log := s.process.tasks[t].payment, s.ledger.log;
    && k < |log|
    && s.process.tasks[t].pc.answer.tx == log[k].tx == Sponsored(t)
    && (forall j :: 0 <= j < |log| && log[j].tx == log[k].tx ==> j == k)
    && log[k].value == p.auth.value >= p.required
    && log[k].to == Lower(p.auth.to) && (p.payTo != "" ==> log[k].to == p.payTo)
    && (log[k].from, log[k].nonce) == Key(p.auth)
    && cfg.SignedByAuthorizer(cfg.Data(p.auth), p.signature)
  }

  lemma Backing(cfg: Config, s: State, t: nat) returns (k: nat)
    requires Inv(cfg, s) && SettledWith200(s, t)
    ensures BackedBy(cfg, s, t, k)
  {
    hide Config.SignedByAuthorizer;
    assert TaskInv(cfg, s, t);
    k := s.sent[t].entry;
  }

  /** In every run, every 200 settle answer is backed by exactly one log entry. */
  lemma SettleIsBacked(cfg: Config, run: seq<State>, events: seq<Event>, i: nat, t: nat)
    requires IsRun(cfg, run, events) && i < |run| && SettledWith200(run[i], t)
    ensures exists k :: BackedBy(cfg, run[i], t, k)
  {
    InvAlways(cfg, run, events, i);
    var k := Backing(cfg, run[i], t);
  }

  /** No (authorizer, nonce) gets two 200 answers, however the handlers interleave. */
  lemma AtMostOneSettle(cfg: Config, run: seq<State>, events: seq<Event>, i: nat, t: nat, u: nat)
    requires IsRun(cfg, run, events) && i < |run|
    requires SettledWith200(run[i], t) && SettledWith200(run[i], u) && t != u
    ensures Key(run[i].process.tasks[t].payment.auth) != Key(run[i].process.tasks[u].payment.auth)
  {
    InvAlways(cfg, run, events, i);
    var j := Backing(cfg, run[i], t);
    var k := Backing(cfg, run[i], u);
  }

  /** What payee m has received on chain. */
  ghost function Received(log: seq<Transfer>, m: string): nat {
    if log == [] then 0
    else Received(log[..|log| - 1], m) + if log[|log| - 1].to == m then log[|log| - 1].value else 0
  }

  /** The part of it that arrived with the log entries in `claimed`. */
  ghost function Claimed(log: seq<Transfer>, claimed: set<nat>, m: string): nat {
    if log == [] then 0
    else
      var n := |log| - 1;
      Claimed(log[..n], claimed, m) + if n in claimed && log[n].to == m then log[n].value else 0
  }

  /** What sellers with payee m were told they had been paid, over the given answered requests. */
  ghost function Owed(s: State, ids: seq<nat>, m: string): int
    requires forall k :: 0 <= k < |ids| ==> SettledWith200(s, ids[k])
  {
    if ids == [] then 0
    else
      assert SettledWith200(s, ids[|ids| - 1]);
      var p := s.process.tasks[ids[|ids| - 1]].payment;
      Owed(s, ids[..|ids| - 1], m) + if Lower(p.auth.to) == m then p.required else 0
  }

  lemma {:induction false} ClaimedAtMostReceived(log: seq<Transfer>, claimed: set<nat>, m: string)
    ensures Claimed(log, claimed, m) <= Received(log, m)
  {
    if log != [] {
      ClaimedAtMostReceived(log[..|log| - 1], claimed, m);
    }
  }

  lemma {:induction false} ClaimOne(log: seq<Transfer>, claimed: set<nat>, k: nat, m: string)
    requires k !in claimed
    ensures Claimed(log, claimed + {k}, m)
            == Claimed(log, claimed, m) + if k < |log| && log[k].to == m then log[k].value else 0
  {
    if log != [] {
      ClaimOne(log[..|log| - 1], claimed, k, m);
    }
  }

  /** Handlers that answered 200, each listed once. */
  ghost predicate AllSettled(s: State, ids: seq<nat>) {
    && (forall k :: 0 <= k < |ids| ==> SettledWith200(s, ids[k]))
    && (forall j, k :: 0 <= j < k < |ids| ==> ids[j] != ids[k])
  }

  lemma {:induction false} OwedIsClaimed(cfg: Config, s: State, ids: seq<nat>, m: string) returns (claimed: set<nat>)
    requires Inv(cfg, s) && AllSettled(s, ids)
    ensures Owed(s, ids, m) <= Claimed(s.ledger.log, claimed, m)
    ensures forall e :: e in claimed ==> e < |s.ledger.log| && exists k :: 0 <= k < |ids| && s.ledger.log[e].tx == Sponsored(ids[k])
  {
    hide Inv, TaskInv, Config.SignedByAuthorizer, SentInv, LedgerInv;
    if ids == [] {
      claimed := {};
    } else {
      var init, t := ids[..|ids| - 1], ids[|ids| - 1];
      var before := OwedIsClaimed(cfg, s, init, m);
      var e := Backing(cfg, s, t);
      ClaimOne(s.ledger.log, before, e, m);
      claimed := before + {e};
      forall c | c in claimed ensures c < |s.ledger.log| && exists k :: 0 <= k < |ids| && s.ledger.log[c].tx == Sponsored(ids[k]) {
        if c in before {
          var k :| 0 <= k < |init| && s.ledger.log[c].tx == Sponsored(init[k]);
          assert ids[k] == init[k];
        } else {
          assert s.ledger.log[c].tx == Sponsored(ids[|ids| - 1]);
        }
      }
    }
  }

  /** Over any requests answered 200, no payee was promised more than it has received on chain. */
  lemma PromisesAreCovered(cfg: Config, run: seq<State>, events: seq<Event>, i: nat, ids: seq<nat>, m: string)
    requires IsRun(cfg, run, events) && i < |run| && AllSettled(run[i], ids)
    ensures Owed(run[i], ids, m) <= Received(run[i].ledger.log, m)
  {
    InvAlways(cfg, run, events, i);
    var claimed := OwedIsClaimed(cfg, run[i], ids, m);
    ClaimedAtMostReceived(run[i].ledger.log, claimed, m);
  }

  // ---------------------------------------------------------------- what the ledger holds

  /** The authorization that an event executes, with its signature and block time. */
  ghost function Executed(s: State, e: Event): Option<(Authorization, string, int)> {
    match e
    case Mine(t, time) =>
      if t in s.process.tasks && s.process.tasks[t].Active?
      then Some((s.process.tasks[t].payment.auth, s.process.tasks[t].payment.signature, time))
      else None
    case ThirdParty(a, signature, time) => Some((a, signature, time))
    case _ => None
  }

  /** Log entry k is the transfer a signed authorization allows: by its signer, of its value, within its time window. */
  ghost predicate Authorised(cfg: Config, entry: Transfer, x: (Authorization, string, int)) {
    && cfg.recover(SignedBytes(TypedData(cfg.token, x.0)), x.1).Some?
    && Lower(cfg.recover(SignedBytes(TypedData(cfg.token, x.0)), x.1).value) == entry.from == Lower(x.0.from)
    && entry.to == Lower(x.0.to) && entry.value == x.0.value < UINT256 && entry.nonce == Lower(x.0.nonce)
    && x.0.validAfter < x.2 < x.0.validBefore
  }

  /** In every run each entry of the log was made by one step, from an authorization that was not used before it. */
  lemma {:induction false} EntryIsAuthorised(cfg: Config, run: seq<State>, events: seq<Event>, n: nat, k: nat) returns (m: nat)
    requires IsRun(cfg, run, events) && n < |run| && k < |run[n].ledger.log|
    ensures m < n && |run[m].ledger.log| == k && k < |run[m + 1].ledger.log|
    ensures Executed(run[m], events[m]).Some?
    ensures var x := Executed(run[m], events[m]).value;
            Authorised(cfg, run[n].ledger.log[k], x)
            && Key(x.0) !in run[m].ledger.used && Key(x.0) in run[m + 1].ledger.used
  {
    hide Next, Enabled, Authorised;
    EntryStep(cfg, run[n - 1], events[n - 1], k);
    if k < |run[n - 1].ledger.log| {
      m := EntryIsAuthorised(cfg, run, events, n - 1, k);
    } else {
      m := n - 1;
    }
  }

  lemma EntryStep(cfg: Config, s: State, e: Event, k: nat)
    requires Enabled(cfg, s, e) && k < |Next(cfg, s, e).ledger.log|
    ensures if k < |s.ledger.log| then Next(cfg, s, e).ledger.log[k] == s.ledger.log[k]
            else
              && |s.ledger.log| == k && Executed(s, e).Some?
              && Authorised(cfg, Next(cfg, s, e).ledger.log[k], Executed(s, e).value)
              && Key(Executed(s, e).value.0) !in s.ledger.used
              && Key(Executed(s, e).value.0) in Next(cfg, s, e).ledger.used
  {
    hide Check, SplitSignature;
  }

  // ---------------------------------------------------------------- once the money has moved

  /** Handler t, if it settles a payment under this key, has not seen the key unused and never will. */
  ghost predicate TooLate(s: State, t: nat, key: (string, string)) {
    && key in s.ledger.used
    && (t in s.process.tasks && s.process.tasks[t].Active?
        && s.process.tasks[t].kind == Settle && Key(s.process.tasks[t].payment.auth) == key ==>
          var pc := s.process.tasks[t].pc;
          pc == Recovering || pc == Reading || pc == ReadBack(Used) || pc == ReadBack(ReadFailed)
          || (pc.Answered? && pc.answer.Refused?))
  }

  lemma TooLateStep(cfg: Config, s: State, e: Event, t: nat, key: (string, string))
    requires Enabled(cfg, s, e) && TooLate(s, t, key)
    ensures TooLate(Next(cfg, s, e), t, key)
  {
    hide Check, SplitSignature, Config.SignedByAuthorizer;
  }

  /** Once an authorization is used on chain, a settle that has not yet had authorizationState evaluated
      can only get a refusal: it never claims the nonce or submits, whatever `seenNonces` holds. */
  lemma {:induction false} UsedIsRefused(
    cfg: Config, run: seq<State>, events: seq<Event>, i: nat, j: nat, t: nat, key: (string, string))
    requires IsRun(cfg, run, events) && i <= j < |run|
    requires key in run[i].ledger.used
    requires t !in run[i].process.tasks || At(run[i].process, t, Recovering) || At(run[i].process, t, Reading)
    ensures TooLate(run[j], t, key)
  {
    hide Next, Enabled;
    if i < j {
      UsedIsRefused(cfg, run, events, i, j - 1, t, key);
      TooLateStep(cfg, run[j - 1], events[j - 1], t, key);
    }
  }

  // ---------------------------------------------------------------- what seenNonces remembers

  /** A settle of this nonce (the string as sent) is in progress. */
  ghost predicate Live(s: State, t: nat, nonce: string) {
    && t in s.process.tasks && s.process.tasks[t].Active? && !s.process.tasks[t].pc.Answered?
    && s.process.tasks[t].kind == Settle && s.process.tasks[t].payment.auth.nonce == nonce
  }

  /** No settle of a nonce passes its checks while another settle of that nonce is in progress. */
  ghost predicate NoOverlap(s: State, e: Event, s': State) {
    forall u, n :: Live(s, u, n) && e.Begin? ==> !Live(s', e.t, n)
  }

  ghost predicate NeverOverlaps(run: seq<State>, events: seq<Event>) {
    |run| == |events| + 1 && forall i :: 0 <= i < |events| ==> NoOverlap(run[i], events[i], run[i + 1])
  }

  ghost predicate SerialInv(s: State) {
    && (forall t, u, n :: Live(s, t, n) && Live(s, u, n) ==> t == u)
    && (forall t, n :: Holding(s, t, n) ==> n in s.process.seen)
    && (forall t, n :: SettledOf(s, t, n) ==> n in s.process.seen)
    && (forall t, u, n :: SettledOf(s, t, n) ==> !Live(s, u, n))
  }

  /** Handler t answered 200 to a settle of this nonce. */
  ghost predicate SettledOf(s: State, t: nat, nonce: string) {
    SettledWith200(s, t) && s.process.tasks[t].payment.auth.nonce == nonce
  }

  lemma LiveBefore(cfg: Config, s: State, e: Event, t: nat, n: string)
    requires Enabled(cfg, s, e) && Live(Next(cfg, s, e), t, n)
    ensures Live(s, t, n) || (e.Begin? && e.t == t && n !in s.process.seen)
  {
    hide SplitSignature, Config.SignedByAuthorizer, Executable;
  }

  /** A nonce leaves the set only when the settle that holds it fails to submit. */
  lemma NonceFreed(cfg: Config, s: State, e: Event, n: string)
    requires Inv(cfg, s) && Enabled(cfg, s, e)
    requires n in s.process.seen && n !in Next(cfg, s, e).process.seen
    ensures IsHandlerEvent(e) && !e.Begin? && Live(s, TaskOf(e), n)
    ensures At(Next(cfg, s, e).process, TaskOf(e), Answered(SubmitFailed))
  {
    hide Check, SplitSignature, Config.SignedByAuthorizer, Executable;
    if IsHandlerEvent(e) && !e.Begin? {
      assert TaskInv(cfg, s, TaskOf(e));
    }
  }

  ghost predicate Holding(s: State, t: nat, n: string) {
    Live(s, t, n) && (s.process.tasks[t].pc == Verified || s.process.tasks[t].pc == Submitting)
  }

  lemma HoldingBefore(cfg: Config, s: State, e: Event, t: nat, n: string)
    requires Enabled(cfg, s, e) && Holding(Next(cfg, s, e), t, n)
    ensures Holding(s, t, n) || n in Next(cfg, s, e).process.seen
  {
    hide SplitSignature, Config.SignedByAuthorizer, Executable, Check;
  }

  lemma SettledBefore(cfg: Config, s: State, e: Event, t: nat, n: string)
    requires Inv(cfg, s) && Enabled(cfg, s, e) && SettledOf(Next(cfg, s, e), t, n)
    ensures SettledOf(s, t, n) || (Holding(s, t, n) && !Live(Next(cfg, s, e), t, n))
  {
    hide Check, SplitSignature, Config.SignedByAuthorizer, Executable;
    if IsHandlerEvent(e) && !e.Begin? {
      assert TaskInv(cfg, s, TaskOf(e));
    }
  }

  lemma StillLive(cfg: Config, s: State, e: Event, t: nat, u: nat, n: string)
    requires Inv(cfg, s) && Enabled(cfg, s, e)
    requires Live(s, t, n) && !Live(Next(cfg, s, e), t, n) && Live(Next(cfg, s, e), u, n)
    ensures t != u && Live(s, u, n)
  {
    hide Check, SplitSignature, Config.SignedByAuthorizer, Executable;
  }

  lemma LiveApart(cfg: Config, s: State, e: Event, s': State, t: nat, u: nat, n: string)
    requires SerialInv(s) && Enabled(cfg, s, e) && s' == Next(cfg, s, e) && NoOverlap(s, e, s')
    requires Live(s', t, n) && Live(s', u, n)
    ensures t == u
  {
    hide Next, Enabled;
    LiveBefore(cfg, s, e, t, n);
    LiveBefore(cfg, s, e, u, n);
  }

  lemma HolderInSet(cfg: Config, s: State, e: Event, s': State, t: nat, n: string)
    requires Inv(cfg, s) && SerialInv(s) && Enabled(cfg, s, e) && s' == Next(cfg, s, e)
    requires Holding(s', t, n)
    ensures n in s'.process.seen
  {
    hide Next, Enabled, Inv;
    HoldingBefore(cfg, s, e, t, n);
    if n !in s'.process.seen {
      NonceFreed(cfg, s, e, n);
      assert false;
    }
  }

  lemma SettledRemembered(cfg: Config, s: State, e: Event, s': State, t: nat, u: nat, n: string)
    requires Inv(cfg, s) && SerialInv(s) && Enabled(cfg, s, e) && s' == Next(cfg, s, e) && NoOverlap(s, e, s')
    requires SettledOf(s', t, n)
    ensures n in s'.process.seen && !Live(s', u, n)
  {
    hide Next, Enabled, Inv;
    SettledBefore(cfg, s, e, t, n);
    if n !in s'.process.seen {
      NonceFreed(cfg, s, e, n);
      assert false;
    }
    if Live(s', u, n) {
      if Live(s, t, n) {
        StillLive(cfg, s, e, t, u, n);
      } else {
        LiveBefore(cfg, s, e, u, n);
      }
      assert false;
    }
  }

  lemma SerialStep(cfg: Config, s: State, e: Event)
    requires Inv(cfg, s) && SerialInv(s) && Enabled(cfg, s, e) && NoOverlap(s, e, Next(cfg, s, e))
    ensures SerialInv(Next(cfg, s, e))
  {
    hide Next, Enabled, Inv;
    var s' := Next(cfg, s, e);
    forall t, u, n | Live(s', t, n) && Live(s', u, n) ensures t == u {
      LiveApart(cfg, s, e, s', t, u, n);
    }
    forall t, n | Holding(s', t, n) ensures n in s'.process.seen {
      HolderInSet(cfg, s, e, s', t, n);
    }
    forall t, n | SettledOf(s', t, n) ensures n in s'.process.seen {
      SettledRemembered(cfg, s, e, s', t, t, n);
    }
    forall t, u, n | SettledOf(s', t, n) ensures !Live(s', u, n) {
      SettledRemembered(cfg, s, e, s', t, u, n);
    }
  }

  lemma {:induction false} SerialAlways(cfg: Config, run: seq<State>, events: seq<Event>, i: nat)
    requires IsRun(cfg, run, events) && NeverOverlaps(run, events) && i < |run|
    ensures SerialInv(run[i])
  {
    hide Next, Enabled, Inv, SerialInv, NoOverlap;
    if i > 0 {
      SerialAlways(cfg, run, events, i - 1);
      InvAlways(cfg, run, events, i - 1);
      assert NoOverlap(run[i - 1], events[i - 1], run[i]);
      SerialStep(cfg, run[i - 1], events[i - 1]);
    } else {
      NoSettleYet();
    }
  }

  lemma NoSettleYet()
    ensures SerialInv(Initial)
  {
  }

  lemma AnswerIsFinal(cfg: Config, s: State, e: Event, t: nat, n: string)
    requires Inv(cfg, s) && Enabled(cfg, s, e) && SettledOf(s, t, n)
    ensures SettledOf(Next(cfg, s, e), t, n)
  {
    hide Check, SplitSignature, Config.SignedByAuthorizer, Executable;
  }

  /** When settles of one nonce never overlap, a nonce that got a 200 stays in `seenNonces` for good. */
  lemma {:induction false} SettledNonceStays(
    cfg: Config, run: seq<State>, events: seq<Event>, i: nat, j: nat, t: nat, n: string)
    requires IsRun(cfg, run, events) && NeverOverlaps(run, events)
    requires i <= j < |run| && SettledOf(run[i], t, n)
    ensures SettledOf(run[j], t, n) && n in run[j].process.seen
  {
    hide Next, Enabled, Inv;
    SerialAlways(cfg, run, events, j);
    if i < j {
      SettledNonceStays(cfg, run, events, i, j - 1, t, n);
      InvAlways(cfg, run, events, j - 1);
      AnswerIsFinal(cfg, run[j - 1], events[j - 1], t, n);
    }
  }

  // ---------------------------------------------------------------- what each step answers

  /** Handler t of this kind and payment moves to pc, the set becomes seen, and nothing else changes. */
  ghost predicate Moves(s: State, s': State, t: nat, pc: Pc, seen: set<string>) {
    && t in s.process.tasks && s.process.tasks[t].Active?
    && s' == State(Process(seen, s.process.tasks[t := Active(s.process.tasks[t].kind, s.process.tasks[t].payment, pc)]),
                   s.ledger, s'.sent)
  }

  /** A new request waits for its signer, or is turned away with the code of its check, or crashes; the nonce is only
      looked up. */
  lemma BeginAnswers(cfg: Config, s: State, t: nat, kind: Kind, req: Request, now: int)
    requires t !in s.process.tasks
    ensures var s', checked := Next(cfg, s, Begin(t, kind, req, now)), Check(cfg, s.process.seen, req, now);
            && s'.process.seen == s.process.seen && s'.ledger == s.ledger && s'.sent == s.sent
            && t in s'.process.tasks && s'.process.tasks - {t} == s.process.tasks
            && (forall p :: s'.process.tasks[t] == Active(kind, p, Recovering) <==> checked == Passed(p))
            && (forall code :: s'.process.tasks[t] == TurnedAway(kind, code) <==> checked == Rejected(code))
            && (s'.process.tasks[t] == Crashed(kind) <==> checked == Thrown)
  {
    hide Check;
  }

  /** A signer that is not the authorizer, in any letter case, or none at all, ends the request. */
  lemma RecoveryAnswers(cfg: Config, s: State, t: nat)
    requires At(s.process, t, Recovering)
    ensures var p := s.process.tasks[t].payment;
            var data := BuildTypedData(cfg.usdcAddress, cfg.chainId, cfg.tokenName, cfg.tokenVersion, p.auth);
            var signer := cfg.recover(SignedBytes(data), p.signature);
            var s' := Next(cfg, s, Recovered(t));
            && s'.sent == s.sent
            && (signer.None? ==> Moves(s, s', t, Answered(Refused(BadSignature)), s.process.seen))
            && (signer.Some? && Lower(signer.value) != Lower(p.auth.from) ==>
                  Moves(s, s', t, Answered(Refused(SignatureMismatch)), s.process.seen))
            && (signer.Some? && Lower(signer.value) == Lower(p.auth.from) ==> Moves(s, s', t, Reading, s.process.seen))
  {
  }

  /** A used authorization is refused; a failed read only stops settles; a settle claims its nonce and goes on. */
  lemma ReadAnswers(cfg: Config, s: State, t: nat, outcome: ReadOutcome)
    requires At(s.process, t, ReadBack(outcome))
    ensures var settles, seen := s.process.tasks[t].kind == Settle, s.process.seen;
            var s' := Next(cfg, s, ReadReturned(t));
            && s'.sent == s.sent
            && (outcome == Used ==> Moves(s, s', t, Answered(Refused(AuthorizationUsed)), seen))
            && (outcome != Used && !settles ==> Moves(s, s', t, Answered(Valid), seen))
            && (outcome == ReadFailed && settles ==> Moves(s, s', t, Answered(Refused(RpcUnavailable)), seen))
            && (outcome == Unused && settles ==>
                  Moves(s, s', t, Verified, seen + {s.process.tasks[t].payment.auth.nonce}))
  {
  }

  /** The submission failed: the signature does not split, the call or the wait threw, or the transaction reverted. */
  ghost predicate SubmissionFails(s: State, e: Event) {
    match e
    case Submit(t) => At(s.process, t, Verified) && SplitSignature(s.process.tasks[t].payment.signature).None?
    case SubmitThrew(t) => At(s.process, t, Submitting)
    case ReceiptReturned(t) => At(s.process, t, Submitting) && t in s.sent && s.sent[t] == Reverted
    case _ => false
  }

  /** Each of them answers 500, takes the nonce out of the set and changes nothing else. */
  lemma FailureFreesNonce(cfg: Config, s: State, e: Event)
    requires SubmissionFails(s, e)
    ensures Enabled(cfg, s, e) && Next(cfg, s, e).sent == s.sent
    ensures Moves(s, Next(cfg, s, e), e.t, Answered(SubmitFailed),
                  s.process.seen - {s.process.tasks[e.t].payment.auth.nonce})
  {
    hide SplitSignature;
  }

  /** Otherwise the transaction is sent, and its successful receipt answers 200 with it. */
  lemma SuccessAnswers(cfg: Config, s: State, e: Event)
    requires (e.Submit? || e.ReceiptReturned?) && Enabled(cfg, s, e) && !SubmissionFails(s, e)
    ensures e.Submit? ==>
              && Moves(s, Next(cfg, s, e), e.t, Submitting, s.process.seen)
              && Next(cfg, s, e).sent == s.sent[e.t := Pending]
    ensures e.ReceiptReturned? ==>
              && Moves(s, Next(cfg, s, e), e.t, Answered(Settled(Sponsored(e.t))), s.process.seen)
              && Next(cfg, s, e).sent == s.sent
  {
    hide SplitSignature;
  }

  /** In every run: a settle that is answered 500 leaves its nonce outside the set. */
  lemma FailedSettleIsForgotten(cfg: Config, run: seq<State>, events: seq<Event>, i: nat, t: nat)
    requires IsRun(cfg, run, events) && i < |events|
    requires !At(run[i].process, t, Answered(SubmitFailed)) && At(run[i + 1].process, t, Answered(SubmitFailed))
    ensures SubmissionFails(run[i], events[i]) && events[i].t == t
    ensures run[i + 1].process.tasks[t].payment.auth.nonce !in run[i + 1].process.seen
  {
    hide Next, Enabled;
    FailedHow(cfg, run[i], events[i], t);
  }

  lemma FailedHow(cfg: Config, s: State, e: Event, t: nat)
    requires Enabled(cfg, s, e) && !At(s.process, t, Answered(SubmitFailed))
    requires At(Next(cfg, s, e).process, t, Answered(SubmitFailed))
    ensures SubmissionFails(s, e) && e.t == t
    ensures Next(cfg, s, e).process.tasks[t].payment.auth.nonce !in Next(cfg, s, e).process.seen
  {
    hide Check, SplitSignature, Config.SignedByAuthorizer, Executable;
  }

  /** The payment of a handler is the one its request passed with. */
  lemma {:induction false} PaymentStays(
    cfg: Config, run: seq<State>, events: seq<Event>, b: nat, i: nat, t: nat, kind: Kind, req: Request, now: int)
    requires IsRun(cfg, run, events) && b < i < |run| && events[b] == Begin(t, kind, req, now)
    ensures t in run[i].process.tasks
    ensures run[i].process.tasks[t].Active? ==>
              && Check(cfg, run[b].process.seen, req, now) == Passed(run[i].process.tasks[t].payment)
              && run[i].process.tasks[t].kind == kind
  {
    hide Next, Enabled;
    if i - 1 > b {
      PaymentStays(cfg, run, events, b, i - 1, t, kind, req, now);
      SamePayment(cfg, run[i - 1], events[i - 1], t);
    } else {
      StartsWith(cfg, run[b], events[b]);
    }
  }

  lemma SamePayment(cfg: Config, s: State, e: Event, t: nat)
    requires Enabled(cfg, s, e) && t in s.process.tasks
    ensures t in Next(cfg, s, e).process.tasks
    ensures var task, task' := s.process.tasks[t], Next(cfg, s, e).process.tasks[t];
            task'.Active? ==> task.Active? && task'.payment == task.payment && task'.kind == task.kind
  {
    hide Check, SplitSignature, Config.SignedByAuthorizer, Executable;
  }

  lemma StartsWith(cfg: Config, s: State, e: Event)
    requires e.Begin? && Enabled(cfg, s, e)
    ensures e.t in Next(cfg, s, e).process.tasks
    ensures var task := Next(cfg, s, e).process.tasks[e.t];
            task.Active? ==> task.kind == e.kind && Check(cfg, s.process.seen, e.req, e.now) == Passed(task.payment)
  {
    hide Check;
  }

  /** And the same request then passes the checks again, as long as its time window lasts. */
  lemma FailedSettlePassesAgain(
    cfg: Config, run: seq<State>, events: seq<Event>, b: nat, i: nat, t: nat, req: Request, now: int, later: int)
    requires IsRun(cfg, run, events) && b < i < |events| && events[b] == Begin(t, Settle, req, now)
    requires !At(run[i].process, t, Answered(SubmitFailed)) && At(run[i + 1].process, t, Answered(SubmitFailed))
    ensures var p := run[i + 1].process.tasks[t].payment;
            Check(cfg, run[i + 1].process.seen, req, later) == Passed(p) <==> p.auth.validAfter <= later < p.auth.validBefore
  {
    hide Next, Enabled, Check;
    PaymentStays(cfg, run, events, b, i + 1, t, Settle, req, now);
    FailedSettleIsForgotten(cfg, run, events, i, t);
    SameButTime(cfg, run[b].process.seen, run[i + 1].process.seen, req, now, later);
  }

  /** Such a run exists for every payment that settles alone: its first transaction reverts, and the retry settles. */
  lemma RetrySettles(cfg: Config, req: Request, now: int, later: int, time: int)
    returns (run: seq<State>, events: seq<Event>)
    requires Check(cfg, {}, req, now).Passed?
    requires var p := Check(cfg, {}, req, now).payment;
             && cfg.SignedByAuthorizer(cfg.Data(p.auth), p.signature)
             && Executable(cfg, Initial.ledger, p.auth, p.signature, time)
             && SplitSignature(p.signature).Some? && p.auth.validAfter <= later < p.auth.validBefore
    ensures IsRun(cfg, run, events) && |run| == |events| + 1 == 15
    ensures events[0] == Begin(0, Settle, req, now) && events[6] == ReceiptReturned(0) && events[7] == Begin(1, Settle, req, later)
    ensures var n := Check(cfg, {}, req, now).payment.auth.nonce;
            && At(run[7].process, 0, Answered(SubmitFailed)) && n !in run[7].process.seen
            && SettledOf(run[14], 1, n) && n in run[14].process.seen
  {
    hide Check, IsRun, SplitSignature, Config.SignedByAuthorizer, Executable;
    var p := Check(cfg, {}, req, now).payment;
    var n, l := p.auth.nonce, Initial.ledger;
    StartRun(cfg);
    run, events := SettleUntilSent(cfg, [Initial], [], 0, req, now, p);
    var sent := State(Process({n}, map[0 := Active(Settle, p, Submitting)]), l, map[0 := Pending]);
    run, events := Then(cfg, run, events, Revert(0), sent.(sent := map[0 := Reverted]));
    var failed := State(Process({}, map[0 := Active(Settle, p, Answered(SubmitFailed))]), l, map[0 := Reverted]);
    run, events := Then(cfg, run, events, ReceiptReturned(0), failed);
    SameButTime(cfg, {}, {}, req, now, later);
    run, events := SettleUntilSent(cfg, run, events, 1, req, later, p);
    var s := run[|events|];
    run, events := Then(cfg, run, events, Mine(1, time), Next(cfg, s, Mine(1, time)));
    run, events := Then(cfg, run, events, ReceiptReturned(1), Next(cfg, run[|events|], ReceiptReturned(1)));
  }

  lemma SameButTime(cfg: Config, seen: set<string>, seen': set<string>, req: Request, now: int, later: int)
    requires Check(cfg, seen, req, now).Passed? && Check(cfg, seen, req, now).payment.auth.nonce !in seen'
    ensures var p := Check(cfg, seen, req, now).payment;
            Check(cfg, seen', req, later) == Passed(p) <==> p.auth.validAfter <= later < p.auth.validBefore
  {
    hide Lower, FromText, Decode;
  }

  /** A settle on its own up to the submission of its transaction. */
  lemma SettleUntilSent(cfg: Config, run: seq<State>, events: seq<Event>, t: nat, req: Request, now: int, p: Payment)
    returns (run': seq<State>, events': seq<Event>)
    requires IsRun(cfg, run, events) && t !in run[|events|].process.tasks && Key(p.auth) !in run[|events|].ledger.used
    requires Check(cfg, run[|events|].process.seen, req, now) == Passed(p)
    requires cfg.SignedByAuthorizer(cfg.Data(p.auth), p.signature) && SplitSignature(p.signature).Some?
    ensures IsRun(cfg, run', events') && |run'| == |events'| + 1 == |events| + 6
    ensures run <= run' && events <= events' && events'[|events|] == Begin(t, Settle, req, now)
    ensures var s := run[|events|];
            run'[|events'|] == With(s, t, p, Submitting, s.process.seen + {p.auth.nonce}).(sent := s.sent[t := Pending])
  {
    assert |run| == |events| + 1;
    hide Check, IsRun, SplitSignature, Config.SignedByAuthorizer, Next, Enabled, With;
    var s := run[|events|];
    var seen := s.process.seen + {p.auth.nonce};
    UntilSent(cfg, s, t, p);
    run', events' := SettleUntilRead(cfg, run, events, t, req, now, p);
    run', events' := Then(cfg, run', events', ReadReturned(t), With(s, t, p, Verified, seen));
    run', events' := Then(cfg, run', events', Submit(t), With(s, t, p, Submitting, seen).(sent := s.sent[t := Pending]));
  }

  lemma SettleUntilRead(cfg: Config, run: seq<State>, events: seq<Event>, t: nat, req: Request, now: int, p: Payment)
    returns (run': seq<State>, events': seq<Event>)
    requires IsRun(cfg, run, events) && t !in run[|events|].process.tasks && Key(p.auth) !in run[|events|].ledger.used
    requires Check(cfg, run[|events|].process.seen, req, now) == Passed(p)
    requires cfg.SignedByAuthorizer(cfg.Data(p.auth), p.signature)
    ensures IsRun(cfg, run', events') && |run'| == |events'| + 1 == |events| + 4
    ensures run <= run' && events <= events' && events'[|events|] == Begin(t, Settle, req, now)
    ensures run'[|events'|] == With(run[|events|], t, p, ReadBack(Unused), run[|events|].process.seen)
  {
    assert |run| == |events| + 1;
    hide Check, IsRun, SplitSignature, Config.SignedByAuthorizer, Next, Enabled, With;
    var s := run[|events|];
    var seen := s.process.seen;
    UntilRead(cfg, s, t, req, now, p);
    run', events' := Then(cfg, run, events, Begin(t, Settle, req, now), With(s, t, p, Recovering, seen));
    run', events' := Then(cfg, run', events', Recovered(t), With(s, t, p, Reading, seen));
    run', events' := Then(cfg, run', events', Read(t, true), With(s, t, p, ReadBack(Unused), seen));
  }

  ghost predicate Steps(cfg: Config, s: State, e: Event, s': State) {
    Enabled(cfg, s, e) && s' == Next(cfg, s, e)
  }

  lemma UntilRead(cfg: Config, s: State, t: nat, req: Request, now: int, p: Payment)
    requires t !in s.process.tasks && Key(p.auth) !in s.ledger.used && Check(cfg, s.process.seen, req, now) == Passed(p)
    requires cfg.SignedByAuthorizer(cfg.Data(p.auth), p.signature)
    ensures var seen := s.process.seen;
            && Steps(cfg, s, Begin(t, Settle, req, now), With(s, t, p, Recovering, seen))
            && Steps(cfg, With(s, t, p, Recovering, seen), Recovered(t), With(s, t, p, Reading, seen))
            && Steps(cfg, With(s, t, p, Reading, seen), Read(t, true), With(s, t, p, ReadBack(Unused), seen))
  {
    hide Check;
  }

  lemma UntilSent(cfg: Config, s: State, t: nat, p: Payment)
    requires SplitSignature(p.signature).Some?
    ensures var seen := s.process.seen + {p.auth.nonce};
            && Steps(cfg, With(s, t, p, ReadBack(Unused), s.process.seen), ReadReturned(t), With(s, t, p, Verified, seen))
            && Steps(cfg, With(s, t, p, Verified, seen), Submit(t),
                     With(s, t, p, Submitting, seen).(sent := s.sent[t := Pending]))
  {
    hide SplitSignature;
  }

  ghost function With(s: State, t: nat, p: Payment, pc: Pc, seen: set<string>): State {
    s.(process := Process(seen, s.process.tasks[t := Active(Settle, p, pc)]))
  }

  // Without that condition the set forgets: two settles of one nonce pass the check together, one is
  // paid and answered 200, and the other's failure deletes the nonce.

  ghost function Pair(p: Payment, seen: set<string>, pc0: Pc, pc1: Pc, l: Ledger, sent: map<nat, Tx>): State {
    State(Process(seen, map[0 := Active(Settle, p, pc0), 1 := Active(Settle, p, pc1)]), l, sent)
  }

  lemma StartRun(cfg: Config)
    ensures IsRun(cfg, [Initial], [])
  {
  }

  lemma Then(cfg: Config, run: seq<State>, events: seq<Event>, e: Event, s: State)
    returns (run': seq<State>, events': seq<Event>)
    requires IsRun(cfg, run, events)
    requires Enabled(cfg, run[|events|], e) && s == Next(cfg, run[|events|], e)
    ensures IsRun(cfg, run', events') && run'[|events'|] == s
    ensures run' == run + [s] && events' == events + [e]
  {
    hide Next, Enabled;
    run', events' := run + [s], events + [e];
    forall i | 0 <= i < |events'|
      ensures Enabled(cfg, run'[i], events'[i]) && run'[i + 1] == Next(cfg, run'[i], events'[i])
    {
      if i < |events| {
        assert run'[i] == run[i] && run'[i + 1] == run[i + 1] && events'[i] == events[i];
      }
    }
  }

  /** Both settles pass the lookup, the signature check and the read of an unused authorization. */
  lemma PassTogether(cfg: Config, req: Request, now: int, p: Payment) returns (run: seq<State>, events: seq<Event>)
    requires Check(cfg, {}, req, now) == Passed(p) && cfg.SignedByAuthorizer(cfg.Data(p.auth), p.signature)
    ensures IsRun(cfg, run, events)
    ensures run[|events|] == Pair(p, {}, ReadBack(Unused), ReadBack(Unused), Initial.ledger, map[])
  {
    hide Check, IsRun;
    var l := Initial.ledger;
    StartRun(cfg);
    run, events := [Initial], [];
    run, events := Then(cfg, run, events, Begin(0, Settle, req, now),
                        State(Process({}, map[0 := Active(Settle, p, Recovering)]), l, map[]));
    run, events := Then(cfg, run, events, Begin(1, Settle, req, now), Pair(p, {}, Recovering, Recovering, l, map[]));
    run, events := Then(cfg, run, events, Recovered(0), Pair(p, {}, Reading, Recovering, l, map[]));
    run, events := Then(cfg, run, events, Recovered(1), Pair(p, {}, Reading, Reading, l, map[]));
    run, events := Then(cfg, run, events, Read(0, true), Pair(p, {}, ReadBack(Unused), Reading, l, map[]));
    run, events := Then(cfg, run, events, Read(1, true), Pair(p, {}, ReadBack(Unused), ReadBack(Unused), l, map[]));
  }

  /** Both claim the nonce and submit. */
  lemma SubmitTogether(cfg: Config, req: Request, now: int, p: Payment) returns (run: seq<State>, events: seq<Event>)
    requires Check(cfg, {}, req, now) == Passed(p) && cfg.SignedByAuthorizer(cfg.Data(p.auth), p.signature)
    requires SplitSignature(p.signature).Some?
    ensures IsRun(cfg, run, events)
    ensures run[|events|] == Pair(p, {p.auth.nonce}, Submitting, Submitting, Initial.ledger, map[0 := Pending, 1 := Pending])
  {
    hide Check, SplitSignature, IsRun, Config.SignedByAuthorizer;
    var n, l := p.auth.nonce, Initial.ledger;
    run, events := PassTogether(cfg, req, now, p);
    run, events := Then(cfg, run, events, ReadReturned(0), Pair(p, {n}, Verified, ReadBack(Unused), l, map[]));
    run, events := Then(cfg, run, events, ReadReturned(1), Pair(p, {n}, Verified, Verified, l, map[]));
    run, events := Then(cfg, run, events, Submit(0), Pair(p, {n}, Submitting, Verified, l, map[0 := Pending]));
    run, events := Then(cfg, run, events, Submit(1),
                        Pair(p, {n}, Submitting, Submitting, l, map[0 := Pending, 1 := Pending]));
  }

  /** Any payment that settles alone settles in this run too, and its nonce is then no longer in the set. */
  lemma OverlapForgetsNonce(cfg: Config, req: Request, now: int, time: int) returns (run: seq<State>, events: seq<Event>)
    requires Check(cfg, {}, req, now).Passed?
    requires var p := Check(cfg, {}, req, now).payment;
             && cfg.SignedByAuthorizer(cfg.Data(p.auth), p.signature)
             && Executable(cfg, Initial.ledger, p.auth, p.signature, time)
             && SplitSignature(p.signature).Some?
    ensures IsRun(cfg, run, events)
    ensures var n := Check(cfg, {}, req, now).payment.auth.nonce;
            SettledOf(run[|events|], 0, n) && n !in run[|events|].process.seen
  {
    hide Check, SplitSignature, IsRun, Config.SignedByAuthorizer;
    var p := Check(cfg, {}, req, now).payment;
    var n, paid := p.auth.nonce, Answered(Settled(Sponsored(0)));
    var l := Execute(Initial.ledger, p.auth, Sponsored(0));
    var mined := map[0 := Succeeded(0), 1 := Pending];
    run, events := SubmitTogether(cfg, req, now, p);
    run, events := Then(cfg, run, events, Mine(0, time), Pair(p, {n}, Submitting, Submitting, l, mined));
    run, events := Then(cfg, run, events, ReceiptReturned(0), Pair(p, {n}, paid, Submitting, l, mined));
    run, events := Then(cfg, run, events, SubmitThrew(1), Pair(p, {}, paid, Answered(SubmitFailed), l, mined));
  }
}
