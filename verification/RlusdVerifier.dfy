/**
 * src/middleware.ts: self-verification of RLUSD payments. The exact and the Wormhole verifier share one set
 * of consumed transaction hashes; each looks a hash up, awaits the receipt, awaits the chain's tip, and adds
 * the hash when the logs match. Code between awaits is one step, and any awaited answer may come at any step.
 *
 * The set holds hashes as the payment headers spell them. The chain knows a transaction by its hash's bytes, so
 * by its hexadecimal digits in either letter case, and has one receipt for it.
 */
module RlusdVerifier {
  import opened JsValues

  const TRANSFER_TOPIC := "0xddf252ad1be2c89b69c2b068fc378daa952ba7f163c4a11628f55a4df523b3ef"
  const NO_DIGITS := "0000000000000000000000000000000000000000"
  const ZERO_ADDRESS := "0x" + NO_DIGITS
  const ZERO_TOPIC := "0x000000000000000000000000" + NO_DIGITS

  datatype Kind = Exact | Ntt

  /** data is None when it is no numeral; then converting it throws. */
  datatype Log = Log(address: string, topics: seq<string>, data: Option<nat>)

  datatype Receipt = Receipt(success: bool, block: nat, logs: seq<Log>)

  datatype Want = Want(kind: Kind, asset: string, payTo: string, minValue: int, maxBlockAge: Option<int>)

  datatype Reason = InvalidHeader | AlreadyConsumed | NotConfirmed | Reverted | TooOld | LogMissing

  function TopicAddress(topic: string): string {
    Lower("0x" + if |topic| <= 40 then topic else topic[|topic| - 40..])
  }

  /** A transfer of the wanted asset to the wanted address, for Ntt a mint; the value is not looked at. */
  predicate Pays(l: Log, want: Want) {
    && Lower(l.address) == Lower(want.asset)
    && |l.topics| == 3 && l.topics[0] == TRANSFER_TOPIC
    && (want.kind == Ntt ==> l.topics[1] == ZERO_TOPIC)
    && TopicAddress(l.topics[2]) == Lower(want.payTo)
  }

  predicate Matches(l: Log, want: Want) {
    Pays(l, want) && l.data.Some? && l.data.value >= want.minValue
  }

  datatype Search = Found(i: nat) | Absent | Threw

  function Verdict(l: Log, want: Want): Search {
    if !Pays(l, want) then Absent
    else if l.data.None? then Threw
    else if l.data.value >= want.minValue then Found(0)
    else Absent
  }

  /** `find`: the first log that matches, unless the search throws before it. */
  function Find(logs: seq<Log>, want: Want): Search {
    if logs == [] then Absent
    else if Verdict(logs[0], want) != Absent then Verdict(logs[0], want)
    else match Find(logs[1..], want) case Found(i) => Found(i + 1) case other => other
  }

  /** No payment among these logs has an amount that cannot be read. */
  predicate Readable(logs: seq<Log>, want: Want) {
    forall i :: 0 <= i < |logs| && Pays(logs[i], want) ==> logs[i].data.Some?
  }

  predicate Hit(logs: seq<Log>, want: Want, i: nat) {
    i < |logs| && Matches(logs[i], want) && Readable(logs[..i], want)
  }

  /** Found exactly when some log matches and no log before it is a payment whose amount cannot be read. */
  lemma FindIff(logs: seq<Log>, want: Want)
    ensures Find(logs, want).Found? ==> Hit(logs, want, Find(logs, want).i)
    ensures Find(logs, want).Found? <==> exists i: nat :: Hit(logs, want, i)
  {
    hide Hit, Find;
    if Find(logs, want).Found? {
      FoundIsHit(logs, want);
    }
    if i: nat :| Hit(logs, want, i) {
      HitIsFound(logs, want, i);
    }
  }

  lemma {:induction false} FoundIsHit(logs: seq<Log>, want: Want)
    requires Find(logs, want).Found?
    ensures Hit(logs, want, Find(logs, want).i)
  {
    hide Pays;
    if Verdict(logs[0], want) == Absent {
      FoundIsHit(logs[1..], want);
      var i := Find(logs[1..], want).i;
      assert logs[..i + 1] == [logs[0]] + logs[1..][..i];
    }
  }

  lemma {:induction false} HitIsFound(logs: seq<Log>, want: Want, i: nat)
    requires Hit(logs, want, i)
    ensures Find(logs, want).Found?
  {
    hide Pays;
    if i > 0 {
      assert logs[..i][0] == logs[0] && logs[..i][1..] == logs[1..][..i - 1];
      HitIsFound(logs[1..], want, i - 1);
    }
  }

  /** A payment whose amount cannot be read, and no match before it. */
  predicate Unreadable(logs: seq<Log>, want: Want, i: nat) {
    i < |logs| && Pays(logs[i], want) && logs[i].data.None?
    && forall j :: 0 <= j < i ==> !Matches(logs[j], want)
  }

  /** It throws exactly at such a log, and finds nothing exactly when there is neither. */
  lemma SearchFailsIff(logs: seq<Log>, want: Want)
    ensures Find(logs, want).Threw? <==> exists i: nat :: Unreadable(logs, want, i)
    ensures Find(logs, want).Absent? <==>
              forall i :: 0 <= i < |logs| && Pays(logs[i], want) ==> logs[i].data.Some? && logs[i].data.value < want.minValue
  {
    hide Unreadable, Find, Pays;
    if Find(logs, want).Threw? {
      var i := ThrewAt(logs, want);
    }
    if i: nat :| Unreadable(logs, want, i) {
      UnreadableThrows(logs, want, i);
    }
    AbsentIff(logs, want);
  }

  lemma {:induction false} ThrewAt(logs: seq<Log>, want: Want) returns (i: nat)
    requires Find(logs, want).Threw?
    ensures Unreadable(logs, want, i)
  {
    hide Pays;
    if Verdict(logs[0], want) == Absent {
      var j := ThrewAt(logs[1..], want);
      i := j + 1;
      forall k | 0 <= k < i ensures !Matches(logs[k], want) {
        assert k > 0 ==> logs[k] == logs[1..][k - 1];
      }
    } else {
      i := 0;
    }
  }

  lemma {:induction false} UnreadableThrows(logs: seq<Log>, want: Want, i: nat)
    requires Unreadable(logs, want, i)
    ensures Find(logs, want).Threw?
  {
    hide Pays;
    if i > 0 {
      if Verdict(logs[0], want) == Absent {
        forall k | 0 <= k < i - 1 ensures !Matches(logs[1..][k], want) {
          assert logs[1..][k] == logs[k + 1];
        }
        UnreadableThrows(logs[1..], want, i - 1);
      }
    }
  }

  lemma {:induction false} AbsentIff(logs: seq<Log>, want: Want)
    ensures Find(logs, want).Absent? <==>
              forall i :: 0 <= i < |logs| && Pays(logs[i], want) ==> logs[i].data.Some? && logs[i].data.value < want.minValue
  {
    hide Pays;
    if logs != [] {
      AbsentIff(logs[1..], want);
      assert forall i :: 0 < i < |logs| ==> logs[i] == logs[1..][i - 1];
    }
  }

  /** The wanted token moved at least the wanted amount to the wanted address, for Ntt from no address. */
  predicate IsPayment(l: Log, want: Want) {
    && Lower(l.address) == Lower(want.asset)
    && |l.topics| == 3 && l.topics[0] == "0xddf252ad1be2c89b69c2b068fc378daa952ba7f163c4a11628f55a4df523b3ef"
    && (want.kind == Ntt ==> l.topics[1] == ZERO_TOPIC)
    && TopicAddress(l.topics[2]) == Lower(want.payTo)
    && l.data.Some? && want.minValue <= l.data.value
  }

  lemma MatchIsPayment(l: Log, want: Want)
    ensures Matches(l, want) <==> IsPayment(l, want)
  {
  }

  /** An address as it stands in a topic: its forty digits behind twenty-four zeros. */
  function Topic(address: string): string
    requires |address| == 42
  {
    "0x000000000000000000000000" + address[2..]
  }

  /** The log an ERC-20 token emits when it moves value from one address to another. */
  function TransferLog(token: string, from: string, to: string, value: nat): Log
    requires |from| == |to| == 42
  {
    Log(token, ["0xddf252ad1be2c89b69c2b068fc378daa952ba7f163c4a11628f55a4df523b3ef", Topic(from), Topic(to)], Some(value))
  }

  /** It is taken for the payment exactly when the wanted token paid the wanted address enough, for Ntt by minting. */
  lemma TransferMatchesIff(token: string, from: string, to: string, value: nat, want: Want)
    requires |from| == |to| == |want.payTo| == 42 && from[..2] == "0x" && Lower(to[..2]) == Lower(want.payTo[..2]) == "0x"
    ensures Matches(TransferLog(token, from, to, value), want) <==>
              && Lower(token) == Lower(want.asset) && Lower(to) == Lower(want.payTo) && value >= want.minValue
              && (want.kind == Ntt ==> from == ZERO_ADDRESS)
  {
    TopicNames(to, want.payTo);
    ZeroTopicIff(from);
  }

  lemma TopicNames(to: string, payTo: string)
    requires |to| == |payTo| == 42 && Lower(to[..2]) == Lower(payTo[..2]) == "0x"
    ensures TopicAddress(Topic(to)) == Lower(to)
  {
    var digits := to[2..];
    assert Topic(to)[|Topic(to)| - 40..] == digits;
    assert to == to[..2] + digits && Lower(to) == Lower(to[..2]) + Lower(digits);
    assert Lower("0x" + digits) == Lower("0x") + Lower(digits);
    assert Lower("0x") == "0x";
  }

  lemma SameTail(head: string, a: string, b: string)
    ensures head + a == head + b <==> a == b
  {
    assert (head + a)[|head|..] == a && (head + b)[|head|..] == b;
  }

  lemma ZeroTopicIff(from: string)
    requires |from| == 42 && from[..2] == "0x"
    ensures Topic(from) == ZERO_TOPIC <==> from == ZERO_ADDRESS
  {
    assert from == "0x" + from[2..];
    SameTail("0x000000000000000000000000", from[2..], NO_DIGITS);
    SameTail("0x", from[2..], NO_DIGITS);
  }

  // ---------------------------------------------------------------- the verifier

  datatype Outcome = Accept | Reject(reason: Reason) | Throw

  function OnTip(receipt: Receipt, tip: int, want: Want): Outcome {
    if tip - receipt.block > want.maxBlockAge.GetOr(1000) then Reject(TooOld)
    else match Find(receipt.logs, want)
         case Found(_) => Accept
         case Absent => Reject(LogMissing)
         case Threw => Throw
  }

  function OnReceipt(receipt: Option<Receipt>): Option<Reason> {
    if receipt.None? then Some(NotConfirmed) else if !receipt.value.success then Some(Reverted) else None
  }

  /** The hash a payment header names: the Wormhole verifier also refuses an empty one. */
  function Named(kind: Kind, header: Option<string>): Option<string> {
    if kind == Ntt && header == Some("") then None else header
  }

  function OnHeader(consumed: set<string>, kind: Kind, header: Option<string>): Result<string, Reason> {
    match Named(kind, header)
    case None => Err(InvalidHeader)
    case Some(tx) => if tx in consumed then Err(AlreadyConsumed) else Ok(tx)
  }

  /** Neither too old nor missing: its block is at most maxBlockAge, or 1000, before the tip, and a log matches. */
  predicate Recent(receipt: Receipt, tip: int, want: Want) {
    tip <= receipt.block + if want.maxBlockAge.Some? then want.maxBlockAge.value else 1000
  }

  lemma TipDecides(receipt: Receipt, tip: int, want: Want)
    ensures OnTip(receipt, tip, want) == Accept <==> Recent(receipt, tip, want) && exists i: nat :: Hit(receipt.logs, want, i)
    ensures OnTip(receipt, tip, want) == Reject(TooOld) <==> !Recent(receipt, tip, want)
    ensures OnTip(receipt, tip, want) == Throw <==>
              Recent(receipt, tip, want) && exists i: nat :: Unreadable(receipt.logs, want, i)
    ensures OnTip(receipt, tip, want) == Reject(LogMissing) <==>
              && Recent(receipt, tip, want)
              && forall i :: 0 <= i < |receipt.logs| && Pays(receipt.logs[i], want) ==>
                   receipt.logs[i].data.Some? && receipt.logs[i].data.value < want.minValue
  {
    hide Find, Hit, Unreadable, Pays;
    FindIff(receipt.logs, want);
    SearchFailsIff(receipt.logs, want);
  }

  lemma TipAnswers(receipt: Receipt, tip: int, want: Want)
    ensures OnTip(receipt, tip, want) in {Accept, Reject(TooOld), Reject(LogMissing), Throw}
  {
    hide Find;
  }

  lemma RecentHitIsAccepted(receipt: Receipt, tip: int, want: Want, i: nat)
    requires Recent(receipt, tip, want) && Hit(receipt.logs, want, i)
    ensures OnTip(receipt, tip, want) == Accept
  {
    TipDecides(receipt, tip, want);
  }

  class Verifier {
    var idempotencyCache: set<string>

    constructor ()
      ensures idempotencyCache == {}
    {
      idempotencyCache := {};
    }

    /** Up to the first await; header is the hash in the decoded header, if it decodes and names this scheme. */
    method Begin(kind: Kind, header: Option<string>) returns (r: Result<string, Reason>)
      ensures r == OnHeader(idempotencyCache, kind, header)
    {
      if header.None? || (kind == Ntt && header.value == "") {
        return Err(InvalidHeader);
      }
      if header.value in idempotencyCache {
        return Err(AlreadyConsumed);
      }
      return Ok(header.value);
    }

    /** After the tip is known; only an acceptance changes the set. */
    method TipReturned(tx: string, receipt: Receipt, tip: int, want: Want) returns (v: Outcome)
      modifies this
      ensures v == OnTip(receipt, tip, want)
      ensures v == Accept <==> tip - receipt.block <= want.maxBlockAge.GetOr(1000) && exists i: nat :: Hit(receipt.logs, want, i)
      ensures v == Reject(TooOld) <==> tip - receipt.block > want.maxBlockAge.GetOr(1000)
      ensures v == Throw <==>
                tip - receipt.block <= want.maxBlockAge.GetOr(1000) && exists i: nat :: Unreadable(receipt.logs, want, i)
      ensures v in {Accept, Reject(TooOld), Reject(LogMissing), Throw}
      ensures idempotencyCache == old(idempotencyCache) + if v == Accept then {tx} else {}
    {
      TipDecides(receipt, tip, want);
      hide Find, Hit, Unreadable;
      var ageLimit := want.maxBlockAge.GetOr(1000);
      if tip - receipt.block > ageLimit {
        return Reject(TooOld);
      }
      match Find(receipt.logs, want) {
        case Found(_) =>
          idempotencyCache := idempotencyCache + {tx};
          return Accept;
        case Absent => return Reject(LogMissing);
        case Threw => return Throw;
      }
    }
  }

  // ---------------------------------------------------------------- runs

  datatype Phase =
    | AwaitingReceipt
    | AwaitingTip(receipt: Receipt)
    | Accepted(receipt: Receipt, tip: int)
    | Rejected(reason: Reason)
    | Failed

  datatype Call = Call(tx: string, want: Want, phase: Phase)

  /** chain: the receipts of mined transactions, by hash in lower case. */
  datatype State = State(consumed: set<string>, calls: seq<Call>, chain: map<string, Receipt>)

  datatype Event =
    | Mined(hash: string, receipt: Receipt)
    | Begin(header: Option<string>, want: Want)
    | ReceiptReturned(c: nat, answer: Option<Receipt>)
    | TipReturned(c: nat, tip: int)
    | RpcFailed(c: nat)

  /** What a node answers about a hash, if it knows it: the receipt of the transaction with these bytes. */
  predicate OnChain(s: State, tx: string, receipt: Receipt) {
    Lower(tx) in s.chain && s.chain[Lower(tx)] == receipt
  }

  predicate Enabled(s: State, e: Event) {
    match e
    case Mined(hash, _) => Lower(hash) == hash && hash !in s.chain
    case Begin(_, _) => true
    case ReceiptReturned(c, answer) =>
      && c < |s.calls| && s.calls[c].phase.AwaitingReceipt?
      && (answer.Some? ==> OnChain(s, s.calls[c].tx, answer.value))
    case TipReturned(c, _) => c < |s.calls| && s.calls[c].phase.AwaitingTip?
    case RpcFailed(c) => c < |s.calls| && (s.calls[c].phase.AwaitingReceipt? || s.calls[c].phase.AwaitingTip?)
  }

  function WithPhase(s: State, c: nat, phase: Phase): State
    requires c < |s.calls|
  {
    s.(calls := s.calls[c := s.calls[c].(phase := phase)])
  }

  function OnBegin(s: State, header: Option<string>, want: Want): State {
    s.(calls := s.calls + [match OnHeader(s.consumed, want.kind, header)
                           case Ok(tx) => Call(tx, want, AwaitingReceipt)
                           case Err(reason) => Call(header.GetOr(""), want, Rejected(reason))])
  }

  function AfterTip(s: State, c: nat, tip: int): State
    requires c < |s.calls| && s.calls[c].phase.AwaitingTip?
  {
    var call := s.calls[c];
    match OnTip(call.phase.receipt, tip, call.want)
    case Accept => WithPhase(s, c, Accepted(call.phase.receipt, tip)).(consumed := s.consumed + {call.tx})
    case Reject(reason) => WithPhase(s, c, Rejected(reason))
    case Throw => WithPhase(s, c, Failed)
  }

  function Next(s: State, e: Event): State
    requires Enabled(s, e)
  {
    match e
    case Mined(hash, receipt) => s.(chain := s.chain[hash := receipt])
    case Begin(header, want) => OnBegin(s, header, want)
    case ReceiptReturned(c, answer) =>
      WithPhase(s, c, match OnReceipt(answer)
                      case None => AwaitingTip(answer.value)
                      case Some(reason) => Rejected(reason))
    case TipReturned(c, tip) => AfterTip(s, c, tip)
    case RpcFailed(c) => WithPhase(s, c, Failed)
  }

  predicate IsRun(run: seq<State>, events: seq<Event>) {
    && |run| == |events| + 1
    && run[0] == State({}, [], map[])
    && forall i :: 0 <= i < |events| ==> Enabled(run[i], events[i]) && run[i + 1] == Next(run[i], events[i])
  }

  predicate Sound(s: State, call: Call) {
    match call.phase
    case AwaitingTip(receipt) => receipt.success && OnChain(s, call.tx, receipt)
    case Accepted(receipt, tip) =>
      receipt.success && OnChain(s, call.tx, receipt) && OnTip(receipt, tip, call.want) == Accept && call.tx in s.consumed
    case _ => true
  }

  predicate Inv(s: State) {
    forall c :: 0 <= c < |s.calls| ==> Sound(s, s.calls[c])
  }

  // ---------------------------------------------------------------- theorems

  /**
   * An accepted payment is backed by the chain's one receipt for the transaction, which succeeded, is within the
   * age limit of the tip, and has a log that pays the wanted address at least the wanted amount (for Ntt, newly
   * minted).
   */
  lemma AcceptedIsPaid(run: seq<State>, events: seq<Event>, n: nat, c: nat) returns (r: nat, t: nat, i: nat)
    requires IsRun(run, events) && n < |run| && c < |run[n].calls| && run[n].calls[c].phase.Accepted?
    ensures r < t < n && events[r] == ReceiptReturned(c, Some(run[n].calls[c].phase.receipt))
    ensures events[t] == TipReturned(c, run[n].calls[c].phase.tip)
    ensures var call := run[n].calls[c]; var receipt := call.phase.receipt;
            && OnChain(run[n], call.tx, receipt)
            && receipt.success && Recent(receipt, call.phase.tip, call.want)
            && i < |receipt.logs| && IsPayment(receipt.logs[i], call.want)
  {
    hide Next, Enabled, Inv, Find, Matches, IsPayment;
    var call := run[n].calls[c];
    InvAlways(run, events, n);
    CallSound(run[n], c);
    FindIff(call.phase.receipt.logs, call.want);
    i := Find(call.phase.receipt.logs, call.want).i;
    MatchIsPayment(call.phase.receipt.logs[i], call.want);
    t := WhenAccepted(run, events, n, c);
    r := WhenReceived(run, events, t, c);
  }

  /** A call that starts after an acceptance of the same hash, by either verifier, is rejected at once. */
  lemma AcceptedHashIsRejected(run: seq<State>, events: seq<Event>, n: nat, c: nat, i: nat)
    requires IsRun(run, events) && n <= i < |events|
    requires c < |run[n].calls| && run[n].calls[c].phase.Accepted?
    requires events[i].Begin? && Named(events[i].want.kind, events[i].header) == Some(run[n].calls[c].tx)
    ensures |run[i + 1].calls| == |run[i].calls| + 1 && run[i + 1].consumed == run[i].consumed
    ensures run[i + 1].calls[|run[i].calls|].phase == Rejected(AlreadyConsumed)
  {
    hide Next, Enabled, Inv;
    InvAlways(run, events, i);
    CallStays(run, events, n, i, c);
    CallSound(run[i], c);
    BeginOutcome(run[i], events[i]);
  }

  predicate AcceptedAs(s: State, c: nat, tx: string) {
    c < |s.calls| && s.calls[c].tx == tx && s.calls[c].phase.Accepted?
  }

  /** A call is turned away as consumed exactly when a call with its spelling of the hash has been accepted. */
  lemma ConsumedIffAccepted(run: seq<State>, events: seq<Event>, i: nat, tx: string)
    requires IsRun(run, events) && i < |events| && events[i].Begin?
    requires Named(events[i].want.kind, events[i].header) == Some(tx)
    ensures |run[i + 1].calls| == |run[i].calls| + 1
    ensures run[i + 1].calls[|run[i].calls|].phase == Rejected(AlreadyConsumed)
            <==> exists c: nat :: AcceptedAs(run[i], c, tx)
  {
    hide Next, Enabled, Inv;
    BeginOutcome(run[i], events[i]);
    if tx in run[i].consumed {
      var c := WhoConsumed(run, events, i, tx);
    }
    if c: nat :| AcceptedAs(run[i], c, tx) {
      InvAlways(run, events, i);
      CallSound(run[i], c);
    }
  }

  predicate Waiting(call: Call) {
    call.phase.AwaitingReceipt? || call.phase.AwaitingTip?
  }

  /**
   * One transaction is accepted twice only if the two headers spell its hash differently or the earlier call was
   * still waiting when the later one began. Either way both acceptances rest on the same receipt.
   */
  lemma AcceptedTwiceMeansOverlapOrSpelling(run: seq<State>, events: seq<Event>, n: nat, c: nat, d: nat, i: nat)
    requires IsRun(run, events) && n < |run| && c < d < |run[n].calls|
    requires run[n].calls[c].phase.Accepted? && run[n].calls[d].phase.Accepted?
    requires Lower(run[n].calls[c].tx) == Lower(run[n].calls[d].tx)
    requires i < n && events[i].Begin? && |run[i].calls| == d
    ensures run[n].calls[c].tx != run[n].calls[d].tx || Waiting(run[i].calls[c])
    ensures run[n].calls[c].phase.receipt == run[n].calls[d].phase.receipt
  {
    hide Next, Enabled, Inv, Lower;
    CallStays(run, events, i, n, c);
    CallStays(run, events, i + 1, n, d);
    InvAlways(run, events, i);
    InvAlways(run, events, n);
    CallSound(run[i], c);
    CallSound(run[n], c);
    CallSound(run[n], d);
    BeginOutcome(run[i], events[i]);
  }

  /** Overlapping calls do accept one transaction twice, by any two verifiers that its logs satisfy. */
  lemma OverlapAcceptsTwice(tx: string, tx': string, want: Want, want': Want, receipt: Receipt, tip: int,
                           i: nat, i': nat)
    returns (run: seq<State>, events: seq<Event>)
    requires (want.kind == Exact || tx != "") && (want'.kind == Exact || tx' != "") && Lower(tx) == Lower(tx') && receipt.success
    requires Recent(receipt, tip, want) && Hit(receipt.logs, want, i) && Recent(receipt, tip, want') && Hit(receipt.logs, want', i')
    ensures IsRun(run, events) && |events| == 7
    ensures var s := run[7];
            && |s.calls| == 2 && s.calls[0] == Call(tx, want, Accepted(receipt, tip))
            && s.calls[1] == Call(tx', want', Accepted(receipt, tip))
  {
    hide OnTip, Lower, Hit, Recent;
    RecentHitIsAccepted(receipt, tip, want, i);
    RecentHitIsAccepted(receipt, tip, want', i');
    run, events := Ready(tx, receipt);
    run, events := Then(run, events, Begin(Some(tx), want));
    run, events := Then(run, events, Begin(Some(tx'), want'));
    run, events := Then(run, events, ReceiptReturned(0, Some(receipt)));
    run, events := Then(run, events, ReceiptReturned(1, Some(receipt)));
    run, events := Then(run, events, TipReturned(0, tip));
    run, events := Then(run, events, TipReturned(1, tip));
  }

  /** Another spelling of an accepted hash is accepted too, one call after the other. */
  lemma AnotherSpellingIsAccepted(tx: string, tx': string, want: Want, want': Want, receipt: Receipt, tip: int,
                           i: nat, i': nat)
    returns (run: seq<State>, events: seq<Event>)
    requires (want.kind == Exact || tx != "") && (want'.kind == Exact || tx' != "") && tx != tx' && Lower(tx) == Lower(tx') && receipt.success
    requires Recent(receipt, tip, want) && Hit(receipt.logs, want, i) && Recent(receipt, tip, want') && Hit(receipt.logs, want', i')
    ensures IsRun(run, events) && |events| == 7 && events[4] == Begin(Some(tx'), want')
    ensures |run[4].calls| == 1 && run[4].calls[0] == Call(tx, want, Accepted(receipt, tip))
    ensures |run[7].calls| == 2 && run[7].calls[1] == Call(tx', want', Accepted(receipt, tip))
  {
    hide OnTip, Lower, Hit, Recent;
    RecentHitIsAccepted(receipt, tip, want, i);
    RecentHitIsAccepted(receipt, tip, want', i');
    run, events := Ready(tx, receipt);
    run, events := Then(run, events, Begin(Some(tx), want));
    run, events := Then(run, events, ReceiptReturned(0, Some(receipt)));
    run, events := Then(run, events, TipReturned(0, tip));
    run, events := Then(run, events, Begin(Some(tx'), want'));
    run, events := Then(run, events, ReceiptReturned(1, Some(receipt)));
    run, events := Then(run, events, TipReturned(1, tip));
  }

  /**
   * Every payment is accepted once: after any run, a call that names a mined, matching and recent transaction under
   * a spelling no call has been accepted with is accepted, given the chain's receipt.
   */
  lemma PaymentIsAccepted(run: seq<State>, events: seq<Event>, tx: string, want: Want, receipt: Receipt, tip: int, i: nat)
    returns (run': seq<State>, events': seq<Event>)
    requires IsRun(run, events) && OnChain(run[|events|], tx, receipt) && receipt.success && (want.kind == Exact || tx != "")
    requires Recent(receipt, tip, want) && Hit(receipt.logs, want, i)
    requires forall c: nat :: !AcceptedAs(run[|events|], c, tx)
    ensures var c := |run[|events|].calls|;
            && IsRun(run', events')
            && events' == events + [Begin(Some(tx), want), ReceiptReturned(c, Some(receipt)), TipReturned(c, tip)]
            && run'[|events'|] == run[|events|].(calls := run[|events|].calls + [Call(tx, want, Accepted(receipt, tip))],
                                                 consumed := run[|events|].consumed + {tx})
  {
    hide OnTip, Lower, Hit, Recent;
    RecentHitIsAccepted(receipt, tip, want, i);
    var s := run[|events|];
    if tx in s.consumed {
      var c := WhoConsumed(run, events, |events|, tx);
      assert false;
    }
    run', events' := Then(run, events, Begin(Some(tx), want));
    run', events' := Then(run', events', ReceiptReturned(|s.calls|, Some(receipt)));
    run', events' := Then(run', events', TipReturned(|s.calls|, tip));
  }

  /** A call without a hash is refused at once, one whose transaction is unknown or reverted before the tip is read. */
  lemma RefusedBeforeTip(s: State, e: Event)
    requires Enabled(s, e)
    ensures e.Begin? && (e.header.None? || (e.want.kind == Ntt && e.header == Some(""))) ==>
              Next(s, e) == s.(calls := s.calls + [Call(e.header.GetOr(""), e.want, Rejected(InvalidHeader))])
    ensures e.ReceiptReturned? ==>
              var phase := if e.answer.None? then Rejected(NotConfirmed)
                           else if !e.answer.value.success then Rejected(Reverted)
                           else AwaitingTip(e.answer.value);
              Next(s, e) == s.(calls := s.calls[e.c := s.calls[e.c].(phase := phase)])
    ensures e.RpcFailed? ==> Next(s, e) == s.(calls := s.calls[e.c := s.calls[e.c].(phase := Failed)])
  {
  }

  /** After the tip is known: too old, then unreadable, then missing; none of them changes the set. */
  lemma RefusedAfterTip(s: State, c: nat, tip: int)
    requires Enabled(s, TipReturned(c, tip))
    ensures var call, receipt := s.calls[c], s.calls[c].phase.receipt;
            var next := Next(s, TipReturned(c, tip));
            && (next.calls[c].phase == Rejected(TooOld) <==> !Recent(receipt, tip, call.want))
            && (next.calls[c].phase == Failed <==>
                  Recent(receipt, tip, call.want) && exists i: nat :: Unreadable(receipt.logs, call.want, i))
            && (next.calls[c].phase == Accepted(receipt, tip) <==>
                  Recent(receipt, tip, call.want) && exists i: nat :: Hit(receipt.logs, call.want, i))
            && (next.calls[c].phase in {Rejected(TooOld), Rejected(LogMissing), Failed, Accepted(receipt, tip)})
            && next.consumed == s.consumed + if next.calls[c].phase.Accepted? then {call.tx} else {}
  {
    TipAnswers(s.calls[c].phase.receipt, tip, s.calls[c].want);
    hide OnTip, Recent, Hit, Unreadable;
    TipDecides(s.calls[c].phase.receipt, tip, s.calls[c].want);
  }

  // ---------------------------------------------------------------- proofs

  /** The transaction has been mined. */
  lemma Ready(tx: string, receipt: Receipt) returns (run: seq<State>, events: seq<Event>)
    ensures IsRun(run, events) && |events| == 1
    ensures run[1] == State({}, [], map[Lower(tx) := receipt])
  {
    LowerIdempotent(tx);
    hide OnTip, Lower;
    run, events := [State({}, [], map[])], [];
    run, events := Then(run, events, Mined(Lower(tx), receipt));
  }

  lemma Then(run: seq<State>, events: seq<Event>, e: Event) returns (run': seq<State>, events': seq<Event>)
    requires IsRun(run, events) && Enabled(run[|events|], e)
    ensures run' == run + [Next(run[|events|], e)] && events' == events + [e]
    ensures IsRun(run', events')
  {
    hide OnTip;
    run', events' := run + [Next(run[|events|], e)], events + [e];
  }

  lemma CallSound(s: State, c: nat)
    requires Inv(s) && c < |s.calls|
    ensures Sound(s, s.calls[c])
  {
  }

  lemma {:induction false} InvAlways(run: seq<State>, events: seq<Event>, n: nat)
    requires IsRun(run, events) && n < |run|
    ensures Inv(run[n])
  {
    hide Next, Enabled;
    if n > 0 {
      hide Inv;
      InvAlways(run, events, n - 1);
      InvStep(run[n - 1], events[n - 1]);
    }
  }

  lemma InvStep(s: State, e: Event)
    requires Inv(s) && Enabled(s, e)
    ensures Inv(Next(s, e))
  {
    hide OnTip;
    var next := Next(s, e);
    forall c | 0 <= c < |next.calls| ensures Sound(next, next.calls[c]) {
      assert c < |s.calls| ==> Sound(s, s.calls[c]);
    }
  }

  predicate Follows(before: State, after: State, c: nat) {
    c < |before.calls| ==>
      && c < |after.calls|
      && after.calls[c].tx == before.calls[c].tx && after.calls[c].want == before.calls[c].want
      && (before.calls[c].phase.Accepted? || before.calls[c].phase.Rejected? || before.calls[c].phase.Failed? ==>
            after.calls[c].phase == before.calls[c].phase)
  }

  lemma {:induction false} CallStays(run: seq<State>, events: seq<Event>, i: nat, j: nat, c: nat)
    requires IsRun(run, events) && i <= j < |run|
    ensures Follows(run[i], run[j], c) && run[i].consumed <= run[j].consumed
  {
    hide Next, Enabled;
    if i < j {
      CallStays(run, events, i, j - 1, c);
      CallStep(run[j - 1], events[j - 1], c);
    }
  }

  lemma {:induction false} WhoConsumed(run: seq<State>, events: seq<Event>, n: nat, tx: string) returns (c: nat)
    requires IsRun(run, events) && n < |run| && tx in run[n].consumed
    ensures AcceptedAs(run[n], c, tx)
  {
    hide Next, Enabled;
    if tx in run[n - 1].consumed {
      c := WhoConsumed(run, events, n - 1, tx);
      CallStep(run[n - 1], events[n - 1], c);
    } else {
      c := ConsumedHow(run[n - 1], events[n - 1], tx);
    }
  }

  lemma ConsumedHow(s: State, e: Event, tx: string) returns (c: nat)
    requires Enabled(s, e) && tx !in s.consumed && tx in Next(s, e).consumed
    ensures AcceptedAs(Next(s, e), c, tx)
  {
    hide OnTip;
    c := e.c;
  }

  lemma CallStep(s: State, e: Event, c: nat)
    requires Enabled(s, e)
    ensures Follows(s, Next(s, e), c) && s.consumed <= Next(s, e).consumed
  {
    hide OnTip;
  }

  lemma BeginOutcome(s: State, e: Event)
    requires Enabled(s, e) && e.Begin?
    ensures Next(s, e) == OnBegin(s, e.header, e.want)
  {
  }

  lemma {:induction false} WhenAccepted(run: seq<State>, events: seq<Event>, n: nat, c: nat) returns (t: nat)
    requires IsRun(run, events) && n < |run| && c < |run[n].calls| && run[n].calls[c].phase.Accepted?
    ensures t < n && events[t] == TipReturned(c, run[n].calls[c].phase.tip)
    ensures c < |run[t].calls| && run[t].calls[c].phase == AwaitingTip(run[n].calls[c].phase.receipt)
  {
    hide Next, Enabled;
    if c < |run[n - 1].calls| && run[n - 1].calls[c].phase.Accepted? {
      CallStep(run[n - 1], events[n - 1], c);
      t := WhenAccepted(run, events, n - 1, c);
    } else {
      t := n - 1;
      AcceptedHow(run[t], events[t], c);
    }
  }

  lemma AcceptedHow(s: State, e: Event, c: nat)
    requires Enabled(s, e) && c < |Next(s, e).calls| && Next(s, e).calls[c].phase.Accepted?
    requires c < |s.calls| ==> !s.calls[c].phase.Accepted?
    ensures e == TipReturned(c, Next(s, e).calls[c].phase.tip)
    ensures c < |s.calls| && s.calls[c].phase == AwaitingTip(Next(s, e).calls[c].phase.receipt)
  {
    hide OnTip;
  }

  lemma {:induction false} WhenReceived(run: seq<State>, events: seq<Event>, n: nat, c: nat) returns (r: nat)
    requires IsRun(run, events) && n < |run| && c < |run[n].calls| && run[n].calls[c].phase.AwaitingTip?
    ensures r < n && events[r] == ReceiptReturned(c, Some(run[n].calls[c].phase.receipt))
  {
    hide Next, Enabled;
    if c < |run[n - 1].calls| && run[n - 1].calls[c].phase == run[n].calls[c].phase {
      r := WhenReceived(run, events, n - 1, c);
    } else {
      r := n - 1;
      ReceivedHow(run[r], events[r], c);
    }
  }

  lemma ReceivedHow(s: State, e: Event, c: nat)
    requires Enabled(s, e) && c < |Next(s, e).calls| && Next(s, e).calls[c].phase.AwaitingTip?
    requires c < |s.calls| ==> s.calls[c].phase != Next(s, e).calls[c].phase
    ensures e == ReceiptReturned(c, Some(Next(s, e).calls[c].phase.receipt))
  {
    hide OnTip;
  }
}
