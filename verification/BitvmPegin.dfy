/**
 * src/goat/paths.ts: `BitVMBridgeClient.execute`. An intent is claimed before the first await; then the
 * signer signs, the outputs are checked, the transaction is broadcast and its status is polled. Code
 * between awaits is one step, and any awaited answer may come at any later step.
 */
module BitvmPegin {

  const ZERO_ADDRESS := "0x0000000000000000000000000000000000000000"
  const MINT_TIMEOUT_MS: int := 1_800_000

  datatype Intent = Intent(id: string, depositAddress: string, expectedAmountSats: int, expiry: int, recipient: string)

  datatype Error = IntentExpired | Replayed | SignerFailed | Tampered | ApiError | Timeout | Aborted

  datatype Status = Pending | Confirming | Minted | StatusExpired | StatusFailed

  datatype Phase =
    | Signing                    // the signer holds the intent's transaction
    | Broadcasting(start: int)
    | Polling(start: int)
    | Done
    | Failed(error: Error)

  // signed: the signer was called for this execution; submitted: the bridge was asked to broadcast
  datatype Execution = Execution(intent: Intent, signed: bool, submitted: bool, phase: Phase)

  datatype State = State(seen: set<string>, executions: seq<Execution>)

  /** The check looks at the intent's own fields only; the signed transaction is passed to it but not read. */
  predicate OutputsMatch(intent: Intent) {
    intent.depositAddress != "" && intent.expectedAmountSats > 0
    && intent.recipient != "" && intent.recipient != ZERO_ADDRESS
  }

  datatype Event =
    | Execute(intent: Intent, now: int)
    | Signed(k: nat, ok: bool, now: int)
    | Broadcast(k: nat, ok: bool)
    | Polled(k: nat, ok: bool, status: Status)   // the answer to one status request
    | GaveUp(k: nat, now: int)                   // the loop's guard failed
    | Abort(k: nat)

  function Claim(seen: set<string>, intent: Intent, now: int): (set<string>, Execution) {
    if now > intent.expiry then (seen, Execution(intent, false, false, Failed(IntentExpired)))
    else if intent.id in seen then (seen, Execution(intent, false, false, Failed(Replayed)))
    else (seen + {intent.id}, Execution(intent, true, false, Signing))
  }

  class BitVMBridgeClient {
    var seenIntents: set<string>

    constructor ()
      ensures seenIntents == {}
    {
      seenIntents := {};
    }

    /** execute up to the call of the signer. */
    method Begin(intent: Intent, now: int) returns (x: Execution)
      modifies this
      ensures (seenIntents, x) == Claim(old(seenIntents), intent, now)
    {
      if now > intent.expiry {
        return Execution(intent, false, false, Failed(IntentExpired));
      }
      if intent.id in seenIntents {
        return Execution(intent, false, false, Failed(Replayed));
      }
      seenIntents := seenIntents + {intent.id};
      return Execution(intent, true, false, Signing);
    }
  }

  predicate Enabled(s: State, e: Event) {
    match e
    case Execute(_, _) => true
    case Signed(k, _, _) => k < |s.executions| && s.executions[k].phase.Signing?
    case Broadcast(k, _) => k < |s.executions| && s.executions[k].phase.Broadcasting?
    case Polled(k, _, _) => k < |s.executions| && s.executions[k].phase.Polling?
    case GaveUp(k, now) => k < |s.executions| && s.executions[k].phase.Polling?
                           && now >= s.executions[k].phase.start + MINT_TIMEOUT_MS
    case Abort(k) => k < |s.executions| && s.executions[k].phase.Polling?
  }

  function OnSigned(x: Execution, ok: bool, now: int): Execution {
    if !ok then x.(phase := Failed(SignerFailed))
    else if !OutputsMatch(x.intent) then x.(phase := Failed(Tampered))
    else x.(submitted := true, phase := Broadcasting(now))
  }

  function OnPolled(x: Execution, ok: bool, status: Status): Execution {
    if !ok || status == StatusExpired || status == StatusFailed then x.(phase := Failed(ApiError))
    else if status == Minted then x.(phase := Done)
    else x
  }

  function Update(x: Execution, e: Event): Execution
    requires e.Broadcast? ==> x.phase.Broadcasting?
  {
    match e
    case Execute(_, _) => x
    case Signed(_, ok, now) => OnSigned(x, ok, now)
    case Broadcast(_, ok) => x.(phase := if ok then Polling(x.phase.start) else Failed(ApiError))
    case Polled(_, ok, status) => OnPolled(x, ok, status)
    case GaveUp(_, _) => x.(phase := Failed(Timeout))
    case Abort(_) => x.(phase := Failed(Aborted))
  }

  function Next(s: State, e: Event): State
    requires Enabled(s, e)
  {
    match e
    case Execute(intent, now) =>
      var (seen, x) := Claim(s.seen, intent, now);
      State(seen, s.executions + [x])
    case _ => s.(executions := s.executions[e.k := Update(s.executions[e.k], e)])
  }

  predicate IsRun(run: seq<State>, events: seq<Event>) {
    && |run| == |events| + 1
    && run[0] == State({}, [])
    && forall i :: 0 <= i < |events| ==> Enabled(run[i], events[i]) && run[i + 1] == Next(run[i], events[i])
  }

  predicate InOrder(seen: set<string>, x: Execution) {
    && (x.signed ==> x.intent.id in seen)
    && (x.submitted ==> x.signed && OutputsMatch(x.intent))
    && (x.phase.Signing? ==> x.signed)
    && (x.phase.Broadcasting? || x.phase.Polling? || x.phase.Done? ==> x.submitted)
  }

  predicate SignedOnce(s: State) {
    forall k, l :: 0 <= k < l < |s.executions| && s.executions[k].signed && s.executions[l].signed ==>
      s.executions[k].intent.id != s.executions[l].intent.id
  }

  predicate Inv(s: State) {
    SignedOnce(s) && forall k :: 0 <= k < |s.executions| ==> InOrder(s.seen, s.executions[k])
  }

  /**
   * In every interleaving the signer is called at most once for each intent, the bridge is asked to broadcast
   * at most once, and only for a signed intent whose outputs match.
   */
  lemma {:induction false} IntentSignedOnce(run: seq<State>, events: seq<Event>, n: nat)
    requires IsRun(run, events) && n < |run|
    ensures Inv(run[n])
  {
    hide Next, Enabled;
    if n > 0 {
      IntentSignedOnce(run, events, n - 1);
      InvStep(run[n - 1], events[n - 1]);
    }
  }

  lemma InvStep(s: State, e: Event)
    requires Inv(s) && Enabled(s, e)
    ensures Inv(Next(s, e))
  {
    hide OutputsMatch;
    var next := Next(s, e);
    forall k | 0 <= k < |next.executions| ensures InOrder(next.seen, next.executions[k]) {
      assert k < |s.executions| ==> InOrder(s.seen, s.executions[k]);
    }
  }

  /** Once claimed, an intent cannot be executed again, even if the signer or the bridge failed. */
  lemma ClaimedForGood(run: seq<State>, events: seq<Event>, n: nat, k: nat, i: nat)
    requires IsRun(run, events) && n <= i < |events|
    requires k < |run[n].executions| && run[n].executions[k].signed
    requires events[i].Execute? && events[i].intent.id == run[n].executions[k].intent.id
    ensures |run[i + 1].executions| == |run[i].executions| + 1
    ensures var x := run[i + 1].executions[|run[i].executions|];
            !x.signed && !x.submitted && (x.phase == Failed(Replayed) || x.phase == Failed(IntentExpired))
  {
    hide Next, Enabled, InOrder, SignedOnce;
    IntentSignedOnce(run, events, n);
    ClaimedBy(run[n], k);
    SeenStays(run, events, n, i);
    ExecuteOutcome(run[i], events[i]);
  }

  predicate SignedBefore(s: State, id: string) {
    exists k :: 0 <= k < |s.executions| && s.executions[k].signed && s.executions[k].intent.id == id
  }

  /** An execution calls the signer exactly when its intent has not expired and no execution has had it signed before;
      an expired one is refused as such, any other as replayed. */
  lemma SignedIff(run: seq<State>, events: seq<Event>, i: nat)
    requires IsRun(run, events) && i < |events| && events[i].Execute?
    ensures |run[i + 1].executions| == |run[i].executions| + 1
    ensures var e, x := events[i], run[i + 1].executions[|run[i].executions|];
            var expired, replayed := e.now > e.intent.expiry, SignedBefore(run[i], e.intent.id);
            && x.intent == e.intent && !x.submitted
            && (x.signed <==> !expired && !replayed)
            && x.phase == (if expired then Failed(IntentExpired) else if replayed then Failed(Replayed) else Signing)
  {
    hide Next, Enabled, SignedBefore;
    SeenIffSigned(run, events, i, events[i].intent.id);
    ExecuteOutcome(run[i], events[i]);
  }

  lemma {:induction false} SeenIffSigned(run: seq<State>, events: seq<Event>, n: nat, id: string)
    requires IsRun(run, events) && n < |run|
    ensures id in run[n].seen <==> SignedBefore(run[n], id)
  {
    hide Next, Enabled, SignedBefore;
    if n > 0 {
      SeenIffSigned(run, events, n - 1, id);
      SeenIffStep(run[n - 1], events[n - 1], id);
    } else {
      NoneSigned(run[0], id);
    }
  }

  lemma NoneSigned(s: State, id: string)
    requires s.executions == []
    ensures !SignedBefore(s, id)
  {
  }

  lemma SeenIffStep(s: State, e: Event, id: string)
    requires Enabled(s, e) && (id in s.seen <==> SignedBefore(s, id))
    ensures id in Next(s, e).seen <==> SignedBefore(Next(s, e), id)
  {
    var next := Next(s, e);
    if e.Execute? {
      assert next.executions[|s.executions|] == Claim(s.seen, e.intent, e.now).1;
      assert next.executions[..|s.executions|] == s.executions;
      if k :| 0 <= k < |s.executions| && s.executions[k].signed && s.executions[k].intent.id == id {
        assert next.executions[k] == s.executions[k];
      }
    } else {
      assert forall k :: 0 <= k < |s.executions| ==>
        next.executions[k].signed == s.executions[k].signed && next.executions[k].intent == s.executions[k].intent;
    }
  }

  /** What each answer makes of an execution; a signed transaction is broadcast exactly when the intent's own address,
      amount and recipient are filled in. */
  lemma AnswersAre(s: State, e: Event)
    requires Enabled(s, e) && !e.Execute?
    ensures Next(s, e).seen == s.seen && |Next(s, e).executions| == |s.executions|
    ensures forall k :: 0 <= k < |s.executions| && k != e.k ==> Next(s, e).executions[k] == s.executions[k]
    ensures var x, next := s.executions[e.k], Next(s, e).executions[e.k];
            var filled := x.intent.depositAddress != "" && x.intent.expectedAmountSats > 0
                          && x.intent.recipient !in {"", "0x0000000000000000000000000000000000000000"};
            match e
            case Signed(_, ok, now) =>
              next == if !ok then x.(phase := Failed(SignerFailed))
                      else if filled then x.(submitted := true, phase := Broadcasting(now))
                      else x.(phase := Failed(Tampered))
            case Broadcast(_, ok) => next == x.(phase := if ok then Polling(x.phase.start) else Failed(ApiError))
            case Polled(_, ok, status) =>
              next == if ok && status == Minted then x.(phase := Done)
                      else if ok && status in {Pending, Confirming} then x
                      else x.(phase := Failed(ApiError))
            case GaveUp(_, now) => now >= x.phase.start + 30 * 60_000 && next == x.(phase := Failed(Timeout))
            case Abort(_) => next == x.(phase := Failed(Aborted))
            case Execute(_, _) => true
  {
  }

  /** A peg-in is done only after its transaction was signed, then taken by the bridge, then reported as minted. */
  lemma DoneWasMinted(run: seq<State>, events: seq<Event>, n: nat, k: nat) returns (a: nat, b: nat, p: nat)
    requires IsRun(run, events) && n < |run| && k < |run[n].executions| && run[n].executions[k].phase.Done?
    ensures a < b < p < n
    ensures events[a].Signed? && events[a].k == k && events[a].ok && events[b] == Broadcast(k, true)
    ensures events[p] == Polled(k, true, Minted)
  {
    hide Next, Enabled;
    p := Reaching(run, events, n, k);
    b := Reaching(run, events, p, k);
    a := Reaching(run, events, b, k);
  }

  function Rank(x: Phase): nat {
    match x
    case Signing => 0
    case Broadcasting(_) => 1
    case Polling(_) => 2
    case Done => 3
    case Failed(_) => 0
  }

  /** The step at which execution k got as far as it is, from the phase just before. */
  lemma {:induction false} Reaching(run: seq<State>, events: seq<Event>, n: nat, k: nat) returns (m: nat)
    requires IsRun(run, events) && n < |run| && k < |run[n].executions| && Rank(run[n].executions[k].phase) > 0
    ensures m < n && k < |run[m].executions|
    ensures Rank(run[m].executions[k].phase) == Rank(run[n].executions[k].phase) - 1
    ensures match run[n].executions[k].phase
            case Broadcasting(_) => events[m].Signed? && events[m].k == k && events[m].ok
            case Polling(_) => events[m] == Broadcast(k, true)
            case Done => events[m] == Polled(k, true, Minted)
            case _ => true
  {
    hide Next, Enabled;
    ReachStep(run[n - 1], events[n - 1], k);
    if k < |run[n - 1].executions| && Rank(run[n - 1].executions[k].phase) == Rank(run[n].executions[k].phase) {
      m := Reaching(run, events, n - 1, k);
    } else {
      m := n - 1;
    }
  }

  lemma ReachStep(s: State, e: Event, k: nat)
    requires Enabled(s, e) && k < |Next(s, e).executions| && Rank(Next(s, e).executions[k].phase) > 0
    ensures k < |s.executions|
    ensures var x, next := s.executions[k].phase, Next(s, e).executions[k].phase;
            Rank(x) != Rank(next) ==>
              && Rank(x) == Rank(next) - 1
              && match next
                 case Broadcasting(_) => e.Signed? && e.k == k && e.ok
                 case Polling(_) => e == Broadcast(k, true)
                 case Done => e == Polled(k, true, Minted)
                 case _ => true
  {
  }

  lemma ClaimedBy(s: State, k: nat)
    requires Inv(s) && k < |s.executions| && s.executions[k].signed
    ensures s.executions[k].intent.id in s.seen
  {
    assert InOrder(s.seen, s.executions[k]);
  }

  lemma {:induction false} SeenStays(run: seq<State>, events: seq<Event>, i: nat, j: nat)
    requires IsRun(run, events) && i <= j < |run|
    ensures run[i].seen <= run[j].seen
  {
    hide Next, Enabled;
    if i < j {
      SeenStays(run, events, i, j - 1);
      SeenStep(run[j - 1], events[j - 1]);
    }
  }

  lemma SeenStep(s: State, e: Event)
    requires Enabled(s, e)
    ensures s.seen <= Next(s, e).seen
  {
  }

  lemma ExecuteOutcome(s: State, e: Event)
    requires Enabled(s, e) && e.Execute?
    ensures Next(s, e) == State(Claim(s.seen, e.intent, e.now).0, s.executions + [Claim(s.seen, e.intent, e.now).1])
  {
  }
}
