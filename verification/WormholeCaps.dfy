/**
 * src/adapters/wormhole-ntt.ts: the per-transfer and daily caps on bridging. A call checks the caps, awaits
 * the transfer, and charges the meter only when the transfer has returned, so calls in flight do not see
 * each other. The client (src/wormhole/ntt-client.ts) first runs its preflight, and throws when the lane does
 * not take the amount. Code between awaits is one step; a transfer that is awaited may return at any later step.
 */
module WormholeCaps {
  import opened JsValues
  import opened Chains
  import opened RlusdLanes

  const DAY: int := 86_400_000

  datatype Error = ChainUnsupported | MaxPerTransfer | DailyCap

  datatype Options = Options(maxPerTransfer: Option<int>, maxPerDay: Option<int>)

  datatype Meter = Meter(spentToday: int, dayStart: int)

  function Roll(m: Meter, now: int, nowAgain: int): Meter {
    if now - m.dayStart > DAY then Meter(0, nowAgain) else m
  }

  predicate Over(amount: int, cap: Option<int>) {
    cap.Some? && amount > cap.value
  }

  function Refusal(o: Options, m: Meter, amount: int, now: int, nowAgain: int): Option<Error> {
    if Over(amount, o.maxPerTransfer) then Some(MaxPerTransfer)
    else if Over(Roll(m, now, nowAgain).spentToday + amount, o.maxPerDay) then Some(DailyCap)
    else None
  }

  /** A refusal for the daily cap still rolls the day over; one for the transfer cap comes before it. */
  function MeterAfterCheck(o: Options, m: Meter, amount: int, now: int, nowAgain: int): Meter {
    if Over(amount, o.maxPerTransfer) then m else Roll(m, now, nowAgain)
  }

  predicate Supported(fromChain: Chain, toChain: Chain) {
    fromChain in NTT_CHAINS && toChain in NTT_CHAINS
  }

  class WormholeNttAdapter {
    const opts: Options
    var spentToday: int
    var dayStart: int

    constructor (opts: Options, now: int)
      ensures this.opts == opts && Now() == Meter(0, now)
    {
      this.opts, spentToday, dayStart := opts, 0, now;
    }

    function Now(): Meter
      reads this
    {
      Meter(spentToday, dayStart)
    }

    method AssertCaps(amount: int, now: int, nowAgain: int) returns (error: Option<Error>)
      modifies this
      ensures error == Refusal(opts, old(Now()), amount, now, nowAgain)
      ensures Now() == MeterAfterCheck(opts, old(Now()), amount, now, nowAgain)
    {
      if opts.maxPerTransfer.Some? && amount > opts.maxPerTransfer.value {
        return Some(MaxPerTransfer);
      }
      if now - dayStart > DAY {
        dayStart := nowAgain;
        spentToday := 0;
      }
      if opts.maxPerDay.Some? && spentToday + amount > opts.maxPerDay.value {
        return Some(DailyCap);
      }
      return None;
    }

    /** bridgeRlusd up to its await: supported chains are those the registry has a Wormhole name for. */
    method Begin(fromChain: Chain, toChain: Chain, amount: int, now: int, nowAgain: int) returns (error: Option<Error>)
      modifies this
      ensures !Supported(fromChain, toChain) ==> error == Some(ChainUnsupported) && Now() == old(Now())
      ensures Supported(fromChain, toChain) ==>
                && error == Refusal(opts, old(Now()), amount, now, nowAgain)
                && Now() == MeterAfterCheck(opts, old(Now()), amount, now, nowAgain)
    {
      if fromChain !in NTT_CHAINS || toChain !in NTT_CHAINS {
        return Some(ChainUnsupported);
      }
      error := AssertCaps(amount, now, nowAgain);
    }

    method TransferReturned(amount: int)
      modifies this
      ensures Now() == Meter(old(spentToday) + amount, old(dayStart))
    {
      spentToday := spentToday + amount;
    }
  }

  // ---------------------------------------------------------------- runs

  /** registry stands for the registry's limits: Limits(None, None) are those that are shipped. */
  datatype Config = Config(opts: Options, registry: Limits)

  // sent: it passed the client's preflight; the others can only fail
  datatype Transfer = Transfer(amount: int, sent: bool)

  // a transfer that went through: when, how much, and in which of the meter's days it was charged
  datatype Charge = Charge(time: int, amount: int, day: nat)

  // log: the transfers that were charged; lost: those that went through although the call threw, uncharged;
  // starts holds every value dayStart has had; clock is the latest time read
  datatype State = State(meter: Meter, inFlight: seq<Transfer>, log: seq<Charge>, lost: seq<Charge>,
                         starts: seq<int>, clock: int)

  datatype Event =
    | Begin(fromChain: Chain, toChain: Chain, signer: bool, amount: int, now: int, nowAgain: int)
    | Returned(i: nat, time: int)
    | Failed(i: nat)
    | Lost(i: nat, time: int)   // the bridge moved the money, and then its answer was an error

  function Start(now: int): State {
    State(Meter(0, now), [], [], [], [now], now)
  }

  predicate Enabled(s: State, e: Event) {
    match e
    case Begin(_, _, _, _, _, _) => true
    case Returned(i, _) => i < |s.inFlight| && s.inFlight[i].sent && 0 < |s.starts|
    case Failed(i) => i < |s.inFlight|
    case Lost(i, _) => i < |s.inFlight| && s.inFlight[i].sent && 0 < |s.starts|
  }

  function Without(q: seq<Transfer>, i: nat): seq<Transfer>
    requires i < |q|
  {
    q[..i] + q[i + 1..]
  }

  function OnBegin(c: Config, s: State, amount: int, sent: bool, now: int, nowAgain: int): State {
    var m := MeterAfterCheck(c.opts, s.meter, amount, now, nowAgain);
    s.(meter := m,
       inFlight := s.inFlight +
                   if Refusal(c.opts, s.meter, amount, now, nowAgain).None? then [Transfer(amount, sent)] else [],
       starts := if m != s.meter then s.starts + [m.dayStart] else s.starts,
       clock := nowAgain)
  }

  function OnReturned(s: State, i: nat, time: int): State
    requires i < |s.inFlight| && 0 < |s.starts|
  {
    s.(meter := Meter(s.meter.spentToday + s.inFlight[i].amount, s.meter.dayStart),
       inFlight := Without(s.inFlight, i),
       log := s.log + [Charge(time, s.inFlight[i].amount, |s.starts| - 1)],
       clock := time)
  }

  function OnLost(s: State, i: nat, time: int): State
    requires i < |s.inFlight| && 0 < |s.starts|
  {
    s.(inFlight := Without(s.inFlight, i),
       lost := s.lost + [Charge(time, s.inFlight[i].amount, |s.starts| - 1)],
       clock := time)
  }

  function Next(c: Config, s: State, e: Event): State
    requires Enabled(s, e)
  {
    match e
    case Begin(from, to, signer, amount, now, nowAgain) =>
      if !Supported(from, to) then s
      else OnBegin(c, s, amount, signer && CanBridge(from, to, amount, c.registry), now, nowAgain)
    case Returned(i, time) => OnReturned(s, i, time)
    case Failed(i) => s.(inFlight := Without(s.inFlight, i))
    case Lost(i, time) => OnLost(s, i, time)
  }

  predicate IsRun(c: Config, run: seq<State>, events: seq<Event>) {
    && |run| == |events| + 1
    && run[0] == Start(run[0].clock)
    && forall i :: 0 <= i < |events| ==> Enabled(run[i], events[i]) && run[i + 1] == Next(c, run[i], events[i])
  }

  predicate AtMostInFlight(run: seq<State>, k: nat) {
    forall i :: 0 <= i < |run| ==> |run[i].inFlight| <= k
  }

  predicate ClockForward(s: State, e: Event) {
    match e
    case Begin(_, _, _, _, now, nowAgain) => s.clock <= now <= nowAgain
    case Returned(_, time) => s.clock <= time
    case Failed(_) => true
    case Lost(_, time) => s.clock <= time
  }

  predicate ClockNeverGoesBack(run: seq<State>, events: seq<Event>)
    requires |run| == |events| + 1
  {
    forall i :: 0 <= i < |events| ==> ClockForward(run[i], events[i])
  }

  /** What is in flight; an amount that is not positive never goes through and counts as nothing. */
  function Sum(q: seq<Transfer>): int {
    if q == [] then 0 else Max(0, q[0].amount) + Sum(q[1..])
  }

  /** No admitted amount is above the daily cap, or above the transfer cap if there is one. */
  function Each(o: Options): int
    requires o.maxPerDay.Some?
  {
    if o.maxPerTransfer.Some? then Min(o.maxPerTransfer.value, o.maxPerDay.value) else o.maxPerDay.value
  }

  function Bound(o: Options, k: nat): int
    requires o.maxPerDay.Some?
  {
    Max(0, o.maxPerDay.value + (k - 1) * Each(o))
  }

  /** What is charged today plus everything in flight. */
  predicate Inv(each: int, bound: int, s: State) {
    && 0 <= s.meter.spentToday
    && (forall i :: 0 <= i < |s.inFlight| ==> s.inFlight[i].amount <= each)
    && (forall i :: 0 <= i < |s.inFlight| && s.inFlight[i].sent ==> 0 < s.inFlight[i].amount)
    && s.meter.spentToday + Sum(s.inFlight) <= bound
  }

  function DayTotal(log: seq<Charge>, day: nat): int {
    if log == [] then 0
    else DayTotal(log[..|log| - 1], day) + if log[|log| - 1].day == day then log[|log| - 1].amount else 0
  }

  function WindowTotal(log: seq<Charge>, from: int): int {
    if log == [] then 0
    else
      var c := log[|log| - 1];
      WindowTotal(log[..|log| - 1], from) + if from <= c.time <= from + DAY then c.amount else 0
  }

  predicate DaysApart(starts: seq<int>) {
    forall i, j :: 0 <= i < j < |starts| ==> starts[i] + DAY < starts[j]
  }

  predicate Placed(c: Charge, starts: seq<int>) {
    && 0 <= c.amount
    && c.day < |starts|
    && starts[c.day] <= c.time
    && (c.day + 1 < |starts| ==> c.time <= starts[c.day + 1])
  }

  ghost predicate DayInv(bound: int, s: State) {
    && 0 < |s.starts| && s.starts[|s.starts| - 1] == s.meter.dayStart <= s.clock
    && DaysApart(s.starts)
    && (forall i :: 0 <= i < |s.log| ==> Placed(s.log[i], s.starts))
    && (forall i :: 0 <= i < |s.log| ==> s.log[i].time <= s.clock)
    && DayTotal(s.log, |s.starts| - 1) == s.meter.spentToday
    && forall d: nat :: DayTotal(s.log, d) <= bound
  }

  // ---------------------------------------------------------------- theorems

  /** The refusals and the meter after the check: the day is over when more than 24 hours have passed since its start. */
  lemma CapsAnswer(o: Options, m: Meter, amount: int, now: int, nowAgain: int)
    ensures var over, large := now > m.dayStart + 86_400_000, o.maxPerTransfer.Some? && amount > o.maxPerTransfer.value;
            var spent := if over then 0 else m.spentToday;
            var much := o.maxPerDay.Some? && spent + amount > o.maxPerDay.value;
            var refusal := Refusal(o, m, amount, now, nowAgain);
            && (refusal == Some(MaxPerTransfer) <==> large)
            && (refusal == Some(DailyCap) <==> !large && much)
            && (refusal == None <==> !large && !much)
            && MeterAfterCheck(o, m, amount, now, nowAgain) == if !large && over then Meter(0, nowAgain) else m
  {
  }

  /** A chain that Wormhole does not serve is refused before anything changes. */
  lemma UnsupportedChangesNothing(c: Config, s: State, e: Event)
    requires e.Begin? && !({e.fromChain, e.toChain} <= {Ethereum, Base, Optimism, Ink, Unichain})
    ensures Next(c, s, e) == s
  {
  }

  /** With at most k calls in flight, the daily cap is overrun by at most k - 1 transfers of the largest size. */
  lemma {:induction false} CapHolds(c: Config, run: seq<State>, events: seq<Event>, k: nat, n: nat)
    requires IsRun(c, run, events) && AtMostInFlight(run, k) && n < |run| && c.opts.maxPerDay.Some?
    ensures Inv(Each(c.opts), Bound(c.opts, k), run[n])
    ensures run[n].meter.spentToday + Sum(run[n].inFlight) <= Bound(c.opts, k)
  {
    hide Next, Bound, Each, Enabled;
    if n == 0 {
      BoundNotNegative(c.opts, k);
    } else {
      CapHolds(c, run, events, k, n - 1);
      assert run[n] == Next(c, run[n - 1], events[n - 1]);
      InvStep(c, run[n - 1], events[n - 1], k);
    }
  }

  /** One call at a time: the cap is exact. */
  lemma SerialCapHolds(c: Config, run: seq<State>, events: seq<Event>, n: nat)
    requires IsRun(c, run, events) && AtMostInFlight(run, 1) && n < |run| && c.opts.maxPerDay.Some?
    ensures run[n].meter.spentToday + Sum(run[n].inFlight) <= Max(0, c.opts.maxPerDay.value)
  {
    hide IsRun, AtMostInFlight, Each;
    CapHolds(c, run, events, 1, n);
  }

  /**
   * When the clock does not go back, no interval of one day, wherever it starts, sees more than twice the
   * bound charged, with up to k calls in flight.
   */
  lemma AnyDayChargesAtMostTwice(c: Config, run: seq<State>, events: seq<Event>, k: nat, n: nat, from: int)
    requires IsRun(c, run, events) && AtMostInFlight(run, k) && n < |run| && c.opts.maxPerDay.Some?
    requires ClockNeverGoesBack(run, events)
    ensures WindowTotal(run[n].log, from) <= 2 * Bound(c.opts, k)
  {
    hide IsRun, AtMostInFlight, ClockNeverGoesBack, Bound;
    BoundNotNegative(c.opts, k);
    DayInvAlways(c, run, events, k, n);
    WindowIsTwoDays(run[n].log, run[n].starts, from, Bound(c.opts, k));
  }

  lemma SerialDayChargesAtMostTwice(c: Config, run: seq<State>, events: seq<Event>, n: nat, from: int)
    requires IsRun(c, run, events) && AtMostInFlight(run, 1) && n < |run| && c.opts.maxPerDay.Some?
    requires ClockNeverGoesBack(run, events)
    ensures WindowTotal(run[n].log, from) <= 2 * Max(0, c.opts.maxPerDay.value)
  {
    hide IsRun, AtMostInFlight, ClockNeverGoesBack, Each;
    AnyDayChargesAtMostTwice(c, run, events, 1, n, from);
  }

  /** What went through in the day from the given time: charged, or lost to an error answer. */
  function Moved(s: State, from: int): int {
    WindowTotal(s.log, from) + WindowTotal(s.lost, from)
  }

  predicate LostWithin(s: State, from: int) {
    exists i :: 0 <= i < |s.lost| && from <= s.lost[i].time <= from + DAY
  }

  /**
   * Money also moves uncharged: at most twice the bound and what was lost goes through in any day, and no more
   * than was charged exactly when nothing was lost in it.
   */
  lemma AnyDayMovesAtMost(c: Config, run: seq<State>, events: seq<Event>, k: nat, n: nat, from: int)
    requires IsRun(c, run, events) && AtMostInFlight(run, k) && n < |run| && c.opts.maxPerDay.Some?
    requires ClockNeverGoesBack(run, events)
    ensures Moved(run[n], from) <= 2 * Bound(c.opts, k) + WindowTotal(run[n].lost, from)
    ensures Moved(run[n], from) == WindowTotal(run[n].log, from) <==> !LostWithin(run[n], from)
  {
    hide IsRun, AtMostInFlight, ClockNeverGoesBack, Bound;
    AnyDayChargesAtMostTwice(c, run, events, k, n, from);
    LostIsPositive(c, run, events, k, n);
    WindowOfPositive(run[n].lost, from);
  }

  lemma {:induction false} LostIsPositive(c: Config, run: seq<State>, events: seq<Event>, k: nat, n: nat)
    requires IsRun(c, run, events) && AtMostInFlight(run, k) && n < |run| && c.opts.maxPerDay.Some?
    ensures forall i :: 0 <= i < |run[n].lost| ==> 0 < run[n].lost[i].amount
  {
    hide Bound, Each, AtMostInFlight;
    if n > 0 {
      LostIsPositive(c, run, events, k, n - 1);
      CapHolds(c, run, events, k, n - 1);
    }
  }

  lemma {:induction false} WindowOfPositive(log: seq<Charge>, from: int)
    requires forall i :: 0 <= i < |log| ==> 0 < log[i].amount
    ensures 0 <= WindowTotal(log, from)
    ensures WindowTotal(log, from) == 0 <==> forall i :: 0 <= i < |log| ==> !(from <= log[i].time <= from + DAY)
  {
    if log != [] {
      WindowOfPositive(log[..|log| - 1], from);
    }
  }

  /** With the registry as shipped every preflight fails, so nothing is ever charged or moved. */
  lemma {:induction false} ShippedRegistryMovesNothing(c: Config, run: seq<State>, events: seq<Event>, n: nat)
    requires IsRun(c, run, events) && n < |run| && c.registry == Limits(None, None)
    ensures run[n].meter.spentToday == 0 && run[n].log == [] && run[n].lost == []
    ensures forall i :: 0 <= i < |run[n].inFlight| ==> !run[n].inFlight[i].sent
  {
    if n > 0 {
      ShippedRegistryMovesNothing(c, run, events, n - 1);
    }
  }

  /** A lane of the registry takes transfers of the largest size the caps admit. */
  predicate LaneOpen(c: Config)
    requires c.opts.maxPerDay.Some?
  {
    0 < Each(c.opts) && CanBridge(Base, Optimism, Each(c.opts), c.registry)
  }

  /**
   * All bounds are reached, for every number of calls in flight, all caps and any number of losses, once the
   * registry opens a lane: at step m the meter and the calls in flight together are at the first bound, and in
   * the day that starts at DAY twice as much is charged, half of it just before the reset and half just after,
   * besides the losses.
   */
  lemma BoundsAreReached(c: Config, k: nat, losses: nat) returns (run: seq<State>, events: seq<Event>, m: nat)
    requires c.opts.maxPerDay.Some? && LaneOpen(c) && 0 < k
    ensures IsRun(c, run, events) && AtMostInFlight(run, k) && ClockNeverGoesBack(run, events)
    ensures m < |run| && run[m].meter.spentToday + Sum(run[m].inFlight) == Bound(c.opts, k)
    ensures WindowTotal(run[|events|].log, DAY) == 2 * Bound(c.opts, k)
    ensures Moved(run[|events|], DAY) == 2 * Bound(c.opts, k) + losses * Each(c.opts)
  {
    hide Next, LaneOpen, Bound, Each;
    run, events := [Start(0)], [];
    run, events := LoseMany(c, run, events, k, losses, DAY);
    run, events, m := FillDay(c, run, events, k, DAY);
    var full := run[m];
    run, events := NewDay(c, run, events, k, DAY + 1);
    var m';
    run, events, m' := FillDay(c, run, events, k, DAY + 1);
    assert run[m] == full;
  }

  // ---------------------------------------------------------------- proofs

  lemma BoundNotNegative(o: Options, k: nat)
    requires o.maxPerDay.Some?
    ensures 0 <= Bound(o, k)
  {
  }

  lemma {:induction false} SumAppend(a: seq<Transfer>, b: seq<Transfer>)
    ensures Sum(a + b) == Sum(a) + Sum(b)
  {
    if a == [] {
      assert a + b == b;
    } else {
      assert (a + b)[1..] == a[1..] + b;
      SumAppend(a[1..], b);
    }
  }

  lemma SumWithout(q: seq<Transfer>, i: nat)
    requires i < |q|
    ensures Sum(q) == Sum(Without(q, i)) + Max(0, q[i].amount)
  {
    hide Sum;
    var front, back := q[..i], q[i + 1..];
    assert q == front + ([q[i]] + back);
    SumAppend(front, [q[i]] + back);
    SumAppend([q[i]], back);
    SumAppend(front, back);
    SumOne(q[i]);
  }

  lemma {:induction false} SumAtMost(q: seq<Transfer>, each: int)
    requires 0 <= each && forall i :: 0 <= i < |q| ==> q[i].amount <= each
    ensures Sum(q) <= |q| * each
  {
    if q != [] {
      SumAtMost(q[1..], each);
      OneMore(|q| - 1, each);
    }
  }

  lemma OneMore(n: int, each: int)
    ensures n * each + each == (n + 1) * each
  {
  }

  lemma BeginFits(o: Options, s: State, amount: int, spent: int, k: nat)
    requires o.maxPerDay.Some? && |s.inFlight| + 1 <= k
    requires 0 < amount <= Each(o) && spent + amount <= o.maxPerDay.value
    requires forall i :: 0 <= i < |s.inFlight| ==> s.inFlight[i].amount <= Each(o)
    ensures spent + Sum(s.inFlight) + amount <= Bound(o, k)
  {
    hide Each;
    SumAtMost(s.inFlight, Each(o));
    MoreCalls(|s.inFlight|, k - 1, Each(o));
  }

  lemma MoreCalls(j: nat, k: nat, each: int)
    requires j <= k && 0 <= each
    ensures j * each <= k * each
  {
  }

  lemma InvStep(c: Config, s: State, e: Event, k: nat)
    requires c.opts.maxPerDay.Some? && Enabled(s, e) && Inv(Each(c.opts), Bound(c.opts, k), s)
    requires |Next(c, s, e).inFlight| <= k
    ensures Inv(Each(c.opts), Bound(c.opts, k), Next(c, s, e))
  {
    hide Bound, Sum;
    var next := Next(c, s, e);
    match e
    case Begin(_, _, _, amount, now, nowAgain) =>
      if next.inFlight != s.inFlight {
        var t := next.inFlight[|s.inFlight|];
        assert next.inFlight == s.inFlight + [t];
        if 0 < amount {
          BeginFits(c.opts, s, amount, next.meter.spentToday, k);
        }
        SumAppend(s.inFlight, [t]);
        SumOne(t);
      }
    case Returned(i, _) =>
      SumWithout(s.inFlight, i);
    case Failed(i) =>
      SumWithout(s.inFlight, i);
    case Lost(i, _) =>
      SumWithout(s.inFlight, i);
  }

  lemma SumOne(t: Transfer)
    ensures Sum([t]) == Max(0, t.amount)
  {
  }

  lemma {:induction false} SumNotNegative(q: seq<Transfer>)
    ensures 0 <= Sum(q)
  {
    if q != [] {
      SumNotNegative(q[1..]);
    }
  }

  lemma {:induction false} DayInvAlways(c: Config, run: seq<State>, events: seq<Event>, k: nat, n: nat)
    requires IsRun(c, run, events) && AtMostInFlight(run, k) && n < |run| && c.opts.maxPerDay.Some?
    requires ClockNeverGoesBack(run, events)
    ensures DayInv(Bound(c.opts, k), run[n])
  {
    hide Next, Bound, Each, Enabled, ClockForward, AtMostInFlight, Inv;
    if n == 0 {
      BoundNotNegative(c.opts, k);
    } else {
      DayInvAlways(c, run, events, k, n - 1);
      CapHolds(c, run, events, k, n - 1);
      CapHolds(c, run, events, k, n);
      DayInvStep(c, run[n - 1], events[n - 1], k);
    }
  }

  lemma DayInvStep(c: Config, s: State, e: Event, k: nat)
    requires c.opts.maxPerDay.Some? && Enabled(s, e) && DayInv(Bound(c.opts, k), s) && ClockForward(s, e)
    requires Inv(Each(c.opts), Bound(c.opts, k), s) && Inv(Each(c.opts), Bound(c.opts, k), Next(c, s, e))
    ensures DayInv(Bound(c.opts, k), Next(c, s, e))
  {
    hide Bound, Each, DayInv;
    match e
    case Begin(_, _, _, amount, now, nowAgain) =>
      if Next(c, s, e) != s {
        var sent := e.signer && CanBridge(e.fromChain, e.toChain, amount, c.registry);
        BeginKeepsDays(c, s, amount, sent, now, nowAgain, Bound(c.opts, k));
      }
    case Returned(i, time) =>
      ReturnedKeepsDays(s, i, time, Bound(c.opts, k));
    case Failed(i) =>
      UnchargedKeepsDays(s, Next(c, s, e), Bound(c.opts, k));
    case Lost(i, time) =>
      UnchargedKeepsDays(s, Next(c, s, e), Bound(c.opts, k));
  }

  lemma UnchargedKeepsDays(s: State, next: State, bound: int)
    requires DayInv(bound, s) && next == s.(inFlight := next.inFlight, lost := next.lost, clock := next.clock)
    requires s.clock <= next.clock
    ensures DayInv(bound, next)
  {
  }

  lemma BeginKeepsDays(c: Config, s: State, amount: int, sent: bool, now: int, nowAgain: int, bound: int)
    requires DayInv(bound, s) && s.clock <= now <= nowAgain
    ensures DayInv(bound, OnBegin(c, s, amount, sent, now, nowAgain))
  {
    hide DaysApart, Placed, DayTotal;
    var next := OnBegin(c, s, amount, sent, now, nowAgain);
    if next.meter != s.meter {
      NewDayKeepsDays(s, next, bound);
    }
  }

  /** A new day begins more than a day after the last one and has no charges yet. */
  lemma NewDayKeepsDays(s: State, next: State, bound: int)
    requires DayInv(bound, s) && s.clock <= next.clock
    requires s.meter.dayStart + DAY < next.meter.dayStart <= next.clock && next.meter.spentToday == 0
    requires s.clock <= next.meter.dayStart
    requires next.starts == s.starts + [next.meter.dayStart] && next.log == s.log
    ensures DayInv(bound, next)
  {
    NothingYet(s.log, |s.starts|);
    forall i | 0 <= i < |s.log| ensures Placed(s.log[i], next.starts) {
      assert Placed(s.log[i], s.starts);
    }
  }

  lemma ReturnedKeepsDays(s: State, i: nat, time: int, bound: int)
    requires DayInv(bound, s) && s.clock <= time && i < |s.inFlight| && 0 <= s.inFlight[i].amount
    requires OnReturned(s, i, time).meter.spentToday + Sum(OnReturned(s, i, time).inFlight) <= bound
    ensures DayInv(bound, OnReturned(s, i, time))
  {
    var next := OnReturned(s, i, time);
    assert next.log[..|s.log|] == s.log;
    SumNotNegative(next.inFlight);
    forall d: nat ensures DayTotal(next.log, d) <= bound {
      assert DayTotal(s.log, d) <= bound;
    }
  }

  lemma {:induction false} NothingYet(log: seq<Charge>, day: nat)
    requires forall i :: 0 <= i < |log| ==> log[i].day < day
    ensures DayTotal(log, day) == 0
  {
    if log != [] {
      NothingYet(log[..|log| - 1], day);
    }
  }

  /** The charges of a one-day interval fall in at most two neighbouring days of the meter. */
  lemma WindowIsTwoDays(log: seq<Charge>, starts: seq<int>, from: int, bound: int)
    requires DaysApart(starts) && 0 <= bound
    requires forall i :: 0 <= i < |log| ==> Placed(log[i], starts)
    requires forall d: nat :: DayTotal(log, d) <= bound
    ensures WindowTotal(log, from) <= 2 * bound
  {
    if d: nat :| FirstDay(log, from, d) {
      forall i | 0 <= i < |log| && from <= log[i].time <= from + DAY ensures log[i].day == d || log[i].day == d + 1 {
        assert log[i].day >= d;
        var j :| 0 <= j < |log| && from <= log[j].time && log[j].day == d;
        assert Placed(log[i], starts) && Placed(log[j], starts);
        if d + 1 < |starts| {
          assert starts[log[i].day] <= starts[d + 1] + DAY;
        }
      }
      WindowWithin(log, from, d);
    } else {
      NoFirstDay(log, from);
    }
  }

  predicate FirstDay(log: seq<Charge>, from: int, d: nat) {
    && (exists j :: 0 <= j < |log| && from <= log[j].time && log[j].day == d)
    && (forall i :: 0 <= i < |log| && from <= log[i].time <= from + DAY ==> d <= log[i].day)
  }

  /** If no day is the first, nothing falls in the interval. */
  lemma {:induction false} NoFirstDay(log: seq<Charge>, from: int)
    requires forall d: nat :: !FirstDay(log, from, d)
    ensures WindowTotal(log, from) == 0
  {
    if i :| 0 <= i < |log| && from <= log[i].time <= from + DAY {
      SomeFirstDay(log, from, i);
      assert false;
    }
    NothingInWindow(log, from);
  }

  lemma {:induction false} SomeFirstDay(log: seq<Charge>, from: int, i: nat)
    requires i < |log| && from <= log[i].time <= from + DAY
    ensures exists d: nat :: FirstDay(log, from, d)
    decreases log[i].day
  {
    if k :| 0 <= k < |log| && from <= log[k].time <= from + DAY && log[k].day < log[i].day {
      SomeFirstDay(log, from, k);
    } else {
      assert FirstDay(log, from, log[i].day);
    }
  }

  lemma {:induction false} NothingInWindow(log: seq<Charge>, from: int)
    requires forall i :: 0 <= i < |log| ==> !(from <= log[i].time <= from + DAY)
    ensures WindowTotal(log, from) == 0
  {
    if log != [] {
      NothingInWindow(log[..|log| - 1], from);
    }
  }

  lemma {:induction false} WindowWithin(log: seq<Charge>, from: int, d: nat)
    requires forall i :: 0 <= i < |log| ==> 0 <= log[i].amount
    requires forall i :: 0 <= i < |log| && from <= log[i].time <= from + DAY ==> log[i].day == d || log[i].day == d + 1
    ensures WindowTotal(log, from) <= DayTotal(log, d) + DayTotal(log, d + 1)
  {
    if log != [] {
      WindowWithin(log[..|log| - 1], from, d);
    }
  }

  // ---------------------------------------------------------------- proofs: a run that reaches the bounds

  ghost predicate Orderly(c: Config, run: seq<State>, events: seq<Event>, k: nat) {
    |run| == |events| + 1 && IsRun(c, run, events) && AtMostInFlight(run, k) && ClockNeverGoesBack(run, events)
  }

  lemma Then(c: Config, run: seq<State>, events: seq<Event>, k: nat, e: Event, next: State)
    returns (run': seq<State>, events': seq<Event>)
    requires Orderly(c, run, events, k) && Enabled(run[|events|], e) && ClockForward(run[|events|], e)
    requires next == Next(c, run[|events|], e) && |next.inFlight| <= k
    ensures run' == run + [next] && events' == events + [e] && Orderly(c, run', events', k)
  {
    hide Next, Enabled, ClockForward;
    run', events' := run + [next], events + [e];
  }

  /** s continues the meter's day at time t, with no call in flight. */
  predicate Idle(s: State, t: int) {
    && s.inFlight == [] && 0 < |s.starts|
    && s.clock <= t && t - s.meter.dayStart <= DAY && DAY <= t <= 2 * DAY
  }

  function Copies(amount: int, j: nat): seq<Transfer> {
    seq(j, _ => Transfer(amount, true))
  }

  lemma Admitted(c: Config, s: State, amount: int, t: int)
    requires c.opts.maxPerDay.Some? && LaneOpen(c) && 0 < amount <= Each(c.opts)
    requires s.meter.spentToday + amount <= c.opts.maxPerDay.value && t - s.meter.dayStart <= DAY
    ensures Next(c, s, Begin(Base, Optimism, true, amount, t, t))
            == s.(inFlight := s.inFlight + [Transfer(amount, true)], clock := t)
  {
  }

  lemma WindowAppend(log: seq<Charge>, charge: Charge, from: int)
    requires from <= charge.time <= from + DAY
    ensures WindowTotal(log + [charge], from) == WindowTotal(log, from) + charge.amount
  {
    assert (log + [charge])[..|log|] == log;
  }

  /** Transfers of at most the largest size, one after the other, up to a given total. */
  lemma {:induction false} Serially(c: Config, run: seq<State>, events: seq<Event>, k: nat, total: nat, t: int)
    returns (run': seq<State>, events': seq<Event>)
    requires Orderly(c, run, events, k) && 0 < k && c.opts.maxPerDay.Some? && LaneOpen(c) && Idle(run[|events|], t)
    requires run[|events|].meter.spentToday + total <= c.opts.maxPerDay.value
    ensures Orderly(c, run', events', k) && run <= run'
    ensures var s, s' := run[|events|], run'[|events'|];
            && Idle(s', t) && s'.meter == Meter(s.meter.spentToday + total, s.meter.dayStart)
            && WindowTotal(s'.log, DAY) == WindowTotal(s.log, DAY) + total && s'.lost == s.lost
    decreases total
  {
    hide Next, LaneOpen, IsRun, AtMostInFlight, ClockNeverGoesBack, WindowTotal;
    run', events' := run, events;
    if total > 0 {
      EachPositive(c);
      var amount := Min(total, Each(c.opts));
      run', events' := OneTransfer(c, run, events, k, amount, t);
      run', events' := Serially(c, run', events', k, total - amount, t);
    }
  }

  lemma EachPositive(c: Config)
    requires c.opts.maxPerDay.Some? && LaneOpen(c)
    ensures 0 < Each(c.opts) <= c.opts.maxPerDay.value
  {
  }

  lemma OneTransfer(c: Config, run: seq<State>, events: seq<Event>, k: nat, amount: nat, t: int)
    returns (run': seq<State>, events': seq<Event>)
    requires Orderly(c, run, events, k) && 0 < k && c.opts.maxPerDay.Some? && LaneOpen(c) && Idle(run[|events|], t)
    requires 0 < amount <= Each(c.opts) && run[|events|].meter.spentToday + amount <= c.opts.maxPerDay.value
    ensures Orderly(c, run', events', k) && run <= run'
    ensures var s, s' := run[|events|], run'[|events'|];
            && Idle(s', t) && s'.meter == Meter(s.meter.spentToday + amount, s.meter.dayStart)
            && WindowTotal(s'.log, DAY) == WindowTotal(s.log, DAY) + amount && s'.lost == s.lost
  {
    run', events' := BeginMany(c, run, events, k, amount, 1, t);
    run', events' := ReturnMany(c, run', events', k, amount, 1, t);
  }

  lemma {:induction false} BeginMany(c: Config, run: seq<State>, events: seq<Event>, k: nat, amount: nat, j: nat, t: int)
    returns (run': seq<State>, events': seq<Event>)
    requires Orderly(c, run, events, k) && j <= k && c.opts.maxPerDay.Some? && LaneOpen(c) && Idle(run[|events|], t)
    requires 0 < amount <= Each(c.opts) && run[|events|].meter.spentToday + amount <= c.opts.maxPerDay.value
    ensures Orderly(c, run', events', k) && run <= run'
    ensures var s, s' := run[|events|], run'[|events'|];
            s' == s.(inFlight := Copies(amount, j), clock := s'.clock) && s'.clock <= t
    decreases j
  {
    hide Next, LaneOpen, IsRun, AtMostInFlight, ClockNeverGoesBack;
    run', events' := run, events;
    if j > 0 {
      run', events' := BeginMany(c, run, events, k, amount, j - 1, t);
      var s := run'[|events'|];
      Admitted(c, s, amount, t);
      assert Copies(amount, j - 1) + [Transfer(amount, true)] == Copies(amount, j);
      run', events' := Then(c, run', events', k, Begin(Base, Optimism, true, amount, t, t),
                            s.(inFlight := Copies(amount, j), clock := t));
    }
  }

  lemma {:induction false} ReturnMany(c: Config, run: seq<State>, events: seq<Event>, k: nat, amount: nat, j: nat, t: int)
    returns (run': seq<State>, events': seq<Event>)
    requires Orderly(c, run, events, k) && j <= k && run[|events|].inFlight == Copies(amount, j)
    requires Idle(run[|events|].(inFlight := []), t)
    ensures Orderly(c, run', events', k) && run <= run'
    ensures var s, s' := run[|events|], run'[|events'|];
            && Idle(s', t) && s'.meter == Meter(s.meter.spentToday + j * amount, s.meter.dayStart)
            && WindowTotal(s'.log, DAY) == WindowTotal(s.log, DAY) + j * amount && s'.lost == s.lost
    decreases j
  {
    hide IsRun, AtMostInFlight, ClockNeverGoesBack, WindowTotal, Supported;
    run', events' := run, events;
    if j > 0 {
      var s := run[|events|];
      assert Without(s.inFlight, 0) == Copies(amount, j - 1);
      WindowAppend(s.log, Charge(t, amount, |s.starts| - 1), DAY);
      run', events' := Then(c, run, events, k, Returned(0, t), OnReturned(s, 0, t));
      run', events' := ReturnMany(c, run', events', k, amount, j - 1, t);
      OneMore(j - 1, amount);
    }
  }

  /** Transfers of the largest size, one after the other, all of them lost. */
  lemma {:induction false} LoseMany(c: Config, run: seq<State>, events: seq<Event>, k: nat, j: nat, t: int)
    returns (run': seq<State>, events': seq<Event>)
    requires Orderly(c, run, events, k) && 0 < k && c.opts.maxPerDay.Some? && LaneOpen(c) && Idle(run[|events|], t)
    requires run[|events|].meter.spentToday == 0
    ensures Orderly(c, run', events', k) && run <= run'
    ensures var s, s' := run[|events|], run'[|events'|];
            && Idle(s', t) && s'.meter == s.meter && s'.log == s.log
            && WindowTotal(s'.lost, DAY) == WindowTotal(s.lost, DAY) + j * Each(c.opts)
    decreases j
  {
    hide IsRun, AtMostInFlight, ClockNeverGoesBack, WindowTotal, Supported, LaneOpen, Each;
    run', events' := run, events;
    if j > 0 {
      EachPositive(c);
      run', events' := LoseMany(c, run, events, k, j - 1, t);
      run', events' := BeginMany(c, run', events', k, Each(c.opts), 1, t);
      var s := run'[|events'|];
      assert Without(s.inFlight, 0) == [];
      WindowAppend(s.lost, Charge(t, Each(c.opts), |s.starts| - 1), DAY);
      run', events' := Then(c, run', events', k, Lost(0, t), OnLost(s, 0, t));
      OneMore(j - 1, Each(c.opts));
    }
  }

  lemma {:induction false} SumOfCopies(amount: nat, j: nat)
    ensures Sum(Copies(amount, j)) == j * amount
  {
    if j > 0 {
      assert Copies(amount, j)[1..] == Copies(amount, j - 1);
      SumOfCopies(amount, j - 1);
      OneMore(j - 1, amount);
    }
  }

  lemma BoundIs(o: Options, k: nat)
    requires o.maxPerDay.Some? && 0 < k && 0 < Each(o) <= o.maxPerDay.value
    ensures Bound(o, k) == o.maxPerDay.value - Each(o) + k * Each(o)
  {
    hide Each;
    MoreCalls(0, k - 1, Each(o));
    OneMore(k - 1, Each(o));
  }

  /** From an empty meter: all but one transfer of the cap serially, then k transfers together. */
  lemma FillDay(c: Config, run: seq<State>, events: seq<Event>, k: nat, t: int)
    returns (run': seq<State>, events': seq<Event>, m: nat)
    requires Orderly(c, run, events, k) && 0 < k && c.opts.maxPerDay.Some? && LaneOpen(c) && Idle(run[|events|], t)
    requires run[|events|].meter.spentToday == 0
    ensures Orderly(c, run', events', k) && run <= run' && m < |run'|
    ensures run'[m].meter.spentToday + Sum(run'[m].inFlight) == Bound(c.opts, k)
    ensures var s, s' := run[|events|], run'[|events'|];
            Idle(s', t) && s'.meter.dayStart == s.meter.dayStart
            && WindowTotal(s'.log, DAY) == WindowTotal(s.log, DAY) + Bound(c.opts, k) && s'.lost == s.lost
  {
    hide LaneOpen, Bound, IsRun, AtMostInFlight, ClockNeverGoesBack, WindowTotal, Sum;
    EachPositive(c);
    var each := Each(c.opts);
    BoundIs(c.opts, k);
    SumOfCopies(each, k);
    run', events' := Serially(c, run, events, k, c.opts.maxPerDay.value - each, t);
    run', events' := BeginMany(c, run', events', k, each, k, t);
    m := |events'|;
    var full := run'[m];
    run', events' := ReturnMany(c, run', events', k, each, k, t);
    assert run'[m] == full;
  }

  /** A call for nothing is admitted, rolls the day over, and fails its preflight. */
  lemma NewDay(c: Config, run: seq<State>, events: seq<Event>, k: nat, t: int)
    returns (run': seq<State>, events': seq<Event>)
    requires Orderly(c, run, events, k) && 0 < k && c.opts.maxPerDay.Some? && LaneOpen(c)
    requires Idle(run[|events|], t - 1) && t - run[|events|].meter.dayStart > DAY && t <= 2 * DAY
    ensures Orderly(c, run', events', k) && run <= run'
    ensures var s, s' := run[|events|], run'[|events'|];
            Idle(s', t) && s'.meter == Meter(0, t) && s'.log == s.log && s'.lost == s.lost
  {
    EachPositive(c);
    var s := run[|events|];
    var rolled := s.(meter := Meter(0, t), inFlight := [Transfer(0, false)], starts := s.starts + [t], clock := t);
    hide IsRun, AtMostInFlight, ClockNeverGoesBack, LaneOpen, WindowTotal;
    run', events' := Then(c, run, events, k, Begin(Base, Optimism, true, 0, t, t), rolled);
    assert Without(rolled.inFlight, 0) == [];
    run', events' := Then(c, run', events', k, Failed(0), rolled.(inFlight := []));
  }
}
