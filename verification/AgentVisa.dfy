/**
 * src/celo/agent-visa.ts: payments recorded per agent over the in-memory store. `withLock` makes one promise
 * chain per address as it is spelled; the store's key is the address in lower case. Volumes are exact reals.
 *
 * A job reads the store, and after an await writes what it computed from that reading. Jobs are numbered in
 * the order in which the calls reach the lock; a promise is named by the job it belongs to.
 */
module AgentVisa {
  import opened JsValues

  datatype Tier = NoTier | Tourist | Work | Citizenship

  datatype VisaState = VisaState(agentAddress: string, txCount: nat, volumeUsd: real, selfAgentId: bool,
                                 tier: Tier, firstTxAt: int, lastTxAt: int, network: string)

  function TierOf(txCount: nat, volumeUsd: real, selfAgentId: bool): Tier {
    if txCount == 0 then NoTier
    else if txCount >= 10_000 || volumeUsd >= 15_000.0 then Citizenship
    else if selfAgentId && (txCount >= 1_000 || volumeUsd >= 5_000.0) then Work
    else Tourist
  }

  function Rank(t: Tier): nat {
    match t case NoTier => 0 case Tourist => 1 case Work => 2 case Citizenship => 3
  }

  function Gain(amount: real): real {
    if amount > 0.0 then amount else 0.0
  }

  function CountIn(prior: Option<VisaState>): nat {
    if prior.Some? then prior.value.txCount else 0
  }

  function VolumeIn(prior: Option<VisaState>): real {
    if prior.Some? then prior.value.volumeUsd else 0.0
  }

  function SelfIdIn(provided: Option<bool>, prior: Option<VisaState>): bool {
    provided.GetOr(if prior.Some? then prior.value.selfAgentId else false)
  }

  datatype Call = Call(address: string, amountUsd: real, network: string)

  function Recorded(provided: Option<bool>, call: Call, prior: Option<VisaState>, now: int): VisaState {
    var txCount := CountIn(prior) + 1;
    var volume := VolumeIn(prior) + Gain(call.amountUsd);
    var self := SelfIdIn(provided, prior);
    VisaState(call.address, txCount, volume, self, TierOf(txCount, volume, self),
              if prior.Some? then prior.value.firstTxAt else now, now, call.network)
  }

  // ---------------------------------------------------------------- the lock and the store as a machine

  datatype Phase =
    | Waiting
    | Reading(prior: Option<VisaState>)   // read from the store; the continuation has not run
    | Wrote(next: VisaState)              // in the store; the lock is still held
    | Released(result: VisaState)

  datatype Job = Job(call: Call, after: Option<nat>, phase: Phase)

  datatype State = State(jobs: seq<Job>, mutex: map<string, nat>, store: map<string, VisaState>)

  datatype Event =
    | Arrive(call: Call)
    | Start(j: nat)
    | Write(j: nat, now: int)
    | Release(j: nat)

  function Lookup<T>(m: map<string, T>, key: string): Option<T> {
    if key in m then Some(m[key]) else None
  }

  /** The promise prev.then(() => next) stored by job j: resolved when j and everything before it have released. */
  predicate Resolved(jobs: seq<Job>, j: nat) {
    && j < |jobs| && jobs[j].phase.Released?
    && (jobs[j].after.Some? ==> jobs[j].after.value < j && Resolved(jobs, jobs[j].after.value))
  }

  predicate Enabled(s: State, e: Event) {
    match e
    case Arrive(_) => true
    case Start(j) => j < |s.jobs| && s.jobs[j].phase.Waiting?
                     && (s.jobs[j].after.Some? ==> Resolved(s.jobs, s.jobs[j].after.value))
    case Write(j, _) => j < |s.jobs| && s.jobs[j].phase.Reading?
    case Release(j) => j < |s.jobs| && s.jobs[j].phase.Wrote?
  }

  function WithPhase(s: State, j: nat, phase: Phase): State
    requires j < |s.jobs|
  {
    s.(jobs := s.jobs[j := s.jobs[j].(phase := phase)])
  }

  function Key(s: State, j: nat): string
    requires j < |s.jobs|
  {
    Lower(s.jobs[j].call.address)
  }

  function Next(provided: Option<bool>, s: State, e: Event): State
    requires Enabled(s, e)
  {
    match e
    case Arrive(call) =>
      s.(jobs := s.jobs + [Job(call, Lookup(s.mutex, call.address), Waiting)],
         mutex := s.mutex[call.address := |s.jobs|])
    case Start(j) => WithPhase(s, j, Reading(Lookup(s.store, Key(s, j))))
    case Write(j, now) =>
      var next := Recorded(provided, s.jobs[j].call, s.jobs[j].phase.prior, now);
      WithPhase(s, j, Wrote(next)).(store := s.store[Key(s, j) := next])
    case Release(j) => WithPhase(s, j, Released(s.jobs[j].phase.next))
  }

  ghost predicate IsRun(provided: Option<bool>, run: seq<State>, events: seq<Event>) {
    && |run| == |events| + 1
    && run[0].jobs == [] && run[0].mutex == map[]
    && forall i :: 0 <= i < |events| ==>
         Enabled(run[i], events[i]) && run[i + 1] == Next(provided, run[i], events[i])
  }

  /** Every call for this agent spells the address the same way. */
  predicate OneSpelling(events: seq<Event>, address: string) {
    forall i :: 0 <= i < |events| && events[i].Arrive? && Lower(events[i].call.address) == Lower(address) ==>
      events[i].call.address == address
  }

  // ---------------------------------------------------------------- the lock as code

  class Promise {
    ghost const job: nat

    constructor (ghost job: nat)
      ensures this.job == job
    {
      this.job := job;
    }
  }

  class Lock {
    var mutex: map<string, Promise>
    ghost var jobs: seq<Job>

    constructor ()
      ensures mutex == map[] && jobs == []
    {
      mutex, jobs := map[], [];
    }

    ghost function Chains(): map<string, nat>
      reads this
    {
      map a | a in mutex :: mutex[a].job
    }

    /** withLock up to `await prev`: the promise waited for, none if the chain starts here. */
    method Enter(call: Call) returns (prev: Option<Promise>)
      modifies this
      ensures prev == Lookup(old(mutex), call.address)
      ensures var after := Next(None, State(old(jobs), old(Chains()), map[]), Arrive(call));
              jobs == after.jobs && Chains() == after.mutex
    {
      prev := if call.address in mutex then Some(mutex[call.address]) else None;
      ghost var after := if prev.Some? then Some(prev.value.job) else None;
      var chain := new Promise(|jobs|);
      mutex := mutex[call.address := chain];
      jobs := jobs + [Job(call, after, Waiting)];
    }

    /** The cleanup compares the entry with a promise made for the comparison, so it never removes an entry. */
    method CleanupFires(key: string, ghost j: nat) returns (fires: bool)
      ensures !fires
    {
      var again := new Promise(j);
      fires := key in mutex && mutex[key] == again;
    }
  }

  class MemoryStorage {
    var store: map<string, VisaState>

    constructor ()
      ensures store == map[]
    {
      store := map[];
    }

    method Read(agentAddress: string) returns (r: Option<VisaState>)
      ensures r == Lookup(store, Lower(agentAddress))
    {
      var key := Lower(agentAddress);
      r := if key in store then Some(store[key]) else None;
    }

    /** The locked job after its read: compute the next state and write it, in one step. */
    method Continue(provided: Option<bool>, call: Call, prior: Option<VisaState>, now: int) returns (next: VisaState)
      modifies this
      ensures next == Recorded(provided, call, prior, now)
      ensures store == old(store)[Lower(call.address) := next]
    {
      next := VisaState(call.address, CountIn(prior) + 1, VolumeIn(prior) + Gain(call.amountUsd),
                        SelfIdIn(provided, prior), NoTier, if prior.Some? then prior.value.firstTxAt else now,
                        now, call.network);
      next := next.(tier := TierOf(next.txCount, next.volumeUsd, next.selfAgentId));
      store := store[Lower(call.address) := next];
    }
  }

  // ---------------------------------------------------------------- invariants

  predicate Held(job: Job) {
    job.phase.Reading? || job.phase.Wrote?
  }

  predicate AllBeforeReleased(s: State, j: nat) {
    j < |s.jobs| && forall i :: 0 <= i < j && s.jobs[i].call.address == s.jobs[j].call.address ==> s.jobs[i].phase.Released?
  }

  /** A waiting job waits for the arrival just before it; a job that has started has none unreleased before it. */
  predicate Chained(s: State, j: nat) {
    && j < |s.jobs|
    && (s.jobs[j].after.Some? ==> IsLastBefore(s, s.jobs[j].after.value, j))
    && (s.jobs[j].after.None? || !s.jobs[j].phase.Waiting? ==> AllBeforeReleased(s, j))
  }

  predicate IsLastBefore(s: State, i: nat, j: nat) {
    && i < j <= |s.jobs|
    && (j < |s.jobs| ==> s.jobs[i].call.address == s.jobs[j].call.address)
    && forall k :: i < k < j ==> s.jobs[k].call.address != s.jobs[i].call.address
  }

  ghost predicate LockInv(s: State) {
    && (forall j :: 0 <= j < |s.jobs| ==> Chained(s, j))
    && (forall a :: EntryIsLast(s, a))
  }

  predicate EntryIsLast(s: State, a: string) {
    if a in s.mutex then IsLastBefore(s, s.mutex[a], |s.jobs|) && s.jobs[s.mutex[a]].call.address == a
    else forall k :: 0 <= k < |s.jobs| ==> s.jobs[k].call.address != a
  }

  /** The job is a call for the agent with this lower-case address, however it spells it. */
  predicate For(job: Job, agent: string) {
    Lower(job.call.address) == agent
  }

  predicate HeldFor(job: Job, agent: string) {
    For(job, agent) && Held(job)
  }

  predicate Written(job: Job, agent: string) {
    For(job, agent) && (job.phase.Wrote? || job.phase.Released?)
  }

  function CountOf(job: Job, agent: string): nat {
    if Written(job, agent) then 1 else 0
  }

  function GainOf(job: Job, agent: string): real {
    if Written(job, agent) then Gain(job.call.amountUsd) else 0.0
  }

  /** The agent's jobs that have written, and the sum of their amounts. */
  function Tally(jobs: seq<Job>, agent: string): nat {
    if jobs == [] then 0 else Tally(jobs[..|jobs| - 1], agent) + CountOf(jobs[|jobs| - 1], agent)
  }

  function Volume(jobs: seq<Job>, agent: string): real {
    if jobs == [] then 0.0 else Volume(jobs[..|jobs| - 1], agent) + GainOf(jobs[|jobs| - 1], agent)
  }

  /** The agent's calls, written or not, and the sum of their amounts. */
  function Calls(jobs: seq<Job>, agent: string): nat {
    if jobs == [] then 0
    else Calls(jobs[..|jobs| - 1], agent) + if For(jobs[|jobs| - 1], agent) then 1 else 0
  }

  function Amounts(jobs: seq<Job>, agent: string): real {
    if jobs == [] then 0.0
    else
      var job := jobs[|jobs| - 1];
      Amounts(jobs[..|jobs| - 1], agent) + if For(job, agent) then Gain(job.call.amountUsd) else 0.0
  }

  /** What the store holds for an agent, given what it held at first and the jobs that have written. */
  predicate StoreInv(provided: Option<bool>, first: Option<VisaState>, s: State, agent: string) {
    var now := Lookup(s.store, agent);
    && CountIn(now) == CountIn(first) + Tally(s.jobs, agent)
    && VolumeIn(now) == VolumeIn(first) + Volume(s.jobs, agent)
    && SelfIdIn(provided, now) == SelfIdIn(provided, first)
    && (Tally(s.jobs, agent) > 0 ==>
          && now.Some? && now.value.selfAgentId == SelfIdIn(provided, first)
          && now.value.tier == TierOf(now.value.txCount, now.value.volumeUsd, now.value.selfAgentId))
  }

  predicate IsWriteFor(s: State, e: Event, agent: string) {
    e.Write? && Enabled(s, e) && For(s.jobs[e.j], agent)
  }

  /** What job j has read is still what the store holds. */
  predicate IsCurrent(s: State, j: nat) {
    j < |s.jobs| && s.jobs[j].phase.Reading? && s.jobs[j].phase.prior == Lookup(s.store, Key(s, j))
  }

  /** Each of the agent's writes among the first n events came from a reading that was still current. */
  predicate WritesAreCurrent(run: seq<State>, events: seq<Event>, n: nat, agent: string)
    requires n <= |events| < |run|
  {
    forall m :: 0 <= m < n && IsWriteFor(run[m], events[m], agent) ==> IsCurrent(run[m], events[m].j)
  }

  /** No two calls for the agent that spell it differently hold their locks at once. */
  predicate OneSpellingHolds(s: State, agent: string) {
    forall i, j :: 0 <= i < j < |s.jobs| && HeldFor(s.jobs[i], agent) && HeldFor(s.jobs[j], agent) ==>
      s.jobs[i].call.address == s.jobs[j].call.address
  }

  // ---------------------------------------------------------------- theorems

  /** The tiers by their thresholds: Citizenship by count or volume alone, Work only with a Self agent id. */
  lemma TierIff(txCount: nat, volumeUsd: real, selfAgentId: bool)
    ensures var tier := TierOf(txCount, volumeUsd, selfAgentId);
            var most, much := txCount >= 10_000 || volumeUsd >= 15_000.0, txCount >= 1_000 || volumeUsd >= 5_000.0;
            && (tier == NoTier <==> txCount == 0)
            && (tier == Citizenship <==> txCount != 0 && most)
            && (tier == Work <==> txCount != 0 && !most && much && selfAgentId)
            && (tier == Tourist <==> txCount != 0 && !most && !(much && selfAgentId))
  {
  }

  /** What a payment leaves in the store: one more, its amount if positive, and the times of the first and of itself. */
  lemma RecordedIs(provided: Option<bool>, call: Call, prior: Option<VisaState>, now: int)
    ensures var next := Recorded(provided, call, prior, now);
            && next.agentAddress == call.address && next.network == call.network && next.lastTxAt == now
            && (prior.None? ==>
                  && next.txCount == 1 && next.volumeUsd == (if call.amountUsd < 0.0 then 0.0 else call.amountUsd)
                  && next.firstTxAt == now && (next.selfAgentId <==> provided == Some(true)))
            && (prior.Some? ==>
                  && next.txCount == prior.value.txCount + 1
                  && next.volumeUsd == prior.value.volumeUsd + (if call.amountUsd < 0.0 then 0.0 else call.amountUsd)
                  && next.firstTxAt == prior.value.firstTxAt
                  && (next.selfAgentId <==> provided == Some(true) || (provided.None? && prior.value.selfAgentId)))
            && next.tier == TierOf(next.txCount, next.volumeUsd, next.selfAgentId)
  {
    hide TierOf;
  }

  /** Once an agent has an entry, the time of its first payment stays. */
  lemma {:induction false} FirstTimeStays(provided: Option<bool>, run: seq<State>, events: seq<Event>, i: nat, n: nat, agent: string)
    requires IsRun(provided, run, events) && i <= n < |run| && WritesAreCurrent(run, events, n, agent)
    requires agent in run[i].store
    ensures agent in run[n].store && run[n].store[agent].firstTxAt == run[i].store[agent].firstTxAt
  {
    hide Next, Enabled, IsWriteFor, IsCurrent;
    if i < n {
      FirstTimeStays(provided, run, events, i, n - 1, agent);
      FirstTimeStep(provided, run[n - 1], events[n - 1], agent);
    }
  }

  lemma FirstTimeStep(provided: Option<bool>, s: State, e: Event, agent: string)
    requires Enabled(s, e) && agent in s.store && (IsWriteFor(s, e, agent) ==> IsCurrent(s, e.j))
    ensures agent in Next(provided, s, e).store && Next(provided, s, e).store[agent].firstTxAt == s.store[agent].firstTxAt
  {
    hide TierOf, Resolved, Lower;
    EntryAfter(provided, s, e, agent);
  }

  /** Jobs of one spelling hold the lock one at a time and in arrival order, although no entry is ever removed. */
  lemma OneAtATimeInOrder(provided: Option<bool>, run: seq<State>, events: seq<Event>, n: nat, i: nat, j: nat)
    requires IsRun(provided, run, events) && n < |run| && i < j < |run[n].jobs|
    requires run[n].jobs[i].call.address == run[n].jobs[j].call.address
    ensures !run[n].jobs[j].phase.Waiting? ==> run[n].jobs[i].phase.Released?
    ensures !(Held(run[n].jobs[i]) && Held(run[n].jobs[j]))
  {
    LockInvAlways(provided, run, events, n);
    assert Chained(run[n], j);
  }

  /** The first job of an agent that has not released can always move. */
  lemma FirstUnreleasedCanMove(provided: Option<bool>, run: seq<State>, events: seq<Event>, n: nat, j: nat, now: int)
    requires IsRun(provided, run, events) && n < |run| && AllBeforeReleased(run[n], j)
    requires !run[n].jobs[j].phase.Released?
    ensures Enabled(run[n], Start(j)) || Enabled(run[n], Write(j, now)) || Enabled(run[n], Release(j))
  {
    hide Next;
    LockInvAlways(provided, run, events, n);
    assert Chained(run[n], j);
    if run[n].jobs[j].after.Some? {
      var i := run[n].jobs[j].after.value;
      assert run[n].jobs[i].call.address == run[n].jobs[j].call.address;
      ReleasedIsResolved(run[n], i);
    }
  }

  /**
   * The stored count has risen by the number of the agent's jobs that have written if and only if each of them
   * wrote from a reading that was still current; otherwise it stays behind for good.
   */
  lemma {:induction false} CountIsExactIff(provided: Option<bool>, run: seq<State>, events: seq<Event>, n: nat, agent: string)
    requires IsRun(provided, run, events) && n < |run|
    ensures CountIn(Lookup(run[n].store, agent)) <= CountIn(Lookup(run[0].store, agent)) + Tally(run[n].jobs, agent)
    ensures CountIn(Lookup(run[n].store, agent)) == CountIn(Lookup(run[0].store, agent)) + Tally(run[n].jobs, agent)
            <==> WritesAreCurrent(run, events, n, agent)
    ensures ReadingsBehind(CountIn(Lookup(run[0].store, agent)), run[n], agent)
  {
    hide Next, Enabled, IsWriteFor, IsCurrent, ReadingsBehind;
    if n == 0 {
      NothingWritten(provided, run[0], agent);
      NothingRead(CountIn(Lookup(run[0].store, agent)), run[0], agent);
    } else {
      CountIsExactIff(provided, run, events, n - 1, agent);
      CountStep(provided, CountIn(Lookup(run[0].store, agent)), run[n - 1], events[n - 1], agent);
    }
  }

  /**
   * Then no update is lost: at every moment the count has risen by the number of jobs that have written, the
   * volume by the sum of their amounts, negative ones counting as zero, and the tier is the one these two earn.
   */
  lemma {:induction false} NoLostUpdate(provided: Option<bool>, run: seq<State>, events: seq<Event>, n: nat, agent: string)
    requires IsRun(provided, run, events) && n < |run| && WritesAreCurrent(run, events, n, agent)
    ensures StoreInv(provided, Lookup(run[0].store, agent), run[n], agent)
  {
    hide Next, Enabled, StoreInv, IsWriteFor, IsCurrent;
    if n == 0 {
      NothingWritten(provided, run[0], agent);
    } else {
      NoLostUpdate(provided, run, events, n - 1, agent);
      StoreStep(provided, Lookup(run[0].store, agent), run[n - 1], events[n - 1], agent);
    }
  }

  /** The lock sees to it as long as no two spellings of the agent hold their locks together. */
  lemma {:induction false} LockKeepsWritesCurrent(provided: Option<bool>, run: seq<State>, events: seq<Event>, n: nat, agent: string)
    requires IsRun(provided, run, events) && n < |run|
    requires forall m :: 0 <= m < n ==> OneSpellingHolds(run[m], agent)
    ensures WritesAreCurrent(run, events, n, agent) && ReadingsAreCurrent(run[n], agent)
  {
    hide Next, Enabled, OneSpellingHolds;
    if n > 0 {
      hide LockInv;
      LockKeepsWritesCurrent(provided, run, events, n - 1, agent);
      LockInvAlways(provided, run, events, n - 1);
      ReadingsStep(provided, run[n - 1], events[n - 1], agent);
      if IsWriteFor(run[n - 1], events[n - 1], agent) {
        WriteIsCurrent(run[n - 1], events[n - 1], agent);
      }
    }
  }

  /** Which it always does when every call for the agent spells it the same way. */
  lemma {:induction false} SameSpellingHolds(provided: Option<bool>, run: seq<State>, events: seq<Event>, n: nat, address: string)
    requires IsRun(provided, run, events) && n < |run| && OneSpelling(events, address)
    ensures forall j :: 0 <= j < |run[n].jobs| && For(run[n].jobs[j], Lower(address)) ==>
              run[n].jobs[j].call.address == address
    ensures OneSpellingHolds(run[n], Lower(address))
  {
    hide Lower;
    if n > 0 {
      SameSpellingHolds(provided, run, events, n - 1, address);
    }
  }

  /** When all of the agent's calls have been released, the store counts every one of them, and its amount. */
  lemma AllCallsCounted(provided: Option<bool>, run: seq<State>, events: seq<Event>, n: nat, agent: string)
    requires IsRun(provided, run, events) && n < |run| && WritesAreCurrent(run, events, n, agent)
    requires forall j :: 0 <= j < |run[n].jobs| && For(run[n].jobs[j], agent) ==> run[n].jobs[j].phase.Released?
    ensures CountIn(Lookup(run[n].store, agent)) == CountIn(Lookup(run[0].store, agent)) + Calls(run[n].jobs, agent)
    ensures VolumeIn(Lookup(run[n].store, agent)) == VolumeIn(Lookup(run[0].store, agent)) + Amounts(run[n].jobs, agent)
  {
    hide IsRun, WritesAreCurrent;
    NoLostUpdate(provided, run, events, n, agent);
    TallyAll(run[n].jobs, agent);
  }

  /** Once the tracker has written a tier for an agent, it never writes a lower one. */
  lemma TierNeverDrops(provided: Option<bool>, run: seq<State>, events: seq<Event>, i: nat, j: nat, agent: string)
    requires IsRun(provided, run, events) && i <= j < |run| && WritesAreCurrent(run, events, j, agent)
    requires Tally(run[i].jobs, agent) > 0
    ensures agent in run[i].store && agent in run[j].store
    ensures Rank(run[i].store[agent].tier) <= Rank(run[j].store[agent].tier)
  {
    assert WritesAreCurrent(run, events, i, agent);
    hide IsRun, Tally, Volume, WritesAreCurrent;
    NoLostUpdate(provided, run, events, i, agent);
    NoLostUpdate(provided, run, events, j, agent);
    TallyGrows(provided, run, events, i, j, agent);
  }

  /** Any two calls that spell one agent differently hold different locks over one entry: both complete, from any
      store, and one is counted. */
  lemma TwoSpellingsLoseAnUpdate(provided: Option<bool>, one: Call, two: Call, store: map<string, VisaState>, now: int)
    returns (run: seq<State>, events: seq<Event>)
    requires one.address != two.address && Lower(one.address) == Lower(two.address)
    ensures IsRun(provided, run, events) && run[0].store == store && |events| == 8
    ensures |run[8].jobs| == 2 && run[8].jobs[0].call == one && run[8].jobs[1].call == two
    ensures run[8].jobs[0].phase.Released? && run[8].jobs[1].phase.Released?
    ensures CountIn(Lookup(run[8].store, Lower(one.address))) == CountIn(Lookup(store, Lower(one.address))) + 1
  {
    hide Recorded, Lower;
    RecordedCount(provided, two, Lookup(store, Lower(one.address)), now);
    run, events := BothRead(provided, one, two, store);
    run, events := Then(provided, run, events, Write(0, now));
    run, events := Then(provided, run, events, Write(1, now));
    run, events := Then(provided, run, events, Release(0));
    run, events := Then(provided, run, events, Release(1));
  }

  // ---------------------------------------------------------------- proofs: the lock

  /** Both calls hold a lock and have read the same entry. */
  lemma BothRead(provided: Option<bool>, one: Call, two: Call, store: map<string, VisaState>)
    returns (run: seq<State>, events: seq<Event>)
    requires one.address != two.address && Lower(one.address) == Lower(two.address)
    ensures IsRun(provided, run, events) && run[0].store == store && |events| == 4
    ensures var prior := Lookup(store, Lower(one.address));
            run[4].jobs == [Job(one, None, Reading(prior)), Job(two, None, Reading(prior))] && run[4].store == store
  {
    hide Recorded, Lower;
    run, events := [State([], map[], store)], [];
    run, events := Then(provided, run, events, Arrive(one));
    run, events := Then(provided, run, events, Arrive(two));
    run, events := Then(provided, run, events, Start(0));
    run, events := Then(provided, run, events, Start(1));
  }

  lemma RecordedCount(provided: Option<bool>, call: Call, prior: Option<VisaState>, now: int)
    ensures Recorded(provided, call, prior, now).txCount == CountIn(prior) + 1
  {
  }

  lemma Then(provided: Option<bool>, run: seq<State>, events: seq<Event>, e: Event)
    returns (run': seq<State>, events': seq<Event>)
    requires IsRun(provided, run, events) && Enabled(run[|events|], e)
    ensures run' == run + [Next(provided, run[|events|], e)] && events' == events + [e]
    ensures IsRun(provided, run', events')
  {
    hide Recorded;
    run', events' := run + [Next(provided, run[|events|], e)], events + [e];
  }

  lemma {:induction false} LockInvAlways(provided: Option<bool>, run: seq<State>, events: seq<Event>, n: nat)
    requires IsRun(provided, run, events) && n < |run|
    ensures LockInv(run[n])
  {
    hide Next, Enabled;
    if n > 0 {
      hide LockInv;
      LockInvAlways(provided, run, events, n - 1);
      LockStep(provided, run[n - 1], events[n - 1]);
    }
  }

  lemma LockStep(provided: Option<bool>, s: State, e: Event)
    requires LockInv(s) && Enabled(s, e)
    ensures LockInv(Next(provided, s, e))
  {
    hide Next, Enabled;
    forall j | 0 <= j < |Next(provided, s, e).jobs| ensures Chained(Next(provided, s, e), j) {
      ChainedStep(provided, s, e, j);
    }
    forall a ensures EntryIsLast(Next(provided, s, e), a) {
      EntryStep(provided, s, e, a);
    }
  }

  lemma ChainedStep(provided: Option<bool>, s: State, e: Event, j: nat)
    requires LockInv(s) && Enabled(s, e) && j < |Next(provided, s, e).jobs|
    ensures Chained(Next(provided, s, e), j)
  {
    hide Recorded, LockInv;
    if j < |s.jobs| {
      LockInvAt(s, j, "");
      if e.Start? && e.j == j && s.jobs[j].after.Some? {
        LockInvAt(s, s.jobs[j].after.value, "");
      }
    } else {
      LockInvAt(s, j, e.call.address);
    }
  }

  lemma LockInvAt(s: State, j: nat, a: string)
    requires LockInv(s)
    ensures (j < |s.jobs| ==> Chained(s, j)) && EntryIsLast(s, a)
  {
  }

  lemma EntryStep(provided: Option<bool>, s: State, e: Event, a: string)
    requires LockInv(s) && Enabled(s, e)
    ensures EntryIsLast(Next(provided, s, e), a)
  {
    hide Recorded, LockInv, Chained;
    LockInvAt(s, 0, a);
  }

  lemma {:induction false} ReleasedIsResolved(s: State, j: nat)
    requires LockInv(s) && j < |s.jobs| && s.jobs[j].phase.Released?
    ensures Resolved(s.jobs, j)
  {
    assert Chained(s, j);
    if s.jobs[j].after.Some? {
      ReleasedIsResolved(s, s.jobs[j].after.value);
    }
  }

  // ---------------------------------------------------------------- proofs: the store

  lemma NothingWritten(provided: Option<bool>, s: State, agent: string)
    requires s.jobs == []
    ensures StoreInv(provided, Lookup(s.store, agent), s, agent)
  {
  }

  /** A reading counts no more than has been written, and less when it is no longer current. */
  predicate ReadingsBehind(first: nat, s: State, agent: string) {
    forall j :: 0 <= j < |s.jobs| && For(s.jobs[j], agent) && s.jobs[j].phase.Reading? ==>
      && CountIn(s.jobs[j].phase.prior) <= first + Tally(s.jobs, agent)
      && (s.jobs[j].phase.prior != Lookup(s.store, agent) ==>
            CountIn(s.jobs[j].phase.prior) < first + Tally(s.jobs, agent))
  }

  predicate ReadingsAreCurrent(s: State, agent: string) {
    forall j :: 0 <= j < |s.jobs| && For(s.jobs[j], agent) && s.jobs[j].phase.Reading? ==> IsCurrent(s, j)
  }

  lemma NothingRead(first: nat, s: State, agent: string)
    requires s.jobs == []
    ensures ReadingsBehind(first, s, agent)
  {
  }

  lemma {:induction false} TallyUpdate(jobs: seq<Job>, j: nat, job: Job, agent: string)
    requires j < |jobs|
    ensures Tally(jobs[j := job], agent) == Tally(jobs, agent) - CountOf(jobs[j], agent) + CountOf(job, agent)
    ensures Volume(jobs[j := job], agent) == Volume(jobs, agent) - GainOf(jobs[j], agent) + GainOf(job, agent)
  {
    hide CountOf, GainOf;
    var n := |jobs| - 1;
    if j == n {
      assert jobs[j := job][..n] == jobs[..n];
    } else {
      assert jobs[j := job][..n] == jobs[..n][j := job];
      TallyUpdate(jobs[..n], j, job, agent);
    }
  }

  lemma TallyAppend(jobs: seq<Job>, job: Job, agent: string)
    requires job.phase.Waiting?
    ensures Tally(jobs + [job], agent) == Tally(jobs, agent)
    ensures Volume(jobs + [job], agent) == Volume(jobs, agent)
  {
    assert (jobs + [job])[..|jobs|] == jobs;
  }

  lemma {:induction false} TallyAll(jobs: seq<Job>, agent: string)
    requires forall j :: 0 <= j < |jobs| && For(jobs[j], agent) ==> jobs[j].phase.Released?
    ensures Tally(jobs, agent) == Calls(jobs, agent) && Volume(jobs, agent) == Amounts(jobs, agent)
  {
    if jobs != [] {
      TallyAll(jobs[..|jobs| - 1], agent);
    }
  }

  lemma TallyStep(provided: Option<bool>, s: State, e: Event, agent: string)
    requires Enabled(s, e)
    ensures var next := Next(provided, s, e); var writes := IsWriteFor(s, e, agent);
            && Tally(next.jobs, agent) == Tally(s.jobs, agent) + (if writes then 1 else 0)
            && Volume(next.jobs, agent) == Volume(s.jobs, agent) + (if writes then Gain(s.jobs[e.j].call.amountUsd) else 0.0)
  {
    hide Recorded, Tally, Volume, Resolved, Gain, Lower;
    var next := Next(provided, s, e);
    if e.Arrive? {
      TallyAppend(s.jobs, next.jobs[|s.jobs|], agent);
    } else {
      TallyUpdate(s.jobs, e.j, next.jobs[e.j], agent);
      assert next.jobs == s.jobs[e.j := next.jobs[e.j]];
    }
  }

  lemma {:induction false} TallyGrows(provided: Option<bool>, run: seq<State>, events: seq<Event>, i: nat, j: nat, agent: string)
    requires IsRun(provided, run, events) && i <= j < |run|
    ensures Tally(run[i].jobs, agent) <= Tally(run[j].jobs, agent)
    ensures Volume(run[i].jobs, agent) <= Volume(run[j].jobs, agent)
  {
    hide Next, Enabled, Tally, Volume, IsWriteFor;
    if i < j {
      TallyGrows(provided, run, events, i, j - 1, agent);
      TallyStep(provided, run[j - 1], events[j - 1], agent);
    }
  }

  /** The agent's entry changes exactly with its writes. */
  lemma EntryAfter(provided: Option<bool>, s: State, e: Event, agent: string)
    requires Enabled(s, e)
    ensures Lookup(Next(provided, s, e).store, agent) ==
            if IsWriteFor(s, e, agent) then Some(Recorded(provided, s.jobs[e.j].call, s.jobs[e.j].phase.prior, e.now))
            else Lookup(s.store, agent)
  {
    hide Recorded, Lower, Resolved;
  }

  lemma CountStep(provided: Option<bool>, first: nat, s: State, e: Event, agent: string)
    requires Enabled(s, e) && ReadingsBehind(first, s, agent)
    requires CountIn(Lookup(s.store, agent)) <= first + Tally(s.jobs, agent)
    ensures var next := Next(provided, s, e);
            var exact := CountIn(Lookup(s.store, agent)) == first + Tally(s.jobs, agent);
            && CountIn(Lookup(next.store, agent)) <= first + Tally(next.jobs, agent)
            && (CountIn(Lookup(next.store, agent)) == first + Tally(next.jobs, agent)
                <==> exact && (IsWriteFor(s, e, agent) ==> IsCurrent(s, e.j)))
            && ReadingsBehind(first, next, agent)
  {
    hide Tally, Volume, Lower, Resolved, Recorded;
    TallyStep(provided, s, e, agent);
    EntryAfter(provided, s, e, agent);
    if IsWriteFor(s, e, agent) {
      RecordedCount(provided, s.jobs[e.j].call, s.jobs[e.j].phase.prior, e.now);
    }
  }

  lemma StoreStep(provided: Option<bool>, first: Option<VisaState>, s: State, e: Event, agent: string)
    requires Enabled(s, e) && StoreInv(provided, first, s, agent)
    requires IsWriteFor(s, e, agent) ==> IsCurrent(s, e.j)
    ensures StoreInv(provided, first, Next(provided, s, e), agent)
  {
    hide Next, Tally, Volume, TierOf, Gain, Lower, Resolved;
    TallyStep(provided, s, e, agent);
    EntryAfter(provided, s, e, agent);
  }

  lemma WriteIsCurrent(s: State, e: Event, agent: string)
    requires IsWriteFor(s, e, agent) && ReadingsAreCurrent(s, agent)
    ensures IsCurrent(s, e.j)
  {
    hide Lower, Resolved;
  }

  lemma ReadingsStep(provided: Option<bool>, s: State, e: Event, agent: string)
    requires LockInv(s) && Enabled(s, e) && OneSpellingHolds(s, agent) && ReadingsAreCurrent(s, agent)
    ensures ReadingsAreCurrent(Next(provided, s, e), agent)
  {
    hide LockInv, OneSpellingHolds, Recorded, Lower, Resolved;
    var next := Next(provided, s, e);
    forall j | 0 <= j < |next.jobs| && For(next.jobs[j], agent) && next.jobs[j].phase.Reading?
      ensures IsCurrent(next, j)
    {
      if j < |s.jobs| && s.jobs[j].phase.Reading? {
        assert IsCurrent(s, j);
        if IsWriteFor(s, e, agent) {
          OnlyHolder(s, agent, e.j, j);
        }
      }
    }
  }

  lemma OnlyHolder(s: State, agent: string, i: nat, j: nat)
    requires LockInv(s) && OneSpellingHolds(s, agent) && i < |s.jobs| && j < |s.jobs| && i != j
    requires For(s.jobs[i], agent) && For(s.jobs[j], agent)
    ensures !(Held(s.jobs[i]) && Held(s.jobs[j]))
  {
    hide Lower;
    assert Chained(s, i) && Chained(s, j);
  }
}
