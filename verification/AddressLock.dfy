/**
 * src/adapters/xrpl.ts (`pay`) and src/flare/bridge.ts (`mintFXRP`): one promise chain per address.
 *
 * A call looks up the chain's last promise, appends its job with `then(f, f)`, stores the new promise
 * and, when its own job has settled, removes the map entry if it is still its own. Jobs are numbered in
 * the order in which the calls reach the map; a promise is named by the job it belongs to.
 */
module AddressLock {
  import opened JsValues

  datatype Phase =
    | Queued(after: Option<nat>)   // None: behind Promise.resolve()
    | Running
    | Settled(ok: bool)

  datatype Job = Job(address: string, phase: Phase, cleaned: bool)

  datatype State = State(jobs: seq<Job>, locks: map<string, nat>)

  datatype Event =
    | Arrive(address: string)
    | Start(j: nat)
    | Finish(j: nat, ok: bool)     // the job fulfils or rejects, for whatever reason
    | Cleanup(j: nat)              // the finally block of the call

  ghost const Initial: State := State([], map[])

  predicate InPhase(s: State, j: nat, p: Phase) {
    j < |s.jobs| && s.jobs[j].phase == p
  }

  predicate IsSettled(s: State, j: nat) {
    j < |s.jobs| && s.jobs[j].phase.Settled?
  }

  /** The promise in front of job j has settled, one way or the other: then(f, f) runs f. */
  predicate Ready(s: State, j: nat) {
    && j < |s.jobs| && s.jobs[j].phase.Queued?
    && (s.jobs[j].phase.after.Some? ==> IsSettled(s, s.jobs[j].phase.after.value))
  }

  predicate Enabled(s: State, e: Event) {
    match e
    case Arrive(_) => true
    case Start(j) => Ready(s, j)
    case Finish(j, _) => InPhase(s, j, Running)
    case Cleanup(j) => IsSettled(s, j) && !s.jobs[j].cleaned
  }

  function Next(s: State, e: Event): State
    requires Enabled(s, e)
  {
    match e
    case Arrive(a) =>
      var previous := if a in s.locks then Some(s.locks[a]) else None;
      State(s.jobs + [Job(a, Queued(previous), false)], s.locks[a := |s.jobs|])
    case Start(j) => s.(jobs := s.jobs[j := s.jobs[j].(phase := Running)])
    case Finish(j, ok) => s.(jobs := s.jobs[j := s.jobs[j].(phase := Settled(ok))])
    case Cleanup(j) =>
      var a := s.jobs[j].address;
      State(s.jobs[j := s.jobs[j].(cleaned := true)],
            if a in s.locks && s.locks[a] == j then s.locks - {a} else s.locks)
  }

  ghost predicate IsRun(run: seq<State>, events: seq<Event>) {
    && |run| == |events| + 1
    && run[0] == Initial
    && forall i :: 0 <= i < |events| ==> Enabled(run[i], events[i]) && run[i + 1] == Next(run[i], events[i])
  }

  /** The calls as code, over the live map. */
  class Locks {
    var jobs: seq<Job>
    var locks: map<string, nat>

    constructor ()
      ensures Now() == Initial
    {
      jobs := [];
      locks := map[];
    }

    ghost function Now(): State
      reads this
    {
      State(jobs, locks)
    }

    method Pay(address: string) returns (work: nat)
      modifies this
      ensures work == |old(jobs)|
      ensures Now() == Next(old(Now()), Arrive(address))
    {
      var previous := None;
      if address in locks {
        previous := Some(locks[address]);
      }
      work := |jobs|;
      jobs := jobs + [Job(address, Queued(previous), false)];
      locks := locks[address := work];
    }

    method Finally(work: nat)
      requires Enabled(Now(), Cleanup(work))
      modifies this
      ensures Now() == Next(old(Now()), Cleanup(work))
    {
      var address := jobs[work].address;
      jobs := jobs[work := jobs[work].(cleaned := true)];
      if address in locks && locks[address] == work {
        locks := locks - {address};
      }
    }
  }

  // ---------------------------------------------------------------- the chain

  /** i is the job of j's address that arrived last before j. */
  ghost predicate JustBefore(s: State, i: nat, j: nat) {
    && i < j < |s.jobs| && s.jobs[i].address == s.jobs[j].address
    && forall k :: i < k < j ==> s.jobs[k].address != s.jobs[j].address
  }

  /** Every earlier job of j's address has settled. */
  ghost predicate AllBeforeSettled(s: State, j: nat) {
    j < |s.jobs| && forall k :: 0 <= k < j && s.jobs[k].address == s.jobs[j].address ==> IsSettled(s, k)
  }

  /** A queued job hangs behind its immediate predecessor, or behind nothing because all have settled;
      a job that has been started has none unsettled before it. */
  ghost predicate Chained(s: State, j: nat) {
    j < |s.jobs| &&
    match s.jobs[j].phase
    case Queued(Some(i)) => JustBefore(s, i, j)
    case _ => AllBeforeSettled(s, j)
  }

  /** The map entry of an address is its last arrival, and is there as long as that call is not done;
      no entry means that every job of the address has settled. */
  ghost predicate EntryIsTail(s: State, a: string) {
    if a in s.locks then
      && s.locks[a] < |s.jobs| && s.jobs[s.locks[a]].address == a && !s.jobs[s.locks[a]].cleaned
      && forall k :: s.locks[a] < k < |s.jobs| ==> s.jobs[k].address != a
    else
      forall k :: 0 <= k < |s.jobs| && s.jobs[k].address == a ==> IsSettled(s, k)
  }

  ghost predicate Inv(s: State) {
    && (forall j :: 0 <= j < |s.jobs| ==> Chained(s, j))
    && (forall a :: EntryIsTail(s, a))
    && (forall j :: 0 <= j < |s.jobs| && s.jobs[j].cleaned ==> IsSettled(s, j))
  }

  lemma SettledStays(s: State, e: Event, k: nat)
    requires Enabled(s, e) && IsSettled(s, k)
    ensures IsSettled(Next(s, e), k)
  {
  }

  lemma ChainedStep(s: State, e: Event, j: nat)
    requires Inv(s) && Enabled(s, e) && j < |Next(s, e).jobs|
    ensures Chained(Next(s, e), j)
  {
    var s' := Next(s, e);
    if j < |s.jobs| {
      assert Chained(s, j);
      forall k | 0 <= k < j && IsSettled(s, k) ensures IsSettled(s', k) {
        SettledStays(s, e, k);
      }
      if e.Start? && e.j == j && s.jobs[j].phase.after.Some? {
        var i := s.jobs[j].phase.after.value;
        assert Chained(s, i);
      }
    } else {
      assert EntryIsTail(s, e.address);
    }
  }

  lemma TailStep(s: State, e: Event, a: string)
    requires Inv(s) && Enabled(s, e)
    ensures EntryIsTail(Next(s, e), a)
  {
    var s' := Next(s, e);
    assert EntryIsTail(s, a);
    if e.Cleanup? && a in s.locks && a !in s'.locks {
      assert Chained(s, e.j);
      forall k | 0 <= k < |s'.jobs| && s'.jobs[k].address == a ensures IsSettled(s', k) {
        if k < e.j {
          assert IsSettled(s, k);
        }
      }
    }
  }

  lemma InvStep(s: State, e: Event)
    requires Inv(s) && Enabled(s, e)
    ensures Inv(Next(s, e))
  {
    forall j | 0 <= j < |Next(s, e).jobs| ensures Chained(Next(s, e), j) {
      ChainedStep(s, e, j);
    }
    forall a ensures EntryIsTail(Next(s, e), a) {
      TailStep(s, e, a);
    }
  }

  lemma {:induction false} InvAlways(run: seq<State>, events: seq<Event>, i: nat)
    requires IsRun(run, events) && i < |run|
    ensures Inv(run[i])
  {
    if i > 0 {
      InvAlways(run, events, i - 1);
      InvStep(run[i - 1], events[i - 1]);
    }
  }

  // ---------------------------------------------------------------- what callers rely on

  /** Jobs of one address run one at a time and in arrival order: when a job has been started, every
      earlier arrival for that address has settled, and no later one has been started. */
  lemma OneAtATimeInOrder(run: seq<State>, events: seq<Event>, n: nat, i: nat, j: nat)
    requires IsRun(run, events) && n < |run|
    requires i < j < |run[n].jobs| && run[n].jobs[i].address == run[n].jobs[j].address
    ensures !run[n].jobs[j].phase.Queued? ==> IsSettled(run[n], i)
    ensures !(InPhase(run[n], i, Running) && InPhase(run[n], j, Running))
    ensures InPhase(run[n], i, Running) ==> run[n].jobs[j].phase.Queued?
  {
    InvAlways(run, events, n);
    assert Chained(run[n], j);
  }

  /** The first unsettled job of an address. */
  ghost predicate IsFront(s: State, j: nat) {
    j < |s.jobs| && !IsSettled(s, j) && AllBeforeSettled(s, j)
  }

  lemma {:induction false} Front(s: State, j: nat) returns (f: nat)
    requires j < |s.jobs| && !IsSettled(s, j)
    ensures f <= j && IsFront(s, f) && s.jobs[f].address == s.jobs[j].address
  {
    if AllBeforeSettled(s, j) {
      f := j;
    } else {
      var k :| 0 <= k < j && s.jobs[k].address == s.jobs[j].address && !IsSettled(s, k);
      f := Front(s, k);
    }
  }

  /** An unsettled address is never stuck: its front job is running or may start at once, whether the
      job before it was fulfilled or rejected. */
  lemma FrontCanMove(run: seq<State>, events: seq<Event>, n: nat, j: nat)
    requires IsRun(run, events) && n < |run| && IsFront(run[n], j)
    ensures Enabled(run[n], Start(j)) || Enabled(run[n], Finish(j, true))
  {
    InvAlways(run, events, n);
    assert Chained(run[n], j);
  }

  /** Nothing is left to do: only a new call can make a step. */
  ghost predicate Quiescent(s: State) {
    forall e: Event :: Enabled(s, e) ==> e.Arrive?
  }

  /** How many steps the calls that have arrived still take. */
  function Remaining(jobs: seq<Job>): nat {
    if jobs == [] then 0
    else
      var job := jobs[|jobs| - 1];
      Remaining(jobs[..|jobs| - 1]) +
      if job.phase.Queued? then 3 else if job.phase.Running? then 2 else if job.cleaned then 0 else 1
  }

  lemma {:induction false} RemainingUpdate(jobs: seq<Job>, j: nat, job: Job)
    requires j < |jobs|
    ensures Remaining(jobs[j := job]) - Remaining([job]) == Remaining(jobs) - Remaining([jobs[j]])
  {
    var init := jobs[..|jobs| - 1];
    assert [job][..0] == [] && [jobs[j]][..0] == [];
    if j == |jobs| - 1 {
      assert jobs[j := job][..j] == init;
    } else {
      assert jobs[j := job][..|jobs| - 1] == init[j := job];
      RemainingUpdate(init, j, job);
    }
  }

  /** Every step but an arrival uses up one of the remaining steps, so no call waits for ever. */
  lemma StepsRunOut(run: seq<State>, events: seq<Event>, n: nat)
    requires IsRun(run, events) && n < |events| && !events[n].Arrive?
    ensures Remaining(run[n + 1].jobs) == Remaining(run[n].jobs) - 1
  {
    InvAlways(run, events, n);
    var s, e := run[n], events[n];
    assert [s.jobs[e.j]][..0] == [] && [run[n + 1].jobs[e.j]][..0] == [];
    RemainingUpdate(s.jobs, e.j, run[n + 1].jobs[e.j]);
  }

  /** When nothing is left to do every call's job has been run and has settled, although any of them may
      have been rejected, and the map holds no entry any more. */
  lemma QuiescentMeansDone(run: seq<State>, events: seq<Event>, n: nat)
    requires IsRun(run, events) && n < |run| && Quiescent(run[n])
    ensures forall j :: 0 <= j < |run[n].jobs| ==> IsSettled(run[n], j) && run[n].jobs[j].cleaned
    ensures run[n].locks == map[]
  {
    InvAlways(run, events, n);
    var s := run[n];
    forall j | 0 <= j < |s.jobs| ensures IsSettled(s, j) && s.jobs[j].cleaned {
      if !IsSettled(s, j) {
        var f := Front(s, j);
        FrontCanMove(run, events, n, f);
        assert false;
      }
      assert !Enabled(s, Cleanup(j));
    }
    forall a ensures a !in s.locks {
      assert EntryIsTail(s, a);
    }
  }
}
