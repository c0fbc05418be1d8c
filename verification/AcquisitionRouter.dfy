/**
 * src/goat/acquisition.ts: `UsdcAcquisitionRouter` and `BalanceSheetStrategy`.
 *
 * Calls that need work form one promise chain: each is appended with `mutex.then(f)`, so it runs when
 * the call before it has been fulfilled and is rejected, without running, when that one was rejected.
 * A run reads the balance, tops up the difference to its target, and may be remembered under a key.
 */
module AcquisitionRouter {
  import opened JsValues

  datatype Params = Params(target: int, key: Option<string>, dryRun: bool)

  datatype Status = NoOp | Executed | DryRun

  /** `run` stands for the correlation id: which run of the chain produced the result. */
  datatype AcquireResult = AcquireResult(status: Status, acquired: nat, run: nat)

  datatype Phase =
    | Queued
    | Reading                    // awaiting the address and the balance sheet
    | Routing(seen: nat)         // a top-up from `seen` to the target is due; awaiting the strategy
    | Executing(seen: nat)       // awaiting the path's execute
    | Credited(seen: nat)        // executed on chain, the continuation has not run
    | Fulfilled(result: AcquireResult)
    | Rejected

  datatype Job = Job(params: Params, phase: Phase)

  datatype Entry = Entry(result: AcquireResult, expiresAt: int)

  /** `answers` lists the calls that returned without joining the chain. */
  datatype State = State(jobs: seq<Job>, cache: map<string, Entry>, balance: nat, answers: seq<(Params, AcquireResult)>)

  const IDEMPOTENCY_WINDOW_MS: int := 60_000

  datatype Event =
    | Acquire(params: Params, now: int)
    | Start(j: nat)
    | PassOn(j: nat)                                   // the promise in front was rejected
    | ReadBalance(j: nat, available: bool, allowed: bool)  // a failed balance read counts as zero
    | ReadThrew(j: nat)                                // no address, or the balance sheet was not read
    | Route(j: nat, found: bool)
    | Execute(j: nat, ok: bool, credit: nat)
    | Return(j: nat, now: int)
    | Move(balance: nat)                               // anything else that changes the wallet's balance

  function Initial(balance: nat): State {
    State([], map[], balance, [])
  }

  predicate Behind(s: State, j: nat, fulfilled: bool) {
    && j < |s.jobs| && s.jobs[j].phase == Queued
    && if j == 0 then fulfilled
       else if fulfilled then s.jobs[j - 1].phase.Fulfilled? else s.jobs[j - 1].phase.Rejected?
  }

  predicate Enabled(s: State, e: Event) {
    match e
    case Acquire(_, _) => true
    case Start(j) => Behind(s, j, true)
    case PassOn(j) => Behind(s, j, false)
    case ReadBalance(j, _, _) => j < |s.jobs| && s.jobs[j].phase == Reading
    case ReadThrew(j) => j < |s.jobs| && s.jobs[j].phase == Reading
    case Route(j, _) => j < |s.jobs| && s.jobs[j].phase.Routing?
    case Execute(j, _, _) => j < |s.jobs| && s.jobs[j].phase.Executing?
    case Return(j, _) => j < |s.jobs| && s.jobs[j].phase.Credited?
    case Move(_) => true
  }

  function InPhase(s: State, j: nat, p: Phase): State
    requires j < |s.jobs|
  {
    s.(jobs := s.jobs[j := s.jobs[j].(phase := p)])
  }

  /** An unexpired result under the call's key, whatever its target was. */
  function CacheHit(cache: map<string, Entry>, p: Params, now: int): Option<AcquireResult> {
    if p.key.Some? && p.key.value != "" && p.key.value in cache && cache[p.key.value].expiresAt > now
    then Some(cache[p.key.value].result)
    else None
  }

  function OnAcquire(s: State, p: Params, now: int): State {
    if p.target == 0 then s.(answers := s.answers + [(p, AcquireResult(NoOp, 0, |s.jobs|))])
    else if CacheHit(s.cache, p, now).Some? then
      s.(answers := s.answers + [(p, CacheHit(s.cache, p, now).value)])
    else s.(jobs := s.jobs + [Job(p, Queued)])
  }

  function OnRead(s: State, j: nat, seen: nat, allowed: bool): State
    requires j < |s.jobs|
  {
    InPhase(s, j,
      if s.jobs[j].params.target <= seen then Fulfilled(AcquireResult(NoOp, 0, j))
      else if !allowed then Rejected
      else Routing(seen))
  }

  function OnRoute(s: State, j: nat, found: bool): State
    requires j < |s.jobs| && s.jobs[j].phase.Routing?
  {
    InPhase(s, j,
      if !found then Rejected
      else if s.jobs[j].params.dryRun then Fulfilled(AcquireResult(DryRun, 0, j))
      else Executing(s.jobs[j].phase.seen))
  }

  /** What a run buys: the target minus the balance it has seen. */
  function Delta(job: Job): int
    requires job.phase.Routing? || job.phase.Executing? || job.phase.Credited?
  {
    job.params.target - job.phase.seen
  }

  function OnReturn(s: State, j: nat, now: int): State
    requires j < |s.jobs| && s.jobs[j].phase.Credited? && Delta(s.jobs[j]) >= 0
  {
    var p := s.jobs[j].params;
    var result := AcquireResult(Executed, Delta(s.jobs[j]), j);
    var s' := InPhase(s, j, Fulfilled(result));
    if p.key.Some? && p.key.value != ""
    then s'.(cache := s.cache[p.key.value := Entry(result, now + IDEMPOTENCY_WINDOW_MS)])
    else s'
  }

  ghost predicate WellFormed(s: State) {
    forall j :: 0 <= j < |s.jobs| ==>
      var p := s.jobs[j].phase;
      p.Routing? || p.Executing? || p.Credited? ==> p.seen < s.jobs[j].params.target
  }

  function Next(s: State, e: Event): State
    requires WellFormed(s) && Enabled(s, e)
  {
    match e
    case Acquire(p, now) => OnAcquire(s, p, now)
    case Start(j) => InPhase(s, j, Reading)
    case PassOn(j) => InPhase(s, j, Rejected)
    case ReadBalance(j, available, allowed) => OnRead(s, j, if available then s.balance else 0, allowed)
    case ReadThrew(j) => InPhase(s, j, Rejected)
    case Route(j, found) => OnRoute(s, j, found)
    case Execute(j, ok, credit) =>
      InPhase(s, j, if ok then Credited(s.jobs[j].phase.seen) else Rejected).(balance := s.balance + credit)
    case Return(j, now) => OnReturn(s, j, now)
    case Move(balance) => s.(balance := balance)
  }

  ghost predicate IsRun(b: nat, run: seq<State>, events: seq<Event>) {
    && |run| == |events| + 1
    && run[0] == Initial(b)
    && (forall i :: 0 <= i < |events| ==>
          WellFormed(run[i]) && Enabled(run[i], events[i]) && run[i + 1] == Next(run[i], events[i]))
  }

  /** The router as code, over its live chain and cache. */
  class Router {
    var jobs: seq<Job>
    var idemCache: map<string, Entry>
    var answers: seq<(Params, AcquireResult)>

    constructor ()
      ensures jobs == [] && idemCache == map[] && answers == []
    {
      jobs, idemCache, answers := [], map[], [];
    }

    ghost function Now(balance: nat): State
      reads this
    {
      State(jobs, idemCache, balance, answers)
    }

    method AcquireInternal(params: Params, now: int, ghost balance: nat)
      modifies this
      ensures Now(balance) == OnAcquire(old(Now(balance)), params, now)
    {
      if params.target == 0 {
        answers := answers + [(params, AcquireResult(NoOp, 0, |jobs|))];
        return;
      }
      if params.key.Some? && params.key.value != "" && params.key.value in idemCache {
        var hit := idemCache[params.key.value];
        if hit.expiresAt > now {
          answers := answers + [(params, hit.result)];
          return;
        }
      }
      jobs := jobs + [Job(params, Queued)];
    }

    method BalanceRead(j: nat, usdcOnGoat: nat, allowed: bool, ghost balance: nat)
      requires j < |jobs| && jobs[j].phase == Reading
      modifies this`jobs
      ensures Now(balance) == OnRead(old(Now(balance)), j, usdcOnGoat, allowed)
    {
      var target := jobs[j].params.target;
      var delta := if target > usdcOnGoat then target - usdcOnGoat else 0;
      if delta == 0 {
        jobs := jobs[j := jobs[j].(phase := Fulfilled(AcquireResult(NoOp, 0, j)))];
      } else if !allowed {
        jobs := jobs[j := jobs[j].(phase := Rejected)];
      } else {
        jobs := jobs[j := jobs[j].(phase := Routing(usdcOnGoat))];
      }
    }

    /** The strategy has chosen a path, or thrown. */
    method Decided(j: nat, found: bool, ghost balance: nat)
      requires j < |jobs| && jobs[j].phase.Routing?
      modifies this`jobs
      ensures Now(balance) == OnRoute(old(Now(balance)), j, found)
    {
      if !found {
        jobs := jobs[j := jobs[j].(phase := Rejected)];
        return;
      }
      if jobs[j].params.dryRun {
        jobs := jobs[j := jobs[j].(phase := Fulfilled(AcquireResult(DryRun, 0, j)))];
        return;
      }
      jobs := jobs[j := jobs[j].(phase := Executing(jobs[j].phase.seen))];
    }

    method ExecuteReturned(j: nat, now: int, ghost balance: nat)
      requires j < |jobs| && jobs[j].phase.Credited? && Delta(jobs[j]) >= 0
      modifies this
      ensures Now(balance) == OnReturn(old(Now(balance)), j, now)
    {
      var params := jobs[j].params;
      var result := AcquireResult(Executed, params.target - jobs[j].phase.seen, j);
      jobs := jobs[j := jobs[j].(phase := Fulfilled(result))];
      if params.key.Some? && params.key.value != "" {
        idemCache := idemCache[params.key.value := Entry(result, now + IDEMPOTENCY_WINDOW_MS)];
      }
    }
  }

  // ---------------------------------------------------------------- one run at a time

  ghost predicate IsOver(p: Phase) {
    p.Fulfilled? || p.Rejected?
  }

  /** Runs happen one after the other in the order of the calls; none starts after a rejected one. */
  ghost predicate Ordered(s: State) {
    && WellFormed(s)
    && (forall i, j :: 0 <= i < j < |s.jobs| && s.jobs[j].phase != Queued ==> IsOver(s.jobs[i].phase))
    && (forall i, j :: 0 <= i < j < |s.jobs| && s.jobs[i].phase.Rejected? ==>
          s.jobs[j].phase == Queued || s.jobs[j].phase == Rejected)
  }

  /** The one run in progress takes a step. */
  lemma OrderedUpdate(s: State, j: nat, p: Phase)
    requires Ordered(s) && j < |s.jobs| && !IsOver(s.jobs[j].phase)
    requires p != Queued && (p.Routing? || p.Executing? || p.Credited? ==> p.seen < s.jobs[j].params.target)
    requires forall i :: 0 <= i < j ==> IsOver(s.jobs[i].phase)
    requires p != Rejected ==> forall i :: 0 <= i < j ==> !s.jobs[i].phase.Rejected?
    ensures Ordered(InPhase(s, j, p))
  {
  }

  lemma OrderedMove(s: State, j: nat, p: Phase)
    requires Ordered(s) && j < |s.jobs| && s.jobs[j].phase != Queued && !IsOver(s.jobs[j].phase)
    requires p != Queued && (p.Routing? || p.Executing? || p.Credited? ==> p.seen < s.jobs[j].params.target)
    ensures Ordered(InPhase(s, j, p))
  {
    OrderedUpdate(s, j, p);
  }

  lemma OrderedStart(s: State, j: nat, fulfilled: bool)
    requires Ordered(s) && Behind(s, j, fulfilled)
    ensures Ordered(InPhase(s, j, if fulfilled then Reading else Rejected))
  {
    OrderedUpdate(s, j, if fulfilled then Reading else Rejected);
  }

  lemma OrderedByJobs(s: State, s': State)
    requires Ordered(s) && (s'.jobs == s.jobs || exists p :: s'.jobs == s.jobs + [Job(p, Queued)])
    ensures Ordered(s')
  {
  }

  lemma OrderedStep(s: State, e: Event)
    requires Ordered(s) && Enabled(s, e)
    ensures Ordered(Next(s, e))
  {
    assert WellFormed(s);
    hide Ordered, Behind, CacheHit;
    var s' := Next(s, e);
    match e
    case Acquire(p, now) =>
      OrderedByJobs(s, s');
    case Move(_) =>
      OrderedByJobs(s, s');
    case Start(j) =>
      OrderedStart(s, j, true);
    case PassOn(j) =>
      OrderedStart(s, j, false);
    case ReadBalance(j, _, _) =>
      OrderedMove(s, j, s'.jobs[j].phase);
    case ReadThrew(j) =>
      OrderedMove(s, j, Rejected);
    case Route(j, _) =>
      OrderedMove(s, j, s'.jobs[j].phase);
    case Execute(j, _, _) =>
      OrderedMove(s, j, s'.jobs[j].phase);
      OrderedByJobs(InPhase(s, j, s'.jobs[j].phase), s');
    case Return(j, _) =>
      OrderedMove(s, j, s'.jobs[j].phase);
      OrderedByJobs(InPhase(s, j, s'.jobs[j].phase), s');
  }

  lemma {:induction false} OrderedAlways(b: nat, run: seq<State>, events: seq<Event>, n: nat)
    requires IsRun(b, run, events) && n < |run|
    ensures Ordered(run[n])
  {
    if n > 0 {
      OrderedAlways(b, run, events, n - 1);
      OrderedStep(run[n - 1], events[n - 1]);
    }
  }

  /** One rejected run rejects every call behind it, now and later: none of them ever reads, routes or
      executes again. A call runs exactly when everything before it in the chain was fulfilled. */
  lemma {:induction false} RejectionIsForEver(b: nat, run: seq<State>, events: seq<Event>, n: nat, m: nat, i: nat, j: nat)
    requires IsRun(b, run, events) && n <= m < |run|
    requires i < |run[n].jobs| && run[n].jobs[i].phase.Rejected?
    ensures i < |run[m].jobs| && run[m].jobs[i].phase.Rejected?
    ensures i < j < |run[m].jobs| ==> run[m].jobs[j].phase == Queued || run[m].jobs[j].phase == Rejected
    ensures i < j < |run[m].jobs| ==> !Enabled(run[m], Start(j))
  {
    hide Next, CacheHit;
    OrderedAlways(b, run, events, m);
    if n < m {
      RejectionIsForEver(b, run, events, n, m - 1, i, j);
      RejectedStays(run[m - 1], events[m - 1], i);
    }
  }

  lemma RejectedStays(s: State, e: Event, i: nat)
    requires WellFormed(s) && Enabled(s, e) && i < |s.jobs| && s.jobs[i].phase.Rejected?
    ensures i < |Next(s, e).jobs| && Next(s, e).jobs[i].phase.Rejected?
  {
    hide CacheHit;
  }

  /** A queued run whose predecessor is over goes on in one way: it starts when there is none or that one was fulfilled,
      and is rejected unrun when that one was rejected. */
  lemma TurnIs(s: State, j: nat)
    requires j < |s.jobs| && s.jobs[j].phase == Queued
    ensures Enabled(s, Start(j)) <==> j == 0 || s.jobs[j - 1].phase.Fulfilled?
    ensures Enabled(s, PassOn(j)) <==> j > 0 && s.jobs[j - 1].phase.Rejected?
    ensures WellFormed(s) && Enabled(s, Start(j)) ==>
              Next(s, Start(j)) == s.(jobs := s.jobs[j := s.jobs[j].(phase := Reading)])
    ensures WellFormed(s) && Enabled(s, PassOn(j)) ==>
              Next(s, PassOn(j)) == s.(jobs := s.jobs[j := s.jobs[j].(phase := Rejected)])
  {
  }

  // ---------------------------------------------------------------- what the runs buy

  ghost predicate Bought(job: Job) {
    job.phase.Credited? || (job.phase.Fulfilled? && job.phase.result.status == Executed)
  }

  ghost function Amount(job: Job): int {
    if job.params.dryRun then 0
    else if job.phase.Credited? then Delta(job)
    else if Bought(job) then job.phase.result.acquired
    else 0
  }

  /** The sum of the executed top-ups of the calls that are no dry runs. */
  ghost function Spent(jobs: seq<Job>): int {
    if jobs == [] then 0 else Spent(jobs[..|jobs| - 1]) + Amount(jobs[|jobs| - 1])
  }

  lemma {:induction false} SpentUpdate(jobs: seq<Job>, j: nat, job: Job)
    requires j < |jobs|
    ensures Spent(jobs[j := job]) == Spent(jobs) - Amount(jobs[j]) + Amount(job)
  {
    var n := |jobs| - 1;
    if j == n {
      assert jobs[j := job][..n] == jobs[..n];
    } else {
      assert jobs[j := job][..n] == jobs[..n][j := job];
      SpentUpdate(jobs[..n], j, job);
    }
  }

  lemma SpentAppend(jobs: seq<Job>, job: Job)
    ensures Spent(jobs + [job]) == Spent(jobs) + Amount(job)
  {
    assert (jobs + [job])[..|jobs|] == jobs;
  }

  /** The run's target has been made sure of: it topped up, or found the balance high enough. */
  ghost predicate Reached(job: Job) {
    Bought(job) || (job.phase.Fulfilled? && job.phase.result.status == NoOp)
  }

  /** The largest of the initial balance and the targets of the completed runs. */
  ghost function Peak(b: nat, jobs: seq<Job>): nat {
    if jobs == [] then b
    else
      var last := jobs[|jobs| - 1];
      Max(Peak(b, jobs[..|jobs| - 1]), if Reached(last) then last.params.target else 0)
  }

  lemma {:induction false} PeakUpdate(b: nat, jobs: seq<Job>, j: nat, job: Job)
    requires j < |jobs| && job.params == jobs[j].params && (Reached(jobs[j]) ==> Reached(job))
    ensures Peak(b, jobs[j := job]) == Max(Peak(b, jobs), if Reached(job) then job.params.target else 0)
  {
    var n := |jobs| - 1;
    if j == n {
      assert jobs[j := job][..n] == jobs[..n];
    } else {
      assert jobs[j := job][..n] == jobs[..n][j := job];
      PeakUpdate(b, jobs[..n], j, job);
    }
  }

  lemma PeakAppend(b: nat, jobs: seq<Job>, job: Job)
    requires job.phase == Queued
    ensures Peak(b, jobs + [job]) == Peak(b, jobs)
  {
    assert (jobs + [job])[..|jobs|] == jobs;
  }

  lemma {:induction false} PeakBounds(b: nat, jobs: seq<Job>, j: nat)
    requires j < |jobs| && Reached(jobs[j])
    ensures jobs[j].params.target <= Peak(b, jobs)
  {
    if j < |jobs| - 1 {
      PeakBounds(b, jobs[..|jobs| - 1], j);
    }
  }

  /** An execution credits what its quote promised, or fails without effect; nothing else moves money. */
  ghost predicate Faithful(s: State, e: Event)
    requires Enabled(s, e)
  {
    && !e.Move?
    && (e.Execute? ==> e.credit == if e.ok then Delta(s.jobs[e.j]) else 0)
  }

  ghost predicate FaithfulRun(run: seq<State>, events: seq<Event>) {
    |run| == |events| + 1 && forall i :: 0 <= i < |events| ==> Enabled(run[i], events[i]) && Faithful(run[i], events[i])
  }

  /** No balance read fails. */
  ghost predicate Sighted(events: seq<Event>) {
    forall i :: 0 <= i < |events| ==> (events[i].ReadBalance? ==> events[i].available)
  }

  /** A dry run is neither executing nor executed. */
  ghost predicate OnlyTries(job: Job) {
    job.params.dryRun ==> !job.phase.Executing? && !Bought(job)
  }

  lemma DryStep(s: State, e: Event)
    requires WellFormed(s) && Enabled(s, e) && forall j :: 0 <= j < |s.jobs| ==> OnlyTries(s.jobs[j])
    ensures forall j :: 0 <= j < |Next(s, e).jobs| ==> OnlyTries(Next(s, e).jobs[j])
  {
    hide CacheHit;
  }

  /** In every run, whatever else happens, dry runs execute nothing: they can only end as one, as a no-op or rejected. */
  lemma DryRunsBuyNothing(b: nat, run: seq<State>, events: seq<Event>, n: nat, j: nat)
    requires IsRun(b, run, events) && n < |run| && j < |run[n].jobs| && run[n].jobs[j].params.dryRun
    ensures !run[n].jobs[j].phase.Executing? && !Bought(run[n].jobs[j])
    ensures run[n].jobs[j].phase.Fulfilled? ==>
              run[n].jobs[j].phase.result in {AcquireResult(DryRun, 0, j), AcquireResult(NoOp, 0, j)}
  {
    DryRunsOnlyTry(b, run, events, n);
    if run[n].jobs[j].phase.Fulfilled? {
      EndsAs(b, run, events, n, j);
    }
  }

  lemma {:induction false} DryRunsOnlyTry(b: nat, run: seq<State>, events: seq<Event>, n: nat)
    requires IsRun(b, run, events) && n < |run|
    ensures forall j :: 0 <= j < |run[n].jobs| ==> OnlyTries(run[n].jobs[j])
  {
    hide OnlyTries, Next, Enabled;
    if n > 0 {
      DryRunsOnlyTry(b, run, events, n - 1);
      DryStep(run[n - 1], events[n - 1]);
    }
  }

  /** A fulfilled run is an executed one, a no-op or a dry run, under its own number. */
  lemma {:induction false} EndsAs(b: nat, run: seq<State>, events: seq<Event>, n: nat, j: nat)
    requires IsRun(b, run, events) && n < |run| && j < |run[n].jobs| && run[n].jobs[j].phase.Fulfilled?
    ensures var r := run[n].jobs[j].phase.result;
            r.run == j && (r.status != Executed ==> r.acquired == 0) && (r.status == DryRun ==> run[n].jobs[j].params.dryRun)
  {
    hide Next, Enabled;
    if n > 0 {
      if j < |run[n - 1].jobs| && run[n - 1].jobs[j].phase.Fulfilled? {
        EndsAs(b, run, events, n - 1, j);
      }
      EndsStep(run[n - 1], events[n - 1], j);
    }
  }

  lemma EndsStep(s: State, e: Event, j: nat)
    requires WellFormed(s) && Enabled(s, e) && j < |Next(s, e).jobs| && Next(s, e).jobs[j].phase.Fulfilled?
    ensures if j < |s.jobs| && s.jobs[j].phase.Fulfilled? then Next(s, e).jobs[j] == s.jobs[j]
            else
              var r := Next(s, e).jobs[j].phase.result;
              r.run == j && (r.status != Executed ==> r.acquired == 0) && (r.status == DryRun ==> Next(s, e).jobs[j].params.dryRun)
  {
    hide CacheHit;
  }

  /** What becomes of a run that has read the balance, a failed read counting as zero. */
  lemma ReadAnswers(s: State, j: nat, available: bool, allowed: bool)
    requires WellFormed(s) && Enabled(s, ReadBalance(j, available, allowed))
    ensures var seen, target := if available then s.balance else 0, s.jobs[j].params.target;
            Next(s, ReadBalance(j, available, allowed)) == s.(jobs := s.jobs[j := s.jobs[j].(phase :=
              if seen >= target then Fulfilled(AcquireResult(NoOp, 0, j))
              else if allowed then Routing(seen)
              else Rejected)])
  {
  }

  /** What becomes of a routed run: it fails without a path, a dry run ends there, any other one executes. */
  lemma RouteAnswers(s: State, j: nat, found: bool)
    requires WellFormed(s) && Enabled(s, Route(j, found))
    ensures Next(s, Route(j, found)) == s.(jobs := s.jobs[j := s.jobs[j].(phase :=
              if !found then Rejected
              else if s.jobs[j].params.dryRun then Fulfilled(AcquireResult(DryRun, 0, j))
              else Executing(s.jobs[j].phase.seen))])
  {
  }

  /** What becomes of an execution: a failed one, like a sheet that cannot be read, rejects the run; what it has credited
      stays. A run that returns has acquired what its target was short of. */
  lemma ExecutionAnswers(s: State, j: nat, ok: bool, credit: nat, now: int)
    requires WellFormed(s) && j < |s.jobs|
    ensures Enabled(s, Execute(j, ok, credit)) ==>
              Next(s, Execute(j, ok, credit)) ==
              s.(jobs := s.jobs[j := s.jobs[j].(phase := if ok then Credited(s.jobs[j].phase.seen) else Rejected)],
                 balance := s.balance + credit)
    ensures Enabled(s, ReadThrew(j)) ==>
              Next(s, ReadThrew(j)) == s.(jobs := s.jobs[j := s.jobs[j].(phase := Rejected)])
    ensures Enabled(s, Return(j, now)) ==>
              var next, job := Next(s, Return(j, now)), s.jobs[j];
              && next.balance == s.balance && next.answers == s.answers && job.params.target > job.phase.seen
              && next.jobs == s.jobs[j := job.(phase :=
                   Fulfilled(AcquireResult(Executed, job.params.target - job.phase.seen, j)))]
  {
  }

  lemma ConservedStep(b: nat, s: State, e: Event)
    requires Ordered(s) && Enabled(s, e) && Faithful(s, e) && forall j :: 0 <= j < |s.jobs| ==> OnlyTries(s.jobs[j])
    requires s.balance == b + Spent(s.jobs)
    ensures Next(s, e).balance == b + Spent(Next(s, e).jobs)
  {
    hide Spent;
    var s' := Next(s, e);
    if e.Acquire? {
      if s'.jobs != s.jobs {
        SpentAppend(s.jobs, s'.jobs[|s.jobs|]);
      }
    } else {
      SpentUpdate(s.jobs, e.j, s'.jobs[e.j]);
    }
  }

  /** The balance rises by exactly what the executed runs bought that were no dry runs, even when balance reads fail. */
  lemma {:induction false} Conserved(b: nat, run: seq<State>, events: seq<Event>, n: nat)
    requires IsRun(b, run, events) && FaithfulRun(run, events) && n < |run|
    ensures run[n].balance == b + Spent(run[n].jobs)
  {
    if n > 0 {
      Conserved(b, run, events, n - 1);
      OrderedAlways(b, run, events, n - 1);
      DryRunsOnlyTry(b, run, events, n - 1);
      ConservedStep(b, run[n - 1], events[n - 1]);
    }
  }

  ghost predicate ToppedUp(b: nat, s: State) {
    && s.balance == Peak(b, s.jobs)
    && (forall j :: 0 <= j < |s.jobs| && (s.jobs[j].phase.Routing? || s.jobs[j].phase.Executing?) ==>
          s.jobs[j].phase.seen == s.balance)
    && (forall i, j :: 0 <= i < j < |s.jobs| && Bought(s.jobs[i]) && Bought(s.jobs[j]) ==>
          s.jobs[i].params.target < s.jobs[j].params.target)
  }

  lemma ExecuteToppedUp(b: nat, s: State, e: Event)
    requires Ordered(s) && ToppedUp(b, s) && Enabled(s, e) && Faithful(s, e) && e.Execute?
    ensures ToppedUp(b, Next(s, e))
  {
    var s' := Next(s, e);
    PeakUpdate(b, s.jobs, e.j, s'.jobs[e.j]);
    forall i | 0 <= i < |s.jobs| && Bought(s.jobs[i]) ensures i < e.j && s.jobs[i].params.target <= s.balance {
      PeakBounds(b, s.jobs, i);
    }
  }

  /** A run moves on without touching the balance. */
  lemma RunToppedUp(b: nat, s: State, j: nat, p: Phase)
    requires ToppedUp(b, s) && j < |s.jobs|
    requires Bought(s.jobs[j]) == Bought(Job(s.jobs[j].params, p))
    requires Reached(s.jobs[j]) ==> Reached(Job(s.jobs[j].params, p))
    requires Reached(Job(s.jobs[j].params, p)) ==> s.jobs[j].params.target <= s.balance
    requires p.Routing? || p.Executing? ==> p.seen == s.balance
    ensures ToppedUp(b, InPhase(s, j, p))
  {
    PeakUpdate(b, s.jobs, j, Job(s.jobs[j].params, p));
  }

  lemma ToppedUpStep(b: nat, s: State, e: Event)
    requires Ordered(s) && ToppedUp(b, s) && Enabled(s, e) && Faithful(s, e)
    requires e.ReadBalance? ==> e.available
    ensures ToppedUp(b, Next(s, e))
  {
    hide ToppedUp;
    match e
    case Acquire(_, _) =>
      AcquireToppedUp(b, s, e);
    case Execute(_, _, _) =>
      ExecuteToppedUp(b, s, e);
    case Return(j, now) =>
      ReturnToppedUp(b, s, j, now);
    case Start(j) =>
      RunToppedUp(b, s, j, Reading);
    case PassOn(j) =>
      RunToppedUp(b, s, j, Rejected);
    case ReadBalance(j, _, _) =>
      RunToppedUp(b, s, j, Next(s, e).jobs[j].phase);
    case ReadThrew(j) =>
      RunToppedUp(b, s, j, Rejected);
    case Route(j, _) =>
      RouteToppedUp(b, s, j, Next(s, e).jobs[j].phase);
  }

  lemma RouteToppedUp(b: nat, s: State, j: nat, p: Phase)
    requires ToppedUp(b, s) && j < |s.jobs| && s.jobs[j].phase.Routing?
    requires p == Rejected || p == Fulfilled(AcquireResult(DryRun, 0, j)) || p == Executing(s.jobs[j].phase.seen)
    ensures ToppedUp(b, InPhase(s, j, p))
  {
    RunToppedUp(b, s, j, p);
  }

  lemma AcquireToppedUp(b: nat, s: State, e: Event)
    requires WellFormed(s) && ToppedUp(b, s) && Enabled(s, e) && e.Acquire?
    ensures ToppedUp(b, Next(s, e))
  {
    hide Peak, CacheHit;
    var s' := Next(s, e);
    if s'.jobs != s.jobs {
      PeakAppend(b, s.jobs, s'.jobs[|s.jobs|]);
    }
  }

  lemma ReturnToppedUp(b: nat, s: State, j: nat, now: int)
    requires WellFormed(s) && ToppedUp(b, s) && j < |s.jobs| && s.jobs[j].phase.Credited?
    ensures ToppedUp(b, OnReturn(s, j, now))
  {
    PeakBounds(b, s.jobs, j);
    RunToppedUp(b, s, j, OnReturn(s, j, now).jobs[j].phase);
  }

  /** However calls interleave, the balance is the largest of the initial balance and the targets of the
      runs completed so far, and executed runs have strictly increasing targets: of the calls that
      share a target (under one key, several, or none) at most one executes, cache hit or not. */
  lemma {:induction false} ToppedUpAlways(b: nat, run: seq<State>, events: seq<Event>, n: nat)
    requires IsRun(b, run, events) && FaithfulRun(run, events) && Sighted(events) && n < |run|
    ensures ToppedUp(b, run[n])
  {
    if n > 0 {
      ToppedUpAlways(b, run, events, n - 1);
      OrderedAlways(b, run, events, n - 1);
      ToppedUpStep(b, run[n - 1], events[n - 1]);
    }
  }

  lemma SameTargetExecutesOnce(b: nat, run: seq<State>, events: seq<Event>, n: nat, i: nat, j: nat)
    requires IsRun(b, run, events) && FaithfulRun(run, events) && Sighted(events) && n < |run|
    requires i < |run[n].jobs| && j < |run[n].jobs| && run[n].jobs[i].params.target == run[n].jobs[j].params.target
    ensures Bought(run[n].jobs[i]) && Bought(run[n].jobs[j]) ==> i == j
  {
    ToppedUpAlways(b, run, events, n);
  }

  /** A failed balance read counts as zero, so the promise needs the read: an execution lands on the
      larger of balance and target exactly when the balance it had seen was the balance. */
  lemma LandsOnTargetIff(s: State, j: nat)
    requires WellFormed(s) && j < |s.jobs| && s.jobs[j].phase.Executing?
    ensures var e := Execute(j, true, Delta(s.jobs[j]));
            Enabled(s, e) &&
            (Next(s, e).balance == Max(s.balance, s.jobs[j].params.target) <==> s.jobs[j].phase.seen == s.balance)
  {
  }

  /** One failed read is enough, at every balance and target: the wallet ends with their sum. */
  lemma BlindReadOvershoots(b: nat, target: nat) returns (run: seq<State>, events: seq<Event>)
    requires target > 0
    ensures IsRun(b, run, events) && FaithfulRun(run, events)
    ensures run[|events|].balance == b + target
    ensures |run[|events|].jobs| == 1 && Bought(run[|events|].jobs[0])
  {
    var p := Params(target, None, false);
    var s1 := Initial(b).(jobs := [Job(p, Queued)]);
    var s2 := s1.(jobs := [Job(p, Reading)]);
    var s3 := s1.(jobs := [Job(p, Routing(0))]);
    var s4 := s1.(jobs := [Job(p, Executing(0))]);
    var s5 := State([Job(p, Credited(0))], map[], b + target, []);
    run := [Initial(b), s1, s2, s3, s4, s5];
    events := [Acquire(p, 0), Start(0), ReadBalance(0, false, true), Route(0, true), Execute(0, true, target)];
    forall i | 0 <= i < |events|
      ensures WellFormed(run[i]) && Enabled(run[i], events[i]) && Faithful(run[i], events[i]) && run[i + 1] == Next(run[i], events[i])
    {
      if i == 0 {} else if i == 1 {} else if i == 2 {} else if i == 3 {} else {}
    }
  }

  // ---------------------------------------------------------------- the cache

  /** A remembered result is that of a run which executed under the same key. */
  ghost predicate FromRun(s: State, key: string, r: AcquireResult) {
    && r.run < |s.jobs| && s.jobs[r.run].params.key == Some(key)
    && s.jobs[r.run].phase == Fulfilled(r) && r.status == Executed
  }

  ghost predicate CacheInv(s: State) {
    && (forall k :: k in s.cache ==> FromRun(s, k, s.cache[k].result))
    && (forall i :: 0 <= i < |s.answers| ==> IsReceipt(s, s.answers[i].0, s.answers[i].1))
  }

  ghost predicate IsReceipt(s: State, p: Params, r: AcquireResult) {
    if p.target == 0 then r.status == NoOp && r.acquired == 0
    else p.key.Some? && FromRun(s, p.key.value, r)
  }

  lemma FromRunStays(s: State, e: Event, key: string, r: AcquireResult)
    requires WellFormed(s) && Enabled(s, e) && FromRun(s, key, r)
    ensures FromRun(Next(s, e), key, r)
  {
  }

  lemma CacheStep(s: State, e: Event)
    requires WellFormed(s) && Enabled(s, e) && CacheInv(s)
    ensures CacheInv(Next(s, e))
  {
    forall k, r | FromRun(s, k, r) ensures FromRun(Next(s, e), k, r) {
      FromRunStays(s, e, k, r);
    }
  }

  /** A call answered without running gets the receipt of a run that did execute under its key. */
  lemma {:induction false} AnswersAreReceipts(b: nat, run: seq<State>, events: seq<Event>, n: nat)
    requires IsRun(b, run, events) && n < |run|
    ensures CacheInv(run[n])
  {
    if n > 0 {
      AnswersAreReceipts(b, run, events, n - 1);
      CacheStep(run[n - 1], events[n - 1]);
    }
  }

  /** The last run to be remembered under the key before step n was so at step m. */
  ghost predicate RememberedAt(run: seq<State>, events: seq<Event>, m: nat, n: nat, key: string)
    requires n <= |events| < |run|
  {
    && m < n && IsReturnOf(run[m], events[m], key)
    && forall i :: m < i < n ==> !IsReturnOf(run[i], events[i], key)
  }

  ghost predicate IsReturnOf(s: State, e: Event, key: string) {
    e.Return? && e.j < |s.jobs| && s.jobs[e.j].params.key == Some(key) && key != ""
  }

  lemma {:induction false} EntryOf(b: nat, run: seq<State>, events: seq<Event>, m: nat, n: nat, key: string)
    requires IsRun(b, run, events) && n <= |events| && RememberedAt(run, events, m, n, key)
    ensures key in run[n].cache && run[n].cache[key].expiresAt == events[m].now + 60_000
    ensures run[n].cache[key].result.run == events[m].j && run[n].cache[key].result.status == Executed
  {
    hide Next, Enabled;
    if n == m + 1 {
      RemembersStep(run[m], events[m], key);
    } else {
      EntryOf(b, run, events, m, n - 1, key);
      RemembersStep(run[n - 1], events[n - 1], key);
    }
  }

  lemma {:induction false} NoEntry(b: nat, run: seq<State>, events: seq<Event>, n: nat, key: string)
    requires IsRun(b, run, events) && n <= |events|
    requires forall i :: 0 <= i < n ==> !IsReturnOf(run[i], events[i], key)
    ensures key !in run[n].cache
  {
    hide Next, Enabled;
    if n > 0 {
      NoEntry(b, run, events, n - 1, key);
      RemembersStep(run[n - 1], events[n - 1], key);
    }
  }

  lemma RemembersStep(s: State, e: Event, key: string)
    requires WellFormed(s) && Enabled(s, e)
    ensures IsReturnOf(s, e, key) ==>
              && key in Next(s, e).cache && Next(s, e).cache[key].expiresAt == e.now + 60_000
              && Next(s, e).cache[key].result.run == e.j && Next(s, e).cache[key].result.status == Executed
    ensures !IsReturnOf(s, e, key) ==>
              (key in Next(s, e).cache <==> key in s.cache) && (key in s.cache ==> Next(s, e).cache[key] == s.cache[key])
  {
    hide CacheHit;
  }

  /** The call with these parameters is answered at once, or joins the chain. */
  ghost predicate AnsweredAtOnce(s: State, p: Params, next: State, result: AcquireResult) {
    next == s.(answers := s.answers + [(p, result)])
  }

  ghost predicate Joins(s: State, p: Params, next: State) {
    next == s.(jobs := s.jobs + [Job(p, Queued)])
  }

  /** A call under a key is answered exactly within the minute after a run of that key has executed and returned,
      with the receipt of the last such run; before and after that it joins the chain. */
  lemma AnsweredIffWithinMinute(b: nat, run: seq<State>, events: seq<Event>, n: nat, m: nat)
    requires IsRun(b, run, events) && n < |events| && events[n].Acquire? && events[n].params.target != 0
    requires events[n].params.key.Some? && RememberedAt(run, events, m, n, events[n].params.key.value)
    ensures var p, key := events[n].params, events[n].params.key.value;
            if events[n].now < events[m].now + 60_000
            then key in run[n].cache && run[n].cache[key].result.run == events[m].j
                 && AnsweredAtOnce(run[n], p, run[n + 1], run[n].cache[key].result)
            else Joins(run[n], p, run[n + 1])
  {
    EntryOf(b, run, events, m, n, events[n].params.key.value);
  }

  /** Without such a run, or without a key, every call joins the chain, but for a target of zero: a no-op. */
  lemma UnrememberedJoins(b: nat, run: seq<State>, events: seq<Event>, n: nat)
    requires IsRun(b, run, events) && n < |events| && events[n].Acquire?
    requires events[n].params.key.Some? && events[n].params.key != Some("") ==>
               forall i :: 0 <= i < n ==> !IsReturnOf(run[i], events[i], events[n].params.key.value)
    ensures if events[n].params.target == 0
            then AnsweredAtOnce(run[n], events[n].params, run[n + 1], AcquireResult(NoOp, 0, |run[n].jobs|))
            else Joins(run[n], events[n].params, run[n + 1])
  {
    if events[n].params.key.Some? && events[n].params.key != Some("") {
      NoEntry(b, run, events, n, events[n].params.key.value);
    }
  }

  /** Call n of the run asks for target t and is answered from the cache, with the receipt of a run for remembered. */
  ghost predicate AnsweredWith(b: nat, run: seq<State>, events: seq<Event>, n: nat, t: int, remembered: int) {
    && IsRun(b, run, events) && FaithfulRun(run, events) && Sighted(events)
    && n < |events| && events[n].Acquire? && events[n].params.target == t != 0
    && var hit := CacheHit(run[n].cache, events[n].params, events[n].now);
       hit.Some? && hit.value.run < |run[n].jobs| && run[n].jobs[hit.value.run].params.target == remembered
  }

  predicate Holds(run: seq<State>, n: nat, t: int) {
    n < |run| && t <= run[n].balance
  }

  /** A hit does not look at the target: the answered call can rely on its own only if the remembered one covers it. */
  lemma AnsweredHoldsTargetIff(t: int, remembered: int)
    requires t != 0 && remembered > 0
    ensures (forall b: nat, run: seq<State>, events: seq<Event>, n: nat ::
               AnsweredWith(b, run, events, n, t, remembered) ==> Holds(run, n, t)) <==> t <= remembered
  {
    hide AnsweredWith;
    if t <= remembered {
      forall b: nat, run: seq<State>, events: seq<Event>, n: nat | AnsweredWith(b, run, events, n, t, remembered)
        ensures Holds(run, n, t)
      {
        RememberedTargetHolds(b, run, events, n, t, remembered);
      }
    } else {
      var run, events := LargerTargetIsAnswered(t, remembered);
    }
  }

  lemma RememberedTargetHolds(b: nat, run: seq<State>, events: seq<Event>, n: nat, t: int, remembered: int)
    requires AnsweredWith(b, run, events, n, t, remembered)
    ensures Holds(run, n, remembered)
  {
    assert n < |run|;
    hide IsRun, Peak, FaithfulRun, Sighted;
    var hit := CacheHit(run[n].cache, events[n].params, events[n].now).value;
    AnswersAreReceipts(b, run, events, n);
    ToppedUpAlways(b, run, events, n);
    assert FromRun(run[n], events[n].params.key.value, hit);
    PeakBounds(b, run[n].jobs, hit.run);
  }

  /** The state after a run for remembered from an empty wallet, under the key "key". */
  function Remembered(remembered: nat): State {
    var receipt := AcquireResult(Executed, remembered, 0);
    State([Job(Params(remembered, Some("key"), false), Fulfilled(receipt))],
          map["key" := Entry(receipt, IDEMPOTENCY_WINDOW_MS)], remembered, [])
  }

  lemma RunForRemembered(remembered: nat) returns (run: seq<State>, events: seq<Event>)
    requires remembered > 0
    ensures |events| == 6 && IsRun(0, run, events) && FaithfulRun(run, events) && Sighted(events)
    ensures run[6] == Remembered(remembered)
  {
    var p := Params(remembered, Some("key"), false);
    var s1 := Initial(0).(jobs := [Job(p, Queued)]);
    var s2 := s1.(jobs := [Job(p, Reading)]);
    var s3 := s1.(jobs := [Job(p, Routing(0))]);
    var s4 := s1.(jobs := [Job(p, Executing(0))]);
    var s5 := State([Job(p, Credited(0))], map[], remembered, []);
    run := [Initial(0), s1, s2, s3, s4, s5, Remembered(remembered)];
    events := [Acquire(p, 0), Start(0), ReadBalance(0, true, true), Route(0, true), Execute(0, true, remembered), Return(0, 0)];
    forall i | 0 <= i < |events|
      ensures WellFormed(run[i]) && Enabled(run[i], events[i]) && Faithful(run[i], events[i]) && run[i + 1] == Next(run[i], events[i])
    {
      if i == 0 {} else if i == 1 {} else if i == 2 {} else if i == 3 {} else if i == 4 {} else {}
    }
  }

  /** The remembered run, then a call for a larger target under the same key. */
  lemma LargerTargetIsAnswered(t: int, remembered: int) returns (run: seq<State>, events: seq<Event>)
    requires 0 < remembered < t
    ensures AnsweredWith(0, run, events, 6, t, remembered) && run[6].balance == remembered && run[7].jobs == run[6].jobs
  {
    var run0, events0 := RunForRemembered(remembered);
    var again := Acquire(Params(t, Some("key"), false), 0);
    run, events := run0 + [Next(run0[6], again)], events0 + [again];
  }

  // ---------------------------------------------------------------- BalanceSheetStrategy

  datatype Path = Swap | Oft | Pegin

  /** Holdings by path: PegBTC on GOAT, USDC on each partner chain, sats (absent: not read). */
  datatype Sheet = Sheet(pegbtc: nat, usdcByChain: map<string, nat>, sats: Option<nat>)

  /** Which paths may be used, and what their quotes ask for (None: quoting throws). */
  datatype Market = Market(allowed: seq<Path>, available: set<Path>, quote: (Path, nat) -> Option<nat>)

  datatype Decision = Chosen(path: Path, sourceIn: nat) | QuoteThrew(path: Path) | NoViablePath

  /** The path is eligible and has some funds, so its quote is asked for. */
  predicate Tried(sheet: Sheet, delta: nat, m: Market, p: Path) {
    && p in m.allowed && p in m.available
    && match p
       case Swap => sheet.pegbtc > 0
       case Oft => exists c :: c in sheet.usdcByChain && sheet.usdcByChain[c] >= delta
       case Pegin => sheet.sats.GetOr(0) > 0
  }

  /** Its quote can be paid from the holdings. */
  predicate Covered(sheet: Sheet, p: Path, sourceIn: nat) {
    match p
    case Swap => sheet.pegbtc >= sourceIn
    case Oft => true
    case Pegin => sheet.sats.GetOr(0) >= sourceIn
  }

  function TryFrom(sheet: Sheet, delta: nat, m: Market, paths: seq<Path>): Decision {
    if paths == [] then NoViablePath
    else
      var p := paths[0];
      if !Tried(sheet, delta, m, p) then TryFrom(sheet, delta, m, paths[1..])
      else
        match m.quote(p, delta)
        case None => QuoteThrew(p)
        case Some(sourceIn) =>
          if Covered(sheet, p, sourceIn) then Chosen(p, sourceIn) else TryFrom(sheet, delta, m, paths[1..])
  }

  const PRIORITY: seq<Path> := [Swap, Oft, Pegin]

  function Decide(sheet: Sheet, delta: nat, m: Market): Decision {
    TryFrom(sheet, delta, m, PRIORITY)
  }

  /** The path would be passed over: not tried, or its quote exceeds the holdings. */
  ghost predicate PassedOver(sheet: Sheet, delta: nat, m: Market, p: Path) {
    Tried(sheet, delta, m, p) ==> m.quote(p, delta).Some? && !Covered(sheet, p, m.quote(p, delta).value)
  }

  lemma {:induction false} FirstNotPassedOver(sheet: Sheet, delta: nat, m: Market, paths: seq<Path>, k: nat)
    requires k <= |paths| && forall i :: 0 <= i < k ==> PassedOver(sheet, delta, m, paths[i])
    ensures TryFrom(sheet, delta, m, paths) == TryFrom(sheet, delta, m, paths[k..])
  {
    if k > 0 {
      FirstNotPassedOver(sheet, delta, m, paths[1..], k - 1);
      assert paths[1..][k - 1..] == paths[k..];
    }
  }

  /** PegBTC is held, and swapping is allowed and set up. */
  predicate SwapTried(sheet: Sheet, m: Market) {
    Swap in m.allowed && Swap in m.available && sheet.pegbtc > 0
  }

  /** Some partner chain alone holds the USDC that is missing. */
  predicate OftTried(sheet: Sheet, delta: nat, m: Market) {
    Oft in m.allowed && Oft in m.available && exists c :: c in sheet.usdcByChain && sheet.usdcByChain[c] >= delta
  }

  predicate PeginTried(sheet: Sheet, m: Market) {
    Pegin in m.allowed && Pegin in m.available && sheet.sats.Some? && sheet.sats.value > 0
  }

  /** The decision by name: a swap that PegBTC pays for, else an OFT transfer at any quote, else a peg-in that sats
      pay for; a quote that throws in its turn decides by throwing. */
  lemma DecideByName(sheet: Sheet, delta: nat, m: Market)
    ensures var swap, pegin := m.quote(Swap, delta), m.quote(Pegin, delta);
            Decide(sheet, delta, m) ==
            if SwapTried(sheet, m) && swap.None? then QuoteThrew(Swap)
            else if SwapTried(sheet, m) && swap.value <= sheet.pegbtc then Chosen(Swap, swap.value)
            else if OftTried(sheet, delta, m) then
              (if m.quote(Oft, delta).None? then QuoteThrew(Oft) else Chosen(Oft, m.quote(Oft, delta).value))
            else if PeginTried(sheet, m) && pegin.None? then QuoteThrew(Pegin)
            else if PeginTried(sheet, m) && pegin.value <= sheet.sats.value then Chosen(Pegin, pegin.value)
            else NoViablePath
  {
    assert PRIORITY[1..] == [Oft, Pegin] && [Oft, Pegin][1..] == [Pegin] && [Pegin][1..] == [];
    assert TryFrom(sheet, delta, m, []) == NoViablePath;
    var last := TryFrom(sheet, delta, m, [Pegin]);
    var rest := TryFrom(sheet, delta, m, [Oft, Pegin]);
    assert rest == if !OftTried(sheet, delta, m) then last
                   else if m.quote(Oft, delta).None? then QuoteThrew(Oft) else Chosen(Oft, m.quote(Oft, delta).value);
  }

  /** The decision is the first path, in the order swap, oft, pegin, that is not passed over; with none,
      and only then, GOAT_NO_VIABLE_PATH. */
  lemma DecideIsFirstViable(sheet: Sheet, delta: nat, m: Market, k: nat)
    requires k <= |PRIORITY| && forall i :: 0 <= i < k ==> PassedOver(sheet, delta, m, PRIORITY[i])
    requires k < |PRIORITY| ==> !PassedOver(sheet, delta, m, PRIORITY[k])
    ensures Decide(sheet, delta, m) ==
              if k == |PRIORITY| then NoViablePath
              else match m.quote(PRIORITY[k], delta)
                   case None => QuoteThrew(PRIORITY[k])
                   case Some(sourceIn) => Chosen(PRIORITY[k], sourceIn)
    ensures Decide(sheet, delta, m).Chosen? ==>
              var d := Decide(sheet, delta, m);
              d.path in m.allowed && d.path in m.available && Covered(sheet, d.path, d.sourceIn)
  {
    FirstNotPassedOver(sheet, delta, m, PRIORITY, k);
  }
}
