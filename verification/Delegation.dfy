/**
 * src/agent/delegation.ts: trees of delegation contexts, updated in place. Amounts are exact reals.
 *
 * A manager forgets the children it hands out and what was spent. Ghost state keeps both: the list of all
 * contexts, the tree each belongs to, and the spend made at each. Books() is that list as plain values;
 * every method is tied to one step on the books, and the theorems are about all runs of such steps.
 */
module Delegation {
  import opened JsValues

  datatype Error = MaxDepth | OverBudget | Insufficient

  // tree is the position of the root that this context descends from
  datatype Entry = Entry(tree: nat, depth: nat, maxDepth: int, total: real, remaining: real, spent: real)

  class DelegationContext {
    const rootId: string
    const parentId: Option<string>
    const depth: nat
    const totalBudget: real
    var remainingBudget: real
    const maxDepth: int
    const chain: string
    ghost const tree: nat
    ghost var spent: real

    constructor (rootId: string, parentId: Option<string>, depth: nat, budget: real, maxDepth: int, chain: string,
                 ghost tree: nat)
      ensures this.rootId == rootId && this.parentId == parentId && this.chain == chain
      ensures Book() == Entry(tree, depth, maxDepth, budget, budget, 0.0)
    {
      this.rootId, this.parentId, this.depth := rootId, parentId, depth;
      this.totalBudget, this.remainingBudget := budget, budget;
      this.maxDepth, this.chain := maxDepth, chain;
      this.tree, this.spent := tree, 0.0;
    }

    ghost function Book(): Entry
      reads this
    {
      Entry(tree, depth, maxDepth, totalBudget, remainingBudget, spent)
    }
  }

  function MaxPerHop(remaining: real, percent: real): real {
    remaining * (percent / 100.0)
  }

  // ---------------------------------------------------------------- the steps on the books

  function Refusal(parent: Entry, percent: real, amount: real): Option<Error> {
    if parent.depth >= parent.maxDepth then Some(MaxDepth)
    else if amount > MaxPerHop(parent.remaining, percent) then Some(OverBudget)
    else if amount > parent.remaining then Some(Insufficient)
    else None
  }

  function WithRoot(books: seq<Entry>, maxDepth: int, budget: real): seq<Entry> {
    books + [Entry(|books|, 0, maxDepth, budget, budget, 0.0)]
  }

  function WithGrant(books: seq<Entry>, k: nat, amount: real): seq<Entry>
    requires k < |books|
  {
    var p := books[k];
    books[k := p.(remaining := p.remaining - amount)] + [Entry(p.tree, p.depth + 1, p.maxDepth, amount, amount, 0.0)]
  }

  function WithSpend(books: seq<Entry>, k: nat, amount: real): seq<Entry>
    requires k < |books|
  {
    var c := books[k];
    books[k := c.(remaining := c.remaining - amount, spent := c.spent + amount)]
  }

  datatype Op = CreateRoot(budget: real) | Delegate(k: nat, amount: real) | Spend(k: nat, amount: real)

  function Step(books: seq<Entry>, maxDepth: int, percent: real, op: Op): seq<Entry> {
    match op
    case CreateRoot(budget) => WithRoot(books, maxDepth, budget)
    case Delegate(k, amount) =>
      if k < |books| && Refusal(books[k], percent, amount).None? then WithGrant(books, k, amount) else books
    case Spend(k, amount) =>
      if k < |books| && amount <= books[k].remaining then WithSpend(books, k, amount) else books
  }

  function Run(maxDepth: int, percent: real, ops: seq<Op>): seq<Entry> {
    if ops == [] then [] else Step(Run(maxDepth, percent, ops[..|ops| - 1]), maxDepth, percent, ops[|ops| - 1])
  }

  class DelegationManager {
    const maxDepth: int
    const maxPerHopPercent: real
    var contexts: map<string, DelegationContext>
    ghost var nodes: seq<DelegationContext>

    constructor (maxDepth: Option<int>, maxPerHopPercent: Option<real>)
      ensures this.maxDepth == maxDepth.GetOr(5) && this.maxPerHopPercent == maxPerHopPercent.GetOr(80.0)
      ensures Valid() && contexts == map[] && Books() == []
    {
      this.maxDepth := maxDepth.GetOr(5);
      this.maxPerHopPercent := maxPerHopPercent.GetOr(80.0);
      contexts := map[];
      nodes := [];
    }

    ghost predicate Valid()
      reads this
    {
      forall i, j :: 0 <= i < j < |nodes| ==> nodes[i] != nodes[j]
    }

    ghost function Books(): (b: seq<Entry>)
      reads this, nodes
      ensures |b| == |nodes| && forall i :: 0 <= i < |b| ==> b[i] == nodes[i].Book()
    {
      seq(|nodes|, i requires 0 <= i < |nodes| reads this, nodes => nodes[i].Book())
    }

    /** The id is built from a clock and a random number and may repeat; then the map entry is replaced. */
    method CreateRoot(rootId: string, budget: real, chain: string) returns (ctx: DelegationContext)
      requires Valid()
      modifies this
      ensures Valid() && fresh(ctx) && nodes == old(nodes) + [ctx]
      ensures contexts == old(contexts)[rootId := ctx]
      ensures ctx.rootId == rootId && ctx.parentId == None && ctx.chain == chain
      ensures Books() == WithRoot(old(Books()), maxDepth, budget)
    {
      ctx := new DelegationContext(rootId, None, 0, budget, maxDepth, chain, |nodes|);
      contexts := contexts[rootId := ctx];
      nodes := nodes + [ctx];
    }

    /** k is the parent's position among all contexts. */
    method Delegate(parent: DelegationContext, amount: real, ghost k: nat) returns (r: Result<DelegationContext, Error>)
      requires Valid() && k < |nodes| && nodes[k] == parent
      modifies this`nodes, parent`remainingBudget
      ensures Valid()
      ensures var refusal := Refusal(old(parent.Book()), maxPerHopPercent, amount);
              match r
              case Err(e) => refusal == Some(e) && nodes == old(nodes) && Books() == old(Books())
              case Ok(child) =>
                && refusal.None? && fresh(child) && nodes == old(nodes) + [child]
                && child.rootId == parent.rootId && child.parentId == Some(parent.rootId) && child.chain == parent.chain
                && Books() == WithGrant(old(Books()), k, amount)
    {
      hide MaxPerHop;
      var maxAllowed := MaxPerHop(parent.remainingBudget, maxPerHopPercent);
      if parent.depth >= parent.maxDepth {
        return Err(MaxDepth);
      }
      if amount > maxAllowed {
        return Err(OverBudget);
      }
      if amount > parent.remainingBudget {
        return Err(Insufficient);
      }
      parent.remainingBudget := parent.remainingBudget - amount;
      var child := new DelegationContext(parent.rootId, Some(parent.rootId), parent.depth + 1, amount,
                                         parent.maxDepth, parent.chain, parent.tree);
      nodes := nodes + [child];
      return Ok(child);
    }

    method Spend(ctx: DelegationContext, amount: real, ghost k: nat) returns (ok: bool)
      requires Valid() && k < |nodes| && nodes[k] == ctx
      modifies ctx`remainingBudget, ctx`spent
      ensures Valid()
      ensures ok <==> amount <= old(ctx.remainingBudget)
      ensures Books() == if ok then WithSpend(old(Books()), k, amount) else old(Books())
    {
      if amount > ctx.remainingBudget {
        return false;
      }
      ctx.remainingBudget := ctx.remainingBudget - amount;
      ctx.spent := ctx.spent + amount;
      return true;
    }
  }

  // ---------------------------------------------------------------- what every run keeps

  function Share(e: Entry, t: nat): real {
    if e.tree == t then e.remaining + e.spent else 0.0
  }

  /** What tree t still holds anywhere plus what was spent anywhere in it. */
  function Holdings(books: seq<Entry>, t: nat): real {
    if books == [] then 0.0 else Holdings(books[..|books| - 1], t) + Share(books[|books| - 1], t)
  }

  function SpentIn(books: seq<Entry>, t: nat): real {
    if books == [] then 0.0
    else
      var e := books[|books| - 1];
      SpentIn(books[..|books| - 1], t) + if e.tree == t then e.spent else 0.0
  }

  predicate IsRoot(books: seq<Entry>, t: nat) {
    t < |books| && books[t].tree == t
  }

  /** Every context belongs to the tree of a root, and no delegated context is deeper than its limit. */
  predicate Rooted(books: seq<Entry>) {
    && (forall i :: 0 <= i < |books| ==> IsRoot(books, books[i].tree))
    && (forall i :: 0 <= i < |books| ==> books[i].depth == 0 || books[i].depth <= books[i].maxDepth)
  }

  ghost predicate Conserved(books: seq<Entry>) {
    forall t: nat :: IsRoot(books, t) ==> Holdings(books, t) == books[t].total
  }

  /** No budget and no spend is negative, and no context has more than it was granted. */
  predicate NonNegative(books: seq<Entry>) {
    forall i :: 0 <= i < |books| ==>
      0.0 <= books[i].remaining && 0.0 <= books[i].spent && books[i].remaining + books[i].spent <= books[i].total
  }

  function Power(b: real, k: nat): real {
    if k == 0 then 1.0 else b * Power(b, k - 1)
  }

  predicate WithinDecay(granted: real, depth: nat, percent: real, root: real) {
    granted * Power(100.0, depth) <= Power(percent, depth) * root
  }

  /** At depth d a context was granted at most percent^d / 100^d of its root's budget. */
  predicate Decaying(books: seq<Entry>, percent: real) {
    forall i :: 0 <= i < |books| && IsRoot(books, books[i].tree) ==>
      WithinDecay(books[i].total, books[i].depth, percent, books[books[i].tree].total)
  }

  /** What the code does not check: an operation that takes effect has a sign that the bounds allow. */
  predicate OpKeepsBounds(books: seq<Entry>, percent: real, op: Op) {
    match op
    case CreateRoot(budget) => budget >= 0.0
    case Delegate(k, amount) => k < |books| && Refusal(books[k], percent, amount).None? ==> amount >= 0.0
    case Spend(k, amount) => k < |books| && amount <= books[k].remaining ==> amount >= -books[k].spent
  }

  /** Each operation of the run does, on the books it finds. */
  predicate OpsKeepBounds(maxDepth: int, percent: real, ops: seq<Op>) {
    ops == []
    || (var init := ops[..|ops| - 1];
        OpsKeepBounds(maxDepth, percent, init)
        && OpKeepsBounds(Run(maxDepth, percent, init), percent, ops[|ops| - 1]))
  }

  /** The books are within the bounds after every operation of the run. */
  predicate AlwaysNonNegative(maxDepth: int, percent: real, ops: seq<Op>) {
    NonNegative(Run(maxDepth, percent, ops)) && (ops == [] || AlwaysNonNegative(maxDepth, percent, ops[..|ops| - 1]))
  }

  predicate AmountsNonNegative(ops: seq<Op>) {
    forall i :: 0 <= i < |ops| ==> OpNonNegative(ops[i])
  }

  predicate OpNonNegative(op: Op) {
    match op
    case CreateRoot(budget) => budget >= 0.0
    case Delegate(_, amount) => amount >= 0.0
    case Spend(_, amount) => amount >= 0.0
  }

  /** The three refusals in their order; percent of the remaining budget is the most that one hop may pass on. */
  lemma RefusalIs(parent: Entry, percent: real, amount: real)
    ensures var deep, over := parent.depth >= parent.maxDepth, amount * 100.0 > parent.remaining * percent;
            var refusal := Refusal(parent, percent, amount);
            && (refusal == Some(MaxDepth) <==> deep)
            && (refusal == Some(OverBudget) <==> !deep && over)
            && (refusal == Some(Insufficient) <==> !deep && !over && amount > parent.remaining)
            && (refusal == None <==> !deep && !over && amount <= parent.remaining)
  {
    ShareIff(parent.remaining, percent, amount);
  }

  lemma ShareIff(remaining: real, percent: real, amount: real)
    ensures amount > MaxPerHop(remaining, percent) <==> amount * 100.0 > remaining * percent
  {
    assert remaining * (percent / 100.0) * 100.0 == remaining * percent;
  }

  /** A delegation within the depth, the share and the budget, and a spend within the budget, take effect in full;
      any other changes nothing. */
  lemma StepIs(books: seq<Entry>, maxDepth: int, percent: real, op: Op)
    ensures op.CreateRoot? ==>
              Step(books, maxDepth, percent, op) == books + [Entry(|books|, 0, maxDepth, op.budget, op.budget, 0.0)]
    ensures op.Delegate? && op.k < |books| && books[op.k].depth < books[op.k].maxDepth
            && op.amount * 100.0 <= books[op.k].remaining * percent && op.amount <= books[op.k].remaining ==>
              var p := books[op.k];
              Step(books, maxDepth, percent, op) ==
              books[op.k := Entry(p.tree, p.depth, p.maxDepth, p.total, p.remaining - op.amount, p.spent)]
              + [Entry(p.tree, p.depth + 1, p.maxDepth, op.amount, op.amount, 0.0)]
    ensures op.Delegate? && op.k < |books| && !(books[op.k].depth < books[op.k].maxDepth
            && op.amount * 100.0 <= books[op.k].remaining * percent && op.amount <= books[op.k].remaining) ==>
              Step(books, maxDepth, percent, op) == books
    ensures op.Spend? && op.k < |books| ==>
              var c := books[op.k];
              Step(books, maxDepth, percent, op) ==
              if op.amount > c.remaining then books
              else books[op.k := Entry(c.tree, c.depth, c.maxDepth, c.total, c.remaining - op.amount, c.spent + op.amount)]
  {
    hide Refusal;
    if op.Delegate? && op.k < |books| {
      RefusalIs(books[op.k], percent, op.amount);
    }
  }

  /** Conservation and the depth limit hold in every run, whatever the amounts. */
  lemma {:induction false} RunConserves(maxDepth: int, percent: real, ops: seq<Op>)
    ensures var books := Run(maxDepth, percent, ops);
            Rooted(books) && Conserved(books)
  {
    hide MaxPerHop;
    if ops != [] {
      RunConserves(maxDepth, percent, ops[..|ops| - 1]);
      StepConserves(Run(maxDepth, percent, ops[..|ops| - 1]), maxDepth, percent, ops[|ops| - 1]);
    }
  }

  /** A run keeps to the bounds throughout if and only if each of its operations has an allowed sign: budgets and
      delegations are not negative, and no spend takes back more than has been spent there. */
  lemma {:induction false} RunStaysBoundedIff(maxDepth: int, percent: real, ops: seq<Op>)
    ensures AlwaysNonNegative(maxDepth, percent, ops) <==> OpsKeepBounds(maxDepth, percent, ops)
  {
    hide NonNegative, OpKeepsBounds, Step;
    NothingIsBounded(percent);
    if ops != [] {
      var init := ops[..|ops| - 1];
      RunStaysBoundedIff(maxDepth, percent, init);
      if AlwaysNonNegative(maxDepth, percent, init) {
        StepKeepsBoundsIff(Run(maxDepth, percent, init), maxDepth, percent, ops[|ops| - 1]);
      }
    }
  }

  lemma NothingIsBounded(percent: real)
    ensures NonNegative([]) && Decaying([], percent)
  {
  }

  /** And then grants shrink geometrically with depth. */
  lemma {:induction false} BoundedRunDecays(maxDepth: int, percent: real, ops: seq<Op>)
    requires percent >= 0.0 && OpsKeepBounds(maxDepth, percent, ops)
    ensures NonNegative(Run(maxDepth, percent, ops)) && Decaying(Run(maxDepth, percent, ops), percent)
  {
    hide NonNegative, OpKeepsBounds, Step, Decaying;
    RunStaysBoundedIff(maxDepth, percent, ops);
    NothingIsBounded(percent);
    if ops != [] {
      var init := ops[..|ops| - 1];
      BoundedRunDecays(maxDepth, percent, init);
      RunConserves(maxDepth, percent, init);
      StepDecays(Run(maxDepth, percent, init), maxDepth, percent, ops[|ops| - 1]);
    }
  }

  /** In particular with amounts that are not negative. */
  lemma RunStaysBounded(maxDepth: int, percent: real, ops: seq<Op>)
    requires percent >= 0.0 && AmountsNonNegative(ops)
    ensures NonNegative(Run(maxDepth, percent, ops)) && Decaying(Run(maxDepth, percent, ops), percent)
  {
    hide Decaying, NonNegative;
    SignsKeepBounds(maxDepth, percent, ops);
    BoundedRunDecays(maxDepth, percent, ops);
  }

  lemma {:induction false} SignsKeepBounds(maxDepth: int, percent: real, ops: seq<Op>)
    requires AmountsNonNegative(ops)
    ensures OpsKeepBounds(maxDepth, percent, ops)
  {
    hide NonNegative, Step, Refusal;
    if ops != [] {
      var init := ops[..|ops| - 1];
      SignsKeepBounds(maxDepth, percent, init);
      RunStaysBoundedIff(maxDepth, percent, init);
      SpentIsNonNegative(Run(maxDepth, percent, init));
      assert OpNonNegative(ops[|ops| - 1]);
    }
  }

  lemma SpentIsNonNegative(books: seq<Entry>)
    requires NonNegative(books)
    ensures forall k :: 0 <= k < |books| ==> 0.0 <= books[k].spent
  {
  }

  /** All contexts of a tree together then never spend more than the root was given. */
  lemma TreeSpendsWithinBudget(maxDepth: int, percent: real, ops: seq<Op>, t: nat)
    requires OpsKeepBounds(maxDepth, percent, ops) && IsRoot(Run(maxDepth, percent, ops), t)
    ensures var books := Run(maxDepth, percent, ops);
            0.0 <= SpentIn(books, t) <= books[t].total
  {
    RunConserves(maxDepth, percent, ops);
    RunStaysBoundedIff(maxDepth, percent, ops);
    SpentAtMostHoldings(Run(maxDepth, percent, ops), t);
  }

  /** One operation keeps to the bounds exactly when it has an allowed sign. */
  lemma StepKeepsBoundsIff(books: seq<Entry>, maxDepth: int, percent: real, op: Op)
    requires NonNegative(books)
    ensures NonNegative(Step(books, maxDepth, percent, op)) <==> OpKeepsBounds(books, percent, op)
  {
    hide MaxPerHop;
    match op
    case CreateRoot(budget) =>
      assert Step(books, maxDepth, percent, op)[|books|].remaining == budget;
    case Delegate(k, amount) =>
      if k < |books| && Refusal(books[k], percent, amount).None? {
        GrantKeepsBoundsIff(books, k, percent, amount);
      }
    case Spend(k, amount) =>
      if k < |books| && amount <= books[k].remaining {
        SpendKeepsBoundsIff(books, k, amount);
      }
  }

  lemma GrantKeepsBoundsIff(books: seq<Entry>, k: nat, percent: real, amount: real)
    requires NonNegative(books) && k < |books| && Refusal(books[k], percent, amount).None?
    ensures NonNegative(WithGrant(books, k, amount)) <==> amount >= 0.0
  {
    hide MaxPerHop;
    var after := WithGrant(books, k, amount);
    assert after[|books|].remaining == amount;
  }

  lemma SpendKeepsBoundsIff(books: seq<Entry>, k: nat, amount: real)
    requires NonNegative(books) && k < |books| && amount <= books[k].remaining
    ensures NonNegative(WithSpend(books, k, amount)) <==> amount >= -books[k].spent
  {
    var after := WithSpend(books, k, amount);
    assert after[k].spent == books[k].spent + amount;
  }

  /** A negative spend passes the only check and lifts the remaining budget above what was granted. */
  lemma NegativeSpendIsTaken(budget: real, percent: real, amount: real)
    requires budget >= 0.0 && amount < 0.0
    ensures var books := Run(1, percent, [Op.CreateRoot(budget), Op.Spend(0, amount)]);
            |books| == 1 && books[0].remaining > books[0].total && books[0].spent < 0.0
  {
    var ops := [Op.CreateRoot(budget), Op.Spend(0, amount)];
    assert ops[..1] == [Op.CreateRoot(budget)] && [Op.CreateRoot(budget)][..0] == [];
    assert Run(1, percent, ops[..1]) == WithRoot([], 1, budget);
  }

  /** A negative delegation passes every check, leaves the tree's sum alone, and drives the child below zero. */
  lemma NegativeDelegationIsGranted(budget: real, percent: real, amount: real)
    requires budget >= 0.0 && percent >= 0.0 && amount < 0.0
    ensures var books := Run(1, percent, [Op.CreateRoot(budget), Op.Delegate(0, amount)]);
            |books| == 2 && books[1].remaining < 0.0 && books[0].remaining > books[0].total
  {
    var ops := [Op.CreateRoot(budget), Op.Delegate(0, amount)];
    assert ops[..1] == [Op.CreateRoot(budget)] && [Op.CreateRoot(budget)][..0] == [];
    assert Run(1, percent, ops[..1]) == WithRoot([], 1, budget);
    assert MaxPerHop(budget, percent) >= 0.0;
  }

  // ---------------------------------------------------------------- proofs

  lemma {:induction false} NoMembers(books: seq<Entry>, t: nat)
    requires forall i :: 0 <= i < |books| ==> books[i].tree != t
    ensures Holdings(books, t) == 0.0
  {
    if books != [] {
      NoMembers(books[..|books| - 1], t);
    }
  }

  lemma HoldingsAppend(books: seq<Entry>, e: Entry, t: nat)
    ensures Holdings(books + [e], t) == Holdings(books, t) + Share(e, t)
  {
    assert (books + [e])[..|books|] == books;
  }

  lemma {:induction false} HoldingsUpdate(books: seq<Entry>, k: nat, e: Entry, t: nat)
    requires k < |books|
    ensures Holdings(books[k := e], t) == Holdings(books, t) - Share(books[k], t) + Share(e, t)
  {
    var n := |books| - 1;
    if k == n {
      assert books[k := e][..n] == books[..n];
    } else {
      assert books[k := e][..n] == books[..n][k := e];
      HoldingsUpdate(books[..n], k, e, t);
    }
  }

  lemma StepConserves(books: seq<Entry>, maxDepth: int, percent: real, op: Op)
    requires Rooted(books) && Conserved(books)
    ensures var after := Step(books, maxDepth, percent, op);
            Rooted(after) && Conserved(after)
  {
    hide MaxPerHop;
    var after := Step(books, maxDepth, percent, op);
    match op
    case CreateRoot(budget) =>
      RootConserves(books, maxDepth, budget);
    case Delegate(k, amount) =>
      if after != books {
        GrantConserves(books, k, amount);
      }
    case Spend(k, amount) =>
      if after != books {
        SpendConserves(books, k, amount);
      }
  }

  lemma RootConserves(books: seq<Entry>, maxDepth: int, budget: real)
    requires Rooted(books) && Conserved(books)
    ensures Rooted(WithRoot(books, maxDepth, budget)) && Conserved(WithRoot(books, maxDepth, budget))
  {
    var after := WithRoot(books, maxDepth, budget);
    assert forall i :: 0 <= i < |books| ==> IsRoot(books, books[i].tree) && after[i] == books[i];
    assert IsRoot(after, |books|);
    NoMembers(books, |books|);
    forall t: nat | IsRoot(after, t) ensures Holdings(after, t) == after[t].total {
      HoldingsAppend(books, after[|books|], t);
      if t < |books| {
        assert IsRoot(books, t);
      }
    }
  }

  lemma GrantConserves(books: seq<Entry>, k: nat, amount: real)
    requires Rooted(books) && Conserved(books) && k < |books| && books[k].depth < books[k].maxDepth
    ensures Rooted(WithGrant(books, k, amount)) && Conserved(WithGrant(books, k, amount))
  {
    var after := WithGrant(books, k, amount);
    var n := |books|;
    var p := books[k].(remaining := books[k].remaining - amount);
    assert forall i :: 0 <= i < n ==>
      IsRoot(books, books[i].tree) && after[i].tree == books[i].tree && after[i].total == books[i].total;
    forall i | 0 <= i <= n ensures IsRoot(after, after[i].tree) {
      assert after[i].tree == books[if i < n then i else k].tree;
    }
    forall t: nat | IsRoot(after, t) ensures Holdings(after, t) == after[t].total {
      HoldingsAppend(books[k := p], after[n], t);
      HoldingsUpdate(books, k, p, t);
      assert t < n && IsRoot(books, t);
    }
  }

  lemma SpendConserves(books: seq<Entry>, k: nat, amount: real)
    requires Rooted(books) && Conserved(books) && k < |books|
    ensures Rooted(WithSpend(books, k, amount)) && Conserved(WithSpend(books, k, amount))
  {
    var after := WithSpend(books, k, amount);
    assert forall i :: 0 <= i < |books| ==>
      IsRoot(books, books[i].tree) && after[i].tree == books[i].tree && after[i].total == books[i].total;
    forall t: nat | IsRoot(after, t) ensures Holdings(after, t) == after[t].total {
      HoldingsUpdate(books, k, after[k], t);
      assert IsRoot(books, t);
    }
  }

  lemma StepDecays(books: seq<Entry>, maxDepth: int, percent: real, op: Op)
    requires Rooted(books) && NonNegative(books) && Decaying(books, percent) && percent >= 0.0
    ensures Decaying(Step(books, maxDepth, percent, op), percent)
  {
    hide MaxPerHop, WithinDecay, Holdings;
    var after := Step(books, maxDepth, percent, op);
    forall i | 0 <= i < |after| && IsRoot(after, after[i].tree)
      ensures WithinDecay(after[i].total, after[i].depth, percent, after[after[i].tree].total)
    {
      if i < |books| {
        assert IsRoot(books, books[i].tree);
      } else {
        match op
        case CreateRoot(budget) => RootDecays(budget, percent);
        case Delegate(k, amount) =>
          assert IsRoot(books, books[k].tree);
          HopDecays(books[k].total, books[k].remaining, amount, percent, books[k].depth, books[books[k].tree].total);
      }
    }
  }

  lemma RootDecays(budget: real, percent: real)
    ensures WithinDecay(budget, 0, percent, budget)
  {
  }

  lemma HopDecays(total: real, remaining: real, amount: real, percent: real, depth: nat, root: real)
    requires 0.0 <= remaining <= total && percent >= 0.0
    requires amount <= MaxPerHop(remaining, percent) && WithinDecay(total, depth, percent, root)
    ensures WithinDecay(amount, depth + 1, percent, root)
  {
    var h, p := Power(100.0, depth), Power(percent, depth);
    PowerPositive(depth);
    ProductMonotone(remaining, total, percent / 100.0);
    assert amount <= total * (percent / 100.0);
    assert amount * 100.0 <= total * percent by {
      assert total * (percent / 100.0) * 100.0 == total * percent;
    }
    ProductMonotone(amount * 100.0, total * percent, h);
    ProductMonotone(total * h, p * root, percent);
    Reassociate(amount, total, percent, h, p, root);
  }

  lemma ProductMonotone(a: real, b: real, c: real)
    requires a <= b && c >= 0.0
    ensures a * c <= b * c
  {
  }

  lemma Reassociate(amount: real, total: real, percent: real, h: real, p: real, root: real)
    requires amount * 100.0 * h <= total * percent * h
    requires total * h * percent <= p * root * percent
    ensures amount * (100.0 * h) <= percent * p * root
  {
    assert amount * (100.0 * h) == amount * 100.0 * h;
    assert total * percent * h == total * h * percent;
    assert percent * p * root == p * root * percent;
  }

  lemma {:induction false} PowerPositive(k: nat)
    ensures Power(100.0, k) > 0.0
  {
    if k > 0 {
      PowerPositive(k - 1);
    }
  }

  lemma {:induction false} SpentAtMostHoldings(books: seq<Entry>, t: nat)
    requires NonNegative(books)
    ensures 0.0 <= SpentIn(books, t) <= Holdings(books, t)
  {
    if books != [] {
      SpentAtMostHoldings(books[..|books| - 1], t);
    }
  }
}
