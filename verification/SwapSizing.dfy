/**
 * src/goat/paths.ts: how `GoatDexSwap` sizes a swap. A probe with amountIn = target gives a price, the amount
 * in is target^2 / probe, and the swap must return at least the target less the slippage allowance. The pool
 * is any concave curve whose output is rounded down.
 */
module SwapSizing {
  import opened JsValues
  import opened DecimalAmounts
  import Arithmetic

  const BIPS: nat := 10_000

  datatype Error = NoLiquidity

  datatype SwapQuote = SwapQuote(usdcOut: nat, sourceIn: nat, feeWei: int, amountIn: nat)

  /** quoter(a) is what the pool gives for a. */
  function Quote(quoter: nat -> nat, target: nat, maxSlippageBps: nat): Result<SwapQuote, Error> {
    var ratio := quoter(target);
    if ratio == 0 then Err(NoLiquidity)
    else
      var amountIn := target * target / ratio;
      var amountInMax := amountIn * (BIPS + maxSlippageBps) / BIPS;
      Ok(SwapQuote(target, amountInMax, amountInMax - amountIn, amountIn))
  }

  function AmountOutMinimum(usdcOut: nat, maxSlippageBps: nat): int {
    TruncatedQuotient(usdcOut * (BIPS - maxSlippageBps), BIPS)
  }

  // ---------------------------------------------------------------- pools

  /** On [x, y] the curve does not lie below its chord. */
  predicate ChordBelow(g: real -> real, x: real, y: real, t: real) {
    0.0 <= x && 0.0 <= y && 0.0 <= t <= 1.0 ==> g(t * x + (1.0 - t) * y) >= t * g(x) + (1.0 - t) * g(y)
  }

  ghost predicate IsPool(g: real -> real) {
    g(0.0) >= 0.0 && forall x, y, t :: ChordBelow(g, x, y, t)
  }

  /** More in never means less out. */
  ghost predicate NeverFalls(g: real -> real) {
    forall x, y :: 0.0 <= x <= y ==> g(x) <= g(y)
  }

  /** The quoter answers with the curve's value, rounded down. */
  ghost predicate QuotesFloor(quoter: nat -> nat, g: real -> real) {
    forall a: nat :: quoter(a) == g(a as real).Floor
  }

  // ---------------------------------------------------------------- theorems

  /** When the probe returns at least the target, the swap falls short by less than ratio / target + 1. */
  lemma OutputNearTarget(g: real -> real, quoter: nat -> nat, target: nat, slip: nat)
    requires IsPool(g) && QuotesFloor(quoter, g) && 0 < target <= quoter(target)
    ensures Quote(quoter, target, slip).Ok?
    ensures var out := quoter(Quote(quoter, target, slip).value.amountIn);
            out as real > target as real - quoter(target) as real / target as real - 1.0
  {
    var ratio := quoter(target);
    SizedWithin(target, ratio);
    OutputOf(g, quoter, target, target * target / ratio);
  }

  lemma OutputOf(g: real -> real, quoter: nat -> nat, target: nat, a: nat)
    requires IsPool(g) && QuotesFloor(quoter, g) && 0 < target && a <= target
    requires target * target < a * quoter(target) + quoter(target)
    ensures quoter(a) as real > target as real - quoter(target) as real / target as real - 1.0
  {
    var ratio := quoter(target);
    BelowChord(g, target as real, a as real);
    SizedReal(target, ratio, a);
    CloseToTarget(target as real, ratio as real, a as real, g(a as real), g(target as real), quoter(a) as real);
  }

  lemma CloseToTarget(target: real, ratio: real, a: real, ga: real, top: real, out: real)
    requires 0.0 < target && 0.0 <= a && ga * target >= a * top && ratio <= top && ga < out + 1.0
    requires target * target < a * ratio + ratio
    ensures out > target - ratio / target - 1.0
  {
    ProductsKeepOrder(a, ratio, top);
    assert ga * target > target * target - ratio;
    Shortfall(out, ga, target, ratio);
  }

  /** So the swap meets its minimum whenever the slippage allowance covers that error. */
  lemma MeetsMinimum(g: real -> real, quoter: nat -> nat, target: nat, slip: nat)
    requires IsPool(g) && QuotesFloor(quoter, g) && 0 < target <= quoter(target)
    requires target as real * slip as real / BIPS as real >= quoter(target) as real / target as real + 1.0
    ensures quoter(Quote(quoter, target, slip).value.amountIn) >= AmountOutMinimum(target, slip)
  {
    OutputNearTarget(g, quoter, target, slip);
    MinimumIsBelow(target, slip);
  }

  /** Without liquidity there is no quote; otherwise the amount in is the target squared over the probe, rounded down,
      and no more than the target when the probe reaches it. */
  lemma AmountInIs(quoter: nat -> nat, target: nat, slip: nat)
    ensures Quote(quoter, target, slip) == Err(NoLiquidity) <==> quoter(target) == 0
    ensures quoter(target) > 0 ==>
              && Quote(quoter, target, slip).Ok?
              && var amountIn := Quote(quoter, target, slip).value.amountIn;
                 amountIn * quoter(target) <= target * target < amountIn * quoter(target) + quoter(target)
    ensures 0 < target <= quoter(target) ==> Quote(quoter, target, slip).value.amountIn <= target
  {
    if quoter(target) > 0 {
      Arithmetic.DivMod(target * target, quoter(target));
      if 0 < target <= quoter(target) {
        SizedWithin(target, quoter(target));
      }
    }
  }

  /** The least output is the target less the allowance, rounded down, and zero or less when the allowance is all of it. */
  lemma MinimumIs(target: nat, slip: nat)
    ensures slip <= 10_000 ==>
              var least := AmountOutMinimum(target, slip);
              least * 10_000 <= target * (10_000 - slip) < least * 10_000 + 10_000
    ensures slip > 10_000 ==> AmountOutMinimum(target, slip) <= 0
  {
    if slip <= 10_000 {
      ProductNotNegative(target, 10_000 - slip);
    } else {
      ProductNotNegative(target, slip - 10_000);
      assert target * (BIPS - slip) == -(target * (slip - 10_000));
    }
  }

  lemma ProductNotNegative(a: int, b: int)
    requires 0 <= a && 0 <= b
    ensures 0 <= a * b
  {
  }

  /** The maximum charged is the amount in plus the allowance on it, rounded down. */
  lemma FeeIsAllowance(quoter: nat -> nat, target: nat, slip: nat)
    requires Quote(quoter, target, slip).Ok?
    ensures var q := Quote(quoter, target, slip).value;
            && q.usdcOut == target && q.sourceIn == q.amountIn + q.feeWei && 0 <= q.feeWei
            && 10_000 * q.feeWei <= q.amountIn * slip < 10_000 * (q.feeWei + 1)
  {
    var amountIn := Quote(quoter, target, slip).value.amountIn;
    SplitAllowance(amountIn, slip);
    AddWhole(amountIn, amountIn * slip);
  }

  /** A constant-product pool with the given reserves and share of the input kept after fees is such a curve. */
  lemma ConstantProductIsPool(reserveIn: real, reserveOut: real, kept: real)
    requires reserveIn > 0.0 && reserveOut >= 0.0 && 0.0 <= kept <= 1.0
    ensures IsPool(x => ConstantProduct(reserveIn, reserveOut, kept, x))
    ensures NeverFalls(x => ConstantProduct(reserveIn, reserveOut, kept, x))
  {
    hide ConstantProduct;
    var g := x => ConstantProduct(reserveIn, reserveOut, kept, x);
    forall x, y | 0.0 <= x <= y ensures g(x) <= g(y) {
      ConstantProductRises(reserveIn, reserveOut, kept, x, y);
    }
    ConstantProductAtZero(reserveIn, reserveOut, kept);
    forall x, y, t ensures ChordBelow(g, x, y, t) {
      if 0.0 <= x && 0.0 <= y && 0.0 <= t <= 1.0 {
        ConstantProductChord(reserveIn, reserveOut, kept, x, y, t);
      }
    }
  }

  /** The same bound holds when the probe misses the target by one, if more in never means less out. */
  lemma OneBelowTarget(g: real -> real, quoter: nat -> nat, target: nat, slip: nat)
    requires IsPool(g) && NeverFalls(g) && QuotesFloor(quoter, g) && 0 < quoter(target) == target - 1
    ensures Quote(quoter, target, slip).Ok?
    ensures var out := quoter(Quote(quoter, target, slip).value.amountIn);
            out as real > target as real - quoter(target) as real / target as real - 1.0
  {
    var ratio := quoter(target);
    var a := target * target / ratio;
    SizedAbove(target, ratio);
    JustBelow(g, quoter, target, a);
    PositiveShare(ratio as real, target as real);
  }

  lemma JustBelow(g: real -> real, quoter: nat -> nat, target: nat, a: nat)
    requires NeverFalls(g) && QuotesFloor(quoter, g) && target <= a
    ensures quoter(target) <= quoter(a)
  {
    assert g(target as real) <= g(a as real);
  }

  /** The pool that gives one for one until it runs dry. */
  function Shallow(depth: real, x: real): real {
    if x < depth then x else depth
  }

  /**
   * A probe that misses the target by more promises nothing: for every such probe there is a pool whose swap
   * returns no more than the probe did, which is outside the bound.
   */
  lemma ShallowPoolFallsShort(target: nat, ratio: nat, slip: nat) returns (g: real -> real, quoter: nat -> nat)
    requires 0 < ratio < target - 1
    ensures IsPool(g) && NeverFalls(g) && QuotesFloor(quoter, g) && quoter(target) == ratio
    ensures Quote(quoter, target, slip).Ok?
    ensures quoter(Quote(quoter, target, slip).value.amountIn) == ratio
    ensures ratio as real <= target as real - ratio as real / target as real - 1.0
  {
    var depth := ratio as real;
    g := x => Shallow(depth, x);
    quoter := (a: nat) => if a < ratio then a else ratio;
    ShallowIsPool(depth);
    SizedAbove(target, ratio);
    ShareBelowOne(depth, target as real);
  }

  predicate WithinBound(out: nat, target: nat, ratio: nat)
    requires 0 < target
  {
    out as real > target as real - ratio as real / target as real - 1.0
  }

  /** Every pool with this probe returns an output within the bound. */
  ghost predicate Guaranteed(target: nat, ratio: nat, slip: nat)
    requires 0 < target
  {
    forall g, quoter :: IsPool(g) && NeverFalls(g) && QuotesFloor(quoter, g) && quoter(target) == ratio ==>
      var q := Quote(quoter, target, slip);
      q.Ok? && WithinBound(quoter(q.value.amountIn), target, ratio)
  }

  /** So the bound can be relied on exactly when the probe misses the target by at most one. */
  lemma GuaranteedIff(target: nat, ratio: nat, slip: nat)
    requires 0 < target && 0 < ratio
    ensures Guaranteed(target, ratio, slip) <==> target - 1 <= ratio
  {
    hide Quote;
    if target - 1 <= ratio {
      forall g, quoter | IsPool(g) && NeverFalls(g) && QuotesFloor(quoter, g) && quoter(target) == ratio
        ensures Quote(quoter, target, slip).Ok?
        ensures WithinBound(quoter(Quote(quoter, target, slip).value.amountIn), target, ratio)
      {
        if target <= ratio {
          OutputNearTarget(g, quoter, target, slip);
        } else {
          OneBelowTarget(g, quoter, target, slip);
        }
      }
    } else {
      var g, quoter := ShallowPoolFallsShort(target, ratio, slip);
    }
  }

  // ---------------------------------------------------------------- proofs: sizing

  lemma SizedWithin(target: nat, ratio: nat)
    requires 0 < target <= ratio
    ensures target * target / ratio <= target
    ensures target * target < (target * target / ratio) * ratio + ratio
  {
    var a := target * target / ratio;
    Arithmetic.DivMod(target * target, ratio);
    if a > target {
      Larger(target, a, ratio);
    }
  }

  lemma SizedAbove(target: nat, ratio: nat)
    requires 0 < ratio <= target
    ensures target * target / ratio >= target
  {
    Arithmetic.DivMod(target * target, ratio);
    var a := target * target / ratio;
    if a < target {
      Smaller(target, a, ratio);
    }
  }

  lemma Smaller(target: nat, a: nat, ratio: nat)
    requires 0 < ratio <= target && a < target
    ensures a * ratio + ratio <= target * target
  {
    Arithmetic.ProductMonotone(a + 1, target, ratio);
    Arithmetic.ProductMonotone(ratio, target, target);
    Arithmetic.Distribute(a, -1, ratio);
  }

  lemma PositiveShare(x: real, top: real)
    requires 0.0 < x && 0.0 < top
    ensures 0.0 < x / top
  {
  }

  lemma ShareBelowOne(x: real, top: real)
    requires 0.0 <= x < top
    ensures x / top < 1.0
  {
  }

  lemma ShallowChord(depth: real, x: real, y: real, t: real, z: real)
    requires 0.0 <= t <= 1.0 && z == t * x + (1.0 - t) * y
    ensures Shallow(depth, z) >= t * Shallow(depth, x) + (1.0 - t) * Shallow(depth, y)
  {
    var gx, gy := Shallow(depth, x), Shallow(depth, y);
    Mix(t, 1.0 - t, gx, gy, x, y);
    Mix(t, 1.0 - t, gx, gy, depth, depth);
    Whole(t, depth);
  }

  lemma Whole(t: real, x: real)
    ensures t * x + (1.0 - t) * x == x
  {
  }

  lemma Mix(t: real, m: real, a: real, b: real, x: real, y: real)
    requires 0.0 <= t && 0.0 <= m && a <= x && b <= y
    ensures t * a + m * b <= t * x + m * y
  {
    ProductsKeepOrder(t, a, x);
    ProductsKeepOrder(m, b, y);
  }

  lemma ShallowIsPool(depth: real)
    requires 0.0 < depth
    ensures IsPool(x => Shallow(depth, x)) && NeverFalls(x => Shallow(depth, x))
  {
    var g := x => Shallow(depth, x);
    forall x, y, t ensures ChordBelow(g, x, y, t) {
      if 0.0 <= x && 0.0 <= y && 0.0 <= t <= 1.0 {
        ShallowChord(depth, x, y, t, t * x + (1.0 - t) * y);
      }
    }
  }

  lemma Larger(target: nat, a: nat, ratio: nat)
    requires 0 < target <= ratio && a > target
    ensures a * ratio > target * target
  {
    assert a * ratio >= a * target;
    assert a * target > target * target;
  }

  lemma BelowChord(g: real -> real, top: real, x: real)
    requires IsPool(g) && 0.0 <= x <= top && 0.0 < top
    ensures g(x) * top >= x * g(top)
  {
    var t := x / top;
    Share(x, top);
    assert ChordBelow(g, top, 0.0, t);
    ChordAt(g, top, 0.0, t, x);
    Chord(g(x), g(top), g(0.0), t, top);
  }

  lemma ChordAt(g: real -> real, x: real, y: real, t: real, z: real)
    requires ChordBelow(g, x, y, t) && 0.0 <= x && 0.0 <= y && 0.0 <= t <= 1.0 && z == t * x + (1.0 - t) * y
    ensures g(z) >= t * g(x) + (1.0 - t) * g(y)
  {
  }

  lemma Share(x: real, top: real)
    requires 0.0 <= x <= top && 0.0 < top
    ensures 0.0 <= x / top <= 1.0 && x / top * top == x
  {
  }

  lemma Chord(gx: real, gtop: real, gzero: real, t: real, top: real)
    requires 0.0 <= t <= 1.0 && 0.0 < top && 0.0 <= gzero && gx >= t * gtop + (1.0 - t) * gzero
    ensures gx * top >= t * top * gtop
  {
    assert (1.0 - t) * gzero >= 0.0;
    assert gx >= t * gtop;
    ProductsKeepOrder(top, t * gtop, gx);
    assert top * (t * gtop) == t * top * gtop;
  }

  lemma ProductsKeepOrder(c: real, x: real, y: real)
    requires 0.0 <= c && x <= y
    ensures c * x <= c * y
  {
  }

  lemma CancelFactor(c: real, x: real, y: real)
    requires 0.0 < c && c * x > c * y
    ensures x > y
  {
    if x <= y {
      ProductsKeepOrder(c, x, y);
      assert false;
    }
  }

  lemma SizedReal(target: nat, ratio: nat, a: nat)
    requires target * target < a * ratio + ratio
    ensures target as real * target as real < a as real * ratio as real + ratio as real
  {
    assert (target * target) as real == target as real * target as real;
    assert (a * ratio) as real == a as real * ratio as real;
    assert (a * ratio + ratio) as real == (a * ratio) as real + ratio as real;
  }

  lemma Shortfall(out: real, ga: real, tr: real, r: real)
    requires tr > 0.0 && ga < out + 1.0 && ga * tr > tr * tr - r
    ensures out > tr - r / tr - 1.0
  {
    var q := r / tr;
    assert q * tr == r;
    assert tr * (tr - q) == tr * tr - q * tr;
    CancelFactor(tr, ga, tr - q);
  }

  lemma MinimumIsBelow(target: nat, slip: nat)
    ensures AmountOutMinimum(target, slip) <= 0
            || AmountOutMinimum(target, slip) as real <= target as real - target as real * slip as real / BIPS as real
  {
    var n := target * (BIPS - slip);
    if n >= 0 {
      var m := n / BIPS;
      assert BIPS * m <= n;
      assert n == target * BIPS - target * slip;
      assert (target * slip) as real == target as real * slip as real;
      assert (target * BIPS) as real == target as real * BIPS as real;
    }
  }

  lemma SplitAllowance(amountIn: nat, slip: nat)
    ensures amountIn * (BIPS + slip) == amountIn * BIPS + amountIn * slip
  {
  }

  lemma AddWhole(whole: nat, part: nat)
    ensures (whole * BIPS + part) / BIPS == whole + part / BIPS
  {
  }

  // ---------------------------------------------------------------- proofs: constant product

  function ConstantProduct(reserveIn: real, reserveOut: real, kept: real, x: real): real {
    if reserveIn + kept * x > 0.0 then reserveOut - reserveOut * reserveIn / (reserveIn + kept * x) else 0.0
  }

  lemma ConstantProductAtZero(reserveIn: real, reserveOut: real, kept: real)
    requires reserveIn > 0.0
    ensures ConstantProduct(reserveIn, reserveOut, kept, 0.0) == 0.0
  {
    assert kept * 0.0 == 0.0;
    assert reserveOut * reserveIn / reserveIn == reserveOut;
  }

  lemma ConstantProductChord(rIn: real, rOut: real, k: real, x: real, y: real, t: real)
    requires rIn > 0.0 && rOut >= 0.0 && 0.0 <= k && 0.0 <= x && 0.0 <= y && 0.0 <= t <= 1.0
    ensures ConstantProduct(rIn, rOut, k, t * x + (1.0 - t) * y)
            >= t * ConstantProduct(rIn, rOut, k, x) + (1.0 - t) * ConstantProduct(rIn, rOut, k, y)
  {
    hide ConstantProduct;
    var u, v := rIn + k * x, rIn + k * y;
    var w := t * u + (1.0 - t) * v;
    NotNegative(k, x);
    NotNegative(k, y);
    NotNegative(rOut, rIn);
    Mixed(rIn, k, x, y, t);
    Between(u, v, t);
    Reciprocals(u, v, t);
    var scale := rOut * rIn;
    ScaleReciprocals(scale, u, v, w, t);
    Weighted(rOut, scale / u, scale / v, scale / w, t);
    ConstantProductAt(rIn, rOut, k, x, u);
    ConstantProductAt(rIn, rOut, k, y, v);
    ConstantProductAt(rIn, rOut, k, t * x + (1.0 - t) * y, w);
  }

  lemma ConstantProductAt(rIn: real, rOut: real, k: real, x: real, u: real)
    requires u == rIn + k * x && u > 0.0
    ensures ConstantProduct(rIn, rOut, k, x) == rOut - rOut * rIn / u
  {
  }

  lemma ConstantProductRises(rIn: real, rOut: real, k: real, x: real, y: real)
    requires rIn > 0.0 && rOut >= 0.0 && 0.0 <= k && 0.0 <= x <= y
    ensures ConstantProduct(rIn, rOut, k, x) <= ConstantProduct(rIn, rOut, k, y)
  {
    hide ConstantProduct;
    NotNegative(k, x);
    NotNegative(rOut, rIn);
    ProductsKeepOrder(k, x, y);
    ConstantProductAt(rIn, rOut, k, x, rIn + k * x);
    ConstantProductAt(rIn, rOut, k, y, rIn + k * y);
    LargerDivisor(rOut * rIn, rIn + k * x, rIn + k * y);
  }

  lemma LargerDivisor(n: real, u: real, v: real)
    requires 0.0 <= n && 0.0 < u <= v
    ensures n / v <= n / u
  {
    var q := n / v;
    assert q * v == n && q >= 0.0;
    ProductsKeepOrder(q, u, v);
    assert q * u <= n;
    DivideInto(n, u, q);
  }

  lemma DivideInto(n: real, u: real, q: real)
    requires 0.0 < u && q * u <= n
    ensures q <= n / u
  {
  }

  lemma Mixed(rIn: real, k: real, x: real, y: real, t: real)
    ensures rIn + k * (t * x + (1.0 - t) * y) == t * (rIn + k * x) + (1.0 - t) * (rIn + k * y)
  {
    assert k * (t * x + (1.0 - t) * y) == t * (k * x) + (1.0 - t) * (k * y);
    assert t * (rIn + k * x) == t * rIn + t * (k * x);
    assert (1.0 - t) * (rIn + k * y) == (1.0 - t) * rIn + (1.0 - t) * (k * y);
  }

  lemma Between(u: real, v: real, t: real)
    requires 0.0 < u && 0.0 < v && 0.0 <= t <= 1.0
    ensures 0.0 < t * u + (1.0 - t) * v
  {
    var least := if u < v then u else v;
    Mix(t, 1.0 - t, least, least, u, v);
    Whole(t, least);
  }

  /** The reciprocal is convex. */
  lemma Reciprocals(u: real, v: real, t: real)
    requires 0.0 < u && 0.0 < v && 0.0 <= t <= 1.0 && 0.0 < t * u + (1.0 - t) * v
    ensures 1.0 / (t * u + (1.0 - t) * v) <= t / u + (1.0 - t) / v
  {
    var w := t * u + (1.0 - t) * v;
    var i, j := 1.0 / u, 1.0 / v;
    assert i * u == 1.0 && j * v == 1.0 && i > 0.0 && j > 0.0;
    var s := t * i + (1.0 - t) * j;
    assert t / u == t * i && (1.0 - t) / v == (1.0 - t) * j;
    CrossTerms(u, v, i, j, t);
    assert s * w >= 1.0;
    DivideBy(w, s);
  }

  lemma DivideBy(w: real, s: real)
    requires w > 0.0 && s * w >= 1.0
    ensures 1.0 / w <= s
  {
  }

  lemma CrossTerms(u: real, v: real, i: real, j: real, t: real)
    requires 0.0 < u && 0.0 < v && 0.0 < i && 0.0 < j && i * u == 1.0 && j * v == 1.0 && 0.0 <= t <= 1.0
    ensures (t * i + (1.0 - t) * j) * (t * u + (1.0 - t) * v) >= 1.0
  {
    var m := 1.0 - t;
    Expand(t, m, i, j, u, v);
    AtLeastTwo(i * v, j * u, i, j, u, v);
    var z := i * v + j * u;
    NotNegative(t, m);
    ProductsKeepOrder(t * m, 2.0, z);
    Square(t, m);
  }

  lemma Expand(t: real, m: real, i: real, j: real, u: real, v: real)
    requires i * u == 1.0 && j * v == 1.0
    ensures (t * i + m * j) * (t * u + m * v) == t * t + m * m + t * m * (i * v + j * u)
  {
    var a, b := t * i, m * j;
    assert (a + b) * (t * u + m * v) == a * (t * u) + a * (m * v) + b * (t * u) + b * (m * v);
    assert a * (t * u) == t * t * (i * u);
    assert b * (m * v) == m * m * (j * v);
    assert a * (m * v) == t * m * (i * v);
    assert b * (t * u) == t * m * (j * u);
    assert t * m * (i * v) + t * m * (j * u) == t * m * (i * v + j * u);
  }

  lemma AtLeastTwo(p: real, q: real, i: real, j: real, u: real, v: real)
    requires p == i * v && q == j * u && i * u == 1.0 && j * v == 1.0
    requires 0.0 < u && 0.0 < v && 0.0 < i && 0.0 < j
    ensures p + q >= 2.0
  {
    assert p * q == 1.0 by {
      assert p * q == (i * u) * (j * v);
    }
    assert p > 0.0 && q > 0.0;
    SumAtLeastTwo(p, q);
  }

  lemma SumAtLeastTwo(p: real, q: real)
    requires p > 0.0 && q > 0.0 && p * q == 1.0
    ensures p + q >= 2.0
  {
    // with one of them below 1, (1 - p) * (1 - q) <= 0, which multiplies out to the claim
    if p < 1.0 {
      if q < 1.0 {
        ProductsKeepOrder(p, q, 1.0);
      }
      OppositeSigns(1.0 - p, 1.0 - q);
      assert (1.0 - p) * (1.0 - q) == 1.0 - p - q + p * q;
    } else {
      if q > 1.0 {
        ProductsKeepOrder(q, 1.0, p);
      }
      OppositeSigns(p - 1.0, q - 1.0);
      assert (p - 1.0) * (q - 1.0) == p * q - p - q + 1.0;
    }
  }

  lemma OppositeSigns(a: real, b: real)
    requires 0.0 <= a && b <= 0.0
    ensures a * b <= 0.0
  {
  }

  lemma NotNegative(t: real, m: real)
    requires 0.0 <= t && 0.0 <= m
    ensures 0.0 <= t * m
  {
  }

  lemma Square(t: real, m: real)
    requires m == 1.0 - t
    ensures t * t + m * m + t * m * 2.0 == 1.0
  {
  }

  lemma ScaleReciprocals(scale: real, u: real, v: real, w: real, t: real)
    requires scale >= 0.0 && 0.0 < u && 0.0 < v && 0.0 < w && 1.0 / w <= t / u + (1.0 - t) / v
    ensures scale / w <= t * (scale / u) + (1.0 - t) * (scale / v)
  {
    ProductsKeepOrder(scale, 1.0 / w, t / u + (1.0 - t) / v);
    assert scale * (1.0 / w) == scale / w;
    assert scale * (t / u + (1.0 - t) / v) == scale * (t / u) + scale * ((1.0 - t) / v);
    Regroup(scale, t, u);
    Regroup(scale, 1.0 - t, v);
  }

  lemma Regroup(scale: real, t: real, u: real)
    requires u > 0.0
    ensures scale * (t / u) == t * (scale / u)
  {
    var i := 1.0 / u;
    assert t / u == t * i && scale / u == scale * i;
    assert scale * (t * i) == t * (scale * i);
  }

  lemma Weighted(rOut: real, a: real, b: real, c: real, t: real)
    requires c <= t * a + (1.0 - t) * b
    ensures rOut - c >= t * (rOut - a) + (1.0 - t) * (rOut - b)
  {
    assert t * (rOut - a) == t * rOut - t * a;
    assert (1.0 - t) * (rOut - b) == (1.0 - t) * rOut - (1.0 - t) * b;
    assert t * rOut + (1.0 - t) * rOut == rOut;
  }
}
