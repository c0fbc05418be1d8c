/** src/agent/pricing.ts: surge pricing over a sliding window that is pruned and extended on every call. */
module SurgePricing {
  import opened JsValues

  function Recent(times: seq<int>, now: int, windowMs: int): (r: seq<int>)
    ensures |r| <= |times|
  {
    if times == [] then []
    else
      var rest := Recent(times[..|times| - 1], now, windowMs);
      var t := times[|times| - 1];
      if now - t < windowMs then rest + [t] else rest
  }

  /** The window after calls at these times. */
  function Window(calls: seq<int>, windowMs: int): seq<int> {
    if calls == [] then []
    else
      var now := calls[|calls| - 1];
      Recent(Window(calls[..|calls| - 1], windowMs), now, windowMs) + [now]
  }

  predicate NeverGoesBack(calls: seq<int>) {
    forall i, j :: 0 <= i < j < |calls| ==> calls[i] <= calls[j]
  }

  /** How many of the first n calls lie inside the window that ends now. */
  function Earlier(calls: seq<int>, n: nat, now: int, windowMs: int): nat
    requires n <= |calls|
  {
    if n == 0 then 0 else Earlier(calls, n - 1, now, windowMs) + if now - calls[n - 1] < windowMs then 1 else 0
  }

  /** No call inside the window that ends now lay outside the window of a call after it. */
  predicate NoneDropped(calls: seq<int>, windowMs: int)
    requires calls != []
  {
    var n := |calls| - 1;
    forall i, j :: 0 <= i < j < n && calls[n] - calls[i] < windowMs ==> calls[j] - calls[i] < windowMs
  }

  class DemandStrategy {
    const windowMs: int
    const surgeThreshold: int
    const surgeMultiplier: real
    var window: seq<int>
    ghost var calls: seq<int>   // the time of every call so far

    constructor (windowMs: Option<int>, threshold: Option<int>, multiplier: Option<real>)
      ensures this.windowMs == windowMs.GetOr(60_000) && surgeThreshold == threshold.GetOr(100)
      ensures surgeMultiplier == multiplier.GetOr(2.0)
      ensures window == [] && calls == [] && Valid()
    {
      this.windowMs := windowMs.GetOr(60_000);
      this.surgeThreshold := threshold.GetOr(100);
      this.surgeMultiplier := multiplier.GetOr(2.0);
      window, calls := [], [];
    }

    ghost predicate Valid()
      reads this
    {
      window == Window(calls, windowMs)
    }

    /**
     * The surge price applies exactly when the calls inside the window exceed the threshold, provided that none
     * of them was dropped at an earlier reading of the clock.
     */
    method Resolve(basePrice: real, now: int) returns (price: real)
      requires Valid()
      modifies this`window, this`calls
      ensures Valid() && calls == old(calls) + [now]
      ensures price == if |window| > surgeThreshold then basePrice * surgeMultiplier else basePrice
      ensures |window| == Earlier(calls, |calls| - 1, now, windowMs) + 1 <==> NoneDropped(calls, windowMs)
      ensures NeverGoesBack(calls) ==> NoneDropped(calls, windowMs)
    {
      var kept := [];
      for i := 0 to |window|
        invariant kept == Recent(window[..i], now, windowMs)
      {
        assert window[..i + 1][..i] == window[..i];
        if now - window[i] < windowMs {
          kept := kept + [window[i]];
        }
      }
      assert window[..|window|] == window;
      window := kept + [now];
      calls := calls + [now];
      assert calls[..|calls| - 1] == old(calls);
      WindowCountsCallsIff(calls, windowMs);
      if |window| > surgeThreshold {
        return basePrice * surgeMultiplier;
      }
      return basePrice;
    }
  }

  // ---------------------------------------------------------------- theorems

  /** The window's length counts the calls inside windowMs exactly when none of them has been dropped before. */
  lemma WindowCountsCallsIff(calls: seq<int>, windowMs: int)
    requires calls != []
    ensures var n := |calls| - 1;
            |Window(calls, windowMs)| == Earlier(calls, n, calls[n], windowMs) + 1 <==> NoneDropped(calls, windowMs)
  {
    hide Window, Earlier, Live;
    var n := |calls| - 1;
    WindowLength(calls, windowMs);
    LiveAtMost(calls, n, n, windowMs);
  }

  /** In particular in every run whose clock does not go back. */
  lemma WindowCountsCalls(calls: seq<int>, windowMs: int)
    requires NeverGoesBack(calls) && calls != []
    ensures var n := |calls| - 1;
            |Window(calls, windowMs)| == Earlier(calls, n, calls[n], windowMs) + 1
  {
    WindowCountsCallsIff(calls, windowMs);
  }

  /**
   * When the clock goes back, calls may be missing: a call, then one at least windowMs later, then a reading
   * before that one but inside the first call's window.
   */
  lemma ClockGoingBackLosesCalls(first: int, second: int, third: int, windowMs: int)
    requires second - first >= windowMs > third - first
    ensures var calls := [first, second, third];
            |Window(calls, windowMs)| < Earlier(calls, 2, third, windowMs) + 1
  {
    hide Window, Earlier, Live;
    var calls := [first, second, third];
    assert calls[2] - calls[0] < windowMs <= calls[1] - calls[0];
    WindowCountsCallsIff(calls, windowMs);
    WindowLength(calls, windowMs);
    LiveAtMost(calls, 2, 2, windowMs);
  }

  // ---------------------------------------------------------------- proofs

  /** Call i has been inside the window of every call after it and before call n. */
  predicate Survives(calls: seq<int>, i: nat, n: nat, windowMs: int)
    requires i < |calls| && n <= |calls|
  {
    forall j :: i < j < n ==> calls[j] - calls[i] < windowMs
  }

  /** The survivors among the first m calls. */
  function Live(calls: seq<int>, m: nat, n: nat, windowMs: int): seq<int>
    requires m <= n <= |calls|
  {
    if m == 0 then []
    else Live(calls, m - 1, n, windowMs) + if Survives(calls, m - 1, n, windowMs) then [calls[m - 1]] else []
  }

  lemma RecentAppend(times: seq<int>, t: int, now: int, windowMs: int)
    ensures Recent(times + [t], now, windowMs) == Recent(times, now, windowMs) + if now - t < windowMs then [t] else []
  {
    assert (times + [t])[..|times|] == times;
  }

  lemma SurvivesOneMore(calls: seq<int>, i: nat, n: nat, windowMs: int)
    requires i < n < |calls|
    ensures Survives(calls, i, n + 1, windowMs) <==> Survives(calls, i, n, windowMs) && calls[n] - calls[i] < windowMs
  {
  }

  lemma {:induction false} PruneLive(calls: seq<int>, m: nat, n: nat, windowMs: int)
    requires m <= n < |calls|
    ensures Recent(Live(calls, m, n, windowMs), calls[n], windowMs) == Live(calls, m, n + 1, windowMs)
  {
    hide Survives, Recent;
    if m == 0 {
      RecentOfNone(calls[n], windowMs);
    } else {
      PruneLive(calls, m - 1, n, windowMs);
      SurvivesOneMore(calls, m - 1, n, windowMs);
      var live := Live(calls, m - 1, n, windowMs);
      RecentAppend(live, calls[m - 1], calls[n], windowMs);
      assert live + [] == live && Live(calls, m - 1, n + 1, windowMs) + [] == Live(calls, m - 1, n + 1, windowMs);
    }
  }

  lemma RecentOfNone(now: int, windowMs: int)
    ensures Recent([], now, windowMs) == []
  {
  }

  lemma {:induction false} WindowIsLive(calls: seq<int>, n: nat, windowMs: int)
    requires n <= |calls|
    ensures Window(calls[..n], windowMs) == Live(calls, n, n, windowMs)
  {
    if n > 0 {
      assert calls[..n][..n - 1] == calls[..n - 1];
      WindowIsLive(calls, n - 1, windowMs);
      PruneLive(calls, n - 1, n - 1, windowMs);
    }
  }

  lemma WindowLength(calls: seq<int>, windowMs: int)
    requires calls != []
    ensures var n := |calls| - 1;
            |Window(calls, windowMs)| == |Live(calls, n, n + 1, windowMs)| + 1
  {
    hide Window;
    var n := |calls| - 1;
    WindowIsLive(calls, n + 1, windowMs);
    assert calls[..n + 1] == calls;
    assert Survives(calls, n, n + 1, windowMs);
  }

  /** The survivors are among the calls inside the window, and are all of them exactly if none was dropped. */
  lemma {:induction false} LiveAtMost(calls: seq<int>, m: nat, n: nat, windowMs: int)
    requires m <= n < |calls|
    ensures |Live(calls, m, n + 1, windowMs)| <= Earlier(calls, m, calls[n], windowMs)
    ensures |Live(calls, m, n + 1, windowMs)| == Earlier(calls, m, calls[n], windowMs) <==>
              forall i, j :: 0 <= i < m && i < j < n && calls[n] - calls[i] < windowMs ==> calls[j] - calls[i] < windowMs
  {
    if m > 0 {
      LiveAtMost(calls, m - 1, n, windowMs);
      SurvivesOneMore(calls, m - 1, n, windowMs);
    }
  }
}
