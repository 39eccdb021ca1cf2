/** The numeric core of the Adapted RegulaTor relay machine: the decaying
    send-rate curve R·D^t and the doubling/halving search for an interval
    of that curve holding a given number of packets.

    The source computes in 64-bit floating point; here every quantity is an
    exact real, D^t is supplied by the caller (`Curve.pow`), and the search
    carries an iteration budget whose exhaustion stands for the
    floating-point divergence (a width that overflows to infinity). */
module IntervalSearch {
  import opened Optional

  /** The curve t ↦ initialRate · pow(decay, t). */
  datatype Curve = Curve(initialRate: real, decay: real, pow: (real, real) -> real)

  /** The search stops once the implied count is within this of the target. */
  const Tolerance: real := 0.00001

  /** The first step the search takes away from the left edge. */
  const InitialStep: real := 0.5

  /** Iterations the search may take before it is taken to diverge. In
      64-bit floating point the step overflows after about 1025 doublings;
      once the search turns back after k of them, the step, then near
      0.5·2^k, underflows to zero after about k + 1075 halvings. A run that
      neither converges nor diverges therefore ends within about
      2·1025 + 1075 = 3125 iterations, which this bound exceeds. */
  const SearchFuel: nat := 3200

  /** Packets per second at time t. */
  function Rate(c: Curve, t: real): real {
    c.initialRate * c.pow(c.decay, t)
  }

  /** The packet count an interval from `a` to `2·mid − a` is credited with:
      the rate at its midpoint times its width. */
  function ImpliedCount(c: Curve, a: real, mid: real): real {
    Rate(c, mid) * (mid - a) * 2.0
  }

  function Abs(x: real): real {
    if x < 0.0 then -x else x
  }

  /** One point of the search: the candidate midpoint, the next step, whether
      the search has turned back, and target minus implied count. */
  datatype Search = Search(mid: real, step: real, decreasing: bool, diff: real)

  function Begin(a: real, count: real): Search {
    Search(a, InitialStep, false, count - 0.0)
  }

  predicate Converged(s: Search) {
    Abs(s.diff) <= Tolerance
  }

  /** What holds at every point of the search from `a`: the difference is
      the one at the current midpoint, the step is positive and, until the
      search turns back, the midpoint lags the step by the initial step. */
  predicate Inv(c: Curve, a: real, count: real, s: Search) {
    && s.diff == count - ImpliedCount(c, a, s.mid)
    && s.step > 0.0
    && (!s.decreasing ==> s.mid - a == s.step - InitialStep)
  }

  /** One iteration: move the midpoint toward the target count, double the
      step while still growing and halve it once the search has turned. */
  function Step(c: Curve, a: real, count: real, s: Search): (r: Search)
    ensures Inv(c, a, count, s) ==> Inv(c, a, count, r)
    ensures s.decreasing ==> r.decreasing
    ensures r.decreasing <==> s.decreasing || s.diff < 0.0
    ensures r.decreasing ==> r.step == s.step / 2.0
    ensures !r.decreasing ==> r.step == s.step * 2.0
  {
    var mid := if s.diff < 0.0 then s.mid - s.step else s.mid + s.step;
    var decreasing := s.decreasing || s.diff < 0.0;
    var step := if decreasing then s.step / 2.0 else s.step * 2.0;
    Search(mid, step, decreasing, count - ImpliedCount(c, a, mid))
  }

  /** Iterate `Step` until converged, giving up after `fuel` iterations. */
  function Run(c: Curve, a: real, count: real, s: Search, fuel: nat): (r: Option<Search>)
    decreases fuel
    ensures r.Some? ==> Converged(r.value)
    ensures r.Some? && Inv(c, a, count, s) ==> Inv(c, a, count, r.value)
    ensures r.Some? && s.decreasing ==> r.value.decreasing
    ensures Converged(s) ==> r == Some(s)
  {
    if Converged(s) then Some(s)
    else if fuel == 0 then None
    else Run(c, a, count, Step(c, a, count, s), fuel - 1)
  }

  /** The search point after `n` iterations from `s`, converged or not. */
  function Iterate(c: Curve, a: real, count: real, s: Search, n: nat): Search
    decreases n
  {
    if n == 0 then s else Iterate(c, a, count, Step(c, a, count, s), n - 1)
  }

  /** The search gives up only when none of the points it visited within
      its budget has converged. */
  lemma {:induction false} RunGivesUpOnlyUnconverged(c: Curve, a: real, count: real, s: Search, fuel: nat, n: nat)
    requires Run(c, a, count, s, fuel).None? && n <= fuel
    ensures !Converged(Iterate(c, a, count, s, n))
    decreases n
  {
    if n > 0 {
      RunGivesUpOnlyUnconverged(c, a, count, Step(c, a, count, s), fuel - 1, n - 1);
    }
  }

  /** Conversely, when no point within the budget has converged the search
      gives up. */
  lemma {:induction false} RunGivesUpWhenNoneConverged(c: Curve, a: real, count: real, s: Search, fuel: nat)
    requires forall n :: 0 <= n <= fuel ==> !Converged(Iterate(c, a, count, s, n))
    ensures Run(c, a, count, s, fuel).None?
    decreases fuel
  {
    assert !Converged(Iterate(c, a, count, s, 0));
    if fuel > 0 {
      var next := Step(c, a, count, s);
      forall n | 0 <= n <= fuel - 1
        ensures !Converged(Iterate(c, a, count, next, n))
      {
        assert Iterate(c, a, count, s, n + 1) == Iterate(c, a, count, next, n);
      }
      RunGivesUpWhenNoneConverged(c, a, count, next, fuel - 1);
    }
  }

  /** The search returns the first converged point within its budget. */
  lemma {:induction false} RunStopsAtFirstConverged(c: Curve, a: real, count: real, s: Search, fuel: nat, k: nat)
    requires k <= fuel && Converged(Iterate(c, a, count, s, k))
    requires forall m :: 0 <= m < k ==> !Converged(Iterate(c, a, count, s, m))
    ensures Run(c, a, count, s, fuel) == Some(Iterate(c, a, count, s, k))
    decreases k
  {
    if k > 0 {
      var next := Step(c, a, count, s);
      assert !Converged(Iterate(c, a, count, s, 0));
      forall m | 0 <= m < k - 1
        ensures !Converged(Iterate(c, a, count, next, m))
      {
        assert Iterate(c, a, count, s, m + 1) == Iterate(c, a, count, next, m);
      }
      RunStopsAtFirstConverged(c, a, count, next, fuel - 1, k - 1);
    }
  }

  /** The interval of width `w` from `a` holds `count` packets up to the
      tolerance, counting the midpoint rate over the whole width. */
  predicate Fits(c: Curve, a: real, count: real, w: real) {
    Abs(count - Rate(c, a + w / 2.0) * w) <= Tolerance
  }

  /** Twice the distance from the left edge to the midpoint. */
  function Width(a: real, s: Search): real {
    (s.mid - a) * 2.0
  }

  /** A converged search point yields an interval whose midpoint rate times
      its width is within `Tolerance` of the target count. */
  lemma ConvergedWidth(c: Curve, a: real, count: real, s: Search, w: real)
    requires Inv(c, a, count, s) && Converged(s)
    requires w == Width(a, s)
    ensures Fits(c, a, count, w)
  {
    var d := s.mid - a;
    var r := Rate(c, s.mid);
    assert a + w / 2.0 == s.mid;
    assert r * (d * 2.0) == r * d * 2.0;
  }

  /** The search starts at the left edge, where no packet is counted yet. */
  lemma BeginInv(c: Curve, a: real, count: real)
    ensures Inv(c, a, count, Begin(a, count))
  {
    assert ImpliedCount(c, a, a) == Rate(c, a) * 0.0 * 2.0 == 0.0;
  }

  /** The width w of the interval starting at `a` whose midpoint rate times
      w is within `Tolerance` of `count`; `None` when the search diverges. */
  function IntervalWidth(c: Curve, a: real, count: real): (w: Option<real>)
    ensures w.Some? ==> Fits(c, a, count, w.value)
    ensures Abs(count) <= Tolerance ==> w == Some(0.0)
  {
    BeginInv(c, a, count);
    var r := Run(c, a, count, Begin(a, count), SearchFuel);
    if r.None? then None
    else
      ConvergedWidth(c, a, count, r.value, Width(a, r.value));
      Some(Width(a, r.value))
  }

  /** The width is missing exactly when none of the first `SearchFuel + 1`
      points of the search from the left edge has converged. */
  lemma IntervalWidthNone(c: Curve, a: real, count: real)
    ensures IntervalWidth(c, a, count).None?
        ==> forall n :: 0 <= n <= SearchFuel ==> !Converged(Iterate(c, a, count, Begin(a, count), n))
    ensures (forall n :: 0 <= n <= SearchFuel ==> !Converged(Iterate(c, a, count, Begin(a, count), n)))
        ==> IntervalWidth(c, a, count).None?
  {
    var s := Begin(a, count);
    if IntervalWidth(c, a, count).None? {
      forall n | 0 <= n <= SearchFuel
        ensures !Converged(Iterate(c, a, count, s, n))
      {
        RunGivesUpOnlyUnconverged(c, a, count, s, SearchFuel, n);
      }
    }
    if forall n :: 0 <= n <= SearchFuel ==> !Converged(Iterate(c, a, count, s, n)) {
      RunGivesUpWhenNoneConverged(c, a, count, s, SearchFuel);
    }
  }

  /** The width comes from the first converged point of the search. */
  lemma IntervalWidthAtFirstConverged(c: Curve, a: real, count: real, k: nat)
    requires k <= SearchFuel && Converged(Iterate(c, a, count, Begin(a, count), k))
    requires forall m :: 0 <= m < k ==> !Converged(Iterate(c, a, count, Begin(a, count), m))
    ensures IntervalWidth(c, a, count) == Some(Width(a, Iterate(c, a, count, Begin(a, count), k)))
  {
    RunStopsAtFirstConverged(c, a, count, Begin(a, count), SearchFuel, k);
  }

  /** The search as the source writes it: a loop over mutable variables. */
  method CalcIntervalWidth(c: Curve, a: real, count: real) returns (w: Option<real>)
    ensures w == IntervalWidth(c, a, count)
    ensures w.Some? ==> Fits(c, a, count, w.value)
  {
    var mid := a;
    var step := InitialStep;
    var decreasing := false;
    var currCount := 0.0;
    var currDiff := count - currCount;
    var fuel := SearchFuel;
    while Abs(currDiff) > Tolerance
      invariant Run(c, a, count, Search(mid, step, decreasing, currDiff), fuel)
             == Run(c, a, count, Begin(a, count), SearchFuel)
      decreases fuel
    {
      if fuel == 0 {
        return None;
      }
      ghost var next := Step(c, a, count, Search(mid, step, decreasing, currDiff));
      if currDiff < 0.0 {
        mid := mid - step;
        decreasing := true;
      } else {
        mid := mid + step;
      }
      if decreasing {
        step := step / 2.0;
      } else {
        step := step * 2.0;
      }
      currCount := ImpliedCount(c, a, mid);
      currDiff := count - currCount;
      fuel := fuel - 1;
      assert Search(mid, step, decreasing, currDiff) == next;
    }
    w := Some((mid - a) * 2.0);
  }
}
