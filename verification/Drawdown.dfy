/** Maximum drawdown: the running-maximum form against the definition over all pairs of days. */
module Drawdown {
  import opened Numbers
  import opened MarketData
  import opened Engine
  import opened Invariants
  import opened Calendars
  import opened Outcomes
  import opened EquityCurve

  /** `eq.cummax()` at index `j`. */
  function RunningMax(eq: seq<real>, j: nat): (m: real)
    requires j < |eq|
  {
    if j == 0 then eq[0]
    else
      var before := RunningMax(eq, j - 1);
      if before < eq[j] then eq[j] else before
  }

  /** The change from `base` to `value` in percent. */
  function ChangePct(value: real, base: real): real
    requires base != 0.0
  {
    (value / base - 1.0) * 100.0
  }

  /** An equity curve that starts positive and never turns negative. */
  ghost predicate Drawable(eq: seq<real>) {
    0 < |eq| && 0.0 < eq[0] && forall i :: 0 <= i < |eq| ==> 0.0 <= eq[i]
  }

  /** The running maximum is a value of the curve and none before it is larger. */
  lemma {:induction false} RunningMaxIs(eq: seq<real>, j: nat)
    requires Drawable(eq) && j < |eq|
    ensures 0.0 < RunningMax(eq, j)
    ensures forall i :: 0 <= i <= j ==> eq[i] <= RunningMax(eq, j)
    ensures exists i :: 0 <= i <= j && eq[i] == RunningMax(eq, j)
  {
    if 0 < j {
      RunningMaxIs(eq, j - 1);
    }
  }

  /** `drawdown.min()` over the first `n` days. */
  function MinDrawdown(eq: seq<real>, n: nat): (r: real)
    requires Drawable(eq) && 1 <= n <= |eq|
  {
    RunningMaxIs(eq, n - 1);
    var today := ChangePct(eq[n - 1], RunningMax(eq, n - 1));
    if n == 1 then today
    else
      var before := MinDrawdown(eq, n - 1);
      if today < before then today else before
  }

  function MaxDrawdownPct(eq: seq<real>): real
    requires Drawable(eq)
  {
    MinDrawdown(eq, |eq|)
  }

  lemma {:induction false} LargerBaseSteeperFall(value: real, x: real, y: real)
    requires 0.0 <= value && 0.0 < x <= y
    ensures ChangePct(value, y) <= ChangePct(value, x)
  {
    DivideMultiply(value, x);
    DivideMultiply(value, y);
    if value / y > value / x {
      ScaleLess(value / x, value / y, y);
      ScaleLess(x, y, value / x);
    }
  }

  lemma {:induction false} ChangeBounds(value: real, base: real)
    requires 0.0 <= value <= base && 0.0 < base
    ensures -100.0 <= ChangePct(value, base) <= 0.0
  {
    DivideMultiply(value, base);
  }

  lemma {:induction false} QuadraticUpTo(eq: seq<real>, n: nat)
    requires Drawable(eq) && 1 <= n <= |eq|
    ensures forall i, j :: 0 <= i <= j < n && 0.0 < eq[i] ==> MinDrawdown(eq, n) <= ChangePct(eq[j], eq[i])
    ensures exists i, j :: 0 <= i <= j < n && 0.0 < eq[i] && MinDrawdown(eq, n) == ChangePct(eq[j], eq[i])
    ensures -100.0 <= MinDrawdown(eq, n) <= 0.0
  {
    var last := n - 1;
    RunningMaxIs(eq, last);
    var top := RunningMax(eq, last);
    var peak :| 0 <= peak <= last && eq[peak] == top;
    ChangeBounds(eq[last], top);
    forall i | 0 <= i <= last && 0.0 < eq[i] ensures ChangePct(eq[last], top) <= ChangePct(eq[last], eq[i]) {
      LargerBaseSteeperFall(eq[last], eq[i], top);
    }
    hide ChangePct, RunningMax;
    if 1 < n {
      QuadraticUpTo(eq, n - 1);
    }
  }

  lemma {:induction false} ChangeInPercent(pct: real, value: real, base: real)
    requires 0.0 < base
    ensures pct <= ChangePct(value, base) <==> pct * base <= 100.0 * (value - base)
    ensures pct == ChangePct(value, base) ==> pct * base == 100.0 * (value - base)
  {
    var change := ChangePct(value, base);
    ChangeTimesBase(value, base);
    hide ChangePct;
    if pct <= change {
      ScaleLess(pct, change, base);
    } else {
      ScaleLess(change, pct, base);
    }
  }

  lemma {:induction false} ChangeTimesBase(value: real, base: real)
    requires 0.0 < base
    ensures ChangePct(value, base) * base == 100.0 * (value - base)
  {
    DivideMultiply(value, base);
  }

  /** Day `j` is worth `pct` percent less or more than day `i`. */
  ghost predicate ChangesBy(eq: seq<real>, i: int, j: int, pct: real)
    requires 0 <= i < |eq| && 0 <= j < |eq|
  {
    pct * eq[i] == 100.0 * (eq[j] - eq[i])
  }

  /** From day `i` to day `j` the curve falls by no more than `pct` percent, a negative number, says. */
  ghost predicate FallsAtMost(eq: seq<real>, i: int, j: int, pct: real)
    requires 0 <= i < |eq| && 0 <= j < |eq|
  {
    pct * eq[i] <= 100.0 * (eq[j] - eq[i])
  }

  lemma {:induction false} PairInPercent(eq: seq<real>, i: int, j: int, pct: real)
    requires 0 <= i < |eq| && 0 <= j < |eq| && 0.0 < eq[i]
    ensures pct <= ChangePct(eq[j], eq[i]) <==> FallsAtMost(eq, i, j, pct)
    ensures pct == ChangePct(eq[j], eq[i]) ==> ChangesBy(eq, i, j, pct)
  {
    ChangeInPercent(pct, eq[j], eq[i]);
    hide ChangePct;
  }

  /**
   The one-pass maximum drawdown is the worst percentage change between any day and a later one: no pair falls by more,
   some pair changes by just that, and it lies between -100% and 0%.
   */
  lemma {:induction false} DrawdownIsWorstChange(eq: seq<real>)
    requires Drawable(eq)
    ensures forall i, j :: 0 <= i <= j < |eq| && 0.0 < eq[i] ==> FallsAtMost(eq, i, j, MaxDrawdownPct(eq))
    ensures exists i, j :: 0 <= i <= j < |eq| && 0.0 < eq[i] && ChangesBy(eq, i, j, MaxDrawdownPct(eq))
    ensures -100.0 <= MaxDrawdownPct(eq) <= 0.0
  {
    QuadraticUpTo(eq, |eq|);
    var worst := MaxDrawdownPct(eq);
    hide ChangePct, MinDrawdown, MaxDrawdownPct, ChangesBy, FallsAtMost;
    forall i, j | 0 <= i <= j < |eq| && 0.0 < eq[i] ensures FallsAtMost(eq, i, j, worst) {
      PairInPercent(eq, i, j, worst);
    }
    var i, j :| 0 <= i <= j < |eq| && 0.0 < eq[i] && worst == ChangePct(eq[j], eq[i]);
    PairInPercent(eq, i, j, worst);
  }

  function Equities(curve: seq<EquityPoint>): (eq: seq<real>)
    ensures |eq| == |curve|
  {
    seq(|curve|, i requires 0 <= i < |curve| => curve[i].equity)
  }

  /** With non-negative prices and some initial cash, every backtest has a drawdown between -100% and 0%. */
  lemma {:induction false} RunsHaveDrawdowns(env: Env)
    requires Priced(env) && 0.0 < env.cfg.pf.initialCash && DaysOf(env) != []
    ensures Drawable(Equities(FinalState(env).curve))
    ensures -100.0 <= MaxDrawdownPct(Equities(FinalState(env).curve)) <= 0.0
  {
    hide FinalState, DaysOf, Priced;
    CurveIsTruthful(env);
    CurveStartsAtInitialCash(env);
    DrawdownIsWorstChange(Equities(FinalState(env).curve));
  }
}
