/** The recorded equity curve: one truthful point per calendar day, solvent throughout. */
module EquityCurve {
  import opened Numbers
  import opened MarketData
  import opened Signals
  import opened Engine
  import opened Invariants
  import opened Fills
  import opened Calendars
  import opened RunProofs
  import opened SweepProofs
  import opened Outcomes

  // ---- Only the fourth phase writes the curve ----

  lemma {:induction false} ExecuteKeepsCurve(env: Env, d: int, st: State, orders: seq<Order>)
    ensures ExecuteAll(env, d, st, orders).curve == st.curve
    decreases |orders|
  {
    hide Sized, FillOf, Proceeds, TradeOf;
    if orders != [] {
      ExecuteKeepsCurve(env, d, ExecuteOne(env, d, st, orders[0]), orders[1..]);
    }
  }

  lemma {:induction false} ExitsKeepCurve(env: Env, d: int, selling: set<int>, st: State, ps: seq<Position>)
    ensures ExitAll(env, d, selling, st, ps).curve == st.curve
    decreases |ps|
  {
    hide Triggers, Proceeds, TradeOf;
    if ps != [] {
      ExitsKeepCurve(env, d, selling, ExitOne(env, d, selling, st, ps[0]), ps[1..]);
    }
  }

  lemma {:induction false} SignalsKeepCurve(env: Env, d: int, st: State, busy: set<int>, stocks: seq<Stock>)
    ensures SignalAll(env, d, st, busy, stocks).curve == st.curve
    ensures SignalAll(env, d, st, busy, stocks).cash == st.cash
    ensures SignalAll(env, d, st, busy, stocks).positions == st.positions
    decreases |stocks|
  {
    hide FiresOn;
    if stocks != [] {
      var (st', busy') := SignalOne(env, d, st, busy, stocks[0]);
      SignalsKeepCurve(env, d, st', busy', stocks[1..]);
    }
  }

  lemma {:induction false} DayAppendsPoint(env: Env, d: int, st: State)
    ensures Day(env, d, st).curve == st.curve + [PointOf(d, Day(env, d, st))]
  {
    hide ExecuteAll, ExitAll, SignalAll;
    var executed := ExecuteOrders(env, d, st);
    ExecuteKeepsCurve(env, d, st.(pending := []), st.pending);
    var scanned := DetectExits(env, d, executed);
    ExitsKeepCurve(env, d, IdsOn(Sell, executed.pending), executed.(positions := []), executed.positions);
    SignalsKeepCurve(env, d, scanned, PositionIds(scanned.positions) + IdsOn(Buy, scanned.pending), env.universe);
  }

  /** Point `i` of the curve is the valuation of the state after day `i`, and there is one per day. */
  lemma {:induction false} CurveIsDaily(env: Env, k: nat)
    requires k <= |DaysOf(env)|
    ensures var curve := StateAfter(env, k).curve;
            && |curve| == k
            && forall i :: 0 <= i < k ==> curve[i] == PointOf(DaysOf(env)[i], StateAfter(env, i + 1))
  {
    hide Day, StateAfter, PointOf;
    if k == 0 {
      StateAfterNone(env);
    } else {
      CurveIsDaily(env, k - 1);
      StateAfterNext(env, k - 1);
      DayAppendsPoint(env, DaysOf(env)[k - 1], StateAfter(env, k - 1));
    }
  }

  /** On the first day nothing can be held yet: the curve starts at the initial cash. */
  lemma {:induction false} CurveStartsAtInitialCash(env: Env)
    requires DaysOf(env) != []
    ensures FinalState(env).curve != [] && FinalState(env).curve[0].equity == env.cfg.pf.initialCash
  {
    hide StateAfter, FinalState, Sweeping, Liquidation, Day;
    FinalStateOk(env);
    CurveIsDaily(env, |DaysOf(env)|);
    StateAfterNone(env);
    StateAfterNext(env, 0);
    FirstDay(env, DaysOf(env)[0]);
  }

  lemma {:induction false} FirstDay(env: Env, d: int)
    ensures Day(env, d, Initial(env)).cash == env.cfg.pf.initialCash && Day(env, d, Initial(env)).positions == []
  {
    var st := DetectExits(env, d, ExecuteOrders(env, d, Initial(env)));
    hide SignalAll;
    assert st == Initial(env);
    SignalsKeepCurve(env, d, st, PositionIds(st.positions) + IdsOn(Buy, st.pending), env.universe);
  }

  // ---- Solvency ----

  lemma {:induction false} ValueNonNegative(env: Env, t: int, ps: seq<Position>)
    requires Priced(env) && forall p :: p in ps ==> PositionOk(env, t, p)
    ensures 0.0 <= MarketValue(ps)
  {
    hide PositionOk, Priced;
    if ps != [] {
      var p := ps[|ps| - 1];
      assert p in ps;
      assert forall q :: q in ps[..|ps| - 1] ==> q in ps;
      ValueNonNegative(env, t, ps[..|ps| - 1]);
      MarkNonNegative(env, t, p);
      ProductNonNegative(p.shares as real, p.lastPrice);
    }
  }

  lemma {:induction false} MarkNonNegative(env: Env, t: int, p: Position)
    requires Priced(env) && PositionOk(env, t, p)
    ensures 0.0 <= p.lastPrice && 1 <= p.shares
  {
  }

  /** In every state between two days the account is not overdrawn and the book is within its slots. */
  lemma {:induction false} SolventDaily(env: Env, k: nat)
    requires k <= |DaysOf(env)|
    ensures var st := StateAfter(env, k);
            && |st.positions| <= Max(0, env.cfg.pf.maxPositions)
            && (Priced(env) ==> 0.0 <= st.cash && 0.0 <= MarketValue(st.positions))
  {
    RunKeeps(env, k);
    var t, st := Through(env, DaysOf(env), k), StateAfter(env, k);
    InvSolvent(env, t, st);
  }

  lemma {:induction false} InvSolvent(env: Env, t: int, st: State)
    requires Inv(env, t, st)
    ensures |st.positions| <= Max(0, env.cfg.pf.maxPositions)
    ensures Priced(env) ==> 0.0 <= st.cash && 0.0 <= MarketValue(st.positions)
  {
    hide OrdersOk, PositionOk, TradesOk, History, Priced;
    if Priced(env) {
      ValueNonNegative(env, t, st.positions);
    }
  }

  /**
   Every recorded point is dated and shows the cash and the number of positions after its day; its equity is cash plus
   the value of the positions, its exposure that value in percent of the equity, or zero if there is none; it respects
   the slots and, with non-negative prices, is solvent.
   */
  lemma {:induction false} CurveIsTruthful(env: Env)
    ensures var days, curve := DaysOf(env), FinalState(env).curve;
            && |curve| == |days|
            && (forall i :: 0 <= i < |curve| ==>
                  && curve[i].date == days[i]
                  && curve[i].cash == StateAfter(env, i + 1).cash
                  && curve[i].nPositions == |StateAfter(env, i + 1).positions| <= Max(0, env.cfg.pf.maxPositions)
                  && curve[i].equity == curve[i].cash + curve[i].positionsValue
                  && curve[i].exposurePct * curve[i].equity
                     == (if curve[i].equity == 0.0 then 0.0 else 100.0 * curve[i].positionsValue)
                  && (curve[i].equity == 0.0 ==> curve[i].exposurePct == 0.0)
                  && (Priced(env) ==> 0.0 <= curve[i].cash && 0.0 <= curve[i].positionsValue))
  {
    hide FinalState, Sweeping, Liquidation, Priced, StateAfter, MarketValue, PointOf;
    FinalStateOk(env);
    CurveIsDaily(env, |DaysOf(env)|);
    forall k | 0 <= k <= |DaysOf(env)|
      ensures |StateAfter(env, k).positions| <= Max(0, env.cfg.pf.maxPositions)
      ensures Priced(env) ==> 0.0 <= StateAfter(env, k).cash && 0.0 <= MarketValue(StateAfter(env, k).positions)
    {
      SolventDaily(env, k);
    }
    forall i | 0 <= i < |DaysOf(env)|
      ensures PointShows(DaysOf(env)[i], StateAfter(env, i + 1), FinalState(env).curve[i])
    {
      PointIs(DaysOf(env)[i], StateAfter(env, i + 1));
    }
  }

  /** `p` shows the account and the book of `st` on day `d`. */
  ghost predicate PointShows(d: int, st: State, p: EquityPoint) {
    && p.date == d && p.cash == st.cash && p.nPositions == |st.positions|
    && p.positionsValue == MarketValue(st.positions) && p.equity == p.cash + p.positionsValue
    && p.exposurePct * p.equity == (if p.equity == 0.0 then 0.0 else 100.0 * p.positionsValue)
    && (p.equity == 0.0 ==> p.exposurePct == 0.0)
  }

  lemma {:induction false} PointIs(d: int, st: State)
    ensures PointShows(d, st, PointOf(d, st))
  {
    var p := PointOf(d, st);
    hide MarketValue;
    if p.equity != 0.0 {
      DivideMultiply(p.positionsValue, p.equity);
    }
  }

  /** Cash is never negative, during the run or after the sweep. */
  lemma {:induction false} CashNeverNegative(env: Env)
    requires Priced(env)
    ensures 0.0 <= FinalState(env).cash
    ensures forall k :: 0 <= k <= |DaysOf(env)| ==> 0.0 <= StateAfter(env, k).cash
  {
    hide FinalState, Sweepable, FinalTradeOk, History, Liquidation, StateAfter, Priced;
    FinalStateOk(env);
    forall k | 0 <= k <= |DaysOf(env)| ensures 0.0 <= StateAfter(env, k).cash {
      SolventDaily(env, k);
    }
  }

  /**
   The final cash is the last recorded cash plus the last recorded value of the positions less one fee on it, however
   many positions the sweep closes and whether or not they were waiting for a sale.
   */
  lemma {:induction false} SettlementIdentity(env: Env)
    requires DaysOf(env) != []
    ensures var curve := FinalState(env).curve;
            && curve != []
            && FinalState(env).cash
               == curve[|curve| - 1].cash + (1.0 - (env.cfg.cost.brokeragePct + env.cfg.cost.taxPct) / 100.0)
                                            * curve[|curve| - 1].positionsValue
  {
    hide FinalState, Sweeping, StateAfter, MarketValue;
    FinalStateOk(env);
    CurveIsDaily(env, |DaysOf(env)|);
  }
}
