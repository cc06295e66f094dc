/** Money at a single fill: what sizing can spend and what a round trip earns and costs. */
module Fills {
  import opened Numbers
  import opened MarketData
  import opened Engine
  import opened Invariants
  import opened Rules

  /** The amount leaving the account is the share count times one share's price with its fee. */
  lemma {:induction false} CashOutPerShare(cfg: Config, shares: int, open: real)
    ensures FillOf(cfg, shares, open).cashOut == shares as real * UnitCost(cfg, open)
  {
  }

  lemma {:induction false} CashCap(cfg: Config, cash: real, open: real)
    requires open > 0.0
    ensures SharesByCash(cfg, cash, open) as real * UnitCost(cfg, open) <= cash
  {
    UnitCostPositive(cfg, open);
    hide UnitCost, EntryExec;
  }

  lemma {:induction false} LiquidityCap(cfg: Config, volume: int, shares: int)
    requires 1 <= shares <= SharesByLiquidity(cfg, volume)
    ensures shares as real <= volume as real * cfg.cost.liquidityLimitPct / PERCENT
  {
  }

  lemma {:induction false} FewerCostLess(shares: int, cap: int, unit: real, cash: real)
    requires shares <= cap && unit > 0.0 && cap as real * unit <= cash
    ensures shares as real * unit <= cash
  {
    ScaleLess(shares as real, cap as real, unit);
  }

  lemma {:induction false} CappedFillIsAffordable(cfg: Config, cash: real, open: real, shares: int)
    requires open > 0.0 && shares <= SharesByCash(cfg, cash, open)
    ensures FillOf(cfg, shares, open).cashOut <= cash
  {
    var unit := UnitCost(cfg, open);
    var cap := SharesByCash(cfg, cash, open);
    assert unit > 0.0 by {
      UnitCostPositive(cfg, open);
    }
    assert cap as real * unit <= cash by {
      CashCap(cfg, cash, open);
    }
    FewerCostLess(shares, cap, unit, cash);
    CashOutPerShare(cfg, shares, open);
  }

  lemma {:induction false} SizedWithinCaps(cfg: Config, st: State, row: Row)
    requires row.open > 0.0 && Sized(cfg, st, row) >= 1
    ensures Sized(cfg, st, row) <= SharesByCash(cfg, st.cash, row.open)
    ensures Sized(cfg, st, row) <= SharesByLiquidity(cfg, row.volume)
  {
  }

  /**
   The three-way floor sizing alone implies affordability, so the later comparison of the amount with the cash
   balance can never reject an order; and it respects the session's liquidity cap.
   */
  lemma {:induction false} SizedFillIsAffordable(cfg: Config, st: State, row: Row)
    requires row.open > 0.0 && Sized(cfg, st, row) >= 1
    ensures Paid(cfg.cost, Sized(cfg, st, row), row.open) <= st.cash
    ensures FillOf(cfg, Sized(cfg, st, row), row.open).cashOut <= st.cash
    ensures Sized(cfg, st, row) as real <= row.volume as real * cfg.cost.liquidityLimitPct / 100.0
  {
    SizedWithinCaps(cfg, st, row);
    CappedFillIsAffordable(cfg, st.cash, row.open, Sized(cfg, st, row));
    LiquidityCap(cfg, row.volume, Sized(cfg, st, row));
    FillByRule(cfg, Sized(cfg, st, row), row.open);
    hide Sized, FillOf, Paid;
  }

  lemma {:induction false} LargestMultiple(x: real, y: real, q: real, n: real)
    requires y > 0.0 && q * y <= x < (q + 1.0) * y
    ensures n <= q ==> n * y <= x
    ensures q + 1.0 <= n ==> x < n * y
  {
    ScaleLess(n, q, y);
    ScaleLess(q + 1.0, n, y);
  }

  lemma {:induction false} FloorDivLargest(x: real, y: real, n: int)
    requires y > 0.0
    ensures n <= FloorDiv(x, y) <==> n as real * y <= x
  {
    hide FloorDiv;
    var q := FloorDiv(x, y);
    assert (q + 1) as real == q as real + 1.0;
    LargestMultiple(x, y, q as real, n as real);
  }

  lemma {:induction false} TruncateLargest(x: real, n: int)
    requires 1 <= n
    ensures n <= Truncate(x) <==> n as real <= x
  {
  }

  /** `n` shares respect all three limits: the equity fraction, the session's liquidity, the cash at hand. */
  predicate WithinLimits(cfg: Config, st: State, row: Row, n: int) {
    var c := cfg.cost;
    && n as real * (row.open * (1.0 + (c.spreadPct + c.slippagePct) / 100.0))
       <= (st.cash + MarketValue(st.positions)) * cfg.pf.positionSizePct / 100.0
    && n as real <= row.volume as real * c.liquidityLimitPct / 100.0
    && Paid(c, n, row.open) <= st.cash
  }

  lemma {:induction false} SizeLargest(cfg: Config, equity: real, open: real, n: int)
    requires open > 0.0
    ensures n <= SharesBySize(cfg, equity, open) <==> n as real * EntryExec(cfg, open) <= NotionalTarget(cfg, equity)
  {
    UnitCostPositive(cfg, open);
    hide NotionalTarget, EntryExec, UnitCost;
    FloorDivLargest(NotionalTarget(cfg, equity), EntryExec(cfg, open), n);
  }

  lemma {:induction false} SizeInPercent(cfg: Config, equity: real, open: real, n: int)
    requires open > 0.0
    ensures n <= SharesBySize(cfg, equity, open)
            <==> n as real * (open * (1.0 + (cfg.cost.spreadPct + cfg.cost.slippagePct) / 100.0))
                 <= equity * cfg.pf.positionSizePct / 100.0
  {
    SizeLargest(cfg, equity, open, n);
    assert EntryExec(cfg, open) == open * (1.0 + (cfg.cost.spreadPct + cfg.cost.slippagePct) / 100.0);
    hide SharesBySize;
  }

  lemma {:induction false} LiquidityLargest(cfg: Config, volume: int, n: int)
    requires 1 <= n
    ensures n <= SharesByLiquidity(cfg, volume) <==> n as real <= volume as real * cfg.cost.liquidityLimitPct / PERCENT
  {
    TruncateLargest(volume as real * cfg.cost.liquidityLimitPct / PERCENT, n);
  }

  lemma {:induction false} CashLargest(cfg: Config, cash: real, open: real, n: int)
    requires open > 0.0
    ensures n <= SharesByCash(cfg, cash, open) <==> FillOf(cfg, n, open).cashOut <= cash
  {
    UnitCostPositive(cfg, open);
    CashOutPerShare(cfg, n, open);
    hide UnitCost, EntryExec, FillOf;
    FloorDivLargest(cash, UnitCost(cfg, open), n);
  }

  /** The limits in terms of the sizing functions. */
  lemma {:induction false} LimitsSplit(cfg: Config, st: State, row: Row, n: int)
    ensures WithinLimits(cfg, st, row, n)
            <==> && n as real * EntryExec(cfg, row.open) <= NotionalTarget(cfg, st.cash + MarketValue(st.positions))
                 && n as real <= row.volume as real * cfg.cost.liquidityLimitPct / PERCENT
                 && FillOf(cfg, n, row.open).cashOut <= st.cash
  {
    FillByRule(cfg, n, row.open);
    hide FillOf, Paid, MarketValue;
  }

  /** An entry buys the largest number of shares within the limits, and nothing when not even one share is. */
  lemma {:induction false} SizedIsLargest(cfg: Config, st: State, row: Row, n: int)
    requires row.open > 0.0 && 1 <= n
    ensures n <= Sized(cfg, st, row) <==> WithinLimits(cfg, st, row, n)
  {
    LimitsSplit(cfg, st, row, n);
    hide WithinLimits, EntryExec, NotionalTarget, FillOf, MarketValue, SharesBySize, SharesByLiquidity, SharesByCash;
    SizeLargest(cfg, st.cash + MarketValue(st.positions), row.open, n);
    LiquidityLargest(cfg, row.volume, n);
    CashLargest(cfg, st.cash, row.open, n);
  }

  /** The conditions under which an order due at a tradable session is filled. */
  predicate Fillable(cfg: Config, st: State, row: Row) {
    && row.open > 0.0
    && (cfg.pf.strategy == StrictResearchV1 ==> row.low < row.high)
    && cfg.cost.minLiquidityShares <= row.volume
    && WithinLimits(cfg, st, row, 1)
  }

  lemma {:induction false} FillableSize(cfg: Config, st: State, row: Row)
    requires row.open > 0.0
    ensures Fillable(cfg, st, row)
            <==> && !(cfg.Strict() && row.high <= row.low) && cfg.cost.minLiquidityShares <= row.volume
                 && 1 <= Sized(cfg, st, row)
  {
    hide WithinLimits, Sized;
    SizedIsLargest(cfg, st, row, 1);
  }

  /** A due order is filled exactly when it is fillable; otherwise it is counted once, as rejected or as dropped. */
  lemma {:induction false} OpenOutcome(cfg: Config, st: State, o: Order, d: int, row: Row)
    ensures Fillable(cfg, st, row)
            ==> && 1 <= Sized(cfg, st, row)
                && Open(cfg, st, o, d, row)
                   == Bought(st, NewPosition(o, d, row, FillOf(cfg, Sized(cfg, st, row), row.open)))
    ensures !Fillable(cfg, st, row)
            ==> Open(cfg, st, o, d, row)
                == if row.open <= 0.0 then st.(audit := st.audit.(droppedAtOpen := st.audit.droppedAtOpen + 1))
                   else Reject(st)
  {
    hide Sized, FillOf, Bought, NewPosition, WithinLimits;
    if row.open > 0.0 {
      FillableSize(cfg, st, row);
      if Fillable(cfg, st, row) {
        SizedFillIsAffordable(cfg, st, row);
      }
    }
  }

  /** `n` is the largest number of shares within the limits. */
  ghost predicate LargestWithin(cfg: Config, st: State, row: Row, n: int) {
    1 <= n && forall m :: 1 <= m ==> (WithinLimits(cfg, st, row, m) <==> m <= n)
  }

  lemma {:induction false} LargestIsSized(cfg: Config, st: State, row: Row, n: int)
    requires row.open > 0.0 && LargestWithin(cfg, st, row, n)
    ensures n == Sized(cfg, st, row)
  {
    hide WithinLimits, Sized;
    SizedIsLargest(cfg, st, row, n);
    SizedIsLargest(cfg, st, row, n + 1);
  }

  /**
   A fill buys the largest number of shares within the limits and moves the account and the book by it; an order that
   is not fillable is counted as rejected, or, at an open that is not positive, not at all.
   */
  ghost predicate EnteredByRule(cfg: Config, st: State, o: Order, d: int, row: Row, st': State) {
    if Fillable(cfg, st, row) then
      exists n: int :: LargestWithin(cfg, st, row, n) && FilledByRule(cfg.cost, st, o, d, row, n, st')
    else if row.open <= 0.0 then
      st' == st.(audit := st.audit.(droppedAtOpen := st.audit.droppedAtOpen + 1))
    else
      st' == st.(rejections := st.rejections.(insufficient := st.rejections.insufficient + 1))
  }

  lemma {:induction false} EntriesByRule(cfg: Config, st: State, o: Order, d: int, row: Row)
    ensures EnteredByRule(cfg, st, o, d, row, Open(cfg, st, o, d, row))
  {
    OpenOutcome(cfg, st, o, d, row);
    if Fillable(cfg, st, row) {
      var n := Sized(cfg, st, row);
      BoughtByRule(cfg, st, o, d, row, n);
      hide Sized, WithinLimits, FilledByRule, Open, Bought, NewPosition, FillOf;
      forall m | 1 <= m ensures WithinLimits(cfg, st, row, m) <==> m <= n {
        SizedIsLargest(cfg, st, row, m);
      }
      assert LargestWithin(cfg, st, row, n);
    }
  }

  /** A round trip in raw prices: what it earns before costs, what it costs, and what is left. */
  lemma {:induction false} RoundTrip(n: real, bought: real, sold: real, move: real, exitMove: real, fee: real)
    ensures n * (bought * (1.0 + move)) * fee + n * bought * move == n * bought * (move + (1.0 + move) * fee)
    ensures n * (sold * (1.0 - exitMove)) * fee + n * sold * exitMove
            == n * sold * (exitMove + (1.0 - exitMove) * fee)
    ensures n * sold * (1.0 - exitMove) * (1.0 - fee) - n * bought * (1.0 + move) * (1.0 + fee)
            == n * (sold - bought) - (n * bought * (move + (1.0 + move) * fee)
                                      + n * sold * (exitMove + (1.0 - exitMove) * fee))
  {
  }

  lemma {:induction false} CostsSettle(cfg: Config, p: Position, price: real, adverse: bool)
    requires PaidOk(cfg, p)
    ensures p.entryFee + p.entrySlippage + ExitFee(cfg, p, price, adverse) + ExitSlippage(cfg, p, price, adverse)
            == RoundTripCosts(cfg.cost, p.shares, p.entryOpen, price, adverse)
  {
    var c := cfg.cost;
    RoundTrip(p.shares as real, p.entryOpen, price, (c.spreadPct + c.slippagePct) / 100.0,
              if adverse then (c.spreadPct + c.slippagePct) / 100.0 else 0.0, (c.brokeragePct + c.taxPct) / 100.0);
    hide Paid;
  }

  lemma {:induction false} NetSettles(cfg: Config, p: Position, price: real, adverse: bool)
    ensures Received(cfg.cost, p.shares, price, adverse) - Paid(cfg.cost, p.shares, p.entryOpen)
            == p.shares as real * (price - p.entryOpen)
               - RoundTripCosts(cfg.cost, p.shares, p.entryOpen, price, adverse)
  {
    var c := cfg.cost;
    RoundTrip(p.shares as real, p.entryOpen, price, (c.spreadPct + c.slippagePct) / 100.0,
              if adverse then (c.spreadPct + c.slippagePct) / 100.0 else 0.0, (c.brokeragePct + c.taxPct) / 100.0);
  }

  /** Closing a position settles its trade at the raw price: net profit is gross profit less the costs. */
  lemma {:induction false} TradeSettles(cfg: Config, p: Position, d: int, price: real, applyCosts: bool,
                                        reason: Reason, corpFlag: bool)
    requires PaidOk(cfg, p)
    ensures Settled(cfg, TradeOf(cfg, p, d, price, applyCosts, reason, corpFlag), price, applyCosts)
  {
    assert p.cashPaid == Paid(cfg.cost, p.shares, p.entryOpen);
    hide PaidOk, Proceeds, Received, Paid, RoundTripCosts, ExitFee, ExitSlippage;
    ProceedsByRule(cfg, p, price, applyCosts);
    CostsSettle(cfg, p, price, applyCosts);
    NetSettles(cfg, p, price, applyCosts);
  }

  lemma {:induction false} ProductNonNegative(a: real, b: real)
    requires 0.0 <= a && 0.0 <= b
    ensures 0.0 <= a * b
  {
  }

  lemma {:induction false} ProceedsNonNegative(cfg: Config, p: Position, price: real, applyCosts: bool)
    requires cfg.cost.spreadPct + cfg.cost.slippagePct <= 100.0 && cfg.cost.brokeragePct + cfg.cost.taxPct <= 100.0
    requires 0.0 <= price && 1 <= p.shares
    ensures 0.0 <= Proceeds(cfg, p, price, applyCosts)
  {
    var exec := ExitExec(cfg, price, applyCosts);
    ProductNonNegative(price, 1.0 - cfg.cost.AdversePricePct());
    ProductNonNegative(p.shares as real, exec);
    ProductNonNegative(p.shares as real * exec, 1.0 - cfg.cost.FeePct());
  }

  lemma {:induction false} ProductSign(n: int, x: real)
    requires 1 <= n
    ensures n as real * x < 0.0 <==> x < 0.0
  {
    ScaleLess(x, 0.0, n as real);
    ScaleLess(0.0, x, n as real);
  }

  lemma {:induction false} PerShare(c: Costs, n: int, price: real, adverse: bool)
    ensures Received(c, n, price, adverse) == n as real * Received(c, 1, price, adverse)
  {
  }

  /** A close takes cash away instead of adding it exactly when one share alone would. */
  lemma {:induction false} CloseTakesCashExactlyWhen(cfg: Config, st: State, p: Position, d: int, price: real,
                                                     adverse: bool, reason: Reason, flag: bool)
    requires 1 <= p.shares
    ensures Close(cfg, st, p, d, price, adverse, reason, flag).cash < st.cash
            <==> Received(cfg.cost, 1, price, adverse) < 0.0
  {
    PerShare(cfg.cost, p.shares, price, adverse);
    ProductSign(p.shares, Received(cfg.cost, 1, price, adverse));
    ProceedsByRule(cfg, p, price, adverse);
    hide Proceeds, Received, TradeOf;
  }

  /** A synthetic close pays the fee on the position's market value and nothing else. */
  lemma {:induction false} SyntheticProceeds(cfg: Config, p: Position, price: real)
    ensures Proceeds(cfg, p, price, false)
            == (1.0 - (cfg.cost.brokeragePct + cfg.cost.taxPct) / 100.0) * (p.shares as real * price)
  {
  }
}
