/** The rules of entry, exit and cost, in the columns of a row and the percentages of the configuration. */
module Rules {
  import opened MarketData
  import opened Signals
  import opened Engine

  // ---- Entry signals ----

  ghost predicate RsiBelow35(row: Row) {
    row.rsi14.Some? && row.rsi14.value < 35.0
  }

  /** The MACD was at or below its signal line on the session before, and is above it now. */
  ghost predicate MacdRisesThrough(prev: Row, row: Row) {
    && prev.macd.Some? && prev.macdSignal.Some? && prev.macd.value <= prev.macdSignal.value
    && row.macd.Some? && row.macdSignal.Some? && row.macdSignal.value < row.macd.value
  }

  ghost predicate VolumeAtLeast(row: Row, ratio: real) {
    row.volumeSma20.Some? && 0.0 < row.volumeSma20.value && row.volumeSma20.value * ratio <= row.volume as real
  }

  /** The share of stocks above their average, zero if no stock has one, reaches the threshold. */
  ghost predicate BreadthAtLeast(universe: seq<Stock>, d: int, threshold: real) {
    var above, known := AboveAverage(universe, d), WithAverage(universe, d);
    threshold <= if known == {} then 0.0 else |above| as real / |known| as real
  }

  /** Session `k` of `s` calls for an entry. */
  ghost predicate EntryRule(env: Env, s: Stock, k: nat)
    requires k < |s.dates|
  {
    && 0 < k
    && var prev, row := s.rows[k - 1], s.rows[k];
       match env.cfg.pf.strategy
       case RsiMacdV1 => RsiBelow35(row) || MacdRisesThrough(prev, row)
       case StrictResearchV1 =>
         && RsiBelow35(row) && MacdRisesThrough(prev, row)
         && VolumeAtLeast(row, env.cfg.pf.volumeConfirmationRatio)
         && BreadthAtLeast(env.universe, s.dates[k], env.cfg.pf.breadthThreshold)
  }

  ghost predicate EntryRuleOn(env: Env, s: Stock, d: int) {
    HasSession(s, d) && EntryRule(env, s, Index(s, d))
  }

  /** A session fires exactly when it calls for an entry. */
  lemma {:induction false} FiresByRule(env: Env, s: Stock, k: nat)
    requires k < |s.dates|
    ensures Fires(env, s, k) <==> EntryRule(env, s, k)
  {
    if env.cfg.Strict() {
      BreadthIsShare(env, s.dates[k]);
    }
    hide Breadth, WithAverage, AboveAverage;
  }

  lemma {:induction false} FiresOnByRule(env: Env, s: Stock, d: int)
    ensures FiresOn(env, s, d) <==> EntryRuleOn(env, s, d)
  {
    hide Fires, EntryRule;
    if HasSession(s, d) {
      FiresByRule(env, s, Index(s, d));
    }
  }

  // ---- Exit triggers ----

  /** The low, or the close if the low is zero, has come down to the stop. */
  ghost predicate StopRule(pf: PortfolioConfig, row: Row, entryExec: real) {
    pf.stopLossPct.Some?
    && (if row.low == 0.0 then row.close else row.low) <= entryExec * (100.0 - pf.stopLossPct.value) / 100.0
  }

  /** The close has reached the target. */
  ghost predicate TargetRule(pf: PortfolioConfig, row: Row, entryExec: real) {
    entryExec * (100.0 + pf.targetReturnPct) / 100.0 <= row.close
  }

  /** An open position entered at session `entry` calls for an exit on session `k`. */
  ghost predicate ExitRule(pf: PortfolioConfig, s: Stock, entry: int, entryExec: real, k: nat)
    requires k < |s.rows|
  {
    StopRule(pf, s.rows[k], entryExec) || TargetRule(pf, s.rows[k], entryExec) || pf.holdDays <= k - entry
  }

  /** The reason on record: stop before target before time. */
  ghost predicate ReasonRule(pf: PortfolioConfig, row: Row, entryExec: real, reason: Reason) {
    && (reason == StopLoss <==> StopRule(pf, row, entryExec))
    && (reason == TargetReached <==> TargetRule(pf, row, entryExec) && !StopRule(pf, row, entryExec))
    && (reason == HoldDays <==> !TargetRule(pf, row, entryExec) && !StopRule(pf, row, entryExec))
  }

  lemma {:induction false} Hundredths(x: real, pct: real)
    ensures x * (1.0 + pct / 100.0) == x * (100.0 + pct) / 100.0
    ensures x * (1.0 - pct / 100.0) == x * (100.0 - pct) / 100.0
  {
  }

  lemma {:induction false} TriggersByRule(cfg: Config, row: Row, entryExec: real)
    ensures StopHit(cfg, row, entryExec) <==> StopRule(cfg.pf, row, entryExec)
    ensures TargetHit(cfg, row, entryExec) <==> TargetRule(cfg.pf, row, entryExec)
  {
    Hundredths(entryExec, cfg.pf.targetReturnPct);
    if cfg.pf.stopLossPct.Some? {
      Hundredths(entryExec, cfg.pf.stopLossPct.value);
    }
  }

  lemma {:induction false} ReasonByRule(cfg: Config, row: Row, entryExec: real)
    ensures ReasonRule(cfg.pf, row, entryExec, ExitReason(cfg, row, entryExec))
  {
    TriggersByRule(cfg, row, entryExec);
    hide StopHit, TargetHit, StopRule, TargetRule;
  }

  lemma {:induction false} ExitByRule(cfg: Config, s: Stock, entry: int, entryExec: real, k: nat)
    requires k < |s.rows|
    ensures Triggers(cfg, s, entry, entryExec, k) <==> ExitRule(cfg.pf, s, entry, entryExec, k)
  {
    TriggersByRule(cfg, s.rows[k], entryExec);
    hide StopHit, TargetHit, StopRule, TargetRule;
  }

  /** Implausible: a single-day return of at least 25% up or down. */
  ghost predicate Implausible(row: Row) {
    row.return1d.Some? && (0.25 <= row.return1d.value || row.return1d.value <= -0.25)
  }

  lemma {:induction false} JumpByRule(row: Row)
    ensures ReturnJump(row) <==> Implausible(row)
  {
  }

  // ---- Costs ----

  /** What `n` shares bought at a raw price take from the account: the adverse move and the fees on top. */
  function Paid(c: Costs, n: int, price: real): real {
    n as real * price * (1.0 + (c.spreadPct + c.slippagePct) / 100.0) * (1.0 + (c.brokeragePct + c.taxPct) / 100.0)
  }

  /** What `n` shares sold at a raw price bring: less the adverse move, if any, and less the fees. */
  function Received(c: Costs, n: int, price: real, adverse: bool): real {
    n as real * price * (1.0 - (if adverse then (c.spreadPct + c.slippagePct) / 100.0 else 0.0))
    * (1.0 - (c.brokeragePct + c.taxPct) / 100.0)
  }

  lemma {:induction false} Factor(n: real, price: real, move: real, fee: real)
    ensures n * (price * (1.0 + move)) + n * (price * (1.0 + move)) * fee == n * price * (1.0 + move) * (1.0 + fee)
    ensures n * (price * (1.0 + move)) == n * price * (1.0 + move)
  {
  }

  lemma {:induction false} FillByRule(cfg: Config, n: int, open: real)
    ensures var fill, move, fee := FillOf(cfg, n, open), (cfg.cost.spreadPct + cfg.cost.slippagePct) / 100.0,
                                   (cfg.cost.brokeragePct + cfg.cost.taxPct) / 100.0;
            && fill.shares == n && fill.exec == open * (1.0 + move) && fill.fee == n as real * fill.exec * fee
            && fill.slippage == n as real * open * move && fill.cashOut == Paid(cfg.cost, n, open)
  {
    Factor(n as real, open, cfg.cost.AdversePricePct(), cfg.cost.FeePct());
  }

  lemma {:induction false} ProceedsByRule(cfg: Config, p: Position, price: real, adverse: bool)
    ensures Proceeds(cfg, p, price, adverse) == Received(cfg.cost, p.shares, price, adverse)
  {
    Factor(p.shares as real, price, if adverse then -cfg.cost.AdversePricePct() else 0.0, -cfg.cost.FeePct());
  }

  // ---- Fills and sales ----

  /** The position that `n` shares bought at the open of `row` make. */
  ghost function EntryOf(c: Costs, o: Order, d: int, row: Row, n: int): Position {
    var move, fee := (c.spreadPct + c.slippagePct) / 100.0, (c.brokeragePct + c.taxPct) / 100.0;
    var exec := row.open * (1.0 + move);
    Position(o.stockId, d, o.signalDate, row.open, exec, n, n as real * exec * fee, n as real * row.open * move,
             Paid(c, n, row.open), row.close, d, Implausible(row))
  }

  /** The account and the book after `n` shares have been bought at the open of `row`. */
  ghost predicate FilledByRule(c: Costs, st: State, o: Order, d: int, row: Row, n: int, st': State) {
    && st'.cash == st.cash - Paid(c, n, row.open)
    && st'.positions == Put(st.positions, EntryOf(c, o, d, row, n))
    && st' == st.(cash := st'.cash, positions := st'.positions,
                  audit := st.audit.(entered := st.audit.entered + 1))
  }

  lemma {:induction false} BoughtByRule(cfg: Config, st: State, o: Order, d: int, row: Row, n: int)
    ensures FilledByRule(cfg.cost, st, o, d, row, n, Bought(st, NewPosition(o, d, row, FillOf(cfg, n, row.open))))
  {
    FillByRule(cfg, n, row.open);
    JumpByRule(row);
    var a, b := NewPosition(o, d, row, FillOf(cfg, n, row.open)), EntryOf(cfg.cost, o, d, row, n);
    assert a.entryExec == b.entryExec && a.entryFee == b.entryFee && a.entrySlippage == b.entrySlippage;
    assert a == b;
    hide FillOf, Paid, EntryOf, NewPosition, ReturnJump, Implausible;
  }

  /** The price of a sale: the raw one, less the adverse move if there is one. */
  function SalePrice(c: Costs, price: real, adverse: bool): real {
    price * (1.0 - (if adverse then (c.spreadPct + c.slippagePct) / 100.0 else 0.0))
  }

  /** The fees of a sale and its adverse move. */
  function SaleCosts(c: Costs, n: int, price: real, adverse: bool): real {
    n as real * SalePrice(c, price, adverse) * ((c.brokeragePct + c.taxPct) / 100.0)
    + n as real * price * (if adverse then (c.spreadPct + c.slippagePct) / 100.0 else 0.0)
  }

  /** The record of selling position `p` at a raw price. */
  function SaleOf(c: Costs, p: Position, d: int, price: real, adverse: bool, reason: Reason, flag: bool): Trade {
    var net := Received(c, p.shares, price, adverse) - p.cashPaid;
    Trade(p.stockId, p.signalDate, p.entryDate, d, p.entryOpen, p.entryExec, SalePrice(c, price, adverse), p.shares,
          p.shares as real * (price - p.entryOpen), net,
          p.entryFee + p.entrySlippage + SaleCosts(c, p.shares, price, adverse),
          if p.cashPaid == 0.0 then 0.0 else net / p.cashPaid * 100.0, reason, p.corpFlag || flag)
  }

  /** The account and the record after position `p` has been sold at a raw price. */
  ghost predicate SoldByRule(c: Costs, st: State, p: Position, d: int, price: real, adverse: bool, reason: Reason,
                             flag: bool, st': State)
  {
    && st'.cash == st.cash + Received(c, p.shares, price, adverse)
    && st'.trades == st.trades + [SaleOf(c, p, d, price, adverse, reason, flag)]
    && st' == st.(cash := st'.cash, trades := st'.trades)
  }

  lemma {:induction false} ClosedByRule(cfg: Config, st: State, p: Position, d: int, price: real, adverse: bool,
                                        reason: Reason, flag: bool)
    ensures SoldByRule(cfg.cost, st, p, d, price, adverse, reason, flag,
                       Close(cfg, st, p, d, price, adverse, reason, flag))
  {
    hide Proceeds, Received, ExitFee, ExitSlippage, ExitExec, SaleCosts, SalePrice;
    ProceedsByRule(cfg, p, price, adverse);
    ExitByPercent(cfg, p, price, adverse);
    var a, b := TradeOf(cfg, p, d, price, adverse, reason, flag), SaleOf(cfg.cost, p, d, price, adverse, reason, flag);
    assert a.exitExec == b.exitExec && a.gross == b.gross && a.net == b.net && a.costs == b.costs;
  }

  lemma {:induction false} ExitByPercent(cfg: Config, p: Position, price: real, adverse: bool)
    ensures ExitExec(cfg, price, adverse) == SalePrice(cfg.cost, price, adverse)
    ensures ExitFee(cfg, p, price, adverse) + ExitSlippage(cfg, p, price, adverse)
            == SaleCosts(cfg.cost, p.shares, price, adverse)
  {
  }

  /** A due sale takes the whole position out of the book at the open; without a position nothing happens. */
  ghost predicate SaleByRule(c: Costs, st: State, o: Order, d: int, row: Row, st': State) {
    match Find(st.positions, o.stockId)
    case Some(p) =>
      SoldByRule(c, st.(positions := Without(st.positions, o.stockId)), p, d, row.open, true, o.reason,
                 Implausible(row), st')
    case None => st' == st
  }

  lemma {:induction false} SalesByRule(env: Env, d: int, st: State, o: Order, row: Row)
    ensures SaleByRule(env.cfg.cost, st, o, d, row, FillSell(env, d, st, o, row))
  {
    JumpByRule(row);
    var held := Find(st.positions, o.stockId);
    if held.Some? {
      ClosedByRule(env.cfg, st.(positions := Without(st.positions, o.stockId)), held.value, d, row.open, true,
                   o.reason, ReturnJump(row));
    }
    hide SoldByRule, Close, ReturnJump, Implausible;
  }
}
