/** The day-by-day state machine of the shared-cash portfolio backtest, as functions on its state. */
module Engine {
  import opened Numbers
  import opened MarketData
  import opened Signals

  const ENTRY_RETRY_SESSIONS := 5
  const EXIT_RETRY_SESSIONS := 10_000

  datatype Side = Buy | Sell

  datatype Reason = NoReason | StopLoss | TargetReached | HoldDays | ForcedNoFurtherData | ForcedAtEnd

  datatype Order = Order(stockId: int, side: Side, signalDate: int, targetDate: int, attemptsLeft: int,
                         reason: Reason)

  datatype Position = Position(stockId: int, entryDate: int, signalDate: int, entryOpen: real, entryExec: real,
                               shares: int, entryFee: real, entrySlippage: real, cashPaid: real,
                               lastPrice: real, lastDate: int, corpFlag: bool)

  /** A closed trade with its exact amounts; `Reported` gives the rounded record the source stores. */
  datatype Trade = Trade(stockId: int, signalDate: int, entryDate: int, exitDate: int, entryOpen: real,
                         entryExec: real, exitExec: real, shares: int, gross: real, net: real, costs: real,
                         returnPct: real, reason: Reason, corpFlag: bool)
  {
    function Reported(): Trade {
      this.(entryOpen := RoundTo(entryOpen, 10000.0), entryExec := RoundTo(entryExec, 10000.0),
            exitExec := RoundTo(exitExec, 10000.0), gross := RoundTo(gross, 100.0),
            net := RoundTo(net, 100.0), costs := RoundTo(costs, 100.0), returnPct := RoundTo(returnPct, 1000.0))
    }

    predicate Forced() {
      reason == ForcedNoFurtherData || reason == ForcedAtEnd
    }
  }

  datatype Rejections = Rejections(insufficient: nat, maxPositions: nat, alreadyOpen: nat, abandoned: nat)

  /** History counters: events the source lets pass uncounted. No step reads them. */
  datatype Audit = Audit(fired: nat, scheduled: nat, noNextSession: nat, droppedAtOpen: nat, entered: nat)

  datatype EquityPoint = EquityPoint(date: int, equity: real, cash: real, positionsValue: real,
                                     nPositions: nat, exposurePct: real)

  /** `positions` lists the dictionary's entries in insertion order. */
  datatype State = State(cash: real, positions: seq<Position>, pending: seq<Order>, trades: seq<Trade>,
                         rejections: Rejections, curve: seq<EquityPoint>, audit: Audit)

  function Initial(env: Env): State {
    State(env.cfg.pf.initialCash, [], [], [], Rejections(0, 0, 0, 0), [], Audit(0, 0, 0, 0, 0))
  }

  // ---- The position dictionary ----

  predicate Holds(ps: seq<Position>, id: int) {
    exists p :: p in ps && p.stockId == id
  }

  function Find(ps: seq<Position>, id: int): (r: Option<Position>)
    ensures r.Some? ==> r.value in ps && r.value.stockId == id
    ensures r.None? <==> !Holds(ps, id)
  {
    if ps == [] then None
    else if ps[0].stockId == id then Some(ps[0])
    else Find(ps[1..], id)
  }

  /** `positions.pop(id, None)`: the entries that remain. */
  function Without(ps: seq<Position>, id: int): (r: seq<Position>)
    ensures forall p :: p in r <==> p in ps && p.stockId != id
  {
    if ps == [] then []
    else if ps[0].stockId == id then Without(ps[1..], id)
    else [ps[0]] + Without(ps[1..], id)
  }

  /** `positions[p.stock_id] = p`: an existing entry is overwritten where it stands, a new one goes last. */
  function Put(ps: seq<Position>, p: Position): seq<Position> {
    if ps == [] then [p]
    else if ps[0].stockId == p.stockId then [p] + ps[1..]
    else [ps[0]] + Put(ps[1..], p)
  }

  function MarketValue(ps: seq<Position>): real {
    if ps == [] then 0.0
    else MarketValue(ps[..|ps| - 1]) + ps[|ps| - 1].shares as real * ps[|ps| - 1].lastPrice
  }

  function IdsOn(side: Side, orders: seq<Order>): set<int> {
    set o | o in orders && o.side == side :: o.stockId
  }

  function CountBuys(orders: seq<Order>): (n: nat)
    ensures n <= |orders|
  {
    if orders == [] then 0
    else CountBuys(orders[..|orders| - 1]) + (if orders[|orders| - 1].side == Buy then 1 else 0)
  }

  // ---- Fills ----

  /** A sized entry: what is bought at one open and what leaves the cash account. */
  datatype Fill = Fill(shares: int, exec: real, fee: real, slippage: real, cashOut: real)

  function EntryExec(cfg: Config, open: real): real {
    open * (1.0 + cfg.cost.AdversePricePct())
  }

  function FillOf(cfg: Config, shares: int, open: real): Fill {
    var exec := EntryExec(cfg, open);
    var notional := shares as real * exec;
    var fee := notional * cfg.cost.FeePct();
    Fill(shares, exec, fee, shares as real * open * cfg.cost.AdversePricePct(), notional + fee)
  }

  lemma {:induction false} ProductPositive(a: real, b: real)
    requires a > 0.0 && b > 0.0
    ensures a * b > 0.0
  {
  }

  lemma {:induction false} UnitCostPositive(cfg: Config, open: real)
    requires open > 0.0
    ensures EntryExec(cfg, open) > 0.0 && UnitCost(cfg, open) > 0.0
  {
    ProductPositive(open, 1.0 + cfg.cost.AdversePricePct());
    ProductPositive(EntryExec(cfg, open), 1.0 + cfg.cost.FeePct());
  }

  /** One share's price with its fee. */
  function UnitCost(cfg: Config, open: real): real {
    EntryExec(cfg, open) * (1.0 + cfg.cost.FeePct())
  }

  /** The fraction of the equity one position may take. */
  function NotionalTarget(cfg: Config, equity: real): real {
    equity * cfg.pf.positionSizePct / PERCENT
  }

  function SharesBySize(cfg: Config, equity: real, open: real): int
    requires open > 0.0
  {
    UnitCostPositive(cfg, open);
    FloorDiv(NotionalTarget(cfg, equity), EntryExec(cfg, open))
  }

  function SharesByLiquidity(cfg: Config, volume: int): int {
    Truncate(volume as real * cfg.cost.liquidityLimitPct / PERCENT)
  }

  function SharesByCash(cfg: Config, cash: real, open: real): int
    requires open > 0.0
  {
    UnitCostPositive(cfg, open);
    FloorDiv(cash, UnitCost(cfg, open))
  }

  /** The three-way cap on an entry: equity fraction, session liquidity, cash at hand. */
  function Sized(cfg: Config, st: State, row: Row): (shares: nat)
    requires row.open > 0.0
  {
    Max(0, Min(Min(SharesBySize(cfg, st.cash + MarketValue(st.positions), row.open),
                   SharesByLiquidity(cfg, row.volume)),
               SharesByCash(cfg, st.cash, row.open)))
  }

  function Reject(st: State): State {
    st.(rejections := st.rejections.(insufficient := st.rejections.insufficient + 1))
  }

  function NewPosition(o: Order, d: int, row: Row, fill: Fill): Position {
    Position(o.stockId, d, o.signalDate, row.open, fill.exec, fill.shares, fill.fee, fill.slippage, fill.cashOut,
             row.close, d, ReturnJump(row))
  }

  function Bought(st: State, p: Position): State {
    st.(cash := st.cash - p.cashPaid, positions := Put(st.positions, p),
        audit := st.audit.(entered := st.audit.entered + 1))
  }

  /** `open_position`. */
  function Open(cfg: Config, st: State, o: Order, d: int, row: Row): State {
    if row.open <= 0.0 then st.(audit := st.audit.(droppedAtOpen := st.audit.droppedAtOpen + 1))
    else if cfg.Strict() && row.high <= row.low then Reject(st)
    else
      var shares := Sized(cfg, st, row);
      var fill := FillOf(cfg, shares, row.open);
      if row.volume < cfg.cost.minLiquidityShares || shares < 1 then Reject(st)
      else if fill.cashOut > st.cash then Reject(st)
      else Bought(st, NewPosition(o, d, row, fill))
  }

  function ExitExec(cfg: Config, price: real, applyCosts: bool): real {
    if applyCosts then price * (1.0 - cfg.cost.AdversePricePct()) else price
  }

  function ExitFee(cfg: Config, p: Position, price: real, applyCosts: bool): real {
    p.shares as real * ExitExec(cfg, price, applyCosts) * cfg.cost.FeePct()
  }

  function ExitSlippage(cfg: Config, p: Position, price: real, applyCosts: bool): real {
    if applyCosts then p.shares as real * price * cfg.cost.AdversePricePct() else 0.0
  }

  function Proceeds(cfg: Config, p: Position, price: real, applyCosts: bool): real {
    p.shares as real * ExitExec(cfg, price, applyCosts) - ExitFee(cfg, p, price, applyCosts)
  }

  function TradeOf(cfg: Config, p: Position, d: int, price: real, applyCosts: bool, reason: Reason,
                   corpFlag: bool): Trade
  {
    var net := Proceeds(cfg, p, price, applyCosts) - p.cashPaid;
    Trade(p.stockId, p.signalDate, p.entryDate, d, p.entryOpen, p.entryExec, ExitExec(cfg, price, applyCosts),
          p.shares, p.shares as real * (price - p.entryOpen), net,
          p.entryFee + p.entrySlippage + ExitFee(cfg, p, price, applyCosts)
          + ExitSlippage(cfg, p, price, applyCosts),
          if p.cashPaid == 0.0 then 0.0 else net / p.cashPaid * 100.0, reason, p.corpFlag || corpFlag)
  }

  /** `close_position`. */
  function Close(cfg: Config, st: State, p: Position, d: int, price: real, applyCosts: bool, reason: Reason,
                 corpFlag: bool): State
  {
    st.(cash := st.cash + Proceeds(cfg, p, price, applyCosts),
        trades := st.trades + [TradeOf(cfg, p, d, price, applyCosts, reason, corpFlag)])
  }

  // ---- Phase 1: execute or retry the orders due today ----

  predicate Tradable(s: Stock, d: int) {
    HasSession(s, d) && RowAt(s, d).volume > 0
  }

  /** An order whose session does not trade: moved to the next session, abandoned, or (a sell) kept waiting. */
  function Retry(env: Env, d: int, st: State, o: Order): State {
    var next := NextDate(env, env.Series(o.stockId), d);
    var waiting := o.(attemptsLeft := o.attemptsLeft - 1);
    if next.Some? && waiting.attemptsLeft > 0 then
      st.(pending := st.pending + [waiting.(targetDate := next.value)])
    else if o.side == Buy then
      st.(rejections := st.rejections.(abandoned := st.rejections.abandoned + 1))
    else
      st.(pending := st.pending + [waiting])
  }

  function FillSell(env: Env, d: int, st: State, o: Order, row: Row): State {
    var held := Find(st.positions, o.stockId);
    if held.None? then st
    else Close(env.cfg, st.(positions := Without(st.positions, o.stockId)), held.value, d, row.open, true, o.reason,
               ReturnJump(row))
  }

  /** One round of the order loop; `st.pending` holds the orders kept so far. */
  function ExecuteOne(env: Env, d: int, st: State, o: Order): State {
    var s := env.Series(o.stockId);
    if d < o.targetDate then st.(pending := st.pending + [o])
    else if !Tradable(s, d) then Retry(env, d, st, o)
    else if o.side == Buy then Open(env.cfg, st, o, d, RowAt(s, d))
    else FillSell(env, d, st, o, RowAt(s, d))
  }

  function ExecuteAll(env: Env, d: int, st: State, orders: seq<Order>): State
    decreases |orders|
  {
    if orders == [] then st else ExecuteAll(env, d, ExecuteOne(env, d, st, orders[0]), orders[1..])
  }

  function ExecuteOrders(env: Env, d: int, st: State): State {
    ExecuteAll(env, d, st.(pending := []), st.pending)
  }

  // ---- Phase 2: detect exits ----

  function ExitReason(cfg: Config, row: Row, entryExec: real): Reason {
    if StopHit(cfg, row, entryExec) then StopLoss
    else if TargetHit(cfg, row, entryExec) then TargetReached
    else HoldDays
  }

  function Refreshed(p: Position, d: int, row: Row): Position {
    p.(lastPrice := row.close, lastDate := d, corpFlag := p.corpFlag || ReturnJump(row))
  }

  /** The source's fallback: an entry date that is no session of the stock counts as zero sessions held. */
  function EntryIndex(s: Stock, p: Position, today: int): int {
    if HasSession(s, p.entryDate) then Index(s, p.entryDate) else today
  }

  /** One round of the exit loop; `st.positions` holds the entries kept so far. */
  function ExitOne(env: Env, d: int, selling: set<int>, st: State, p: Position): State {
    var s := env.Series(p.stockId);
    if p.stockId in selling || !HasSession(s, d) then st.(positions := st.positions + [p])
    else
      var row := RowAt(s, d);
      var q := Refreshed(p, d, row);
      var next := NextDate(env, s, d);
      if !Triggers(env.cfg, s, EntryIndex(s, p, Index(s, d)), p.entryExec, Index(s, d)) then
        st.(positions := st.positions + [q])
      else if next.None? then
        Close(env.cfg, st, q, d, row.close, false, ForcedNoFurtherData, q.corpFlag)
      else
        st.(positions := st.positions + [q],
            pending := st.pending + [Order(p.stockId, Sell, d, next.value, EXIT_RETRY_SESSIONS,
                                           ExitReason(env.cfg, row, p.entryExec))])
  }

  function ExitAll(env: Env, d: int, selling: set<int>, st: State, ps: seq<Position>): State
    decreases |ps|
  {
    if ps == [] then st else ExitAll(env, d, selling, ExitOne(env, d, selling, st, ps[0]), ps[1..])
  }

  function DetectExits(env: Env, d: int, st: State): State {
    ExitAll(env, d, IdsOn(Sell, st.pending), st.(positions := []), st.positions)
  }

  // ---- Phase 3: detect entry signals ----

  function PositionIds(ps: seq<Position>): set<int> {
    set p | p in ps :: p.stockId
  }

  /** One round of the signal loop: the new state and the new set of open or ordered stocks. */
  function SignalOne(env: Env, d: int, st: State, busy: set<int>, s: Stock): (State, set<int>) {
    if !FiresOn(env, s, d) then (st, busy)
    else
      var heard := st.(audit := st.audit.(fired := st.audit.fired + 1));
      if s.id in busy then
        (heard.(rejections := st.rejections.(alreadyOpen := st.rejections.alreadyOpen + 1)), busy)
      else if |st.positions| + CountBuys(st.pending) >= env.cfg.pf.maxPositions then
        (heard.(rejections := st.rejections.(maxPositions := st.rejections.maxPositions + 1)), busy)
      else
        var next := NextDate(env, s, d);
        if next.None? then
          (heard.(audit := heard.audit.(noNextSession := st.audit.noNextSession + 1)), busy)
        else
          (heard.(pending := st.pending + [Order(s.id, Buy, d, next.value, ENTRY_RETRY_SESSIONS, NoReason)],
                  audit := heard.audit.(scheduled := st.audit.scheduled + 1)), busy + {s.id})
  }

  function SignalAll(env: Env, d: int, st: State, busy: set<int>, stocks: seq<Stock>): State
    decreases |stocks|
  {
    if stocks == [] then st
    else
      var (st', busy') := SignalOne(env, d, st, busy, stocks[0]);
      SignalAll(env, d, st', busy', stocks[1..])
  }

  function DetectSignals(env: Env, d: int, st: State): State {
    SignalAll(env, d, st, PositionIds(st.positions) + IdsOn(Buy, st.pending), env.universe)
  }

  // ---- Phase 4: mark to market ----

  function PointOf(d: int, st: State): EquityPoint {
    var value := MarketValue(st.positions);
    var equity := st.cash + value;
    EquityPoint(d, equity, st.cash, value, |st.positions|, if equity == 0.0 then 0.0 else value / equity * 100.0)
  }

  function MarkToMarket(d: int, st: State): State {
    st.(curve := st.curve + [PointOf(d, st)])
  }

  // ---- Whole runs ----

  function Day(env: Env, d: int, st: State): State {
    MarkToMarket(d, DetectSignals(env, d, DetectExits(env, d, ExecuteOrders(env, d, st))))
  }

  function RunDays(env: Env, days: seq<int>, st: State): State {
    if days == [] then st
    else Day(env, days[|days| - 1], RunDays(env, days[..|days| - 1], st))
  }

  /** The synthetic close of one position at its last known price. */
  function ForceClose(cfg: Config, st: State, p: Position): State {
    Close(cfg, st, p, p.lastDate, p.lastPrice, false, ForcedAtEnd, p.corpFlag)
  }

  /** First half of the final sweep: positions that still wait for a sell order. */
  function CloseOrdered(cfg: Config, st: State, orders: seq<Order>): State
    decreases |orders|
  {
    if orders == [] then st
    else
      var held := Find(st.positions, orders[0].stockId);
      var st' := if orders[0].side == Sell && held.Some? then
                   ForceClose(cfg, st.(positions := Without(st.positions, orders[0].stockId)), held.value)
                 else st;
      CloseOrdered(cfg, st', orders[1..])
  }

  /** Second half: every position that is left. */
  function CloseRest(cfg: Config, st: State, ps: seq<Position>): State
    decreases |ps|
  {
    if ps == [] then st.(positions := []) else CloseRest(cfg, ForceClose(cfg, st, ps[0]), ps[1..])
  }

  function Sweep(cfg: Config, st: State): State {
    var ordered := CloseOrdered(cfg, st, st.pending);
    CloseRest(cfg, ordered, ordered.positions)
  }
}
