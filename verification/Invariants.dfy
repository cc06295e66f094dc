/**
 What holds of every order, position, trade and account between two days of a run. "Through `t`" means that every
 session dated `t` or earlier has been processed and none after it.
 */
module Invariants {
  import opened Numbers
  import opened MarketData
  import opened Engine
  import opened Rules

  // ---- Sessions ----

  /** No session strictly between the indices `lo` and `hi` had any volume. */
  ghost predicate Quiet(s: Stock, lo: int, hi: int) {
    forall k :: 0 <= k < |s.rows| && lo < k < hi ==> s.rows[k].volume <= 0
  }

  /** `d` is the next day to process after everything through `t`. */
  ghost predicate Consecutive(env: Env, t: int, d: int) {
    && t < d
    && forall s, k :: s in env.universe && 0 <= k < |s.dates| ==> s.dates[k] <= t || d <= s.dates[k]
  }

  /** `k` is the first session from `entry` on that triggers an exit. */
  ghost predicate FirstTrigger(env: Env, s: Stock, entry: nat, entryExec: real, k: nat) {
    && entry <= k < |s.dates|
    && ExitRule(env.cfg.pf, s, entry, entryExec, k)
    && NeverTriggered(env, s, entry, entryExec, k)
  }

  /** No session from `entry` up to, not including, `hi` triggers an exit. */
  ghost predicate NeverTriggered(env: Env, s: Stock, entry: nat, entryExec: real, hi: int) {
    forall k :: entry <= k < hi && k < |s.dates| ==> !ExitRule(env.cfg.pf, s, entry, entryExec, k)
  }

  // ---- Orders ----

  /** A waiting entry: a later session, reached through empty sessions only, with its retries counted down. */
  ghost predicate BuyOk(env: Env, t: int, o: Order) {
    var s := env.Series(o.stockId);
    && HasSession(s, o.signalDate) && HasSession(s, o.targetDate)
    && env.startDate <= o.signalDate <= t < o.targetDate <= env.endDate
    && EntryRule(env, s, Index(s, o.signalDate))
    && 1 <= o.attemptsLeft
    && Index(s, o.targetDate) - Index(s, o.signalDate) + o.attemptsLeft == 6
    && Quiet(s, Index(s, o.signalDate), Index(s, o.targetDate))
  }

  /** A waiting exit: nothing traded since its trigger, and the next session will find it due. */
  ghost predicate SellOk(env: Env, t: int, o: Order) {
    var s := env.Series(o.stockId);
    && HasSession(s, o.signalDate)
    && o.signalDate <= t
    && Quiet(s, Index(s, o.signalDate), Seen(s, t))
    && forall k :: Seen(s, t) <= k < |s.dates| ==> o.targetDate <= s.dates[k]
  }

  ghost predicate OrderOk(env: Env, t: int, o: Order) {
    if o.side == Buy then BuyOk(env, t, o) else SellOk(env, t, o)
  }

  ghost predicate OrdersOk(env: Env, t: int, orders: seq<Order>) {
    forall o :: o in orders ==> OrderOk(env, t, o)
  }

  // ---- Entries, positions and trades ----

  /** An entry fills the first session with volume after its signal, within the retries, inside the liquidity cap. */
  ghost predicate EntryOk(env: Env, id: int, signalDate: int, entryDate: int, entryOpen: real, shares: int) {
    var s := env.Series(id);
    && HasSession(s, signalDate) && HasSession(s, entryDate)
    && env.startDate <= signalDate
    && EntryRule(env, s, Index(s, signalDate))
    && 1 <= Index(s, entryDate) - Index(s, signalDate) <= 5
    && Quiet(s, Index(s, signalDate), Index(s, entryDate))
    && 0 < RowAt(s, entryDate).volume
    && env.cfg.cost.minLiquidityShares <= RowAt(s, entryDate).volume
    && entryOpen == RowAt(s, entryDate).open > 0.0
    && (env.cfg.pf.strategy == StrictResearchV1 ==> RowAt(s, entryDate).low < RowAt(s, entryDate).high)
    && 1 <= shares
    && shares as real <= RowAt(s, entryDate).volume as real * env.cfg.cost.liquidityLimitPct / 100.0
  }

  /** The price, the two cost items and the amount booked at entry, in the percentages of the configuration. */
  ghost predicate PaidOk(cfg: Config, p: Position) {
    var c, n := cfg.cost, p.shares as real;
    && p.entryExec == p.entryOpen * (1.0 + (c.spreadPct + c.slippagePct) / 100.0)
    && p.entryFee == n * p.entryExec * ((c.brokeragePct + c.taxPct) / 100.0)
    && p.entrySlippage == n * p.entryOpen * ((c.spreadPct + c.slippagePct) / 100.0)
    && p.cashPaid == Paid(c, p.shares, p.entryOpen)
  }

  /** The last known price is a close on or after the entry; the flag remembers any return jump up to then. */
  ghost predicate MarkOk(env: Env, d: int, p: Position) {
    var s := env.Series(p.stockId);
    && HasSession(s, p.entryDate) && HasSession(s, p.lastDate)
    && p.entryDate <= p.lastDate <= d
    && p.lastPrice == RowAt(s, p.lastDate).close
    && (p.corpFlag <==> JumpWithin(s, Index(s, p.entryDate), Index(s, p.lastDate)))
  }

  ghost predicate JumpWithin(s: Stock, lo: nat, hi: nat) {
    exists k :: lo <= k <= hi && k < |s.rows| && Implausible(s.rows[k])
  }

  ghost predicate PositionOk(env: Env, d: int, p: Position) {
    && EntryOk(env, p.stockId, p.signalDate, p.entryDate, p.entryOpen, p.shares)
    && PaidOk(env.cfg, p)
    && MarkOk(env, d, p)
  }

  /** Held without an exit order: no trigger so far, marked at the latest session through `t`. */
  ghost predicate Waiting(env: Env, t: int, p: Position) {
    var s := env.Series(p.stockId);
    && HasSession(s, p.entryDate) && HasSession(s, p.lastDate)
    && NeverTriggered(env, s, Index(s, p.entryDate), p.entryExec, Seen(s, t))
    && Index(s, p.lastDate) == Max(Index(s, p.entryDate), Seen(s, t) - 1)
  }

  /** Held with exit order `o`: ordered on the first trigger, and marked there ever since. */
  ghost predicate Selling(env: Env, p: Position, o: Order) {
    var s := env.Series(p.stockId);
    && HasSession(s, p.entryDate) && HasSession(s, o.signalDate)
    && FirstTrigger(env, s, Index(s, p.entryDate), p.entryExec, Index(s, o.signalDate))
    && ReasonRule(env.cfg.pf, RowAt(s, o.signalDate), p.entryExec, o.reason)
    && p.lastDate == o.signalDate
  }

  ghost predicate Linked(env: Env, t: int, p: Position, orders: seq<Order>) {
    if p.stockId in IdsOn(Sell, orders) then
      forall o :: o in orders && o.side == Sell && o.stockId == p.stockId ==> Selling(env, p, o)
    else Waiting(env, t, p)
  }

  /** The fees and adverse moves of buying and selling `n` shares at two raw prices. */
  function RoundTripCosts(c: Costs, n: int, bought: real, sold: real, adverse: bool): real {
    var move, fee := (c.spreadPct + c.slippagePct) / 100.0, (c.brokeragePct + c.taxPct) / 100.0;
    var exitMove := if adverse then move else 0.0;
    n as real * bought * (move + (1.0 + move) * fee) + n as real * sold * (exitMove + (1.0 - exitMove) * fee)
  }

  /** The amounts of a trade are those of selling its shares at the raw price `raw`. */
  ghost predicate Settled(cfg: Config, tr: Trade, raw: real, adverse: bool) {
    var c := cfg.cost;
    var paid := Paid(c, tr.shares, tr.entryOpen);
    && tr.exitExec == raw * (1.0 - (if adverse then (c.spreadPct + c.slippagePct) / 100.0 else 0.0))
    && tr.gross == tr.shares as real * (raw - tr.entryOpen)
    && tr.costs == RoundTripCosts(c, tr.shares, tr.entryOpen, raw, adverse)
    && tr.net == tr.gross - tr.costs == Received(c, tr.shares, raw, adverse) - paid
    && tr.returnPct == if paid == 0.0 then 0.0 else tr.net / paid * 100.0
  }

  /** A real exit: first session with volume after the first trigger, at its open less the adverse move. */
  ghost predicate ExitFilled(env: Env, tr: Trade) {
    var s := env.Series(tr.stockId);
    && HasSession(s, tr.entryDate) && HasSession(s, tr.exitDate)
    && 0 < RowAt(s, tr.exitDate).volume
    && Settled(env.cfg, tr, RowAt(s, tr.exitDate).open, true)
    && exists k :: FilledAfter(env, s, tr, k)
  }

  ghost predicate FilledAfter(env: Env, s: Stock, tr: Trade, k: nat)
    requires HasSession(s, tr.entryDate) && HasSession(s, tr.exitDate)
  {
    && FirstTrigger(env, s, Index(s, tr.entryDate), tr.entryExec, k)
    && ReasonRule(env.cfg.pf, s.rows[k], tr.entryExec, tr.reason)
    && k < Index(s, tr.exitDate)
    && Quiet(s, k, Index(s, tr.exitDate))
    && (tr.corpFlag <==> JumpWithin(s, Index(s, tr.entryDate), k) || Implausible(RowAt(s, tr.exitDate)))
  }

  /** A synthetic exit on the trigger session itself, the stock's last one in the window, at its close. */
  ghost predicate ExitWithoutData(env: Env, tr: Trade) {
    var s := env.Series(tr.stockId);
    && HasSession(s, tr.entryDate) && HasSession(s, tr.exitDate)
    && FirstTrigger(env, s, Index(s, tr.entryDate), tr.entryExec, Index(s, tr.exitDate))
    && NextDate(env, s, tr.exitDate).None?
    && Settled(env.cfg, tr, RowAt(s, tr.exitDate).close, false)
    && (tr.corpFlag <==> JumpWithin(s, Index(s, tr.entryDate), Index(s, tr.exitDate)))
  }

  /**
   A synthetic exit of the final sweep at a close: of the latest session when nothing ever triggered, else of the
   trigger session when nothing has traded since.
   */
  ghost predicate ExitSwept(env: Env, t: int, tr: Trade) {
    var s := env.Series(tr.stockId);
    && HasSession(s, tr.entryDate) && HasSession(s, tr.exitDate)
    && tr.entryDate <= tr.exitDate <= t
    && Settled(env.cfg, tr, RowAt(s, tr.exitDate).close, false)
    && (tr.corpFlag <==> JumpWithin(s, Index(s, tr.entryDate), Index(s, tr.exitDate)))
    && (|| (&& NeverTriggered(env, s, Index(s, tr.entryDate), tr.entryExec, Seen(s, t))
            && Index(s, tr.exitDate) == Seen(s, t) - 1)
        || (&& FirstTrigger(env, s, Index(s, tr.entryDate), tr.entryExec, Index(s, tr.exitDate))
            && Quiet(s, Index(s, tr.exitDate), Seen(s, t))))
  }

  ghost predicate TradeEntryOk(env: Env, tr: Trade) {
    && EntryOk(env, tr.stockId, tr.signalDate, tr.entryDate, tr.entryOpen, tr.shares)
    && tr.entryExec == tr.entryOpen * (1.0 + (env.cfg.cost.spreadPct + env.cfg.cost.slippagePct) / 100.0)
  }

  /** A trade closed on a day of the run, before the final sweep. */
  ghost predicate DayTradeOk(env: Env, d: int, tr: Trade) {
    && TradeEntryOk(env, tr)
    && tr.exitDate <= d
    && match tr.reason
       case StopLoss | TargetReached | HoldDays => ExitFilled(env, tr)
       case ForcedNoFurtherData => ExitWithoutData(env, tr)
       case NoReason | ForcedAtEnd => false
  }

  ghost predicate FinalTradeOk(env: Env, t: int, tr: Trade) {
    || DayTradeOk(env, t, tr)
    || (TradeEntryOk(env, tr) && tr.reason == ForcedAtEnd && ExitSwept(env, t, tr))
  }

  // ---- Collections ----

  ghost predicate DistinctPositions(ps: seq<Position>) {
    forall i, j :: 0 <= i < j < |ps| ==> ps[i].stockId != ps[j].stockId
  }

  ghost predicate DistinctOrders(orders: seq<Order>) {
    forall i, j :: 0 <= i < j < |orders| && orders[i].side == orders[j].side
                   ==> orders[i].stockId != orders[j].stockId
  }

  /**
   The queue and the book fit together: one position, one entry order and one exit order per stock at most; a stock
   being bought is not held, a stock being sold is; and entries never outgrow the slots.
   */
  ghost predicate Queue(env: Env, ps: seq<Position>, orders: seq<Order>) {
    && DistinctPositions(ps)
    && DistinctOrders(orders)
    && (forall o :: o in orders ==> (o.side == Sell <==> Holds(ps, o.stockId)))
    && |ps| + CountBuys(orders) <= Max(0, env.cfg.pf.maxPositions)
  }

  /** Two round trips in the same stock follow one another. */
  ghost predicate Sequential(trades: seq<Trade>) {
    forall i, j :: 0 <= i < j < |trades| && trades[i].stockId == trades[j].stockId
                   ==> trades[i].exitDate <= trades[j].signalDate
  }

  /** Every closed trade lies before the signals of whatever is open or ordered in its stock. */
  ghost predicate History(trades: seq<Trade>, ps: seq<Position>, orders: seq<Order>) {
    && Sequential(trades)
    && (forall tr, p :: tr in trades && p in ps && tr.stockId == p.stockId ==> tr.exitDate <= p.signalDate)
    && (forall tr, o :: tr in trades && o in orders && o.side == Buy && tr.stockId == o.stockId
                        ==> tr.exitDate <= o.signalDate)
  }

  // ---- Accounts ----

  function SumPaid(ps: seq<Position>): real {
    if ps == [] then 0.0 else SumPaid(ps[..|ps| - 1]) + ps[|ps| - 1].cashPaid
  }

  function SumNet(trades: seq<Trade>): real {
    if trades == [] then 0.0 else SumNet(trades[..|trades| - 1]) + trades[|trades| - 1].net
  }

  /** Inputs under which cash cannot be lost to a negative price or to costs above 100%. */
  ghost predicate Priced(env: Env) {
    && 0.0 <= env.cfg.pf.initialCash
    && env.cfg.cost.spreadPct + env.cfg.cost.slippagePct <= 100.0
    && env.cfg.cost.brokeragePct + env.cfg.cost.taxPct <= 100.0
    && forall s, k :: s in env.universe && 0 <= k < |s.rows| ==> 0.0 <= s.rows[k].open && 0.0 <= s.rows[k].close
  }

  /** Money is conserved and every signal and every order is accounted for. */
  ghost predicate Books(env: Env, st: State, ps: seq<Position>, orders: seq<Order>) {
    && st.cash + SumPaid(ps) == env.cfg.pf.initialCash + SumNet(st.trades)
    && (Priced(env) ==> 0.0 <= st.cash)
    && st.audit.fired
       == st.audit.scheduled + st.rejections.alreadyOpen + st.rejections.maxPositions + st.audit.noNextSession
    && st.audit.scheduled
       == CountBuys(orders) + st.audit.entered + st.rejections.insufficient + st.rejections.abandoned
          + st.audit.droppedAtOpen
    && st.audit.entered == |ps| + |st.trades|
  }

  // ---- The whole state ----

  /** Positions known through `d` whose exits have been looked for through `t`. */
  ghost predicate PositionsOk(env: Env, d: int, t: int, ps: seq<Position>, orders: seq<Order>) {
    forall p :: p in ps ==> PositionOk(env, d, p) && Linked(env, t, p, orders)
  }

  ghost predicate TradesOk(env: Env, d: int, trades: seq<Trade>) {
    forall tr :: tr in trades ==> DayTradeOk(env, d, tr)
  }

  /** Everything that holds between two days of a run. */
  ghost predicate Inv(env: Env, t: int, st: State) {
    && Queue(env, st.positions, st.pending)
    && OrdersOk(env, t, st.pending)
    && PositionsOk(env, t, t, st.positions, st.pending)
    && TradesOk(env, t, st.trades)
    && History(st.trades, st.positions, st.pending)
    && Books(env, st, st.positions, st.pending)
  }
}
