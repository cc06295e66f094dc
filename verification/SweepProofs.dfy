/** The final sweep turns every open position into a trade at its last known price. */
module SweepProofs {
  import opened MarketData
  import opened Engine
  import opened Invariants
  import opened Collections
  import opened Changes
  import opened Fills
  import opened Rules

  function ForcedTrade(env: Env, p: Position): Trade {
    TradeOf(env.cfg, p, p.lastDate, p.lastPrice, false, ForcedAtEnd, p.corpFlag)
  }

  /** A position that can be closed at its mark, with or without a waiting exit order. */
  ghost predicate Sweepable(env: Env, t: int, p: Position) {
    && FinalTradeOk(env, t, ForcedTrade(env, p))
    && (Priced(env) ==> 0.0 <= p.lastPrice && 1 <= p.shares)
  }

  lemma {:induction false} SweptExit(env: Env, t: int, p: Position, orders: seq<Order>)
    requires MarkOk(env, t, p) && PaidOk(env.cfg, p) && Linked(env, t, p, orders) && OrdersOk(env, t, orders)
    ensures ExitSwept(env, t, ForcedTrade(env, p))
  {
    hide ExitRule, JumpWithin, EntryOk, BuyOk, Proceeds, ExitSlippage, ExitFee, Settled, PaidOk;
    TradeSettles(env.cfg, p, p.lastDate, p.lastPrice, false, ForcedAtEnd, p.corpFlag);
    var s := env.Series(p.stockId);
    if p.stockId in IdsOn(Sell, orders) {
      var o :| o in orders && o.side == Sell && o.stockId == p.stockId;
      assert SellOk(env, t, o) && Selling(env, p, o);
    } else {
      assert Waiting(env, t, p);
    }
  }

  lemma {:induction false} PositionSweepable(env: Env, t: int, p: Position, orders: seq<Order>)
    requires PositionOk(env, t, p) && Linked(env, t, p, orders) && OrdersOk(env, t, orders)
    ensures Sweepable(env, t, p)
  {
    hide EntryOk, Linked, OrdersOk, ExitSwept;
    SweptExit(env, t, p, orders);
    SharesHeld(env, p);
  }

  lemma {:induction false} SharesHeld(env: Env, p: Position)
    requires EntryOk(env, p.stockId, p.signalDate, p.entryDate, p.entryOpen, p.shares)
    ensures 1 <= p.shares
  {
  }

  /** Half-way through the sweep with the positions `ps` still to be closed. */
  ghost predicate Sweeping(env: Env, t: int, st: State, ps: seq<Position>) {
    && DistinctPositions(ps)
    && (forall p :: p in ps ==> Sweepable(env, t, p))
    && (forall tr :: tr in st.trades ==> FinalTradeOk(env, t, tr))
    && History(st.trades, ps, [])
    && Books(env, st, ps, st.pending)
  }

  /** Cash if everything in `ps` were sold at its mark, net of the fee. */
  function Liquidation(env: Env, st: State, ps: seq<Position>): real {
    st.cash + (1.0 - (env.cfg.cost.brokeragePct + env.cfg.cost.taxPct) / 100.0) * MarketValue(ps)
  }

  /** What the sweep leaves alone. */
  predicate SameRecords(a: State, b: State) {
    a.pending == b.pending && a.rejections == b.rejections && a.curve == b.curve && a.audit == b.audit
  }

  lemma {:induction false} SweepStarts(env: Env, t: int, st: State)
    requires Inv(env, t, st)
    ensures Sweeping(env, t, st, st.positions)
  {
    hide OrdersOk, PositionOk, Linked, DayTradeOk, Books, Sweepable;
    forall p | p in st.positions ensures Sweepable(env, t, p) {
      PositionSweepable(env, t, p, st.pending);
    }
  }

  /** Selling one position at its mark turns its share of the liquidation value into cash. */
  lemma {:induction false} LiquidationClosed(env: Env, st: State, p: Position, ps: seq<Position>, kept: seq<Position>)
    requires MarketValue(kept) == MarketValue(ps) - p.shares as real * p.lastPrice
    ensures Liquidation(env, ForceClose(env.cfg, st, p), kept) == Liquidation(env, st, ps)
  {
    hide MarketValue;
    SyntheticProceeds(env.cfg, p, p.lastPrice);
    var fee := (env.cfg.cost.brokeragePct + env.cfg.cost.taxPct) / 100.0;
    LiquidationSplit(1.0 - fee, MarketValue(kept), p.shares as real * p.lastPrice);
  }

  lemma {:induction false} LiquidationSplit(rate: real, rest: real, value: real)
    ensures rate * (rest + value) == rate * rest + rate * value
  {
  }

  lemma {:induction false} LiquidationOfNone(env: Env, st: State)
    ensures Liquidation(env, st, []) == st.cash
  {
  }

  lemma {:induction false} Closed(env: Env, t: int, st: State, stored: seq<Position>, p: Position, ps: seq<Position>,
                                  kept: seq<Position>)
    requires Sweeping(env, t, st, ps) && p in ps
    requires DistinctPositions(kept) && |kept| == |ps| - 1
    requires forall q :: q in kept ==> q in ps && q.stockId != p.stockId
    requires SumPaid(kept) == SumPaid(ps) - p.cashPaid
    ensures Sweeping(env, t, ForceClose(env.cfg, st.(positions := stored), p), kept)
  {
    var tr := ForcedTrade(env, p);
    assert tr.stockId == p.stockId && tr.signalDate == p.signalDate;
    assert Sweepable(env, t, p);
    hide TradeOf, FinalTradeOk, History, Books, Proceeds, Priced;
    HistoryClosed(st.trades, tr, ps, p, kept, [], []);
    BooksPositions(env, st, stored, ps, st.pending);
    BooksClosed(env, st.(positions := stored), p, p.lastDate, p.lastPrice, false, ForcedAtEnd, p.corpFlag, ps, kept,
                st.pending, st.pending);
  }

  lemma {:induction false} SweepingDistinct(env: Env, t: int, st: State, ps: seq<Position>)
    requires Sweeping(env, t, st, ps)
    ensures DistinctPositions(ps)
  {
  }

  /** One round of the first half. */
  lemma {:induction false} HeldClosed(env: Env, t: int, st: State, p: Position)
    requires Sweeping(env, t, st, st.positions) && p in st.positions
    ensures var kept := Without(st.positions, p.stockId);
            var st' := ForceClose(env.cfg, st.(positions := kept), p);
            && Sweeping(env, t, st', kept)
            && Liquidation(env, st', kept) == Liquidation(env, st, st.positions)
            && SameRecords(st', st) && st'.positions == kept
  {
    hide Sweeping, Liquidation, ForceClose, DistinctPositions, MarketValue, SumPaid;
    var kept := Without(st.positions, p.stockId);
    SweepingDistinct(env, t, st, st.positions);
    PositionRemoved(st.positions, p);
    Closed(env, t, st, kept, p, st.positions, kept);
    LiquidationClosed(env, st.(positions := kept), p, st.positions, kept);
    LiquidationStored(env, st, kept, st.positions);
    ForceCloseRecords(env, st.(positions := kept), p);
  }

  /** One round of the second half. */
  lemma {:induction false} HeadClosed(env: Env, t: int, st: State, ps: seq<Position>)
    requires Sweeping(env, t, st, ps) && ps != []
    ensures var st' := ForceClose(env.cfg, st, ps[0]);
            && Sweeping(env, t, st', ps[1..])
            && Liquidation(env, st', ps[1..]) == Liquidation(env, st, ps)
            && SameRecords(st', st)
  {
    hide Sweeping, Liquidation, ForceClose, MarketValue, SumPaid, DistinctPositions;
    SweepingDistinct(env, t, st, ps);
    HeadFirst(ps);
    assert st.(positions := st.positions) == st;
    Closed(env, t, st, st.positions, ps[0], ps, ps[1..]);
    LiquidationClosed(env, st, ps[0], ps, ps[1..]);
    ForceCloseRecords(env, st, ps[0]);
  }

  lemma {:induction false} OrderedClosed(env: Env, t: int, st: State, orders: seq<Order>)
    requires Sweeping(env, t, st, st.positions)
    ensures var st' := CloseOrdered(env.cfg, st, orders);
            && Sweeping(env, t, st', st'.positions)
            && Liquidation(env, st', st'.positions) == Liquidation(env, st, st.positions)
            && SameRecords(st', st)
    decreases |orders|
  {
    hide Sweeping, Liquidation, ForceClose, Without;
    if orders != [] {
      var held := Find(st.positions, orders[0].stockId);
      if orders[0].side == Sell && held.Some? {
        HeldClosed(env, t, st, held.value);
        var kept := Without(st.positions, orders[0].stockId);
        OrderedClosed(env, t, ForceClose(env.cfg, st.(positions := kept), held.value), orders[1..]);
      } else {
        OrderedClosed(env, t, st, orders[1..]);
      }
    }
  }

  lemma {:induction false} LiquidationStored(env: Env, st: State, stored: seq<Position>, ps: seq<Position>)
    ensures Liquidation(env, st.(positions := stored), ps) == Liquidation(env, st, ps)
  {
  }

  lemma {:induction false} RestClosed(env: Env, t: int, st: State, ps: seq<Position>)
    requires Sweeping(env, t, st, ps)
    ensures var st' := CloseRest(env.cfg, st, ps);
            && Sweeping(env, t, st', []) && st'.positions == []
            && st'.cash == Liquidation(env, st, ps)
            && SameRecords(st', st)
    decreases |ps|
  {
    hide Sweeping, Liquidation, ForceClose;
    if ps == [] {
      LiquidationOfNone(env, st);
      SweepingStored(env, t, st, [], []);
    } else {
      HeadClosed(env, t, st, ps);
      RestClosed(env, t, ForceClose(env.cfg, st, ps[0]), ps[1..]);
    }
  }

  lemma {:induction false} SweepingStored(env: Env, t: int, st: State, stored: seq<Position>, ps: seq<Position>)
    requires Sweeping(env, t, st, ps)
    ensures Sweeping(env, t, st.(positions := stored), ps)
  {
    hide Sweepable, FinalTradeOk, History, Books;
    BooksPositions(env, st, stored, ps, st.pending);
  }

  lemma {:induction false} HeadFirst(ps: seq<Position>)
    requires ps != []
    ensures SumPaid(ps[1..]) == SumPaid(ps) - ps[0].cashPaid
    ensures MarketValue(ps[1..]) == MarketValue(ps) - ps[0].shares as real * ps[0].lastPrice
    ensures DistinctPositions(ps) ==> DistinctPositions(ps[1..])
    ensures DistinctPositions(ps) ==> forall q :: q in ps[1..] ==> q in ps && q.stockId != ps[0].stockId
  {
    SumsAround([], ps[0], ps[1..]);
    assert [] + ([ps[0]] + ps[1..]) == ps;
    assert [] + ps[1..] == ps[1..];
  }

  lemma {:induction false} ForceCloseRecords(env: Env, st: State, p: Position)
    ensures SameRecords(ForceClose(env.cfg, st, p), st) && ForceClose(env.cfg, st, p).positions == st.positions
  {
    hide TradeOf, Proceeds;
  }

  /** The whole sweep, from any state that keeps the daily invariant. */
  lemma {:induction false} Swept(env: Env, t: int, st: State)
    requires Inv(env, t, st)
    ensures var final := Sweep(env.cfg, st);
            && Sweeping(env, t, final, []) && final.positions == []
            && final.cash == Liquidation(env, st, st.positions)
            && SameRecords(final, st)
  {
    SweepStarts(env, t, st);
    hide Inv, Sweeping, Liquidation, CloseOrdered, CloseRest;
    OrderedClosed(env, t, st, st.pending);
    var ordered := CloseOrdered(env.cfg, st, st.pending);
    RestClosed(env, t, ordered, ordered.positions);
  }

  // ---- The order of the forced closes ----

  /** The positions with a waiting exit order, in the order of the queue. */
  function Awaiting(ps: seq<Position>, orders: seq<Order>): seq<Position>
    decreases |orders|
  {
    if orders == [] then []
    else
      var held := Find(ps, orders[0].stockId);
      (if orders[0].side == Sell && held.Some? then [held.value] else []) + Awaiting(ps, orders[1..])
  }

  /** The positions of other stocks than `ids`, in the order of the book. */
  function Others(ps: seq<Position>, ids: set<int>): seq<Position> {
    if ps == [] then []
    else (if ps[0].stockId in ids then [] else [ps[0]]) + Others(ps[1..], ids)
  }

  /** Their records: sold on the day and at the price of their marks, without an adverse move. */
  function ForcedTrades(c: Costs, ps: seq<Position>): (trades: seq<Trade>)
    ensures |trades| == |ps|
  {
    seq(|ps|, i requires 0 <= i < |ps| =>
      SaleOf(c, ps[i], ps[i].lastDate, ps[i].lastPrice, false, ForcedAtEnd, ps[i].corpFlag))
  }

  lemma {:induction false} OneForced(cfg: Config, st: State, p: Position, rest: seq<Position>)
    ensures ForceClose(cfg, st, p).trades + ForcedTrades(cfg.cost, rest)
            == st.trades + ForcedTrades(cfg.cost, [p] + rest)
    ensures ForceClose(cfg, st, p).positions == st.positions
  {
    ClosedByRule(cfg, st, p, p.lastDate, p.lastPrice, false, ForcedAtEnd, p.corpFlag);
    hide SaleOf, Received, TradeOf, Proceeds;
  }

  lemma {:induction false} FindElsewhere(ps: seq<Position>, id: int, other: int)
    requires other != id
    ensures Find(Without(ps, id), other) == Find(ps, other)
  {
    if ps != [] {
      FindElsewhere(ps[1..], id, other);
      if ps[0].stockId != id {
        assert ([ps[0]] + Without(ps[1..], id))[1..] == Without(ps[1..], id);
      }
    }
  }

  lemma {:induction false} AwaitingElsewhere(ps: seq<Position>, id: int, orders: seq<Order>)
    requires id !in IdsOn(Sell, orders)
    ensures Awaiting(Without(ps, id), orders) == Awaiting(ps, orders)
    decreases |orders|
  {
    hide Find, Without;
    if orders != [] {
      assert orders[0] in orders;
      assert forall o :: o in orders[1..] ==> o in orders;
      AwaitingElsewhere(ps, id, orders[1..]);
      if orders[0].side == Sell {
        FindElsewhere(ps, id, orders[0].stockId);
      }
    }
  }

  lemma {:induction false} OthersWithout(ps: seq<Position>, id: int, ids: set<int>)
    ensures Others(Without(ps, id), ids) == Others(ps, ids + {id})
  {
    if ps != [] {
      OthersWithout(ps[1..], id, ids);
      if ps[0].stockId != id {
        assert ([ps[0]] + Without(ps[1..], id))[1..] == Without(ps[1..], id);
      }
    }
  }

  lemma {:induction false} OthersAbsent(ps: seq<Position>, id: int, ids: set<int>)
    requires !Holds(ps, id)
    ensures Others(ps, ids + {id}) == Others(ps, ids)
  {
    if ps != [] {
      assert ps[0] in ps && forall p :: p in ps[1..] ==> p in ps;
      OthersAbsent(ps[1..], id, ids);
    }
  }

  lemma {:induction false} AllOthers(ps: seq<Position>)
    ensures Others(ps, {}) == ps
  {
    if ps != [] {
      AllOthers(ps[1..]);
    }
  }

  lemma {:induction false} SellIds(orders: seq<Order>)
    requires orders != [] && DistinctOrders(orders)
    ensures DistinctOrders(orders[1..])
    ensures IdsOn(Sell, orders)
            == IdsOn(Sell, orders[1..]) + (if orders[0].side == Sell then {orders[0].stockId} else {})
    ensures orders[0].side == Sell ==> orders[0].stockId !in IdsOn(Sell, orders[1..])
  {
    assert forall o :: o in orders <==> o == orders[0] || o in orders[1..];
  }

  lemma {:induction false} OrderedInOrder(cfg: Config, st: State, orders: seq<Order>)
    requires DistinctOrders(orders)
    ensures var st' := CloseOrdered(cfg, st, orders);
            && st'.trades == st.trades + ForcedTrades(cfg.cost, Awaiting(st.positions, orders))
            && st'.positions == Others(st.positions, IdsOn(Sell, orders))
    decreases |orders|
  {
    if orders == [] {
      AllOthers(st.positions);
      assert IdsOn(Sell, []) == {};
      assert st.trades + [] == st.trades;
    } else {
      hide ForceClose, ForcedTrades, Find, Without, IdsOn, DistinctOrders, Others;
      SellIds(orders);
      var o, ids := orders[0], IdsOn(Sell, orders[1..]);
      var held := Find(st.positions, o.stockId);
      if o.side == Sell && held.Some? {
        var kept := st.(positions := Without(st.positions, o.stockId));
        OrderedInOrder(cfg, ForceClose(cfg, kept, held.value), orders[1..]);
        OneForced(cfg, kept, held.value, Awaiting(st.positions, orders[1..]));
        AwaitingElsewhere(st.positions, o.stockId, orders[1..]);
        OthersWithout(st.positions, o.stockId, ids);
      } else {
        OrderedInOrder(cfg, st, orders[1..]);
        assert [] + Awaiting(st.positions, orders[1..]) == Awaiting(st.positions, orders[1..]);
        assert ids + {} == ids;
        if o.side == Sell {
          OthersAbsent(st.positions, o.stockId, ids);
        }
      }
    }
  }

  lemma {:induction false} RestInOrder(cfg: Config, st: State, ps: seq<Position>)
    ensures CloseRest(cfg, st, ps).trades == st.trades + ForcedTrades(cfg.cost, ps)
    decreases |ps|
  {
    hide ForceClose, ForcedTrades;
    if ps == [] {
      assert ForcedTrades(cfg.cost, []) == [];
    } else {
      RestInOrder(cfg, ForceClose(cfg, st, ps[0]), ps[1..]);
      OneForced(cfg, st, ps[0], ps[1..]);
      assert [ps[0]] + ps[1..] == ps;
    }
  }

  /** The sweep records first the positions that wait for a sale, in queue order, then the others, in book order. */
  lemma {:induction false} SweepsInOrder(cfg: Config, st: State)
    requires DistinctOrders(st.pending)
    ensures Sweep(cfg, st).trades
            == st.trades + ForcedTrades(cfg.cost, Awaiting(st.positions, st.pending))
               + ForcedTrades(cfg.cost, Others(st.positions, IdsOn(Sell, st.pending)))
  {
    hide CloseOrdered, CloseRest, ForcedTrades, DistinctOrders;
    OrderedInOrder(cfg, st, st.pending);
    var ordered := CloseOrdered(cfg, st, st.pending);
    RestInOrder(cfg, ordered, ordered.positions);
  }
}
