/** Phase 1 keeps the invariants: each due order is filled, rejected, moved on or abandoned. */
module ExecutionProofs {
  import opened Numbers
  import opened MarketData
  import opened Signals
  import opened Engine
  import opened Invariants
  import opened Collections
  import opened Changes
  import opened Fills
  import opened Rules
  import opened Sessions

  /** Half-way through the order loop of day `d`: `st.pending` holds the kept orders, `rest` the unprocessed ones. */
  ghost predicate Executing(env: Env, t: int, d: int, st: State, rest: seq<Order>) {
    && OrdersOk(env, d, st.pending)
    && OrdersOk(env, t, rest)
    && Between(env, t, d, st, st.pending + rest)
  }

  /** The part of the invariant that does not depend on how far the loop has come. */
  ghost predicate Between(env: Env, t: int, d: int, st: State, orders: seq<Order>) {
    && Queue(env, st.positions, orders)
    && PositionsOk(env, d, t, st.positions, orders)
    && TradesOk(env, d, st.trades)
    && History(st.trades, st.positions, orders)
    && Books(env, st, st.positions, orders)
  }

  // ---- Kept orders ----

  lemma {:induction false} NotDueYet(env: Env, t: int, d: int, o: Order)
    requires Consecutive(env, t, d) && OrderOk(env, t, o) && d < o.targetDate
    ensures OrderOk(env, d, o)
  {
    hide EntryRule;
    SeenNext(env, t, d, o.stockId);
  }

  /** A due entry whose session does not trade waits exactly one session more, with one attempt less. */
  lemma {:induction false} RetriedBuy(env: Env, t: int, d: int, o: Order, next: int)
    requires Consecutive(env, t, d) && BuyOk(env, t, o) && o.targetDate <= d && o.attemptsLeft > 1
    requires !Tradable(env.Series(o.stockId), d) && NextDate(env, env.Series(o.stockId), d) == Some(next)
    ensures BuyOk(env, d, o.(attemptsLeft := o.attemptsLeft - 1, targetDate := next))
  {
    hide EntryRule;
    var s := env.Series(o.stockId);
    assert s in env.universe;
    assert s.dates[Index(s, o.targetDate)] == o.targetDate;
    assert o.targetDate == d;
  }

  /** A due exit whose session does not trade will be due again at the next session, whatever its target says. */
  lemma {:induction false} RetriedSell(env: Env, t: int, d: int, o: Order, o': Order)
    requires Consecutive(env, t, d) && SellOk(env, t, o) && o.targetDate <= d
    requires !Tradable(env.Series(o.stockId), d)
    requires SameOrder(o', o)
    requires o'.targetDate == o.targetDate || NextDate(env, env.Series(o.stockId), d) == Some(o'.targetDate)
    ensures SellOk(env, d, o')
  {
    SeenNext(env, t, d, o.stockId);
    QuietLonger(env, t, d, o);
    DueNextTime(env, d, o, o');
    hide Quiet, NextDate;
  }

  /** A session without volume extends the stretch without trading. */
  lemma {:induction false} QuietLonger(env: Env, t: int, d: int, o: Order)
    requires Consecutive(env, t, d) && SellOk(env, t, o) && !Tradable(env.Series(o.stockId), d)
    ensures Quiet(env.Series(o.stockId), Index(env.Series(o.stockId), o.signalDate), Seen(env.Series(o.stockId), d))
  {
    SeenNext(env, t, d, o.stockId);
  }

  lemma {:induction false} DueNextTime(env: Env, d: int, o: Order, o': Order)
    requires o.targetDate <= d && o'.stockId == o.stockId
    requires o'.targetDate == o.targetDate || NextDate(env, env.Series(o.stockId), d) == Some(o'.targetDate)
    ensures var s := env.Series(o.stockId);
            forall k :: Seen(s, d) <= k < |s.dates| ==> o'.targetDate <= s.dates[k]
  {
  }

  /** Orders may move or leave as long as no position loses its exit order. */
  lemma {:induction false} BetweenKept(env: Env, t: int, d: int, st: State, before: seq<Order>, after: seq<Order>,
                                       o: Order)
    requires Between(env, t, d, st, before)
    requires DistinctOrders(after) && CountBuys(after) == CountBuys(before)
    requires IdsOn(Sell, after) == IdsOn(Sell, before)
    requires FromOrders(after, before, o)
    ensures Between(env, t, d, st, after)
  {
    hide FromOrders, Queue, PositionsOk, TradesOk, History;
    QueueKept(env, st.positions, before, after, o);
    PositionsKept(env, d, t, st.positions, before, st.positions, after, o);
    HistoryKept(st.trades, st.positions, before, after, o);
  }

  lemma {:induction false} OrderKept(env: Env, t: int, d: int, st: State, o: Order, o': Order, rest: seq<Order>)
    requires Executing(env, t, d, st, [o] + rest)
    requires OrderOk(env, d, o') && SameOrder(o', o)
    ensures Executing(env, t, d, st.(pending := st.pending + [o']), rest)
  {
    hide OrderOk, PositionsOk, TradesOk, History, Books;
    var before, after := st.pending + ([o] + rest), (st.pending + [o']) + rest;
    OrderMoved(st.pending, o, o', rest);
    assert o in before;
    BetweenKept(env, t, d, st, before, after, o);
    assert Between(env, t, d, st.(pending := st.pending + [o']), after) by {
      BetweenPending(env, t, d, st, st.pending + [o'], after);
    }
    assert forall x :: x in rest ==> x in [o] + rest;
  }

  /** `Between` reads every field of the state except the queue under construction. */
  lemma {:induction false} BetweenPending(env: Env, t: int, d: int, st: State, pending: seq<Order>, orders: seq<Order>)
    requires Between(env, t, d, st, orders)
    ensures Between(env, t, d, st.(pending := pending), orders)
  {
    hide Queue, PositionsOk, TradesOk, History;
  }

  // ---- Entries ----

  /** Losing an entry order without a fill leaves everything else in place. */
  lemma {:induction false} EntryDropped(env: Env, t: int, d: int, st: State, st': State, o: Order, rest: seq<Order>)
    requires Executing(env, t, d, st, [o] + rest) && o.side == Buy
    requires st' == st.(rejections := st'.rejections, audit := st'.audit)
    requires st'.rejections == st.rejections.(insufficient := st'.rejections.insufficient,
                                              abandoned := st'.rejections.abandoned)
    requires st'.audit == st.audit.(droppedAtOpen := st'.audit.droppedAtOpen)
    requires st'.rejections.insufficient + st'.rejections.abandoned + st'.audit.droppedAtOpen
             == st.rejections.insufficient + st.rejections.abandoned + st.audit.droppedAtOpen + 1
    ensures Executing(env, t, d, st', rest)
  {
    hide OrderOk, PositionsOk, TradesOk, History, Priced;
    var before, after := st.pending + ([o] + rest), st.pending + rest;
    OrderDropped(st.pending, o, rest);
    SellsUntouched(before, after, o);
    QueueKept(env, st.positions, before, after, o);
    PositionsKept(env, d, t, st.positions, before, st.positions, after, o);
    HistoryKept(st.trades, st.positions, before, after, o);
    assert forall x :: x in rest ==> x in [o] + rest;
  }

  lemma {:induction false} SellsUntouched(before: seq<Order>, after: seq<Order>, o: Order)
    requires o.side == Buy
    requires forall x :: x in after <==> x in before && !(x.side == o.side && x.stockId == o.stockId)
    ensures IdsOn(Sell, after) == IdsOn(Sell, before)
  {
  }

  /** A fill today turns a good entry order into a good position. */
  lemma {:induction false} EntryPosition(env: Env, t: int, d: int, o: Order, shares: int)
    requires Consecutive(env, t, d) && BuyOk(env, t, o) && o.targetDate <= d
    requires Tradable(env.Series(o.stockId), d)
    requires var row := RowAt(env.Series(o.stockId), d);
             && row.open > 0.0 && env.cfg.cost.minLiquidityShares <= row.volume
             && !(env.cfg.Strict() && row.high <= row.low)
             && 1 <= shares <= SharesByLiquidity(env.cfg, row.volume)
    ensures var row := RowAt(env.Series(o.stockId), d);
            var p := NewPosition(o, d, row, FillOf(env.cfg, shares, row.open));
            PositionOk(env, d, p) && Waiting(env, t, p)
  {
    hide EntryRule;
    var s := env.Series(o.stockId);
    var row := RowAt(s, d);
    var p := NewPosition(o, d, row, FillOf(env.cfg, shares, row.open));
    assert s in env.universe;
    assert s.dates[Index(s, o.targetDate)] == o.targetDate;
    assert o.targetDate == d;
    LiquidityCap(env.cfg, row.volume, shares);
    FillByRule(env.cfg, shares, row.open);
    JumpByRule(row);
    hide FillOf, Paid, ReturnJump, Implausible;
    assert EntryOk(env, p.stockId, p.signalDate, p.entryDate, p.entryOpen, p.shares);
    assert MarkOk(env, d, p) by {
      assert Implausible(s.rows[Index(s, d)]) ==> JumpWithin(s, Index(s, d), Index(s, d));
    }
    SeenNext(env, t, d, o.stockId);
  }

  lemma {:induction false} EntryFilled(env: Env, t: int, d: int, st: State, o: Order, p: Position, rest: seq<Order>)
    requires Executing(env, t, d, st, [o] + rest) && o.side == Buy
    requires p.stockId == o.stockId && p.signalDate == o.signalDate
    requires PositionOk(env, d, p) && Waiting(env, t, p) && p.cashPaid <= st.cash
    ensures Executing(env, t, d, Bought(st, p), rest)
  {
    hide OrderOk, PositionsOk, PositionOk, Waiting, TradesOk, History, Books;
    var before, after := st.pending + ([o] + rest), st.pending + rest;
    assert o in before;
    OrderDropped(st.pending, o, rest);
    SellsUntouched(before, after, o);
    PutFresh(st.positions, p);
    QueueFilled(env, st.positions, p, before, after);
    PositionsKept(env, d, t, st.positions, before, st.positions, after, o);
    NotOnSale(env, st.positions, p, before, after);
    PositionAdded(env, d, t, st.positions, p, after);
    HistoryFilled(st.trades, st.positions, p, before, after, o);
    BooksFilled(env, st, p, before, after);
    assert forall x :: x in rest ==> x in [o] + rest;
  }

  lemma {:induction false} NotOnSale(env: Env, ps: seq<Position>, p: Position, before: seq<Order>, after: seq<Order>)
    requires Queue(env, ps, before) && !Holds(ps, p.stockId)
    requires IdsOn(Sell, after) == IdsOn(Sell, before)
    ensures p.stockId !in IdsOn(Sell, after)
  {
  }

  lemma {:induction false} PositionAdded(env: Env, d: int, t: int, ps: seq<Position>, p: Position, orders: seq<Order>)
    requires PositionsOk(env, d, t, ps, orders)
    requires PositionOk(env, d, p) && Waiting(env, t, p) && p.stockId !in IdsOn(Sell, orders)
    ensures PositionsOk(env, d, t, ps + [p], orders)
  {
    hide PositionOk, Waiting;
  }

  lemma {:induction false} BuyExecuted(env: Env, t: int, d: int, st: State, o: Order, rest: seq<Order>)
    requires Consecutive(env, t, d) && Executing(env, t, d, st, [o] + rest)
    requires o.side == Buy && o.targetDate <= d && Tradable(env.Series(o.stockId), d)
    ensures Executing(env, t, d, Open(env.cfg, st, o, d, RowAt(env.Series(o.stockId), d)), rest)
  {
    var row := RowAt(env.Series(o.stockId), d);
    hide Between, BuyOk, PositionOk, Waiting, FillOf, Sized, Tradable, Consecutive, Open, SharesByLiquidity,
         SharesByCash;
    assert o in [o] + rest;
    assert BuyOk(env, t, o);
    OpenOutcome(env.cfg, st, o, d, row);
    if Fillable(env.cfg, st, row) {
      SizedFillIsAffordable(env.cfg, st, row);
      FillableSize(env.cfg, st, row);
      SizedWithinCaps(env.cfg, st, row);
      EntryPosition(env, t, d, o, Sized(env.cfg, st, row));
      EntryFilled(env, t, d, st, o, NewPosition(o, d, row, FillOf(env.cfg, Sized(env.cfg, st, row), row.open)), rest);
    } else {
      EntryDropped(env, t, d, st, Open(env.cfg, st, o, d, row), o, rest);
    }
  }

  // ---- Exits ----

  /** Selling at today's open completes the round trip of the position. */
  lemma {:induction false} ExitTrade(env: Env, t: int, d: int, o: Order, p: Position)
    requires Consecutive(env, t, d) && SellOk(env, t, o) && p.stockId == o.stockId
    requires PositionOk(env, d, p) && Selling(env, p, o) && Tradable(env.Series(o.stockId), d)
    ensures var row := RowAt(env.Series(o.stockId), d);
            DayTradeOk(env, d, TradeOf(env.cfg, p, d, row.open, true, o.reason, ReturnJump(row)))
  {
    var row := RowAt(env.Series(o.stockId), d);
    JumpByRule(row);
    hide EntryOk, Implausible, ReturnJump, ReasonRule, ExitRule, Proceeds, ExitFee, ExitSlippage, ExitExec;
    var tr := TradeOf(env.cfg, p, d, row.open, true, o.reason, ReturnJump(row));
    TradeSettles(env.cfg, p, d, row.open, true, o.reason, ReturnJump(row));
    assert tr.reason == StopLoss || tr.reason == TargetReached || tr.reason == HoldDays by {
      SaleHasReason(env, p, o);
    }
    EntryCarriedOver(env, d, p, tr);
    hide Settled, PositionOk, TradeEntryOk, Quiet, FirstTrigger, TradeOf;
    SaleFilled(env, t, d, o, p, tr);
    hide FilledAfter, SellOk, Selling, Consecutive;
  }

  lemma {:induction false} EntryCarriedOver(env: Env, d: int, p: Position, tr: Trade)
    requires PositionOk(env, d, p) && tr.stockId == p.stockId && tr.signalDate == p.signalDate
    requires tr.entryDate == p.entryDate && tr.entryOpen == p.entryOpen && tr.entryExec == p.entryExec
    requires tr.shares == p.shares
    ensures TradeEntryOk(env, tr)
  {
    hide EntryOk, MarkOk, Paid;
  }

  lemma {:induction false} SaleHasReason(env: Env, p: Position, o: Order)
    requires Selling(env, p, o)
    ensures o.reason == StopLoss || o.reason == TargetReached || o.reason == HoldDays
  {
    hide FirstTrigger, StopRule, TargetRule;
  }

  /** The sale of a position on the first session with volume after its trigger. */
  lemma {:induction false} SaleFilled(env: Env, t: int, d: int, o: Order, p: Position, tr: Trade)
    requires Consecutive(env, t, d) && SellOk(env, t, o) && p.stockId == o.stockId == tr.stockId
    requires MarkOk(env, d, p) && Selling(env, p, o) && Tradable(env.Series(o.stockId), d)
    requires tr.entryDate == p.entryDate && tr.entryExec == p.entryExec && tr.exitDate == d && tr.reason == o.reason
    requires tr.corpFlag <==> p.corpFlag || Implausible(RowAt(env.Series(o.stockId), d))
    ensures FilledAfter(env, env.Series(o.stockId), tr, Index(env.Series(o.stockId), o.signalDate))
  {
    hide Implausible, ReasonRule, ExitRule, JumpWithin, NeverTriggered;
    SeenNext(env, t, d, o.stockId);
  }

  /** The position an exit order stands for. */
  lemma {:induction false} SoldPosition(env: Env, t: int, d: int, ps: seq<Position>, orders: seq<Order>, o: Order)
    requires Queue(env, ps, orders) && PositionsOk(env, d, t, ps, orders)
    requires o in orders && o.side == Sell
    ensures Find(ps, o.stockId).Some?
    ensures var p := Find(ps, o.stockId).value; PositionOk(env, d, p) && Selling(env, p, o)
  {
    hide PositionOk, Selling, Waiting;
    var p := Find(ps, o.stockId).value;
    assert Linked(env, t, p, orders);
  }

  /** Closing position `p` against its exit order. */
  lemma {:induction false} BetweenSold(env: Env, t: int, d: int, st: State, o: Order, p: Position, price: real,
                                       flag: bool, before: seq<Order>, after: seq<Order>)
    requires Between(env, t, d, st, before) && o in before && o.side == Sell
    requires p in st.positions && p.stockId == o.stockId
    requires DistinctOrders(after) && CountBuys(after) == CountBuys(before)
    requires forall x :: x in after <==> x in before && !(x.side == o.side && x.stockId == o.stockId)
    requires DayTradeOk(env, d, TradeOf(env.cfg, p, d, price, true, o.reason, flag))
    requires Priced(env) ==> 0.0 <= price && 1 <= p.shares
    ensures var held := st.(positions := Without(st.positions, o.stockId));
            Between(env, t, d, Close(env.cfg, held, p, d, price, true, o.reason, flag), after)
  {
    var kept := Without(st.positions, o.stockId);
    QueueFacts(env, st.positions, before);
    hide Queue, DayTradeOk, PositionsOk, History, Books, Priced, Proceeds;
    PositionRemoved(st.positions, p);
    QueueSold(env, st.positions, p, before, after);
    PositionsKept(env, d, t, st.positions, before, kept, after, o);
    var tr := TradeOf(env.cfg, p, d, price, true, o.reason, flag);
    assert tr.stockId == p.stockId && tr.signalDate == p.signalDate;
    hide TradeOf;
    HistoryClosed(st.trades, tr, st.positions, p, kept, before, after);
    BooksPositions(env, st, kept, st.positions, before);
    BooksClosed(env, st.(positions := kept), p, d, price, true, o.reason, flag, st.positions, kept, before, after);
  }

  lemma {:induction false} QueueFacts(env: Env, ps: seq<Position>, orders: seq<Order>)
    requires Queue(env, ps, orders)
    ensures DistinctPositions(ps) && DistinctOrders(orders)
    ensures forall x :: x in orders && x.side == Buy ==> !Holds(ps, x.stockId)
  {
  }

  lemma {:induction false} SellExecuted(env: Env, t: int, d: int, st: State, o: Order, rest: seq<Order>)
    requires Consecutive(env, t, d) && Executing(env, t, d, st, [o] + rest)
    requires o.side == Sell && Tradable(env.Series(o.stockId), d)
    ensures Executing(env, t, d, FillSell(env, d, st, o, RowAt(env.Series(o.stockId), d)), rest)
  {
    var row := RowAt(env.Series(o.stockId), d);
    hide SellOk, BuyOk, PositionOk, PositionsOk, Selling, DayTradeOk, TradesOk, TradeOf, History, Books, Tradable,
         Consecutive, Priced, Proceeds;
    var before, after := st.pending + ([o] + rest), st.pending + rest;
    assert o in [o] + rest && o in before;
    assert SellOk(env, t, o);
    SoldPosition(env, t, d, st.positions, before, o);
    var p := Find(st.positions, o.stockId).value;
    ExitTrade(env, t, d, o, p);
    OpenAtSale(env, d, p, o);
    OrderDropped(st.pending, o, rest);
    BetweenSold(env, t, d, st, o, p, row.open, ReturnJump(row), before, after);
    assert forall x :: x in rest ==> x in [o] + rest;
  }

  lemma {:induction false} OpenAtSale(env: Env, d: int, p: Position, o: Order)
    requires PositionOk(env, d, p) && p.stockId == o.stockId && Tradable(env.Series(o.stockId), d)
    ensures 1 <= p.shares
    ensures Priced(env) ==> 0.0 <= RowAt(env.Series(o.stockId), d).open
  {
  }

  // ---- The loop ----

  lemma {:induction false} OrderExecuted(env: Env, t: int, d: int, st: State, o: Order, rest: seq<Order>)
    requires Consecutive(env, t, d) && Executing(env, t, d, st, [o] + rest)
    ensures Executing(env, t, d, ExecuteOne(env, d, st, o), rest)
  {
    hide Between, BuyOk, SellOk, Tradable, Consecutive;
    var s := env.Series(o.stockId);
    assert o in [o] + rest;
    assert OrderOk(env, t, o);
    if d < o.targetDate {
      NotDueYet(env, t, d, o);
      OrderKept(env, t, d, st, o, o, rest);
    } else if !Tradable(s, d) {
      var next := NextDate(env, s, d);
      var waiting := o.(attemptsLeft := o.attemptsLeft - 1);
      if next.Some? && waiting.attemptsLeft > 0 {
        var moved := waiting.(targetDate := next.value);
        if o.side == Buy {
          RetriedBuy(env, t, d, o, next.value);
        } else {
          RetriedSell(env, t, d, o, moved);
        }
        OrderKept(env, t, d, st, o, moved, rest);
      } else if o.side == Buy {
        EntryDropped(env, t, d, st, Retry(env, d, st, o), o, rest);
      } else {
        RetriedSell(env, t, d, o, waiting);
        OrderKept(env, t, d, st, o, waiting, rest);
      }
    } else if o.side == Buy {
      BuyExecuted(env, t, d, st, o, rest);
    } else {
      SellExecuted(env, t, d, st, o, rest);
    }
  }

  lemma {:induction false} OrdersExecuted(env: Env, t: int, d: int, st: State, orders: seq<Order>)
    requires Consecutive(env, t, d) && Executing(env, t, d, st, orders)
    ensures Executing(env, t, d, ExecuteAll(env, d, st, orders), [])
    decreases |orders|
  {
    hide Executing, Consecutive, ExecuteOne;
    if orders != [] {
      assert orders == [orders[0]] + orders[1..];
      OrderExecuted(env, t, d, st, orders[0], orders[1..]);
      OrdersExecuted(env, t, d, ExecuteOne(env, d, st, orders[0]), orders[1..]);
    }
  }

  /** Phase 1 as a whole: all orders have been looked at, the exits of today not yet. */
  lemma {:induction false} OrdersKept(env: Env, t: int, d: int, st: State)
    requires Consecutive(env, t, d) && Inv(env, t, st)
    ensures var st' := ExecuteOrders(env, d, st);
            OrdersOk(env, d, st'.pending) && Between(env, t, d, st', st'.pending)
  {
    hide OrderOk, Queue, PositionsOk, TradesOk, History, ExecuteOne;
    assert [] + st.pending == st.pending;
    PositionsLater(env, t, d, st.positions, st.pending);
    TradesLater(env, t, d, st.trades);
    BetweenPending(env, t, d, st, [], st.pending);
    OrdersExecuted(env, t, d, st.(pending := []), st.pending);
    var st' := ExecuteOrders(env, d, st);
    assert st'.pending + [] == st'.pending;
  }
}
