/** How the collection invariants carry over when orders and positions come, move and go. */
module Changes {
  import opened MarketData
  import opened Engine
  import opened Invariants
  import opened Collections
  import opened Fills

  /** `x` is `o`, possibly moved to another session. */
  predicate SameOrder(x: Order, o: Order) {
    x == o.(targetDate := x.targetDate, attemptsLeft := x.attemptsLeft)
  }

  /** Every order of `after` stands in `before`, if only as the unmoved `o`. */
  ghost predicate FromOrders(after: seq<Order>, before: seq<Order>, o: Order) {
    forall x :: x in after ==> x in before || (o in before && SameOrder(x, o))
  }

  lemma {:induction false} PositionsKept(env: Env, d: int, t: int, ps: seq<Position>, before: seq<Order>,
                                         kept: seq<Position>, after: seq<Order>, o: Order)
    requires PositionsOk(env, d, t, ps, before)
    requires forall q :: q in kept ==>
               q in ps && (q.stockId in IdsOn(Sell, after) <==> q.stockId in IdsOn(Sell, before))
    requires FromOrders(after, before, o)
    ensures PositionsOk(env, d, t, kept, after)
  {
    hide PositionOk;
    hide Waiting;
    forall q | q in kept ensures Linked(env, t, q, after) {
      assert Linked(env, t, q, before);
    }
  }

  lemma {:induction false} QueueKept(env: Env, ps: seq<Position>, before: seq<Order>, after: seq<Order>, o: Order)
    requires Queue(env, ps, before)
    requires DistinctOrders(after) && CountBuys(after) <= CountBuys(before)
    requires FromOrders(after, before, o)
    ensures Queue(env, ps, after)
  {
  }

  lemma {:induction false} FreshPosition(ps: seq<Position>, p: Position)
    requires DistinctPositions(ps) && !Holds(ps, p.stockId)
    ensures DistinctPositions(ps + [p])
    ensures forall id :: Holds(ps + [p], id) <==> Holds(ps, id) || id == p.stockId
  {
    assert forall i :: 0 <= i < |ps| ==> ps[i] in ps;
    assert p in ps + [p];
    assert forall q :: q in ps ==> q in ps + [p];
  }

  /** An entry order leaves the queue and its stock enters the book. */
  lemma {:induction false} QueueFilled(env: Env, ps: seq<Position>, p: Position, before: seq<Order>, after: seq<Order>)
    requires Queue(env, ps, before) && !Holds(ps, p.stockId)
    requires DistinctOrders(after) && CountBuys(after) + 1 == CountBuys(before)
    requires forall x :: x in after ==> x in before && !(x.side == Buy && x.stockId == p.stockId)
    ensures Queue(env, ps + [p], after)
  {
    FreshPosition(ps, p);
  }

  /** A position leaves the book together with its exit order. */
  lemma {:induction false} QueueSold(env: Env, ps: seq<Position>, p: Position, before: seq<Order>, after: seq<Order>)
    requires Queue(env, ps, before) && p in ps
    requires DistinctOrders(after) && CountBuys(after) == CountBuys(before)
    requires forall x :: x in after ==> x in before && !(x.side == Sell && x.stockId == p.stockId)
    ensures Queue(env, Without(ps, p.stockId), after)
  {
    PositionRemoved(ps, p);
  }

  lemma {:induction false} HistoryKept(trades: seq<Trade>, ps: seq<Position>, before: seq<Order>, after: seq<Order>,
                                       o: Order)
    requires History(trades, ps, before) && FromOrders(after, before, o)
    ensures History(trades, ps, after)
  {
  }

  lemma {:induction false} HistoryFilled(trades: seq<Trade>, ps: seq<Position>, p: Position, before: seq<Order>,
                                         after: seq<Order>, o: Order)
    requires History(trades, ps, before)
    requires o in before && o.side == Buy && o.stockId == p.stockId && o.signalDate == p.signalDate
    requires forall x :: x in after ==> x in before
    ensures History(trades, ps + [p], after)
  {
  }

  /** Closing `p` appends a trade that carries its signal date. */
  lemma {:induction false} HistoryClosed(trades: seq<Trade>, tr: Trade, ps: seq<Position>, p: Position,
                                         kept: seq<Position>, before: seq<Order>, after: seq<Order>)
    requires History(trades, ps, before) && p in ps
    requires tr.stockId == p.stockId && tr.signalDate == p.signalDate
    requires forall q :: q in kept ==> q in ps && q.stockId != p.stockId
    requires forall x :: x in after && x.side == Buy ==> x in before && x.stockId != p.stockId
    ensures History(trades + [tr], kept, after)
  {
    var all := trades + [tr];
    forall i, j | 0 <= i < j < |all| && all[i].stockId == all[j].stockId
      ensures all[i].exitDate <= all[j].signalDate
    {
      if j == |trades| {
        assert trades[i] in trades;
      }
    }
  }

  // ---- The same facts hold a day later ----

  lemma {:induction false} PositionLater(env: Env, t: int, d: int, p: Position)
    requires PositionOk(env, t, p) && t <= d
    ensures PositionOk(env, d, p)
  {
    hide EntryOk;
    hide PaidOk;
    hide JumpWithin;
  }

  lemma {:induction false} TradesLater(env: Env, t: int, d: int, trades: seq<Trade>)
    requires TradesOk(env, t, trades) && t <= d
    ensures TradesOk(env, d, trades)
  {
    hide TradeEntryOk;
    hide ExitFilled;
    hide ExitWithoutData;
  }

  lemma {:induction false} PositionsLater(env: Env, t: int, d: int, ps: seq<Position>, orders: seq<Order>)
    requires PositionsOk(env, t, t, ps, orders) && t <= d
    ensures PositionsOk(env, d, t, ps, orders)
  {
    hide Linked;
    forall p | p in ps ensures PositionOk(env, d, p) {
      PositionLater(env, t, d, p);
    }
  }

  /** The cash side of closing a held position. */
  lemma {:induction false} BooksClosed(env: Env, st: State, p: Position, d: int, price: real, applyCosts: bool,
                                       reason: Reason, flag: bool, ps: seq<Position>, kept: seq<Position>,
                                       before: seq<Order>, after: seq<Order>)
    requires Books(env, st, ps, before)
    requires SumPaid(kept) == SumPaid(ps) - p.cashPaid && |kept| == |ps| - 1
    requires CountBuys(after) == CountBuys(before)
    requires Priced(env) ==> 0.0 <= price && 1 <= p.shares
    ensures Books(env, Close(env.cfg, st, p, d, price, applyCosts, reason, flag), kept, after)
  {
    hide Proceeds, ExitFee, ExitSlippage, ExitExec;
    SumNetAppend(st.trades, TradeOf(env.cfg, p, d, price, applyCosts, reason, flag));
    if Priced(env) {
      ProceedsNonNegative(env.cfg, p, price, applyCosts);
    }
  }

  /** Paying for a fresh position moves cash into the book. */
  lemma {:induction false} BooksFilled(env: Env, st: State, p: Position, before: seq<Order>, after: seq<Order>)
    requires Books(env, st, st.positions, before)
    requires CountBuys(after) + 1 == CountBuys(before) && p.cashPaid <= st.cash
    ensures Books(env, Bought(st, p), st.positions + [p], after)
  {
    hide Priced;
    SumPaidConcat(st.positions, [p]);
    SumsOfOne(p);
  }

  /** `Books` takes the positions as an argument and ignores those stored in the state. */
  lemma {:induction false} BooksPositions(env: Env, st: State, stored: seq<Position>, ps: seq<Position>,
                                          orders: seq<Order>)
    requires Books(env, st, ps, orders)
    ensures Books(env, st.(positions := stored), ps, orders)
  {
    hide Priced;
  }

  /** A new exit order concerns the position of its own stock only. */
  lemma {:induction false} PositionsElsewhere(env: Env, d: int, t: int, ps: seq<Position>, orders: seq<Order>,
                                              o: Order)
    requires PositionsOk(env, d, t, ps, orders)
    requires forall p :: p in ps ==> p.stockId != o.stockId
    ensures PositionsOk(env, d, t, ps, orders + [o])
    ensures forall p :: p in ps ==> (p.stockId in IdsOn(Sell, orders + [o]) <==> p.stockId in IdsOn(Sell, orders))
  {
    hide PositionOk, Waiting, Selling;
    forall p | p in ps ensures Linked(env, t, p, orders + [o]) {
      assert Linked(env, t, p, orders);
    }
  }
}
