/** Phase 2 keeps the invariants: each position is marked, and sold, ordered to be sold or kept. */
module ExitProofs {
  import opened Numbers
  import opened MarketData
  import opened Signals
  import opened Engine
  import opened Invariants
  import opened Rules
  import opened Collections
  import opened Changes
  import opened Fills
  import opened Sessions

  /** Half-way through the exit loop: `st.positions` holds the positions scanned so far, `rest` the others. */
  ghost predicate Scanning(env: Env, t: int, d: int, selling: set<int>, st: State, rest: seq<Position>) {
    && OrdersOk(env, d, st.pending)
    && PositionsOk(env, d, d, st.positions, st.pending)
    && PositionsOk(env, d, t, rest, st.pending)
    && (forall p :: p in rest ==> (p.stockId in selling <==> p.stockId in IdsOn(Sell, st.pending)))
    && TradesOk(env, d, st.trades)
    && Fitting(env, st, st.positions + rest)
  }

  ghost predicate Fitting(env: Env, st: State, ps: seq<Position>) {
    && Queue(env, ps, st.pending)
    && History(st.trades, ps, st.pending)
    && Books(env, st, ps, st.pending)
  }

  // ---- One position ----

  /** A position with an exit order does not depend on how far exits have been looked for. */
  lemma {:induction false} OrderedUntouched(env: Env, t: int, d: int, p: Position, orders: seq<Order>)
    requires Linked(env, t, p, orders) && p.stockId in IdsOn(Sell, orders)
    ensures Linked(env, d, p, orders)
  {
    hide Selling;
  }

  /** Marking a position at today's close. */
  lemma {:induction false} RefreshedOk(env: Env, t: int, d: int, p: Position)
    requires Consecutive(env, t, d) && PositionOk(env, d, p) && Waiting(env, t, p)
    requires HasSession(env.Series(p.stockId), d)
    ensures PositionOk(env, d, Refreshed(p, d, RowAt(env.Series(p.stockId), d)))
  {
    JumpByRule(RowAt(env.Series(p.stockId), d));
    hide EntryOk, PaidOk, ReturnJump, Implausible, NeverTriggered;
    var s := env.Series(p.stockId);
    var q := Refreshed(p, d, RowAt(s, d));
    SeenNext(env, t, d, p.stockId);
    var last, today := Index(s, p.lastDate), Index(s, d);
    if last < today {
      JumpExtended(s, Index(s, p.entryDate), last);
    } else {
      JumpAtEntry(s, today);
    }
  }

  lemma {:induction false} JumpExtended(s: Stock, lo: nat, hi: nat)
    requires lo <= hi && hi + 1 < |s.rows|
    ensures JumpWithin(s, lo, hi + 1) <==> JumpWithin(s, lo, hi) || Implausible(s.rows[hi + 1])
  {
    hide Implausible;
  }

  lemma {:induction false} JumpAtEntry(s: Stock, k: nat)
    requires k < |s.rows|
    ensures JumpWithin(s, k, k) <==> Implausible(s.rows[k])
  {
    hide Implausible;
  }

  /** Today's session is the first that has not been looked at. */
  lemma {:induction false} TodayIsNext(env: Env, t: int, d: int, p: Position)
    requires Consecutive(env, t, d) && MarkOk(env, d, p) && HasSession(env.Series(p.stockId), d)
    ensures var s := env.Series(p.stockId);
            Index(s, d) == Seen(s, t) && Seen(s, d) == Seen(s, t) + 1 && Index(s, p.entryDate) <= Index(s, d)
  {
    SeenNext(env, t, d, p.stockId);
  }

  lemma {:induction false} StillWaiting(env: Env, t: int, d: int, p: Position)
    requires Consecutive(env, t, d) && MarkOk(env, d, p) && Waiting(env, t, p)
    requires HasSession(env.Series(p.stockId), d)
    requires var s := env.Series(p.stockId);
             !ExitRule(env.cfg.pf, s, Index(s, p.entryDate), p.entryExec, Index(s, d))
    ensures Waiting(env, d, Refreshed(p, d, RowAt(env.Series(p.stockId), d)))
  {
    hide ExitRule;
    TodayIsNext(env, t, d, p);
  }

  lemma {:induction false} TriggeredToday(env: Env, t: int, d: int, p: Position)
    requires Consecutive(env, t, d) && MarkOk(env, d, p) && Waiting(env, t, p)
    requires HasSession(env.Series(p.stockId), d)
    requires var s := env.Series(p.stockId);
             ExitRule(env.cfg.pf, s, Index(s, p.entryDate), p.entryExec, Index(s, d))
    ensures var s := env.Series(p.stockId);
            FirstTrigger(env, s, Index(s, p.entryDate), p.entryExec, Index(s, d))
  {
    hide ExitRule;
    TodayIsNext(env, t, d, p);
  }

  /** The order placed on the trigger session. */
  function ExitOrder(env: Env, d: int, p: Position, next: int): Order
    requires HasSession(env.Series(p.stockId), d)
  {
    Order(p.stockId, Sell, d, next, EXIT_RETRY_SESSIONS,
          ExitReason(env.cfg, RowAt(env.Series(p.stockId), d), p.entryExec))
  }

  lemma {:induction false} ExitOrderOk(env: Env, d: int, p: Position, q: Position, next: int)
    requires HasSession(env.Series(p.stockId), d) && MarkOk(env, d, p)
    requires NextDate(env, env.Series(p.stockId), d) == Some(next)
    requires var s := env.Series(p.stockId);
             FirstTrigger(env, s, Index(s, p.entryDate), p.entryExec, Index(s, d))
    requires q == Refreshed(p, d, RowAt(env.Series(p.stockId), d))
    ensures SellOk(env, d, ExitOrder(env, d, p, next)) && Selling(env, q, ExitOrder(env, d, p, next))
  {
    ReasonByRule(env.cfg, RowAt(env.Series(p.stockId), d), p.entryExec);
    hide ExitRule, JumpWithin, ReasonRule, ExitReason;
  }

  lemma {:induction false} NoDataTrade(env: Env, d: int, p: Position, q: Position)
    requires HasSession(env.Series(p.stockId), d) && PositionOk(env, d, q) && q.lastDate == d
    requires q.stockId == p.stockId && q.entryDate == p.entryDate && q.entryExec == p.entryExec
    requires NextDate(env, env.Series(p.stockId), d).None?
    requires var s := env.Series(p.stockId);
             FirstTrigger(env, s, Index(s, q.entryDate), q.entryExec, Index(s, d))
    ensures DayTradeOk(env, d, TradeOf(env.cfg, q, d, RowAt(env.Series(p.stockId), d).close, false,
                                       ForcedNoFurtherData, q.corpFlag))
  {
    hide EntryOk, ExitRule, JumpWithin, Settled, Proceeds, ExitFee, ExitSlippage, ExitExec;
    TradeSettles(env.cfg, q, d, RowAt(env.Series(p.stockId), d).close, false, ForcedNoFurtherData, q.corpFlag);
  }

  // ---- The collections ----

  lemma {:induction false} PositionsAppend(env: Env, d: int, t: int, ps: seq<Position>, p: Position,
                                           orders: seq<Order>)
    requires PositionsOk(env, d, t, ps, orders) && PositionOk(env, d, p) && Linked(env, t, p, orders)
    ensures PositionsOk(env, d, t, ps + [p], orders)
  {
    hide PositionOk, Linked;
  }

  lemma {:induction false} FittingMoved(env: Env, st: State, a: seq<Position>, p: Position, q: Position,
                                        b: seq<Position>)
    requires Fitting(env, st, a + ([p] + b))
    requires q.stockId == p.stockId && q.cashPaid == p.cashPaid && q.signalDate == p.signalDate
    ensures Fitting(env, st, (a + [q]) + b)
  {
    hide Priced;
    PositionMoved(a, p, q, b);
    assert p in a + ([p] + b);
  }

  /** `Fitting` ignores the positions stored in the state. */
  lemma {:induction false} FittingStored(env: Env, st: State, stored: seq<Position>, ps: seq<Position>)
    requires Fitting(env, st, ps)
    ensures Fitting(env, st.(positions := stored), ps)
  {
    hide Queue, History, Priced;
  }

  lemma {:induction false} FittingOrdered(env: Env, st: State, ps: seq<Position>, o: Order)
    requires Fitting(env, st, ps)
    requires o.side == Sell && Holds(ps, o.stockId) && o.stockId !in IdsOn(Sell, st.pending)
    ensures Fitting(env, st.(pending := st.pending + [o]), ps)
  {
    hide Priced;
    OrderAdded(st.pending, o);
  }

  lemma {:induction false} HeadIsAlone(a: seq<Position>, p: Position, b: seq<Position>)
    requires DistinctPositions(a + ([p] + b))
    ensures forall x :: x in a || x in b ==> x.stockId != p.stockId
    ensures p in a + ([p] + b)
  {
    var all := a + ([p] + b);
    assert all[|a|] == p;
    assert forall i :: 0 <= i < |a| ==> all[i] == a[i];
    assert forall i :: 0 <= i < |b| ==> all[|a| + 1 + i] == b[i];
  }

  /** Removing a position that has no exit order. */
  lemma {:induction false} QueueDelisted(env: Env, a: seq<Position>, p: Position, b: seq<Position>,
                                         orders: seq<Order>)
    requires Queue(env, a + ([p] + b), orders) && p.stockId !in IdsOn(Sell, orders)
    ensures Queue(env, a + b, orders)
  {
    var all := a + ([p] + b);
    DistinctAround(a, p, b);
    HeadIsAlone(a, p, b);
    forall o | o in orders ensures o.side == Sell <==> Holds(a + b, o.stockId) {
      assert forall x :: x in a + b ==> x in all;
      assert forall x :: x in all ==> x == p || x in a + b;
    }
  }

  // ---- One round ----

  lemma {:induction false} HeadKept(env: Env, t: int, d: int, selling: set<int>, st: State, p: Position, q: Position,
                                    rest: seq<Position>)
    requires Scanning(env, t, d, selling, st, [p] + rest)
    requires q.stockId == p.stockId && q.cashPaid == p.cashPaid && q.signalDate == p.signalDate
    requires PositionOk(env, d, q) && Linked(env, d, q, st.pending)
    ensures Scanning(env, t, d, selling, st.(positions := st.positions + [q]), rest)
  {
    hide OrdersOk, PositionOk, Linked, TradesOk, Fitting;
    PositionsAppend(env, d, d, st.positions, q, st.pending);
    FittingMoved(env, st, st.positions, p, q, rest);
    FittingStored(env, st, st.positions + [q], (st.positions + [q]) + rest);
    assert forall x :: x in rest ==> x in [p] + rest;
  }

  /** The book side of ordering an exit: the position is marked and its order queued. */
  lemma {:induction false} FittingHeadOrdered(env: Env, st: State, a: seq<Position>, p: Position, q: Position,
                                              o: Order, b: seq<Position>)
    requires Fitting(env, st, a + ([p] + b))
    requires q.stockId == p.stockId && q.cashPaid == p.cashPaid && q.signalDate == p.signalDate
    requires o.side == Sell && o.stockId == p.stockId && p.stockId !in IdsOn(Sell, st.pending)
    ensures Fitting(env, st.(positions := a + [q], pending := st.pending + [o]), (a + [q]) + b)
  {
    FittingDistinct(env, st, a + ([p] + b));
    hide Fitting;
    HeadIsAlone(a, p, b);
    var st' := st.(pending := st.pending + [o]);
    FittingOrdered(env, st, a + ([p] + b), o);
    FittingMoved(env, st', a, p, q, b);
    FittingStored(env, st', a + [q], (a + [q]) + b);
  }

  /** The position side: only the marked position reacts to its new order. */
  lemma {:induction false} PositionsHeadOrdered(env: Env, t: int, d: int, a: seq<Position>, p: Position, q: Position,
                                                b: seq<Position>, orders: seq<Order>, o: Order)
    requires PositionsOk(env, d, d, a, orders) && PositionsOk(env, d, t, [p] + b, orders)
    requires DistinctPositions(a + ([p] + b)) && q.stockId == p.stockId
    requires o.side == Sell && o.stockId == p.stockId && p.stockId !in IdsOn(Sell, orders)
    requires PositionOk(env, d, q) && Selling(env, q, o)
    ensures PositionsOk(env, d, d, a + [q], orders + [o])
    ensures PositionsOk(env, d, t, b, orders + [o])
    ensures forall x :: x in b ==> (x.stockId in IdsOn(Sell, orders + [o]) <==> x.stockId in IdsOn(Sell, orders))
  {
    hide PositionsOk, PositionOk, Selling;
    HeadIsAlone(a, p, b);
    PositionsSubset(env, d, t, [p] + b, b, orders);
    PositionsElsewhere(env, d, t, b, orders, o);
    PositionsElsewhere(env, d, d, a, orders, o);
    NewlyLinked(env, d, q, orders, o);
    PositionsAppend(env, d, d, a, q, orders + [o]);
  }

  lemma {:induction false} HeadOrdered(env: Env, t: int, d: int, selling: set<int>, st: State, p: Position,
                                       q: Position, o: Order, rest: seq<Position>)
    requires Scanning(env, t, d, selling, st, [p] + rest)
    requires q.stockId == p.stockId && q.cashPaid == p.cashPaid && q.signalDate == p.signalDate
    requires p.stockId !in selling
    requires o.side == Sell && o.stockId == p.stockId
    requires SellOk(env, d, o) && PositionOk(env, d, q) && Selling(env, q, o)
    ensures Scanning(env, t, d, selling, st.(positions := st.positions + [q], pending := st.pending + [o]), rest)
  {
    hide SellOk, BuyOk, PositionOk, PositionsOk, Selling, TradesOk, Fitting;
    assert p in [p] + rest;
    FittingDistinct(env, st, st.positions + ([p] + rest));
    FittingHeadOrdered(env, st, st.positions, p, q, o, rest);
    PositionsHeadOrdered(env, t, d, st.positions, p, q, rest, st.pending, o);
    assert forall x :: x in rest ==> x in [p] + rest;
  }

  lemma {:induction false} FittingDistinct(env: Env, st: State, ps: seq<Position>)
    requires Fitting(env, st, ps)
    ensures DistinctPositions(ps) && DistinctOrders(st.pending)
    ensures forall x :: x in st.pending && x.side == Buy ==> !Holds(ps, x.stockId)
  {
  }

  lemma {:induction false} PositionsSubset(env: Env, d: int, t: int, ps: seq<Position>, some: seq<Position>,
                                           orders: seq<Order>)
    requires PositionsOk(env, d, t, ps, orders) && forall x :: x in some ==> x in ps
    ensures PositionsOk(env, d, t, some, orders)
  {
    hide PositionOk, Linked;
  }

  lemma {:induction false} NewlyLinked(env: Env, d: int, q: Position, orders: seq<Order>, o: Order)
    requires q.stockId !in IdsOn(Sell, orders)
    requires o.side == Sell && o.stockId == q.stockId && Selling(env, q, o)
    ensures Linked(env, d, q, orders + [o])
  {
    hide Selling;
    assert o in orders + [o];
  }

  /** The book side of a synthetic close. */
  lemma {:induction false} FittingHeadClosed(env: Env, st: State, a: seq<Position>, p: Position, q: Position, d: int,
                                             price: real, b: seq<Position>)
    requires Fitting(env, st, a + ([p] + b))
    requires q.stockId == p.stockId && q.cashPaid == p.cashPaid && q.signalDate == p.signalDate
    requires p.stockId !in IdsOn(Sell, st.pending)
    requires Priced(env) ==> 0.0 <= price && 1 <= q.shares
    ensures Fitting(env, Close(env.cfg, st, q, d, price, false, ForcedNoFurtherData, q.corpFlag), a + b)
  {
    var before, after := a + ([p] + b), a + b;
    var tr := TradeOf(env.cfg, q, d, price, false, ForcedNoFurtherData, q.corpFlag);
    FittingDistinct(env, st, before);
    assert tr.stockId == p.stockId && tr.signalDate == p.signalDate;
    hide Queue, History, Books, TradeOf, Proceeds, Priced;
    HeadIsAlone(a, p, b);
    QueueDelisted(env, a, p, b, st.pending);
    SumsAround(a, p, b);
    HistoryClosed(st.trades, tr, before, p, after, st.pending, st.pending);
    BooksClosed(env, st, q, d, price, false, ForcedNoFurtherData, q.corpFlag, before, after, st.pending, st.pending);
  }

  lemma {:induction false} HeadClosed(env: Env, t: int, d: int, selling: set<int>, st: State, p: Position,
                                      q: Position, price: real, rest: seq<Position>)
    requires Scanning(env, t, d, selling, st, [p] + rest)
    requires q.stockId == p.stockId && q.cashPaid == p.cashPaid && q.signalDate == p.signalDate
    requires p.stockId !in selling
    requires DayTradeOk(env, d, TradeOf(env.cfg, q, d, price, false, ForcedNoFurtherData, q.corpFlag))
    requires Priced(env) ==> 0.0 <= price && 1 <= q.shares
    ensures Scanning(env, t, d, selling, Close(env.cfg, st, q, d, price, false, ForcedNoFurtherData, q.corpFlag), rest)
  {
    hide OrderOk, PositionsOk, DayTradeOk, Fitting, TradeOf, Proceeds, Priced;
    assert p in [p] + rest;
    FittingHeadClosed(env, st, st.positions, p, q, d, price, rest);
    PositionsSubset(env, d, t, [p] + rest, rest, st.pending);
    assert forall x :: x in rest ==> x in [p] + rest;
  }

  lemma {:induction false} PositionScanned(env: Env, t: int, d: int, selling: set<int>, st: State, p: Position,
                                           rest: seq<Position>)
    requires Consecutive(env, t, d) && Scanning(env, t, d, selling, st, [p] + rest)
    ensures Scanning(env, t, d, selling, ExitOne(env, d, selling, st, p), rest)
  {
    assert p in [p] + rest;
    assert PositionOk(env, d, p) && Linked(env, t, p, st.pending);
    assert p.stockId in selling <==> p.stockId in IdsOn(Sell, st.pending);
    var s := env.Series(p.stockId);
    hide Scanning, Consecutive, Triggers, Waiting;
    if p.stockId in selling {
      OrderedUntouched(env, t, d, p, st.pending);
      HeadKept(env, t, d, selling, st, p, p, rest);
    } else if !HasSession(s, d) {
      WaitingUnseen(env, t, d, p);
      HeadKept(env, t, d, selling, st, p, p, rest);
    } else {
      SessionScanned(env, t, d, selling, st, p, rest);
    }
  }

  lemma {:induction false} SessionScanned(env: Env, t: int, d: int, selling: set<int>, st: State, p: Position,
                                          rest: seq<Position>)
    requires Consecutive(env, t, d) && Scanning(env, t, d, selling, st, [p] + rest)
    requires p.stockId !in selling && p.stockId !in IdsOn(Sell, st.pending) && HasSession(env.Series(p.stockId), d)
    requires PositionOk(env, d, p) && Waiting(env, t, p)
    ensures Scanning(env, t, d, selling, ExitOne(env, d, selling, st, p), rest)
  {
    var s := env.Series(p.stockId);
    var row := RowAt(s, d);
    var q := Refreshed(p, d, row);
    assert MarkOk(env, d, p) && 1 <= p.shares;
    assert Priced(env) ==> 0.0 <= row.close;
    ExitByRule(env.cfg, s, Index(s, p.entryDate), p.entryExec, Index(s, d));
    hide Scanning, Consecutive, Triggers, ExitRule, PositionOk, MarkOk, Waiting, SellOk, Selling, DayTradeOk,
         FirstTrigger, Priced, Close, TradeOf, ExitReason;
    RefreshedOk(env, t, d, p);
    if !Triggers(env.cfg, s, Index(s, p.entryDate), p.entryExec, Index(s, d)) {
      StillWaiting(env, t, d, p);
      HeadKept(env, t, d, selling, st, p, q, rest);
    } else {
      TriggeredToday(env, t, d, p);
      var next := NextDate(env, s, d);
      if next.None? {
        NoDataTrade(env, d, p, q);
        HeadClosed(env, t, d, selling, st, p, q, row.close, rest);
      } else {
        ExitOrderOk(env, d, p, q, next.value);
        HeadOrdered(env, t, d, selling, st, p, q, ExitOrder(env, d, p, next.value), rest);
      }
    }
  }

  // ---- The loop ----

  lemma {:induction false} PositionsScanned(env: Env, t: int, d: int, selling: set<int>, st: State, ps: seq<Position>)
    requires Consecutive(env, t, d) && Scanning(env, t, d, selling, st, ps)
    ensures Scanning(env, t, d, selling, ExitAll(env, d, selling, st, ps), [])
    decreases |ps|
  {
    hide Scanning, Consecutive, ExitOne;
    if ps != [] {
      assert ps == [ps[0]] + ps[1..];
      PositionScanned(env, t, d, selling, st, ps[0], ps[1..]);
      PositionsScanned(env, t, d, selling, ExitOne(env, d, selling, st, ps[0]), ps[1..]);
    }
  }
}
