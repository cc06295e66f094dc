/** Phases 3 and 4 keep the invariants: signals queue entries, and the equity curve grows by one point. */
module SignalProofs {
  import opened Numbers
  import opened MarketData
  import opened Signals
  import opened Engine
  import opened Invariants
  import opened Collections
  import opened Changes
  import opened Rules

  /** During the signal loop `busy` is exactly the set of stocks that are held or being bought. */
  ghost predicate Listening(env: Env, d: int, st: State, busy: set<int>) {
    && Inv(env, d, st)
    && busy == PositionIds(st.positions) + IdsOn(Buy, st.pending)
  }

  function EntryOrder(s: Stock, d: int, next: int): Order {
    Order(s.id, Buy, d, next, 5, NoReason)
  }

  /** A fresh entry order targets the very next session with all its attempts left. */
  lemma {:induction false} EntryOrderOk(env: Env, d: int, s: Stock, next: int)
    requires s in env.universe && env.startDate <= d && EntryRuleOn(env, s, d) && NextDate(env, s, d) == Some(next)
    ensures BuyOk(env, d, EntryOrder(s, d, next))
  {
    hide EntryRule;
    LookupMember(env, s);
  }

  lemma {:induction false} QueueOrdered(env: Env, ps: seq<Position>, orders: seq<Order>, o: Order)
    requires Queue(env, ps, orders) && o.side == Buy
    requires o.stockId !in PositionIds(ps) + IdsOn(Buy, orders)
    requires |ps| + CountBuys(orders) < env.cfg.pf.maxPositions
    ensures Queue(env, ps, orders + [o])
  {
    OrderAdded(orders, o);
    assert !Holds(ps, o.stockId);
  }

  lemma {:induction false} HistoryOrdered(env: Env, d: int, trades: seq<Trade>, ps: seq<Position>,
                                          orders: seq<Order>, o: Order)
    requires History(trades, ps, orders) && TradesOk(env, d, trades) && o.signalDate == d
    ensures History(trades, ps, orders + [o])
  {
    hide TradeEntryOk, ExitFilled, ExitWithoutData;
  }

  /** The state after an entry order has been queued. */
  function Ordered(st: State, o: Order): State {
    st.(pending := st.pending + [o],
        audit := st.audit.(fired := st.audit.fired + 1, scheduled := st.audit.scheduled + 1))
  }

  lemma {:induction false} BooksOrdered(env: Env, st: State, o: Order)
    requires Books(env, st, st.positions, st.pending) && o.side == Buy
    ensures Books(env, Ordered(st, o), st.positions, st.pending + [o])
  {
    hide Priced;
    CountBuysConcat(st.pending, [o]);
    CountBuysOne(o);
  }

  lemma {:induction false} EntryOrdered(env: Env, d: int, st: State, busy: set<int>, o: Order)
    requires Listening(env, d, st, busy)
    requires o.side == Buy && o.signalDate == d && BuyOk(env, d, o) && o.stockId !in busy
    requires |st.positions| + CountBuys(st.pending) < env.cfg.pf.maxPositions
    ensures Listening(env, d, Ordered(st, o), busy + {o.stockId})
  {
    hide BuyOk, SellOk, PositionsOk, TradesOk, History, Books, Queue;
    QueueOrdered(env, st.positions, st.pending, o);
    HistoryOrdered(env, d, st.trades, st.positions, st.pending, o);
    BooksOrdered(env, st, o);
    assert forall p :: p in st.positions ==> p.stockId in PositionIds(st.positions);
    PositionsElsewhere(env, d, d, st.positions, st.pending, o);
    assert IdsOn(Buy, st.pending + [o]) == IdsOn(Buy, st.pending) + {o.stockId} by {
      assert o in st.pending + [o];
    }
  }

  /** Turning a signal away, or finding no session to fill it, changes nothing but one pair of counters. */
  lemma {:induction false} SignalCounted(env: Env, d: int, st: State, st': State, busy: set<int>)
    requires Listening(env, d, st, busy)
    requires st' == st.(rejections := st'.rejections, audit := st'.audit)
    requires st'.audit == st.audit.(fired := st.audit.fired + 1, noNextSession := st'.audit.noNextSession)
    requires st'.rejections == st.rejections.(alreadyOpen := st'.rejections.alreadyOpen,
                                              maxPositions := st'.rejections.maxPositions)
    requires st'.rejections.alreadyOpen + st'.rejections.maxPositions + st'.audit.noNextSession
             == st.rejections.alreadyOpen + st.rejections.maxPositions + st.audit.noNextSession + 1
    ensures Listening(env, d, st', busy)
  {
    hide Queue, OrdersOk, PositionsOk, TradesOk, History, Priced;
  }

  lemma {:induction false} SignalHeard(env: Env, d: int, st: State, busy: set<int>, s: Stock)
    requires Listening(env, d, st, busy) && s in env.universe && env.startDate <= d
    ensures var r := SignalOne(env, d, st, busy, s); Listening(env, d, r.0, r.1)
  {
    FiresOnByRule(env, s, d);
    hide Listening, FiresOn, EntryRuleOn, BuyOk;
    if EntryRuleOn(env, s, d) {
      var next := NextDate(env, s, d);
      if s.id !in busy && |st.positions| + CountBuys(st.pending) < env.cfg.pf.maxPositions && next.Some? {
        EntryOrderOk(env, d, s, next.value);
        EntryOrdered(env, d, st, busy, EntryOrder(s, d, next.value));
      } else {
        SignalCounted(env, d, st, SignalOne(env, d, st, busy, s).0, busy);
      }
    }
  }

  lemma {:induction false} SignalsHeard(env: Env, d: int, st: State, busy: set<int>, stocks: seq<Stock>)
    requires Listening(env, d, st, busy) && env.startDate <= d
    requires forall s :: s in stocks ==> s in env.universe
    ensures Inv(env, d, SignalAll(env, d, st, busy, stocks))
    decreases |stocks|
  {
    if stocks != [] {
      SignalHeard(env, d, st, busy, stocks[0]);
      var (st', busy') := SignalOne(env, d, st, busy, stocks[0]);
      SignalsHeard(env, d, st', busy', stocks[1..]);
    }
  }

  // ---- No signal is lost ----

  predicate SlotsFull(env: Env, st: State) {
    |st.positions| + CountBuys(st.pending) >= env.cfg.pf.maxPositions
  }

  /** A signal that finds its stock free and a slot open. */
  ghost predicate Free(env: Env, d: int, st: State, busy: set<int>, s: Stock) {
    EntryRuleOn(env, s, d) && s.id !in busy && !SlotsFull(env, st)
  }

  /** The stocks whose signals do, in the order of the loop. */
  ghost function FreeSignals(env: Env, d: int, st: State, busy: set<int>, stocks: seq<Stock>): seq<Stock>
    decreases |stocks|
  {
    if stocks == [] then []
    else
      var (st', busy') := SignalOne(env, d, st, busy, stocks[0]);
      (if Free(env, d, st, busy, stocks[0]) then [stocks[0]] else []) + FreeSignals(env, d, st', busy', stocks[1..])
  }

  /** A stock that is held or being bought. */
  predicate Taken(st: State, id: int) {
    Holds(st.positions, id) || exists o :: o in st.pending && o.side == Buy && o.stockId == id
  }

  lemma {:induction false} BusyIsTaken(env: Env, d: int, st: State, busy: set<int>, id: int)
    requires Listening(env, d, st, busy)
    ensures id in busy <==> Taken(st, id)
  {
  }

  /** What becomes of the signal of one stock, told from the book and the queue alone. */
  lemma {:induction false} SignalOutcome(env: Env, d: int, st: State, busy: set<int>, s: Stock)
    requires Listening(env, d, st, busy)
    ensures var st' := SignalOne(env, d, st, busy, s).0;
            var next := NextDate(env, s, d);
            && (st'.rejections.alreadyOpen != st.rejections.alreadyOpen <==> EntryRuleOn(env, s, d) && Taken(st, s.id))
            && (st'.rejections.maxPositions != st.rejections.maxPositions
                <==> EntryRuleOn(env, s, d) && !Taken(st, s.id) && SlotsFull(env, st))
            && (st'.audit.noNextSession != st.audit.noNextSession
                <==> EntryRuleOn(env, s, d) && !Taken(st, s.id) && !SlotsFull(env, st) && next.None?)
            && (st'.pending != st.pending
                <==> EntryRuleOn(env, s, d) && !Taken(st, s.id) && !SlotsFull(env, st) && next.Some?)
            && (st'.pending != st.pending ==> st'.pending == st.pending + [EntryOrder(s, d, next.value)])
  {
    FiresOnByRule(env, s, d);
    hide FiresOn, EntryRuleOn, NextDate, Taken, Listening;
    BusyIsTaken(env, d, st, busy, s.id);
  }

  /** Within the loop, stocks stay taken and slots stay full. */
  lemma {:induction false} TakenStays(env: Env, d: int, st: State, busy: set<int>, s: Stock, id: int)
    ensures Taken(st, id) ==> Taken(SignalOne(env, d, st, busy, s).0, id)
    ensures SlotsFull(env, st) ==> SlotsFull(env, SignalOne(env, d, st, busy, s).0)
  {
    hide FiresOn, NextDate;
    var st' := SignalOne(env, d, st, busy, s).0;
    if st'.pending != st.pending {
      CountBuysConcat(st.pending, st'.pending[|st.pending|..]);
      assert st'.pending == st.pending + st'.pending[|st.pending|..];
    }
    assert forall o :: o in st.pending ==> o in st'.pending;
  }

  lemma {:induction false} TakenStaysAll(env: Env, d: int, st: State, busy: set<int>, stocks: seq<Stock>, id: int)
    ensures Taken(st, id) ==> Taken(SignalAll(env, d, st, busy, stocks), id)
    ensures SlotsFull(env, st) ==> SlotsFull(env, SignalAll(env, d, st, busy, stocks))
    decreases |stocks|
  {
    hide Taken, SlotsFull, SignalOne;
    if stocks != [] {
      TakenStays(env, d, st, busy, stocks[0], id);
      var (st', busy') := SignalOne(env, d, st, busy, stocks[0]);
      TakenStaysAll(env, d, st', busy', stocks[1..], id);
    }
  }

  /** A signal is answered when its stock ends up taken, or the slots are full, or no session is left to fill it. */
  ghost predicate Answered(env: Env, d: int, st: State, s: Stock) {
    EntryRuleOn(env, s, d) ==> Taken(st, s.id) || SlotsFull(env, st) || NextDate(env, s, d).None?
  }

  lemma {:induction false} SignalAnswered(env: Env, d: int, st: State, busy: set<int>, s: Stock)
    requires Listening(env, d, st, busy)
    ensures Answered(env, d, SignalOne(env, d, st, busy, s).0, s)
  {
    SignalOutcome(env, d, st, busy, s);
    var st' := SignalOne(env, d, st, busy, s).0;
    TakenStays(env, d, st, busy, s, s.id);
    if st'.pending != st.pending {
      var o := EntryOrder(s, d, NextDate(env, s, d).value);
      assert o in st'.pending && o.side == Buy && o.stockId == s.id;
    }
    hide Listening, FiresOn, EntryRuleOn, NextDate;
  }

  lemma {:induction false} SignalsAnswered(env: Env, d: int, st: State, busy: set<int>, stocks: seq<Stock>, s: Stock)
    requires Listening(env, d, st, busy) && env.startDate <= d && s in stocks
    requires forall x :: x in stocks ==> x in env.universe
    ensures Answered(env, d, SignalAll(env, d, st, busy, stocks), s)
    decreases |stocks|
  {
    hide Listening, Taken, SlotsFull, SignalOne;
    var (st', busy') := SignalOne(env, d, st, busy, stocks[0]);
    SignalHeard(env, d, st, busy, stocks[0]);
    if s == stocks[0] {
      SignalAnswered(env, d, st, busy, s);
      TakenStaysAll(env, d, st', busy', stocks[1..], s.id);
    } else {
      SignalsAnswered(env, d, st', busy', stocks[1..], s);
    }
  }

  /** After the third phase no signal of the day has been lost. */
  lemma {:induction false} NoSignalIsLost(env: Env, d: int, st: State, s: Stock)
    requires Inv(env, d, st) && env.startDate <= d && s in env.universe && EntryRuleOn(env, s, d)
    ensures var st' := DetectSignals(env, d, st);
            Taken(st', s.id) || SlotsFull(env, st') || NextDate(env, s, d).None?
  {
    hide Inv, Taken, SlotsFull, EntryRuleOn;
    SignalsAnswered(env, d, st, PositionIds(st.positions) + IdsOn(Buy, st.pending), env.universe, s);
  }

  lemma {:induction false} Marked(env: Env, d: int, st: State)
    requires Inv(env, d, st)
    ensures Inv(env, d, MarkToMarket(d, st))
  {
    hide Queue, OrdersOk, PositionsOk, TradesOk, History, Priced;
  }
}
