/**
 The universe as loaded: leaving out the stocks without a session in the window changes nothing, so the extent of
 look-ahead is the same for it; and an example that a next session can matter.
 */
module LoadedUniverse {
  import opened MarketData
  import opened Signals
  import opened Engine
  import opened Calendars
  import opened RunProofs
  import opened Agreement
  import opened NoLookahead
  import opened Backtest
  import opened Examples

  // ---- Stocks without a session in the window ----

  /** A stock that takes part is found as it was; any other one has no session in the window. */
  lemma {:induction false} PreparedLookup(universe: seq<Stock>, lo: int, hi: int, id: int)
    requires DistinctIds(universe)
    ensures var s, e := Lookup(universe, id), Lookup(Eligible(universe, lo, hi), id);
            e == s || (e.dates == [] && !HasWindowDate(s, lo, hi))
  {
    hide HasWindowDate;
    if universe != [] {
      PreparedLookup(universe[1..], lo, hi, id);
      if universe[0].id == id {
        var rest := Lookup(Eligible(universe[1..], lo, hi), id);
        assert rest in universe[1..] || rest.dates == [];
      }
    }
  }

  /** On a day of the window both look-ups give the same answers. */
  lemma {:induction false} PreparedView(raw: Env, d: int, id: int)
    requires InWindow(d, raw.startDate, raw.endDate)
    ensures var s, e := raw.Series(id), Prepared(raw).Series(id);
            && (HasSession(s, d) ==> e == s)
            && (HasSession(e, d) ==> e == s)
            && NextDate(Prepared(raw), e, d) == NextDate(raw, s, d)
  {
    var s, e := raw.Series(id), Prepared(raw).Series(id);
    PreparedLookup(raw.universe, raw.startDate, raw.endDate, id);
    if e == s {
      SameNext(raw, s, d);
    } else {
      assert d !in s.dates;
      NoNext(raw, s, d);
      NoNext(Prepared(raw), e, d);
    }
  }

  lemma {:induction false} SameNext(raw: Env, s: Stock, d: int)
    ensures NextDate(Prepared(raw), s, d) == NextDate(raw, s, d)
  {
  }

  lemma {:induction false} NoNext(env: Env, s: Stock, d: int)
    requires env.startDate <= d && !HasWindowDate(s, env.startDate, env.endDate)
    ensures NextDate(env, s, d).None?
  {
    var next := NextDate(env, s, d);
    if next.Some? {
      assert next.value in s.dates && InWindow(next.value, env.startDate, env.endDate);
    }
  }

  lemma {:induction false} PreparedOrder(raw: Env, d: int, st: State, o: Order)
    requires InWindow(d, raw.startDate, raw.endDate)
    ensures ExecuteOne(Prepared(raw), d, st, o) == ExecuteOne(raw, d, st, o)
  {
    PreparedView(raw, d, o.stockId);
    assert Prepared(raw).cfg == raw.cfg;
    hide Prepared, Open, Close, NextDate;
  }

  lemma {:induction false} PreparedOrders(raw: Env, d: int, st: State, orders: seq<Order>)
    requires InWindow(d, raw.startDate, raw.endDate)
    ensures ExecuteAll(Prepared(raw), d, st, orders) == ExecuteAll(raw, d, st, orders)
    decreases |orders|
  {
    hide Prepared, ExecuteOne;
    if orders != [] {
      PreparedOrder(raw, d, st, orders[0]);
      PreparedOrders(raw, d, ExecuteOne(raw, d, st, orders[0]), orders[1..]);
    }
  }

  lemma {:induction false} PreparedPosition(raw: Env, d: int, selling: set<int>, st: State, p: Position)
    requires InWindow(d, raw.startDate, raw.endDate)
    ensures ExitOne(Prepared(raw), d, selling, st, p) == ExitOne(raw, d, selling, st, p)
  {
    PreparedView(raw, d, p.stockId);
    assert Prepared(raw).cfg == raw.cfg;
    hide Prepared, Triggers, EntryIndex, Close, Refreshed, ExitReason, NextDate;
  }

  lemma {:induction false} PreparedPositions(raw: Env, d: int, selling: set<int>, st: State, ps: seq<Position>)
    requires InWindow(d, raw.startDate, raw.endDate)
    ensures ExitAll(Prepared(raw), d, selling, st, ps) == ExitAll(raw, d, selling, st, ps)
    decreases |ps|
  {
    hide Prepared, ExitOne;
    if ps != [] {
      PreparedPosition(raw, d, selling, st, ps[0]);
      PreparedPositions(raw, d, selling, ExitOne(raw, d, selling, st, ps[0]), ps[1..]);
    }
  }

  lemma {:induction false} PreparedBreadth(raw: Env, d: int)
    requires InWindow(d, raw.startDate, raw.endDate)
    ensures Breadth(Prepared(raw), d) == Breadth(raw, d)
  {
    var u, e := raw.universe, Eligible(raw.universe, raw.startDate, raw.endDate);
    EligibleDistinct(u, raw.startDate, raw.endDate);
    EligibleAverages(u, raw.startDate, raw.endDate, d);
    TallyCounts(u, d);
    TallyCounts(e, d);
    assert Prepared(raw).universe == e && Prepared(raw).cfg == raw.cfg;
    hide Prepared, Eligible, BreadthTally, WithAverage, AboveAverage;
  }

  lemma {:induction false} EligibleAverages(u: seq<Stock>, lo: int, hi: int, d: int)
    requires InWindow(d, lo, hi)
    ensures WithAverage(Eligible(u, lo, hi), d) == WithAverage(u, d)
    ensures AboveAverage(Eligible(u, lo, hi), d) == AboveAverage(u, d)
  {
    hide HasWindowDate;
    forall s | s in u && HasAverage(s, d) ensures s in Eligible(u, lo, hi) {
      SessionInWindow(s, lo, hi, d);
    }
  }

  lemma {:induction false} SessionInWindow(s: Stock, lo: int, hi: int, d: int)
    requires InWindow(d, lo, hi) && HasSession(s, d)
    ensures HasWindowDate(s, lo, hi)
  {
  }

  lemma {:induction false} PreparedSignal(raw: Env, d: int, st: State, busy: set<int>, s: Stock)
    requires InWindow(d, raw.startDate, raw.endDate)
    ensures SignalOne(Prepared(raw), d, st, busy, s) == SignalOne(raw, d, st, busy, s)
  {
    PreparedFires(raw, d, s);
    SameNext(raw, s, d);
    assert Prepared(raw).cfg == raw.cfg;
    hide Prepared, FiresOn, NextDate;
  }

  lemma {:induction false} PreparedFires(raw: Env, d: int, s: Stock)
    requires InWindow(d, raw.startDate, raw.endDate)
    ensures FiresOn(Prepared(raw), s, d) <==> FiresOn(raw, s, d)
  {
    PreparedBreadth(raw, d);
    assert Prepared(raw).cfg == raw.cfg;
    hide Prepared, SignalAt, Breadth;
  }

  lemma {:induction false} IdleSignal(raw: Env, d: int, st: State, busy: set<int>, s: Stock)
    requires InWindow(d, raw.startDate, raw.endDate) && !HasWindowDate(s, raw.startDate, raw.endDate)
    ensures SignalOne(raw, d, st, busy, s) == (st, busy)
  {
    assert d !in s.dates;
  }

  lemma {:induction false} PreparedSignals(raw: Env, d: int, st: State, busy: set<int>, stocks: seq<Stock>)
    requires InWindow(d, raw.startDate, raw.endDate)
    ensures SignalAll(Prepared(raw), d, st, busy, Eligible(stocks, raw.startDate, raw.endDate))
            == SignalAll(raw, d, st, busy, stocks)
    decreases |stocks|
  {
    hide Prepared, SignalOne, HasWindowDate;
    if stocks != [] {
      var s := stocks[0];
      PreparedSignal(raw, d, st, busy, s);
      var (st', busy') := SignalOne(raw, d, st, busy, s);
      PreparedSignals(raw, d, st', busy', stocks[1..]);
      var rest := Eligible(stocks[1..], raw.startDate, raw.endDate);
      if HasWindowDate(s, raw.startDate, raw.endDate) {
        assert ([s] + rest)[1..] == rest;
      } else {
        IdleSignal(raw, d, st, busy, s);
      }
    }
  }

  lemma {:induction false} PreparedDay(raw: Env, d: int, st: State)
    requires InWindow(d, raw.startDate, raw.endDate)
    ensures Day(Prepared(raw), d, st) == Day(raw, d, st)
  {
    assert Prepared(raw).universe == Eligible(raw.universe, raw.startDate, raw.endDate);
    hide Prepared, Eligible, ExecuteAll, ExitAll, SignalAll;
    PreparedOrders(raw, d, st.(pending := []), st.pending);
    var x := ExecuteOrders(raw, d, st);
    PreparedPositions(raw, d, IdsOn(Sell, x.pending), x.(positions := []), x.positions);
    var scanned := DetectExits(raw, d, x);
    PreparedSignals(raw, d, scanned, PositionIds(scanned.positions) + IdsOn(Buy, scanned.pending), raw.universe);
  }

  lemma {:induction false} PreparedDays(raw: Env)
    ensures DaysOf(Prepared(raw)) == DaysOf(raw)
  {
    CalendarOfEligible(raw.universe, raw.startDate, raw.endDate);
  }

  lemma {:induction false} PreparedStart(raw: Env)
    ensures StateAfter(Prepared(raw), 0) == StateAfter(raw, 0)
  {
    StateAfterNone(raw);
    StateAfterNone(Prepared(raw));
    hide StateAfter;
  }

  /** Leaving out the stocks without a session in the window changes no day and no state of the run. */
  lemma {:induction false} FilterIsInvisible(raw: Env, k: nat)
    requires k <= |DaysOf(raw)|
    ensures DaysOf(Prepared(raw)) == DaysOf(raw)
    ensures StateAfter(Prepared(raw), k) == StateAfter(raw, k)
  {
    hide Prepared, Day, StateAfter, DaysOf;
    PreparedDays(raw);
    if k == 0 {
      PreparedStart(raw);
    } else {
      FilterIsInvisible(raw, k - 1);
      StateAfterNext(raw, k - 1);
      StateAfterNext(Prepared(raw), k - 1);
      NothingSkipped(raw, k - 1);
      PreparedDay(raw, DaysOf(raw)[k - 1], StateAfter(raw, k - 1));
    }
  }

  lemma {:induction false} FilterThrough(raw: Env, d: int)
    ensures StateThrough(Prepared(raw), d) == StateThrough(raw, d)
  {
    hide Prepared, StateAfter, DaysOf;
    FilterIsInvisible(raw, DaysThrough(raw, d));
  }

  /** The exact extent of look-ahead, for universes as loaded. */
  lemma {:induction false} LoadedStatesAgreeExactlyWhen(raw: Env, raw': Env, d: int)
    requires SameRows(raw, raw', d)
    ensures SameProgramState(StateThrough(Prepared(raw), d), StateThrough(Prepared(raw'), d))
            <==> AnswersAgree(raw, raw', DaysThrough(raw, d))
  {
    hide Prepared, SameRows, StateThrough, AnswersAgree;
    FilterThrough(raw, d);
    FilterThrough(raw', d);
    StatesAgreeExactlyWhen(raw, raw', d);
  }

  /** The same past decides the same present, for universes as loaded. */
  lemma {:induction false} LoadedPastDecidesPresent(raw: Env, raw': Env, d: int)
    requires SamePast(raw, raw', d)
    ensures StateThrough(Prepared(raw), d) == StateThrough(Prepared(raw'), d)
  {
    hide Prepared, SamePast, StateThrough;
    FilterThrough(raw, d);
    FilterThrough(raw', d);
    PastDecidesPresent(raw, raw', d);
  }

  // ---- A next session can matter ----

  /** The signal of day 100 queues an order for day 101 if there is such a session, and none otherwise. */
  lemma {:induction false} OversoldDay(later: seq<Row>)
    requires |later| <= 10
    ensures StateThrough(OneStock(OversoldThen(later)), 100).pending
            == if later == [] then [] else [Order(1, Buy, 100, 101, ENTRY_RETRY_SESSIONS, NoReason)]
  {
    var rows := OversoldThen(later);
    var env := OneStock(rows);
    SessionOf(rows, 100);
    FiresWhenOversold(rows, 100);
    DaysOfOneStock(rows);
    StateAfterNone(env);
    StateAfterNext(env, 0);
    NoOrders(env, 100, Initial(env));
    NoPositions(env, 100, Initial(env));
    FirstSignal(env, 100, Initial(env), DailyStock(rows));
    FirstDayOnly(env);
    hide DaysOf, ExecuteOrders, DetectExits, DetectSignals, StateAfter, FiresOn, NextDate, DailyStock, OversoldThen;
  }

  lemma {:induction false} FirstDayOnly(env: Env)
    requires DaysOf(env) != [] && DaysOf(env)[0] == 100
    ensures DaysThrough(env, 100) == 1
  {
    var days, n := DaysOf(env), DaysThrough(env, 100);
    assert StrictlyIncreasing(days) && (0 < n ==> days[n - 1] <= 100);
  }

  /**
   Two universes that the loader lets through, with the same rows through day 100, whose queues differ after it only
   because one of them has a session on day 101.
   */
  lemma {:induction false} NextSessionMatters()
    ensures var a, b := OneStock(OversoldThen([])), OneStock(OversoldThen([PlainRow(50.0)]));
            && Loadable(a) && Loadable(b) && SameRows(a, b, 100)
            && StateThrough(a, 100).pending != StateThrough(b, 100).pending
  {
    hide StateThrough;
    OversoldDay([]);
    OversoldDay([PlainRow(50.0)]);
    var x, y := OversoldThen([]), OversoldThen([PlainRow(50.0)]);
    OneStockLoads(x);
    OneStockLoads(y);
    SameUntil(x, y, 100);
    hide OneStock, OversoldThen, Loadable, SameRows;
  }

  lemma {:induction false} SameUntil(x: seq<Row>, y: seq<Row>, d: nat)
    requires d < |x| <= 111 && d < |y| <= 111 && x[..d + 1] == y[..d + 1]
    ensures SameRows(OneStock(x), OneStock(y), d)
  {
    SessionOf(x, d);
    SessionOf(y, d);
    var a, b := DailyStock(x), DailyStock(y);
    assert a.dates[..d + 1] == b.dates[..d + 1];
    assert SameHistory(d, a, b);
  }
}
