/** Small concrete inputs: one stock with daily sessions, long enough for the loader, and what a run sees of it. */
module Examples {
  import opened Numbers
  import opened MarketData
  import opened Signals
  import opened Engine
  import opened Calendars
  import opened Agreement

  const MIN_HISTORY_BARS := 100

  /** What the loader lets through: long enough histories that end with the window. */
  ghost predicate Loadable(env: Env) {
    forall s :: s in env.universe ==> MIN_HISTORY_BARS <= |s.dates| && s.dates[|s.dates| - 1] <= env.endDate
  }

  function PlainConfig(): Config {
    Config(Costs(0.0, 0.0, 0.0, 0.0, 5.0, 1),
           PortfolioConfig(1000.0, 5.0, 1, 20, 5.0, RsiMacdV1, None, 1.25, 0.55))
  }

  function PlainRow(rsi: real): Row {
    Row(10.0, 10.0, 10.0, 10.0, 1000, None, Some(rsi), None, None, None, None)
  }

  function DailyStock(rows: seq<Row>): Stock {
    var s := StockSeries(1, seq(|rows|, i => i), rows);
    assert StrictlyIncreasing(s.dates);
    s
  }

  /** One stock with a session on each day from 0 on; the window runs from day 100 to day 110. */
  function OneStock(rows: seq<Row>): Env {
    Inputs(PlainConfig(), 100, 110, [DailyStock(rows)])
  }

  /** A hundred uneventful sessions, an oversold one on day 100, and whatever comes after it. */
  function OversoldThen(later: seq<Row>): (rows: seq<Row>)
    ensures |rows| == 101 + |later| && rows[100] == PlainRow(20.0) && rows[101..] == later
  {
    seq(100, _ => PlainRow(50.0)) + [PlainRow(20.0)] + later
  }

  lemma {:induction false} OneStockLoads(rows: seq<Row>)
    requires 100 <= |rows| <= 111
    ensures Loadable(OneStock(rows))
  {
  }

  /** Row and next session of each day. */
  lemma {:induction false} SessionOf(rows: seq<Row>, d: nat)
    requires d < |rows| <= 111
    ensures var env, s := OneStock(rows), DailyStock(rows);
            && env.Series(1) == s
            && HasSession(s, d) && Index(s, d) == d && RowAt(s, d) == rows[d] && Seen(s, d) == d + 1
            && NextDate(env, s, d) == if d + 1 < |rows| then Some(d + 1) else None
  {
    var s := DailyStock(rows);
    SeenIs(s, d, d + 1);
    assert s.dates[d] == d;
  }

  /** Without a MACD only an oversold session fires. */
  lemma {:induction false} FiresWhenOversold(rows: seq<Row>, d: nat)
    requires d < |rows| <= 111 && rows[d].macd.None?
    ensures FiresOn(OneStock(rows), DailyStock(rows), d) <==> 0 < d && Oversold(rows[d])
  {
    SessionOf(rows, d);
    hide Breadth;
  }

  /** The calendar runs from day 100 to the last session. */
  lemma {:induction false} DaysOfOneStock(rows: seq<Row>)
    requires 100 <= |rows| <= 111
    ensures DaysOf(OneStock(rows)) == seq(|rows| - 100, i => 100 + i)
  {
    var days, expected := DaysOf(OneStock(rows)), seq(|rows| - 100, i => 100 + i);
    var s := DailyStock(rows);
    forall x ensures x in days <==> x in expected {
      assert x in s.dates <==> 0 <= x < |rows| by {
        if 0 <= x < |rows| {
          assert s.dates[x] == x;
        }
      }
      assert x in expected <==> 100 <= x < |rows| by {
        if 100 <= x < |rows| {
          assert expected[x - 100] == x;
        }
      }
      assert x in days <==> exists r :: r in [s] && x in r.dates && InWindow(x, 100, 110);
      assert s in [s];
    }
    SortedUnique(days, expected);
  }

  // ---- Single orders, positions and stocks ----

  lemma {:induction false} SingleOrder(env: Env, d: int, st: State, o: Order)
    requires st.pending == [o]
    ensures ExecuteOrders(env, d, st) == ExecuteOne(env, d, st.(pending := []), o)
  {
    hide ExecuteOne;
    var after := ExecuteOne(env, d, st.(pending := []), o);
    assert ExecuteAll(env, d, after, []) == after;
    assert [o][1..] == [];
  }

  lemma {:induction false} NoOrders(env: Env, d: int, st: State)
    requires st.pending == []
    ensures ExecuteOrders(env, d, st) == st
  {
  }

  lemma {:induction false} SinglePosition(env: Env, d: int, st: State, p: Position)
    requires st.positions == [p]
    ensures DetectExits(env, d, st) == ExitOne(env, d, IdsOn(Sell, st.pending), st.(positions := []), p)
  {
    hide ExitOne;
    var selling := IdsOn(Sell, st.pending);
    var after := ExitOne(env, d, selling, st.(positions := []), p);
    assert ExitAll(env, d, selling, after, []) == after;
    assert [p][1..] == [];
  }

  lemma {:induction false} NoPositions(env: Env, d: int, st: State)
    requires st.positions == []
    ensures DetectExits(env, d, st) == st
  {
  }

  lemma {:induction false} SilentSignal(env: Env, d: int, st: State, s: Stock)
    requires env.universe == [s] && !FiresOn(env, s, d)
    ensures DetectSignals(env, d, st) == st
  {
    hide FiresOn;
    var busy := PositionIds(st.positions) + IdsOn(Buy, st.pending);
    assert SignalOne(env, d, st, busy, s) == (st, busy);
    assert SignalAll(env, d, st, busy, []) == st;
    assert [s][1..] == [];
  }

  /** A signal that finds nothing held or ordered and a session to fill it. */
  lemma {:induction false} FirstSignal(env: Env, d: int, st: State, s: Stock)
    requires env.universe == [s] && FiresOn(env, s, d) && st.positions == [] && st.pending == []
    requires 0 < env.cfg.pf.maxPositions
    ensures DetectSignals(env, d, st).positions == [] && DetectSignals(env, d, st).cash == st.cash
    ensures DetectSignals(env, d, st).rejections == st.rejections && DetectSignals(env, d, st).trades == st.trades
    ensures var next := NextDate(env, s, d);
            DetectSignals(env, d, st).pending
            == if next.Some? then [Order(s.id, Buy, d, next.value, ENTRY_RETRY_SESSIONS, NoReason)] else []
  {
    hide FiresOn, NextDate;
    assert [s][1..] == [];
    assert PositionIds([]) + IdsOn(Buy, []) == {};
    assert CountBuys([]) == 0;
    assert SignalAll(env, d, st, {}, [s]) == SignalOne(env, d, st, {}, s).0;
  }
}
