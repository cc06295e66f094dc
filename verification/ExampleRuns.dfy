/** Two complete runs over one stock: an entry that leaves no trace, and a trade flagged for a session in between. */
module ExampleRuns {
  import opened Numbers
  import opened MarketData
  import opened Signals
  import opened Engine
  import opened Fills
  import opened Calendars
  import opened RunProofs
  import opened Outcomes
  import opened Accounting
  import opened Reporting
  import opened Examples

  /** Positions, queue and trades of a state without rejections; curve and history counters play no part. */
  predicate Looks(st: State, positions: seq<Position>, pending: seq<Order>, trades: seq<Trade>) {
    && st.positions == positions && st.pending == pending && st.trades == trades
    && st.rejections == Rejections(0, 0, 0, 0)
  }

  function EntryOrder100(): Order {
    Order(1, Buy, 100, 101, ENTRY_RETRY_SESSIONS, NoReason)
  }

  /** After day 100 the entry is queued for day 101, and the cash is untouched. */
  lemma {:induction false} AfterSignal(later: seq<Row>)
    requires 1 <= |later| <= 10
    ensures var env := OneStock(OversoldThen(later));
            && |DaysOf(env)| == 1 + |later|
            && Looks(StateAfter(env, 1), [], [EntryOrder100()], []) && StateAfter(env, 1).cash == 1000.0
  {
    var rows := OversoldThen(later);
    var env := OneStock(rows);
    SessionOf(rows, 100);
    FiresWhenOversold(rows, 100);
    DaysOfOneStock(rows);
    StateAfterNone(env);
    StateAfterNext(env, 0);
    NoOrders(env, 100, Initial(env));
    NoPositions(env, 100, Initial(env));
    FirstSignal(env, 100, Initial(env), DailyStock(rows));
    hide DaysOf, ExecuteOrders, DetectExits, DetectSignals, StateAfter, FiresOn, NextDate, DailyStock, OversoldThen;
  }

  // ---- An order that meets no price ----

  /** Day 101 trades but opens at zero. */
  function Unpriced(): seq<Row> {
    OversoldThen([PlainRow(50.0).(open := 0.0)])
  }

  lemma {:induction false} UnpricedDays()
    ensures var rows, env, s := Unpriced(), OneStock(Unpriced()), DailyStock(Unpriced());
            && |rows| == 102 && rows[101] == PlainRow(50.0).(open := 0.0)
            && env.universe == [s] && env.cfg == PlainConfig()
            && |DaysOf(env)| == 2 && DaysOf(env)[0] == 100 && DaysOf(env)[1] == 101
            && !FiresOn(env, s, 101)
            && env.Series(1) == s && HasSession(s, 101) && RowAt(s, 101) == rows[101]
  {
    var rows := Unpriced();
    assert rows[101] == rows[101..][0];
    hide Unpriced, DailyStock, FiresOn, DaysOf;
    SessionOf(rows, 101);
    FiresWhenOversold(rows, 101);
    DaysOfOneStock(rows);
  }

  /** The due order is gone without a fill, a rejection or a retry. */
  lemma {:induction false} Dropped101(st: State)
    requires Looks(st, [], [EntryOrder100()], [])
    ensures var env := OneStock(Unpriced());
            && Looks(ExecuteOrders(env, 101, st), [], [], [])
            && DroppedOn(env, 101, st.pending) == 1
            && OrderWarnings(env, 101, st.(pending := []), EntryOrder100()) == []
  {
    hide Unpriced, OneStock, DailyStock, FiresOn, DaysOf, ExecuteOrders, Sized, FillOf;
    UnpricedDays();
    SingleOrder(OneStock(Unpriced()), 101, st, EntryOrder100());
    assert [EntryOrder100()][1..] == [];
  }

  lemma {:induction false} AfterUnpriced()
    ensures var env := OneStock(Unpriced());
            && |DaysOf(env)| == 2 && DaysOf(env)[0] == 100 && DaysOf(env)[1] == 101
            && Looks(StateAfter(env, 2), [], [], []) && DroppedOn(env, 101, StateAfter(env, 1).pending) == 1
            && StateAfter(env, 1).pending == [EntryOrder100()]
            && OrderWarnings(env, 101, StateAfter(env, 1).(pending := []), EntryOrder100()) == []
  {
    AfterSignal([PlainRow(50.0).(open := 0.0)]);
    hide DaysOf, ExecuteOrders, DetectExits, DetectSignals, StateAfter, FiresOn, DailyStock, OversoldThen, OneStock,
         DroppedOn, OrderWarnings;
    var env := OneStock(Unpriced());
    UnpricedDays();
    StateAfterNext(env, 1);
    var st := StateAfter(env, 1);
    Dropped101(st);
    var x := ExecuteOrders(env, 101, st);
    NoPositions(env, 101, x);
    SilentSignal(env, 101, x, DailyStock(Unpriced()));
  }

  lemma {:induction false} UnpricedLog()
    ensures var env := OneStock(Unpriced());
            |DaysOf(env)| == 2 && WarningsAfter(env, 2) == []
  {
    hide Unpriced, OneStock, OrderWarnings, ExecuteOne, DaysOf, StateAfter;
    var env := OneStock(Unpriced());
    AfterUnpriced();
    StateAfterNone(env);
    assert Initial(env).pending == [];
    var st := StateAfter(env, 1).(pending := []);
    assert OrdersWarnings(env, 101, st, [EntryOrder100()]) == [] by {
      assert [EntryOrder100()][1..] == [];
    }
    assert WarningsAfter(env, 0) == [] && WarningsAfter(env, 1) == [];
  }

  lemma {:induction false} NothingToSweep(cfg: Config, st: State)
    requires st.positions == [] && st.pending == []
    ensures Sweep(cfg, st) == st
  {
  }

  lemma {:induction false} NothingToReport(log: seq<Warning>, r: Rejections)
    requires r == Rejections(0, 0, 0, 0)
    ensures Kept(log + ForcedLine(CountForced([]))) + ExcludedLine(CountFlagged([])) + RejectionLines(r, |REJECTIONS|)
            == Kept(log)
  {
    assert forall reason :: CounterOf(r, reason) == 0;
    hide CounterOf;
    NoLines(r, |REJECTIONS|);
    assert log + [] == log;
  }

  lemma {:induction false} NoLines(r: Rejections, n: nat)
    requires n <= |REJECTIONS| && forall reason :: CounterOf(r, reason) == 0
    ensures RejectionLines(r, n) == []
  {
    hide CounterOf;
    if 0 < n {
      NoLines(r, n - 1);
    }
  }

  /**
   A complete run that the loader lets through: a signal fires, its order is queued and falls due on a session that
   trades but opens at zero. There is no trade, no counter moves, and the stored run carries no warning at all.
   */
  lemma {:induction false} UnpricedEntryLeavesNoTrace()
    ensures var env := OneStock(Unpriced());
            && Loadable(env) && |DaysOf(env)| == 2
            && 1 <= SignalsFired(env, 2) && OrdersQueued(env, 2) == 1 && OrdersDropped(env, 2) == 1
            && FinalState(env).trades == [] && FinalState(env).rejections == Rejections(0, 0, 0, 0)
            && ReportWarnings(env) == []
  {
    var env := OneStock(Unpriced());
    OneStockLoads(Unpriced());
    AfterUnpriced();
    UnpricedLog();
    hide Unpriced, DaysOf, StateAfter, WarningsAfter, SignalsFired, OrdersQueued, OrdersExpired, SignalsUnfillable;
    NothingToSweep(env.cfg, StateAfter(env, 2));
    SignalsAreAccounted(env);
    OrdersAreAccounted(env);
    StateAfterNone(env);
    assert OrdersDropped(env, 0) == 0 && OrdersDropped(env, 1) == 0;
    NothingToReport([], FinalState(env).rejections);
  }

  // ---- A return jump while the position is held ----

  /** Bought on day 101, up by 30% on day 102, sold on day 103 at an unsuspicious open. */
  function Jumping(): seq<Row> {
    OversoldThen([PlainRow(50.0), PlainRow(50.0).(close := 13.0, high := 13.0, return1d := Some(0.3)),
                  PlainRow(50.0).(open := 13.0, high := 13.0, low := 13.0, close := 13.0)])
  }

  lemma {:induction false} JumpingRows()
    ensures var rows := Jumping();
            && |rows| == 104 && rows[101] == PlainRow(50.0)
            && rows[102] == PlainRow(50.0).(close := 13.0, high := 13.0, return1d := Some(0.3))
            && rows[103] == PlainRow(50.0).(open := 13.0, high := 13.0, low := 13.0, close := 13.0)
  {
    var rows := Jumping();
    assert rows[101] == rows[101..][0] && rows[102] == rows[101..][1] && rows[103] == rows[101..][2];
  }

  lemma {:induction false} OneShareFits(st: State)
    requires st.cash == 1000.0 && st.positions == []
    ensures Fillable(PlainConfig(), st, PlainRow(50.0))
  {
    PlainAmounts();
    hide EntryExec, NotionalTarget, FillOf;
    SizedIsLargest(PlainConfig(), st, PlainRow(50.0), 1);
    assert MarketValue([]) == 0.0;
  }

  lemma {:induction false} PlainAmounts()
    ensures EntryExec(PlainConfig(), 10.0) == 10.0 && NotionalTarget(PlainConfig(), 1000.0) == 50.0
    ensures FillOf(PlainConfig(), 1, 10.0).cashOut == 10.0
  {
    assert PlainConfig().cost.AdversePricePct() == 0.0 && PlainConfig().cost.FeePct() == 0.0;
  }

  /** The calendar of the run, and the fact that nothing fires after day 100. */
  lemma {:induction false} JumpingDays(d: nat)
    requires 101 <= d <= 103
    ensures var rows, env, s := Jumping(), OneStock(Jumping()), DailyStock(Jumping());
            && |rows| == 104 && env.universe == [s] && env.cfg == PlainConfig()
            && |DaysOf(env)| == 4 && DaysOf(env)[d - 100] == d
            && !FiresOn(env, s, d)
            && env.Series(1) == s && HasSession(s, d) && Index(s, d) == d && RowAt(s, d) == rows[d]
            && NextDate(env, s, d) == (if d < 103 then Some(d + 1) else None)
  {
    hide Jumping, DailyStock, FiresOn, NextDate, DaysOf;
    JumpingRows();
    SessionOf(Jumping(), d);
    FiresWhenOversold(Jumping(), d);
    DaysOfOneStock(Jumping());
  }

  /** The rest of a day after its order phase, when no signal fires. */
  lemma {:induction false} RestOfDay(d: nat, st: State)
    requires 101 <= d <= 103
    ensures var env := OneStock(Jumping());
            var a, b := Day(env, d, st), DetectExits(env, d, ExecuteOrders(env, d, st));
            Looks(b, b.positions, b.pending, b.trades) ==> Looks(a, b.positions, b.pending, b.trades)
  {
    hide Jumping, ExecuteOrders, DetectExits, DetectSignals;
    var env := OneStock(Jumping());
    JumpingDays(d);
    SilentSignal(env, d, DetectExits(env, d, ExecuteOrders(env, d, st)), DailyStock(Jumping()));
  }

  /** The position that the order opens. */
  function Opened(st: State): Position {
    var shares := Sized(PlainConfig(), st, PlainRow(50.0));
    NewPosition(EntryOrder100(), 101, PlainRow(50.0), FillOf(PlainConfig(), shares, 10.0))
  }

  lemma {:induction false} OpenedIs(st: State)
    ensures var p := Opened(st);
            && p.stockId == 1 && p.entryDate == p.lastDate == 101 && p.signalDate == 100 && p.entryExec == 10.0
            && p.lastPrice == 10.0 && !p.corpFlag
  {
    PlainAmounts();
    hide Sized, EntryExec;
  }

  lemma {:induction false} Filled101(st: State)
    requires Looks(st, [], [EntryOrder100()], []) && st.cash == 1000.0
    ensures ExecuteOrders(OneStock(Jumping()), 101, st)
            == Bought(st.(pending := []), Opened(st.(pending := [])))
  {
    var env, st' := OneStock(Jumping()), st.(pending := []);
    JumpingRows();
    JumpingDays(101);
    OneShareFits(st');
    OpenOutcome(PlainConfig(), st', EntryOrder100(), 101, PlainRow(50.0));
    SingleOrder(env, 101, st, EntryOrder100());
    hide OneStock, PlainConfig, Jumping, DailyStock, DaysOf, FiresOn, NextDate, Open, Fillable, ExecuteOrders, Sized,
         FillOf, Bought, NewPosition;
  }

  lemma {:induction false} PutAlone(st: State, p: Position)
    requires Looks(st, [], [], [])
    ensures Looks(Bought(st, p), [p], [], [])
  {
  }

  lemma {:induction false} Bought101(st: State) returns (p: Position)
    requires Looks(st, [], [EntryOrder100()], []) && st.cash == 1000.0
    ensures Looks(ExecuteOrders(OneStock(Jumping()), 101, st), [p], [], [])
    ensures p.stockId == 1 && p.entryDate == p.lastDate == 101 && p.signalDate == 100 && p.entryExec == 10.0
    ensures p.lastPrice == 10.0 && !p.corpFlag
  {
    hide OneStock, Jumping, Opened, ExecuteOrders;
    var st' := st.(pending := []);
    p := Opened(st');
    Filled101(st);
    OpenedIs(st');
    PutAlone(st', p);
  }

  /** A position without a trigger stays as it is, marked at today's close. */
  lemma {:induction false} Held101(st: State, p: Position)
    requires Looks(st, [p], [], [])
    requires p.stockId == 1 && p.entryDate == p.lastDate == 101 && p.entryExec == 10.0
    requires p.lastPrice == 10.0 && !p.corpFlag
    ensures Looks(DetectExits(OneStock(Jumping()), 101, st), [p], [], [])
  {
    hide Jumping, OneStock, DailyStock, DaysOf, FiresOn, NextDate, DetectExits;
    JumpingRows();
    JumpingDays(101);
    SinglePosition(OneStock(Jumping()), 101, st, p);
    assert IdsOn(Sell, []) == {};
    assert Refreshed(p, 101, PlainRow(50.0)) == p;
  }

  /** The jump hits the target: the exit is ordered and the position flagged. */
  lemma {:induction false} Triggered102(st: State, p: Position)
    requires Looks(st, [p], [], []) && p.stockId == 1 && p.entryDate == 101 && p.entryExec == 10.0
    ensures var q := Refreshed(p, 102, Jumping()[102]);
            q.corpFlag && Looks(DetectExits(OneStock(Jumping()), 102, st), [q],
                                [Order(1, Sell, 102, 103, EXIT_RETRY_SESSIONS, TargetReached)], [])
  {
    hide Jumping, OneStock, DailyStock, DaysOf, FiresOn, NextDate, DetectExits;
    JumpingRows();
    JumpingDays(102);
    SinglePosition(OneStock(Jumping()), 102, st, p);
    assert IdsOn(Sell, []) == {};
  }

  lemma {:induction false} Sold103(st: State, q: Position, o: Order)
    requires o == Order(1, Sell, 102, 103, EXIT_RETRY_SESSIONS, TargetReached)
    requires Looks(st, [q], [o], []) && q.stockId == 1 && q.entryDate == 101 && q.corpFlag
    ensures var x := ExecuteOrders(OneStock(Jumping()), 103, st);
            && |x.trades| == 1 && Looks(x, [], [], x.trades)
            && x.trades[0].stockId == 1 && x.trades[0].entryDate == 101 && x.trades[0].exitDate == 103
            && x.trades[0].corpFlag && !x.trades[0].Forced()
  {
    hide Jumping, OneStock, DailyStock, DaysOf, FiresOn, NextDate, ExecuteOrders, Proceeds;
    JumpingRows();
    JumpingDays(103);
    SingleOrder(OneStock(Jumping()), 103, st, o);
    assert Find([q], 1) == Some(q) && Without([q], 1) == [];
  }

  /** Day `d` of the run, and the state after it. */
  lemma {:induction false} JumpingNext(d: nat)
    requires 101 <= d <= 103
    ensures var env := OneStock(Jumping());
            && |DaysOf(env)| == 4
            && StateAfter(env, d - 99) == Day(env, d, StateAfter(env, d - 100))
  {
    hide Jumping, OneStock, DailyStock, DaysOf, StateAfter, FiresOn, NextDate, Day;
    JumpingDays(d);
    StateAfterNext(OneStock(Jumping()), d - 100);
  }

  lemma {:induction false} After101() returns (p: Position)
    ensures var env := OneStock(Jumping());
            |DaysOf(env)| == 4 && Looks(StateAfter(env, 2), [p], [], [])
    ensures p.stockId == 1 && p.entryDate == 101 && p.signalDate == 100 && p.entryExec == 10.0
  {
    JumpingRows();
    AfterSignal(Jumping()[101..]);
    assert Jumping() == OversoldThen(Jumping()[101..]);
    hide Jumping, OneStock, OversoldThen, DaysOf, StateAfter, Day, ExecuteOrders, DetectExits;
    var env := OneStock(Jumping());
    JumpingNext(101);
    var st := StateAfter(env, 1);
    RestOfDay(101, st);
    p := Bought101(st);
    Held101(ExecuteOrders(env, 101, st), p);
  }

  lemma {:induction false} After102() returns (q: Position)
    ensures var env := OneStock(Jumping());
            && |DaysOf(env)| == 4
            && Looks(StateAfter(env, 3), [q], [Order(1, Sell, 102, 103, EXIT_RETRY_SESSIONS, TargetReached)], [])
    ensures q.stockId == 1 && q.entryDate == 101 && q.corpFlag
  {
    hide Jumping, OneStock, DaysOf, StateAfter, Day, ExecuteOrders, DetectExits;
    var env := OneStock(Jumping());
    var p := After101();
    JumpingNext(102);
    JumpingRows();
    var st := StateAfter(env, 2);
    RestOfDay(102, st);
    NoOrders(env, 102, st);
    Triggered102(st, p);
    q := Refreshed(p, 102, Jumping()[102]);
  }

  /** The end of the run: one flagged sale, and nothing left open. */
  lemma {:induction false} JumpingRun()
    ensures var env := OneStock(Jumping());
            && |DaysOf(env)| == 4
            && var st := StateAfter(env, 4);
               && |st.trades| == 1 && Looks(st, [], [], st.trades)
               && st.trades[0].stockId == 1 && st.trades[0].entryDate == 101 && st.trades[0].exitDate == 103
               && st.trades[0].corpFlag && !st.trades[0].Forced()
  {
    hide Jumping, OneStock, DaysOf, StateAfter, Day, ExecuteOrders, DetectExits;
    var env := OneStock(Jumping());
    var q := After102();
    JumpingNext(103);
    var st := StateAfter(env, 3);
    RestOfDay(103, st);
    Sold103(st, q, Order(1, Sell, 102, 103, EXIT_RETRY_SESSIONS, TargetReached));
    NoPositions(env, 103, ExecuteOrders(env, 103, st));
  }

  /**
   A complete run that the loader lets through, whose only trade is flagged although neither its entry nor its exit
   session shows an implausible return: the session in between does.
   */
  lemma {:induction false} FlaggedBetweenEntryAndExit()
    ensures var env, s := OneStock(Jumping()), DailyStock(Jumping());
            && Loadable(env) && |FinalState(env).trades| == 1
            && var tr := FinalState(env).trades[0];
               && tr.stockId == s.id && HasSession(s, tr.entryDate) && HasSession(s, tr.exitDate) && tr.corpFlag
               && !ReturnJump(RowAt(s, tr.entryDate)) && !ReturnJump(RowAt(s, tr.exitDate))
  {
    var env := OneStock(Jumping());
    JumpingRun();
    JumpingRows();
    OneStockLoads(Jumping());
    JumpingDays(101);
    JumpingDays(103);
    hide Jumping, DaysOf, StateAfter, FiresOn, NextDate, Looks;
    assert Looks(StateAfter(env, 4), [], [], StateAfter(env, 4).trades);
    NothingToSweep(env.cfg, StateAfter(env, 4)) by {
      LooksEmpty(StateAfter(env, 4));
    }
  }

  lemma {:induction false} LooksEmpty(st: State)
    requires Looks(st, [], [], st.trades)
    ensures st.positions == [] && st.pending == []
  {
  }
}
